/** Capping a finished turn: everything it showed is on the channel, in order and whole. */
module LayOut {
  import Content
  import opened Layout
  import opened Spilling
  import opened Text
  import opened Widths
  import opened Wrappers

  function Upto(items: seq<Item>, base: nat): seq<Item> {
    if base <= |items| then items[..base] else items
  }

  function CapBody(units: seq<Item>, base: nat): string {
    Rendered(From(units, base), "", OpenFence(Upto(units, base)))
  }

  /** The boundary after sealing is kept in memory; the caller stores it. */
  function SealedForCap(s: Sys, units: seq<Item>, ok: Oracle): Sys {
    var r := SpillFrom(s, units, s.state.base, s.state.mid, DONE_FOOTER, ok);
    r.sys.(state := r.sys.state.(base := r.base, mid := r.mid))
  }

  /** Seal what overflows, then cap the last message in place or send it; true when the call on the
      last message succeeded. A lone over-cap line is refused before that call. */
  function Laid(s: Sys, units: seq<Item>, ok: Oracle): (Sys, bool) {
    var t := SealedForCap(s, units, ok);
    if !Fits(From(units, t.state.base), DONE_FOOTER) then (t, false)
    else Capped(t, CapBody(units, t.state.base), ok)
  }

  function Capped(t: Sys, body: string, ok: Oracle): (Sys, bool) {
    match t.state.mid
    case Some(m) => (Amend(t, m, body, ok), ok(|t.trace|))
    case None => (Post(t, body, ok).(state := t.state.(mid := NewId(t, ok))), ok(|t.trace|))
  }

  method Run(hook: Hook, units: seq<Item>) returns (covered: bool)
    modifies hook
    ensures (hook.Now(), covered) == Laid(old(hook.Now()), units, hook.ok)
  {
    var base, mid := hook.Spill(units, hook.state.base, hook.state.mid, [], DONE_FOOTER);
    assert units + [] == units;
    hook.state := hook.state.(base := base, mid := mid);
    assert hook.Now() == SealedForCap(old(hook.Now()), units, hook.ok);
    var tail := From(units, base);
    if !Fits(tail, DONE_FOOTER) {
      return false;
    }
    var open := FenceState(Upto(units, base));
    var body := Render(tail, "", open);
    if mid.Some? {
      covered := hook.ChannelEdit(mid.value, body);
    } else {
      mid := hook.ChannelSend(body);
      hook.state := hook.state.(mid := mid);
      covered := mid.Some?;
    }
  }

  /** A turn whose tail already fit under the working footer is capped by exactly one edit of its live
      message; nothing is sent and nothing is frozen. */
  lemma QuietStopEditsOnce(s: Sys, units: seq<Item>, ok: Oracle)
    requires s.state.mid.Some? && s.state.base <= |units|
    requires Fits(units[s.state.base..], WORKING_FOOTER)
    ensures var t := Laid(s, units, ok).0;
            && t.frozen == s.frozen
            && t.trace == s.trace + [Edit(s.state.mid.value,
                 RenderHead(units[s.state.base..], "", OpenFence(units[..s.state.base])), ok(|s.trace|))]
  {
    RenderDropsNothingIffFits(units[s.state.base..], "", OpenFence(units[..s.state.base]));
  }

  // ------------------------------------------------------------------ reading a message

  /** The message without what was inserted around its items. */
  function Erased(text: string, items: seq<Item>, footer: string, open: Option<string>): string {
    var a, b := |Front(open)|, |Back(items, footer, open)|;
    if a + b <= |text| then text[a..|text| - b] else ""
  }

  lemma ErasedGivesLines(items: seq<Item>, footer: string, open: Option<string>)
    requires items != [] && |Full(items, footer, open)| <= HARD_CAP
    ensures Erased(RenderHead(items, footer, open), items, footer, open) == Middle(items)
  {
    MessageShape(items, footer, open);
  }

  // ------------------------------------------------------------------ nothing lost, repeated or reordered

  function ShownText(trace: seq<Op>, id: nat): string {
    Shows(trace, id).GetOr("")
  }

  /** The units of one interval. */
  function Interval(units: seq<Item>, lo: nat, hi: nat): seq<Item> {
    if lo <= hi <= |units| then units[lo..hi] else []
  }

  /** What the reader of a frozen message sees, without the inserted fences and footer. */
  function SealedPiece(trace: seq<Op>, f: Seal, units: seq<Item>): string {
    Erased(ShownText(trace, f.id), Interval(units, f.lo, f.hi), SPILL_FOOTER, OpenFence(Upto(units, f.lo)))
  }

  function SealedPieces(trace: seq<Op>, frozen: seq<Seal>, units: seq<Item>): seq<string> {
    if frozen == [] then []
    else SealedPieces(trace, frozen[..|frozen| - 1], units) +
         [SealedPiece(trace, frozen[|frozen| - 1], units)]
  }

  function CapPiece(trace: seq<Op>, last: nat, units: seq<Item>, base: nat): string {
    Erased(ShownText(trace, last), From(units, base), "", OpenFence(Upto(units, base)))
  }

  lemma SealedPieceIsItsLines(trace: seq<Op>, f: Seal, units: seq<Item>)
    requires IsFinal(trace, f) && Carries(trace, f, units) && f.lo < f.hi < |units| && Uncut(units)
    ensures SealedPiece(trace, f, units) == Middle(units[f.lo..f.hi])
  {
    UntouchedStillShows(trace, f.at, f.id, SealBody(units, f.lo, f.hi));
    PackedWholeIff(units, f.lo, f.hi);
    ErasedGivesLines(units[f.lo..f.hi], SPILL_FOOTER, OpenFence(units[..f.lo]));
  }

  lemma LinesMeet(units: seq<Item>, lo: nat, hi: nat)
    requires 0 < lo < hi <= |units|
    ensures Middle(units[..lo]) + "\n" + Middle(units[lo..hi]) == Middle(units[..hi])
  {
    JoinConcat(Lines(units[..lo]), Lines(units[lo..hi]));
    assert Lines(units[..lo]) + Lines(units[lo..hi]) == Lines(units[..hi]);
  }

  /** One more piece extends the text read so far. */
  lemma PieceExtends(pieces: seq<string>, piece: string, units: seq<Item>, lo: nat, hi: nat)
    requires lo < hi <= |units| && piece == Middle(units[lo..hi])
    requires if pieces == [] then lo == 0 else lo > 0 && Join(pieces) == Middle(units[..lo])
    ensures Join(pieces + [piece]) == Middle(units[..hi])
  {
    if pieces == [] {
      assert pieces + [piece] == [piece] && units[0..hi] == units[..hi];
    } else {
      JoinConcat(pieces, [piece]);
      LinesMeet(units, lo, hi);
    }
  }

  lemma TilesButLast(frozen: seq<Seal>, base: nat)
    requires Tiles(frozen, base) && frozen != []
    ensures var n := |frozen| - 1;
            Tiles(frozen[..n], frozen[n].lo) && frozen[n].lo < frozen[n].hi == base &&
            (n == 0 <==> frozen[n].lo == 0)
  {
    var n := |frozen| - 1;
    if n > 0 {
      assert frozen[n - 1].hi == frozen[n].lo && frozen[n - 1].lo < frozen[n - 1].hi;
    }
  }

  lemma {:induction false} PiecesGiveLines(trace: seq<Op>, frozen: seq<Seal>, base: nat, units: seq<Item>)
    requires Tiles(frozen, base) && frozen != [] && base < |units| && Uncut(units)
    requires forall i | 0 <= i < |frozen| :: Carries(trace, frozen[i], units) && IsFinal(trace, frozen[i])
    ensures SealedPieces(trace, frozen, units) != []
    ensures Join(SealedPieces(trace, frozen, units)) == Middle(units[..base])
  {
    var n := |frozen| - 1;
    TilesButLast(frozen, base);
    if n > 0 {
      PiecesGiveLines(trace, frozen[..n], frozen[n].lo, units);
    }
    OneMorePiece(trace, frozen[n], units, SealedPieces(trace, frozen[..n], units));
  }

  lemma OneMorePiece(trace: seq<Op>, f: Seal, units: seq<Item>, pieces: seq<string>)
    requires IsFinal(trace, f) && Carries(trace, f, units) && f.lo < f.hi < |units| && Uncut(units)
    requires if pieces == [] then f.lo == 0 else f.lo > 0 && Join(pieces) == Middle(units[..f.lo])
    ensures Join(pieces + [SealedPiece(trace, f, units)]) == Middle(units[..f.hi])
  {
    SealedPieceIsItsLines(trace, f, units);
    PieceExtends(pieces, SealedPiece(trace, f, units), units, f.lo, f.hi);
  }

  /** The boundary and content of a turn about to be capped. */
  ghost predicate Ready(s: Sys, units: seq<Item>) {
    Anchored(s.trace, s.frozen, s.state.base, s.state.mid) && Faithful(s.trace, s.frozen, units)
  }

  /** Capping does not look back either. */
  lemma LaidSame(s: Sys, seen: seq<Item>, units: seq<Item>, ok: Oracle)
    requires Content.Recalls(seen, units, s.state.base)
    ensures Laid(s, seen, ok) == Laid(s, units, ok)
  {
    Content.SpillSame(s, seen, units, s.state.base, s.state.mid, DONE_FOOTER, ok);
    SpillOnlyAdds(s, units, s.state.base, s.state.mid, DONE_FOOTER, ok);
    var base := SealedForCap(s, units, ok).state.base;
    Content.RecallsPart(seen, units, s.state.base, base, |units|);
    Content.RecallsOpen(seen, units, s.state.base, base);
  }

  lemma OpShows(trace: seq<Op>, op: Op, id: nat, body: string)
    requires op == Edit(id, body, true) || (op == Send(body, true) && id == |trace|)
    ensures Shows(trace + [op], id) == Some(body)
  {
  }

  /** What sealing leaves for the cap. */
  lemma SealedForCapFacts(s: Sys, units: seq<Item>, ok: Oracle)
    requires Ready(s, units) && s.state.base < |units|
    ensures var t := SealedForCap(s, units, ok);
            Ready(t, units) && t.state.base < |units| && s.trace <= t.trace && s.frozen <= t.frozen
  {
    SpillKeepsAnchored(s, units, s.state.base, s.state.mid, DONE_FOOTER, ok);
    SpillKeepsFaithful(s, units, s.state.base, s.state.mid, DONE_FOOTER, ok);
    SpillOnlyAdds(s, units, s.state.base, s.state.mid, DONE_FOOTER, ok);
  }

  /** After a successful cap everything is frozen or capped: the structure, the content, and the cap's
      text on the last message. */
  lemma LaidFacts(s: Sys, units: seq<Item>, ok: Oracle)
    requires Ready(s, units) && s.state.base < |units|
    ensures var (t, covered) := Laid(s, units, ok);
            && t.state.base < |units|
            && Tiles(t.frozen, t.state.base) && Faithful(t.trace, t.frozen, units)
            && s.trace <= t.trace && s.frozen <= t.frozen
            && (forall i | 0 <= i < |t.frozen| :: IsFinal(t.trace, t.frozen[i]))
            && (covered ==>
                  && t.state.mid.Some? && Fits(units[t.state.base..], DONE_FOOTER)
                  && Shows(t.trace, t.state.mid.value) ==
                     Some(RenderHead(units[t.state.base..], "", OpenFence(units[..t.state.base]))))
  {
    SealedForCapFacts(s, units, ok);
    var r := SealedForCap(s, units, ok);
    var base := r.state.base;
    if Fits(units[base..], DONE_FOOTER) {
      RenderDropsNothingIffFits(units[base..], "", OpenFence(units[..base]));
      CappedFacts(r, units, CapBody(units, base), ok);
    }
  }

  lemma CappedFacts(r: Sys, units: seq<Item>, body: string, ok: Oracle)
    requires Ready(r, units)
    ensures var (t, covered) := Capped(r, body, ok);
            && t.state.base == r.state.base && t.frozen == r.frozen && r.trace <= t.trace
            && Faithful(t.trace, t.frozen, units)
            && (forall i | 0 <= i < |t.frozen| :: IsFinal(t.trace, t.frozen[i]))
            && (covered ==> t.state.mid.Some? && Shows(t.trace, t.state.mid.value) == Some(body))
  {
    var n := |r.trace|;
    var op := CallFor(r.state.mid, body, ok(n));
    CallKeepsAnchored(r.trace, op, r.frozen, r.state.base, r.state.mid);
    CallKeepsFaithful(r.trace, op, r.frozen, units);
    if ok(n) {
      OpShows(r.trace, op, r.state.mid.GetOr(n), body);
    }
  }

  /** When lay_out reports success, the messages of the turn with their inserted fences and footers
      erased, read in order, are exactly the rendered units: nothing dropped, repeated or cut. */
  lemma CoveredTurnIsWhole(s: Sys, units: seq<Item>, ok: Oracle)
    requires Ready(s, units) && s.state.base < |units| && Uncut(units)
    requires Laid(s, units, ok).1
    ensures var t := Laid(s, units, ok).0;
            && t.state.base < |units| && t.state.mid.Some?
            && Tiles(t.frozen, t.state.base)
            && Join(SealedPieces(t.trace, t.frozen, units) +
                    [CapPiece(t.trace, t.state.mid.value, units, t.state.base)]) == Middle(units)
  {
    LaidFacts(s, units, ok);
    var t := Laid(s, units, ok).0;
    forall i | 0 <= i < |t.frozen|
      ensures Carries(t.trace, t.frozen[i], units)
    {
    }
    CapPieceIsItsLines(t.trace, t.state.mid.value, units, t.state.base);
    PiecesReachBase(t.trace, t.frozen, t.state.base, units);
    LastPiece(SealedPieces(t.trace, t.frozen, units), CapPiece(t.trace, t.state.mid.value, units, t.state.base),
              units, t.state.base);
  }

  /** With a working transport lay_out reports success if and only if the last unit fits by itself. */
  lemma CoversIffLastUnitFits(s: Sys, units: seq<Item>, ok: Oracle)
    requires s.state.base < |units| && forall i | i >= |s.trace| :: ok(i)
    ensures Laid(s, units, ok).1 <==> Fits(units[|units| - 1..], DONE_FOOTER)
  {
    TailFitsIffLastUnitFits(s, units, s.state.base, s.state.mid, DONE_FOOTER, ok);
    SpillOnlyAdds(s, units, s.state.base, s.state.mid, DONE_FOOTER, ok);
  }

  /** The pieces of the frozen messages reach up to the boundary. */
  lemma PiecesReachBase(trace: seq<Op>, frozen: seq<Seal>, base: nat, units: seq<Item>)
    requires Tiles(frozen, base) && base < |units| && Uncut(units)
    requires forall i | 0 <= i < |frozen| :: Carries(trace, frozen[i], units) && IsFinal(trace, frozen[i])
    ensures var pieces := SealedPieces(trace, frozen, units);
            if pieces == [] then base == 0
            else 0 < base && Join(pieces) == Middle(units[..base])
  {
    if frozen != [] {
      TilesButLast(frozen, base);
      PiecesGiveLines(trace, frozen, base, units);
    }
  }

  lemma LastPiece(pieces: seq<string>, cap: string, units: seq<Item>, base: nat)
    requires base < |units| && cap == Middle(units[base..])
    requires if pieces == [] then base == 0 else 0 < base && Join(pieces) == Middle(units[..base])
    ensures Join(pieces + [cap]) == Middle(units)
  {
    assert units[base..|units|] == units[base..] && units[..|units|] == units;
    PieceExtends(pieces, cap, units, base, |units|);
  }

  lemma CapPieceIsItsLines(trace: seq<Op>, last: nat, units: seq<Item>, base: nat)
    requires base < |units| && ShortInfos(units) && Fits(units[base..], DONE_FOOTER)
    requires Shows(trace, last) == Some(RenderHead(units[base..], "", OpenFence(units[..base])))
    ensures CapPiece(trace, last, units, base) == Middle(units[base..])
  {
    CapIsWhole(units, base);
    ErasedGivesLines(units[base..], "", OpenFence(units[..base]));
  }
}
