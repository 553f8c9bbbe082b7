/** Append-only sealing: freezing the fullest prefix of a turn that outgrew one message.

    The channel is a trace of transport calls. Whether the i-th call succeeds is decided by an
    arbitrary oracle, and a successful send is named by its place in the trace, which no other
    message has. */
module Spilling {
  import opened Wrappers
  import opened Layout

  type Oracle = nat -> bool

  datatype Op =
    | Send(body: string, ok: bool)
    | Edit(id: nat, body: string, ok: bool)
    | Record(text: string, ok: bool)  // writing an undelivered answer to disk

  /** The streamed narration: the display message it belongs to and its deltas by index. */
  datatype LiveState = LiveState(messageId: Option<string>, segments: map<int, string>)

  datatype TurnState = TurnState(
    done: Option<string>,
    base: nat,
    shown: nat,
    mid: Option<nat>,
    lastBody: Option<string>,
    live: Option<LiveState>)

  const FRESH := TurnState(None, 0, 0, None, None, None)

  /** A frozen message: which message, the call that froze it, and the units it carries. */
  datatype Seal = Seal(id: nat, at: nat, lo: nat, hi: nat)

  /** One hook's view: its in-memory state, the stored state, the calls made so far and the
      messages frozen so far. */
  datatype Sys = Sys(state: TurnState, store: Option<TurnState>, trace: seq<Op>, frozen: seq<Seal>)

  // ------------------------------------------------------------------ the channel

  function Post(s: Sys, body: string, ok: Oracle): Sys {
    s.(trace := s.trace + [Send(body, ok(|s.trace|))])
  }

  function NewId(s: Sys, ok: Oracle): Option<nat> {
    if ok(|s.trace|) then Some(|s.trace|) else None
  }

  function Amend(s: Sys, id: nat, body: string, ok: Oracle): Sys {
    s.(trace := s.trace + [Edit(id, body, ok(|s.trace|))])
  }

  /** The text a message shows: what the last successful call on it put there. */
  function Shows(trace: seq<Op>, id: nat): Option<string> {
    if trace == [] then None
    else
      var n := |trace| - 1;
      match trace[n]
      case Send(body, true) => if id == n then Some(body) else Shows(trace[..n], id)
      case Edit(m, body, true) => if id == m then Some(body) else Shows(trace[..n], id)
      case _ => Shows(trace[..n], id)
  }

  /** The call at this place put the body on the message. */
  predicate PutsAt(trace: seq<Op>, at: nat, id: nat, body: string) {
    at < |trace| &&
    (trace[at] == Edit(id, body, true) || (id == at && trace[at] == Send(body, true)))
  }

  predicate Untouched(trace: seq<Op>, from: nat, id: nat) {
    forall p | from <= p < |trace| :: trace[p].Edit? ==> trace[p].id != id
  }

  lemma {:induction false} UntouchedStillShows(trace: seq<Op>, at: nat, id: nat, body: string)
    requires PutsAt(trace, at, id, body) && id <= at && Untouched(trace, at + 1, id)
    ensures Shows(trace, id) == Some(body)
  {
    var n := |trace| - 1;
    if n > at {
      assert trace[..n][at] == trace[at];
      UntouchedStillShows(trace[..n], at, id, body);
    }
  }

  // ------------------------------------------------------------------ spill as a function

  function Checkpoint(s: Sys, base: nat, mid: Option<nat>): Sys {
    var st := s.state.(base := base, mid := mid);
    s.(state := st, store := Some(st))
  }

  function From(items: seq<Item>, base: nat): seq<Item> {
    if base <= |items| then items[base..] else []
  }

  function SealBody(show: seq<Item>, lo: nat, hi: nat): string
    requires lo <= hi <= |show|
  {
    RenderHead(show[lo..hi], SPILL_FOOTER, OpenFence(show[..lo]))
  }

  datatype Spilled = Spilled(sys: Sys, base: nat, mid: Option<nat>)

  /** How many units the next seal freezes: the fullest prefix of all but the last shown unit. */
  function SealSize(show: seq<Item>, base: nat): (k: nat)
    requires base + 1 < |show|
    ensures 1 <= k < |show| - base
  {
    FittingHead(show[base..|show| - 1], SPILL_FOOTER)
  }

  /** The seal attempt: an edit of the live message if there is one, else a fresh message. */
  function SealCall(s: Sys, mid: Option<nat>, body: string, ok: Oracle): Sys {
    match mid
    case Some(m) => Amend(s, m, body, ok)
    case None => Post(s, body, ok)
  }

  function Frozen(s: Sys, mid: Option<nat>, base: nat, k: nat): Sys {
    var at := |s.trace| - 1;
    if at < 0 then s
    else s.(frozen := s.frozen + [Seal(mid.GetOr(at), at, base, base + k)])
  }

  /** A frozen interval holds one unit, or fits one message. */
  predicate Packed(show: seq<Item>, lo: nat, hi: nat)
    requires lo <= hi <= |show|
  {
    hi == lo + 1 || Fits(show[lo..hi], SPILL_FOOTER)
  }

  predicate NeedsSeal(show: seq<Item>, base: nat, footer: string) {
    base + 1 < |show| && !Fits(From(show, base), footer)
  }

  /** The next seal: how many units it freezes and their text. */
  datatype Draft = Draft(size: nat, body: string)

  function DraftOf(show: seq<Item>, base: nat, k: nat): Draft
    requires base + k <= |show|
  {
    Draft(k, SealBody(show, base, base + k))
  }

  function NextSeal(show: seq<Item>, base: nat): (d: Draft)
    requires base + 1 < |show|
    ensures 1 <= d.size < |show| - base
  {
    DraftOf(show, base, SealSize(show, base))
  }

  function SealedWith(s: Sys, base: nat, d: Draft, mid: Option<nat>, ok: Oracle): Spilled {
    var called := SealCall(s, mid, d.body, ok);
    Spilled(Checkpoint(Frozen(called, mid, base, d.size), base + d.size, None), base + d.size, None)
  }

  function RefusedWith(s: Sys, base: nat, d: Draft, mid: Option<nat>, ok: Oracle): Spilled {
    Spilled(SealCall(s, mid, d.body, ok), base, mid)
  }

  /** One seal that went through: the frozen message is recorded and the boundary checkpointed. */
  function SealOnce(s: Sys, show: seq<Item>, base: nat, mid: Option<nat>, ok: Oracle): Spilled
    requires base + 1 < |show|
  {
    SealedWith(s, base, NextSeal(show, base), mid, ok)
  }

  function SealFailed(s: Sys, show: seq<Item>, base: nat, mid: Option<nat>, ok: Oracle): Spilled
    requires base + 1 < |show|
  {
    RefusedWith(s, base, NextSeal(show, base), mid, ok)
  }

  function SpillFrom(s: Sys, show: seq<Item>, base: nat, mid: Option<nat>, footer: string, ok: Oracle)
    : Spilled
    decreases if base <= |show| then |show| - base else 0
  {
    if !NeedsSeal(show, base, footer) then Spilled(s, base, mid)
    else if !ok(|s.trace|) then SealFailed(s, show, base, mid, ok)
    else
      var t := SealOnce(s, show, base, mid, ok);
      SpillFrom(t.sys, show, t.base, None, footer, ok)
  }

  function CallFor(mid: Option<nat>, body: string, ok: bool): Op {
    match mid
    case Some(m) => Edit(m, body, ok)
    case None => Send(body, ok)
  }

  lemma SealedWithFacts(s: Sys, base: nat, d: Draft, mid: Option<nat>, ok: Oracle)
    requires ok(|s.trace|)
    ensures var t := SealedWith(s, base, d, mid, ok);
            && t.mid == None && t.base == base + d.size
            && t.sys.trace == s.trace + [CallFor(mid, d.body, true)]
            && t.sys.frozen == s.frozen + [Seal(mid.GetOr(|s.trace|), |s.trace|, base, base + d.size)]
            && t.sys.state == s.state.(base := t.base, mid := None)
            && t.sys.store == Some(t.sys.state)
  {
    assert SealCall(s, mid, d.body, ok) == s.(trace := s.trace + [CallFor(mid, d.body, true)]);
  }

  lemma SealFailedFacts(s: Sys, show: seq<Item>, base: nat, mid: Option<nat>, ok: Oracle) returns (op: Op)
    requires base + 1 < |show| && !ok(|s.trace|)
    ensures SealFailed(s, show, base, mid, ok) == Spilled(s.(trace := s.trace + [op]), base, mid)
    ensures !op.ok && !op.Record? && (op.Edit? ==> mid == Some(op.id))
  {
    op := CallFor(mid, NextSeal(show, base).body, false);
  }

  /** What one seal does, with the seal and the call it rests on. */
  lemma SealOnceFacts(s: Sys, show: seq<Item>, base: nat, mid: Option<nat>, ok: Oracle)
    returns (op: Op, seal: Seal)
    requires base + 1 < |show| && ok(|s.trace|)
    ensures var t := SealOnce(s, show, base, mid, ok);
            && t.mid == None && base < t.base < |show|
            && t.sys.trace == s.trace + [op] && t.sys.frozen == s.frozen + [seal]
            && t.sys.state == s.state.(base := t.base, mid := None)
            && t.sys.store == Some(t.sys.state)
            && t.base == base + NextSeal(show, base).size
            && seal == Seal(mid.GetOr(|s.trace|), |s.trace|, base, t.base)
            && op == CallFor(mid, NextSeal(show, base).body, true)
  {
    var d := NextSeal(show, base);
    SealedWithFacts(s, base, d, mid, ok);
    op := CallFor(mid, d.body, true);
    seal := Seal(mid.GetOr(|s.trace|), |s.trace|, base, base + d.size);
  }

  lemma SizeIsPacked(show: seq<Item>, base: nat)
    requires base + 1 < |show|
    ensures Packed(show, base, base + SealSize(show, base))
  {
    var head := show[base..|show| - 1];
    HeadIsFullest(head, SPILL_FOOTER, |head|);
    var k := SealSize(show, base);
    assert head[..k] == show[base..base + k];
  }

  /** The next seal holds the render of a packed interval. */
  lemma NextSealIs(show: seq<Item>, base: nat) returns (k: nat)
    requires base + 1 < |show|
    ensures base + k <= |show| && NextSeal(show, base) == Draft(k, SealBody(show, base, base + k))
    ensures Packed(show, base, base + k)
  {
    k := SealSize(show, base);
    DraftIs(show, base, k);
    SizeIsPacked(show, base);
  }

  lemma DraftIs(show: seq<Item>, base: nat, k: nat)
    requires base + k <= |show|
    ensures DraftOf(show, base, k) == Draft(k, SealBody(show, base, base + k))
  {
  }

  // ------------------------------------------------------------------ what every run keeps

  /** The frozen messages cover units [0, base) as consecutive non-empty intervals. */
  predicate Tiles(frozen: seq<Seal>, base: nat) {
    && (frozen == [] ==> base == 0)
    && (frozen != [] ==> frozen[0].lo == 0 && frozen[|frozen| - 1].hi == base)
    && (forall i | 0 <= i < |frozen| :: frozen[i].lo < frozen[i].hi)
    && (forall i | 0 <= i < |frozen| - 1 :: frozen[i].hi == frozen[i + 1].lo)
  }

  ghost predicate IsFinal(trace: seq<Op>, s: Seal) {
    && s.id <= s.at < |trace|
    && (exists body :: PutsAt(trace, s.at, s.id, body))
    && Untouched(trace, s.at + 1, s.id)
  }

  /** Each frozen message was frozen by one successful call and not edited since, no two seals froze the same
      message, and the live message is one that was sent and is not frozen. */
  ghost predicate Settled(trace: seq<Op>, frozen: seq<Seal>, mid: Option<nat>) {
    && (forall i | 0 <= i < |frozen| :: IsFinal(trace, frozen[i]))
    && (forall i, j | 0 <= i < j < |frozen| :: frozen[i].id != frozen[j].id)
    && (mid.Some? ==> IsSent(trace, mid.value) && !Names(frozen, mid.value))
  }

  predicate IsSent(trace: seq<Op>, id: nat) {
    id < |trace| && trace[id].Send? && trace[id].ok
  }

  predicate Names(frozen: seq<Seal>, id: nat) {
    exists i | 0 <= i < |frozen| :: frozen[i].id == id
  }

  /** The frozen messages stand on the channel in the order of their units, the live one below them. */
  predicate Ascending(frozen: seq<Seal>, mid: Option<nat>) {
    && (forall i, j | 0 <= i < j < |frozen| :: frozen[i].id < frozen[j].id)
    && (mid.Some? ==> forall i | 0 <= i < |frozen| :: frozen[i].id < mid.value)
  }

  ghost predicate Anchored(trace: seq<Op>, frozen: seq<Seal>, base: nat, mid: Option<nat>) {
    Tiles(frozen, base) && Settled(trace, frozen, mid) && Ascending(frozen, mid)
  }

  predicate Carries(trace: seq<Op>, s: Seal, show: seq<Item>) {
    && s.lo <= s.hi <= |show|
    && PutsAt(trace, s.at, s.id, SealBody(show, s.lo, s.hi))
    && Packed(show, s.lo, s.hi)
  }

  /** Content: each frozen message holds exactly the render of its units. */
  predicate Faithful(trace: seq<Op>, frozen: seq<Seal>, show: seq<Item>) {
    forall i | 0 <= i < |frozen| :: Carries(trace, frozen[i], show)
  }

  lemma CallKeepsSettled(trace: seq<Op>, op: Op, frozen: seq<Seal>, mid: Option<nat>)
    requires Settled(trace, frozen, mid)
    requires op.Edit? ==> !Names(frozen, op.id)
    ensures Settled(trace + [op], frozen, mid)
  {
    forall i | 0 <= i < |frozen|
      ensures IsFinal(trace + [op], frozen[i])
    {
      var s := frozen[i];
      assert IsFinal(trace, s);
      var body :| PutsAt(trace, s.at, s.id, body);
      assert PutsAt(trace + [op], s.at, s.id, body);
    }
  }

  lemma CallKeepsAnchored(trace: seq<Op>, op: Op, frozen: seq<Seal>, base: nat, mid: Option<nat>)
    requires Anchored(trace, frozen, base, mid)
    requires op.Edit? ==> !Names(frozen, op.id)
    ensures Anchored(trace + [op], frozen, base, mid)
  {
    CallKeepsSettled(trace, op, frozen, mid);
  }

  /** Frozen messages are older than the next call. */
  lemma FrozenAreOld(trace: seq<Op>, frozen: seq<Seal>, mid: Option<nat>)
    requires Settled(trace, frozen, mid)
    ensures forall i | 0 <= i < |frozen| :: frozen[i].id < |trace|
    ensures !Names(frozen, |trace|)
  {
    forall i | 0 <= i < |frozen|
      ensures frozen[i].id < |trace|
    {
      assert IsFinal(trace, frozen[i]);
    }
  }

  /** A live message is still not frozen after calls and no seal. */
  lemma OthersStaySettled(trace: seq<Op>, frozen: seq<Seal>, mid: Option<nat>, later: seq<Op>, other: Option<nat>)
    requires Settled(trace, frozen, other) && trace <= later && Settled(later, frozen, mid)
    ensures Settled(later, frozen, other)
  {
  }

  lemma CallKeepsFaithful(trace: seq<Op>, op: Op, frozen: seq<Seal>, show: seq<Item>)
    requires Faithful(trace, frozen, show)
    ensures Faithful(trace + [op], frozen, show)
  {
    forall i | 0 <= i < |frozen|
      ensures Carries(trace + [op], frozen[i], show)
    {
      assert Carries(trace, frozen[i], show);
    }
  }

  lemma SealKeepsSettled(trace: seq<Op>, op: Op, frozen: seq<Seal>, seal: Seal, body: string, mid: Option<nat>)
    requires Settled(trace, frozen, mid)
    requires seal.id == mid.GetOr(|trace|) && seal.at == |trace| && op == CallFor(mid, body, true)
    ensures Settled(trace + [op], frozen + [seal], None)
  {
    FrozenAreOld(trace, frozen, mid);
    CallKeepsSettled(trace, op, frozen, mid);
    assert PutsAt(trace + [op], seal.at, seal.id, body);
    assert IsFinal(trace + [op], seal);
    assert !Names(frozen, seal.id);
  }

  lemma SealKeepsAnchored(trace: seq<Op>, op: Op, frozen: seq<Seal>, seal: Seal, body: string, mid: Option<nat>)
    requires Anchored(trace, frozen, seal.lo, mid) && seal.lo < seal.hi
    requires seal.id == mid.GetOr(|trace|) && seal.at == |trace| && op == CallFor(mid, body, true)
    ensures Anchored(trace + [op], frozen + [seal], seal.hi, None)
  {
    FrozenAreOld(trace, frozen, mid);
    SealKeepsSettled(trace, op, frozen, seal, body, mid);
  }

  /** Sealing keeps every frozen message as it is, wherever it starts. */
  lemma {:induction false} SpillKeepsSettled(s: Sys, show: seq<Item>, base: nat, mid: Option<nat>, footer: string,
                                             ok: Oracle)
    requires Settled(s.trace, s.frozen, mid)
    ensures var r := SpillFrom(s, show, base, mid, footer, ok);
            Settled(r.sys.trace, r.sys.frozen, r.mid)
    decreases if base <= |show| then |show| - base else 0
  {
    if NeedsSeal(show, base, footer) {
      if ok(|s.trace|) {
        var t := SealOnce(s, show, base, mid, ok);
        var op, seal := SealOnceFacts(s, show, base, mid, ok);
        SealKeepsSettled(s.trace, op, s.frozen, seal, NextSeal(show, base).body, mid);
        SpillKeepsSettled(t.sys, show, t.base, None, footer, ok);
      } else {
        var op := SealFailedFacts(s, show, base, mid, ok);
        CallKeepsSettled(s.trace, op, s.frozen, mid);
      }
    }
  }

  /** Sealing keeps the structure, whatever the units are and whichever calls fail. */
  lemma {:induction false} SpillKeepsAnchored(s: Sys, show: seq<Item>, base: nat, mid: Option<nat>, footer: string,
                                              ok: Oracle)
    requires Anchored(s.trace, s.frozen, base, mid)
    ensures var r := SpillFrom(s, show, base, mid, footer, ok);
            Anchored(r.sys.trace, r.sys.frozen, r.base, r.mid)
    decreases if base <= |show| then |show| - base else 0
  {
    if NeedsSeal(show, base, footer) {
      if ok(|s.trace|) {
        var t := SealOnce(s, show, base, mid, ok);
        var op, seal := SealOnceFacts(s, show, base, mid, ok);
        SealKeepsAnchored(s.trace, op, s.frozen, seal, NextSeal(show, base).body, mid);
        SpillKeepsAnchored(t.sys, show, t.base, None, footer, ok);
      } else {
        var op := SealFailedFacts(s, show, base, mid, ok);
        CallKeepsAnchored(s.trace, op, s.frozen, base, mid);
      }
    }
  }

  /** The call that freezes k units. */
  function FreezingCall(show: seq<Item>, base: nat, k: nat, mid: Option<nat>): Op
    requires base + k <= |show|
  {
    CallFor(mid, SealBody(show, base, base + k), true)
  }

  lemma SealKeepsFaithful(trace: seq<Op>, frozen: seq<Seal>, base: nat, k: nat, mid: Option<nat>, show: seq<Item>)
    requires Faithful(trace, frozen, show) && base + k <= |show| && Packed(show, base, base + k)
    ensures Faithful(trace + [FreezingCall(show, base, k, mid)],
                     frozen + [Seal(mid.GetOr(|trace|), |trace|, base, base + k)], show)
  {
    var op := FreezingCall(show, base, k, mid);
    CallKeepsFaithful(trace, op, frozen, show);
    NewSealCarries(trace, base, k, mid, show);
    OneMoreCarries(trace + [op], frozen, Seal(mid.GetOr(|trace|), |trace|, base, base + k), show);
  }

  lemma NewSealCarries(trace: seq<Op>, base: nat, k: nat, mid: Option<nat>, show: seq<Item>)
    requires base + k <= |show| && Packed(show, base, base + k)
    ensures Carries(trace + [FreezingCall(show, base, k, mid)],
                    Seal(mid.GetOr(|trace|), |trace|, base, base + k), show)
  {
    assert (trace + [FreezingCall(show, base, k, mid)])[|trace|] == FreezingCall(show, base, k, mid);
  }

  lemma OneMoreCarries(trace: seq<Op>, frozen: seq<Seal>, seal: Seal, show: seq<Item>)
    requires Faithful(trace, frozen, show) && Carries(trace, seal, show)
    ensures Faithful(trace, frozen + [seal], show)
  {
  }

  lemma SealOnceKeepsFaithful(s: Sys, show: seq<Item>, base: nat, mid: Option<nat>, ok: Oracle)
    requires base + 1 < |show| && ok(|s.trace|) && Faithful(s.trace, s.frozen, show)
    ensures var t := SealOnce(s, show, base, mid, ok); Faithful(t.sys.trace, t.sys.frozen, show)
  {
    var k := NextSealIs(show, base);
    SealedWithFacts(s, base, NextSeal(show, base), mid, ok);
    SealKeepsFaithful(s.trace, s.frozen, base, k, mid, show);
  }

  /** Sealing keeps the content. */
  lemma {:induction false} SpillKeepsFaithful(s: Sys, show: seq<Item>, base: nat, mid: Option<nat>, footer: string,
                                              ok: Oracle)
    requires Faithful(s.trace, s.frozen, show)
    ensures var r := SpillFrom(s, show, base, mid, footer, ok);
            Faithful(r.sys.trace, r.sys.frozen, show)
    decreases if base <= |show| then |show| - base else 0
  {
    if NeedsSeal(show, base, footer) {
      if ok(|s.trace|) {
        var t := SealOnce(s, show, base, mid, ok);
        var op, seal := SealOnceFacts(s, show, base, mid, ok);
        SealOnceKeepsFaithful(s, show, base, mid, ok);
        SpillKeepsFaithful(t.sys, show, t.base, None, footer, ok);
      } else {
        var op := SealFailedFacts(s, show, base, mid, ok);
        CallKeepsFaithful(s.trace, op, s.frozen, show);
      }
    }
  }

  /** Sealing only adds: calls and seals made so far stay, base does not go back, the last shown
      unit is never sealed, and the checkpoint names the new boundary as soon as there is one. */
  lemma {:induction false} SpillOnlyAdds(s: Sys, show: seq<Item>, base: nat, mid: Option<nat>, footer: string,
                                         ok: Oracle)
    ensures var r := SpillFrom(s, show, base, mid, footer, ok);
            && s.trace <= r.sys.trace && s.frozen <= r.sys.frozen
            && base <= r.base && (r.base > base ==> r.base < |show|)
            && (r.base == base ==> r.mid == mid && r.sys == s.(trace := r.sys.trace))
            && (r.base > base ==> r.sys.store == Some(r.sys.state) && r.mid == None
                                  && r.sys.state == s.state.(base := r.base, mid := None))
    decreases if base <= |show| then |show| - base else 0
  {
    if NeedsSeal(show, base, footer) {
      if ok(|s.trace|) {
        var t := SealOnce(s, show, base, mid, ok);
        var op, seal := SealOnceFacts(s, show, base, mid, ok);
        SpillOnlyAdds(t.sys, show, t.base, None, footer, ok);
      } else {
        var op := SealFailedFacts(s, show, base, mid, ok);
      }
    }
  }

  predicate LastCallFailed(trace: seq<Op>) {
    trace != [] && !trace[|trace| - 1].ok
  }

  /** Why sealing stops: the tail fits, only the last unit remains, or the last call failed. */
  lemma {:induction false} SpillStops(s: Sys, show: seq<Item>, base: nat, mid: Option<nat>, footer: string, ok: Oracle)
    requires base < |show|
    ensures var r := SpillFrom(s, show, base, mid, footer, ok);
            || Fits(From(show, r.base), footer)
            || r.base + 1 == |show|
            || (|r.sys.trace| > |s.trace| && LastCallFailed(r.sys.trace))
    decreases |show| - base
  {
    if NeedsSeal(show, base, footer) {
      if ok(|s.trace|) {
        var t := SealOnce(s, show, base, mid, ok);
        var op, seal := SealOnceFacts(s, show, base, mid, ok);
        SpillStops(t.sys, show, t.base, None, footer, ok);
      } else {
        var op := SealFailedFacts(s, show, base, mid, ok);
      }
    }
  }

  /** With a working transport the remaining tail fits one message if and only if the last shown
      unit fits one on its own. */
  lemma {:induction false} TailFitsIffLastUnitFits(s: Sys, show: seq<Item>, base: nat, mid: Option<nat>,
                                                   footer: string, ok: Oracle)
    requires base < |show| && forall i | i >= |s.trace| :: ok(i)
    ensures Fits(From(show, SpillFrom(s, show, base, mid, footer, ok).base), footer)
            <==> Fits(show[|show| - 1..], footer)
    decreases |show| - base
  {
    if NeedsSeal(show, base, footer) {
      var t := SealOnce(s, show, base, mid, ok);
      var op, seal := SealOnceFacts(s, show, base, mid, ok);
      TailFitsIffLastUnitFits(t.sys, show, t.base, None, footer, ok);
    } else {
      var tail := From(show, base);
      TotalPart(tail, |tail| - 1, |tail|);
      assert tail[|tail| - 1..|tail|] == show[|show| - 1..];
    }
  }

  lemma SealSizeKeepsShown(was: seq<Item>, now: seq<Item>, base: nat, footer: string)
    requires base < |was| && Fits(was[base..], WORKING_FOOTER)
    requires was[..|was| - 1] <= now && |was| <= |now|
    requires footer == WORKING_FOOTER || footer == DONE_FOOTER
    requires NeedsSeal(now, base, footer)
    ensures base + SealSize(now, base) >= |was| - 1
    ensures was <= now ==> base + SealSize(now, base) >= |was|
  {
    StillFits(was, now, base, |was| - 1);
    SealsAtLeast(now, base, |was| - 1);
    assert was <= now && |was| == |now| ==> now == was;
    if was <= now && |was| < |now| {
      StillFits(was, now, base, |was|);
      SealsAtLeast(now, base, |was|);
    }
  }

  /** A seal takes in any prefix that fits. */
  lemma SealsAtLeast(now: seq<Item>, base: nat, hi: nat)
    requires base <= hi < |now| && base + 1 < |now| && Fits(now[base..hi], SPILL_FOOTER)
    ensures base + SealSize(now, base) >= hi
  {
    var head := now[base..|now| - 1];
    HeadIsFullest(head, SPILL_FOOTER, |head|);
    assert head[..hi - base] == now[base..hi];
  }

  /** Units that were shown whole, and have not changed, fit under the spill footer. */
  lemma StillFits(was: seq<Item>, now: seq<Item>, base: nat, hi: nat)
    requires base <= hi <= |was| && was[..hi] <= now && Fits(was[base..], WORKING_FOOTER)
    ensures hi <= |now| && Fits(now[base..hi], SPILL_FOOTER)
  {
    assert forall i | 0 <= i < hi :: was[i] == was[..hi][i];
    assert now[base..hi] == was[base..][0..hi - base];
    TotalPart(was[base..], 0, hi - base);
  }

  /** A seal never pushes a completed shown line out of its message: if the message showed all of
      was[base..] under the working footer and only the last of those units may since have changed,
      the first message frozen next keeps all of them but possibly that one, and all of them if none
      changed. */
  lemma SealKeepsShownLines(s: Sys, was: seq<Item>, now: seq<Item>, base: nat, mid: Option<nat>, footer: string,
                            ok: Oracle)
    requires base < |was| && Fits(was[base..], WORKING_FOOTER)
    requires was[..|was| - 1] <= now && |was| <= |now|
    requires footer == WORKING_FOOTER || footer == DONE_FOOTER
    ensures var r := SpillFrom(s, now, base, mid, footer, ok);
            r.base > base ==>
              && |r.sys.frozen| > |s.frozen|
              && var first := r.sys.frozen[|s.frozen|];
                 first.lo == base && first.hi >= |was| - 1 && (was <= now ==> first.hi >= |was|)
  {
    if NeedsSeal(now, base, footer) && ok(|s.trace|) {
      var t := SealOnce(s, now, base, mid, ok);
      var op, seal := SealOnceFacts(s, now, base, mid, ok);
      SpillOnlyAdds(t.sys, now, t.base, None, footer, ok);
      SealSizeKeepsShown(was, now, base, footer);
    }
  }

  // ------------------------------------------------------------------ the hook process

  /** One hook process at work under the turn lock. */
  class Hook {
    const ok: Oracle
    var state: TurnState
    var store: Option<TurnState>
    var trace: seq<Op>
    ghost var frozen: seq<Seal>

    constructor (ok: Oracle, store: Option<TurnState>, trace: seq<Op>, ghost frozen: seq<Seal>)
      ensures this.ok == ok && Now() == Sys(store.GetOr(FRESH), store, trace, frozen)
    {
      this.ok := ok;
      this.state := store.GetOr(FRESH);
      this.store := store;
      this.trace := trace;
      this.frozen := frozen;
    }

    ghost function Now(): Sys
      reads this
    {
      Sys(state, store, trace, frozen)
    }

    method ChannelSend(body: string) returns (id: Option<nat>)
      modifies this
      ensures Now() == Post(old(Now()), body, ok)
      ensures id == NewId(old(Now()), ok)
    {
      id := if ok(|trace|) then Some(|trace|) else None;
      trace := trace + [Send(body, id.Some?)];
    }

    method ChannelEdit(id: nat, body: string) returns (done: bool)
      modifies this
      ensures Now() == Amend(old(Now()), id, body, ok)
      ensures done == ok(|old(trace)|)
    {
      done := ok(|trace|);
      trace := trace + [Edit(id, body, done)];
    }

    method Persist(base: nat, mid: Option<nat>)
      modifies this
      ensures Now() == Checkpoint(old(Now()), base, mid)
    {
      state := state.(base := base, mid := mid);
      store := Some(state);
    }

    /** The fullest prefix of the sealable head, and its frozen text. */
    method SealedHead(show: seq<Item>, head: seq<Item>, base: nat) returns (d: Draft)
      requires base + 1 < |show| && head == show[base..|show| - 1]
      ensures d == NextSeal(show, base)
    {
      var k := SealedSize(show, head, base);
      d := SealedDraft(show, head, base, k);
    }

    method SealedSize(show: seq<Item>, head: seq<Item>, base: nat) returns (k: nat)
      requires base + 1 < |show| && head == show[base..|show| - 1]
      ensures k == SealSize(show, base)
    {
      k := HeadFit(head, SPILL_FOOTER);
    }

    method SealedDraft(show: seq<Item>, head: seq<Item>, base: nat, k: nat) returns (d: Draft)
      requires base + k < |show| && head == show[base..|show| - 1]
      ensures d == DraftOf(show, base, k)
    {
      var open := FenceState(show[..base]);
      assert head[..k] == show[base..base + k];
      d := Draft(k, RenderHead(head[..k], SPILL_FOOTER, open));
    }

    /** Freeze the live message in place, or post a frozen one. */
    method PostSealed(mid: Option<nat>, sealed: string) returns (done: bool)
      modifies this
      ensures Now() == SealCall(old(Now()), mid, sealed, ok)
      ensures done == ok(|old(trace)|)
    {
      if mid.Some? {
        done := ChannelEdit(mid.value, sealed);
      } else {
        var id := ChannelSend(sealed);
        done := id.Some?;
      }
    }

    /** One turn of the sealing loop. */
    method SealNext(show: seq<Item>, head: seq<Item>, base: nat, mid: Option<nat>)
      returns (done: bool, newBase: nat, newMid: Option<nat>)
      requires base + 1 < |show| && head == show[base..|show| - 1]
      modifies this
      ensures done == ok(|old(trace)|)
      ensures done ==> Spilled(Now(), newBase, newMid) == SealOnce(old(Now()), show, base, mid, ok)
      ensures !done ==> Spilled(Now(), newBase, newMid) == SealFailed(old(Now()), show, base, mid, ok)
    {
      var d := SealedHead(show, head, base);
      done, newBase, newMid := SealWith(base, d, mid);
    }

    method SealWith(base: nat, d: Draft, mid: Option<nat>) returns (done: bool, newBase: nat, newMid: Option<nat>)
      modifies this
      ensures done == ok(|old(trace)|)
      ensures done ==> Spilled(Now(), newBase, newMid) == SealedWith(old(Now()), base, d, mid, ok)
      ensures !done ==> Spilled(Now(), newBase, newMid) == RefusedWith(old(Now()), base, d, mid, ok)
    {
      done := PostSealed(mid, d.body);
      if !done {
        return false, base, mid;
      }
      newBase, newMid := base + d.size, None;
      PersistSeal(mid, base, d.size);
    }

    /** Checkpoint the new boundary, noting the message just frozen. */
    method PersistSeal(mid: Option<nat>, base: nat, k: nat)
      modifies this
      ensures Now() == Checkpoint(Frozen(old(Now()), mid, base, k), base + k, None)
    {
      if trace != [] {
        frozen := frozen + [Seal(mid.GetOr(|trace| - 1), |trace| - 1, base, base + k)];
      }
      Persist(base + k, None);
    }

    method Spill(units: seq<Item>, base0: nat, mid0: Option<nat>, liveUnits: seq<Item>, footer: string)
      returns (base: nat, mid: Option<nat>)
      modifies this
      ensures Spilled(Now(), base, mid) == SpillFrom(old(Now()), units + liveUnits, base0, mid0, footer, ok)
    {
      base, mid := base0, mid0;
      var show := units + liveUnits;
      var sealable := if show == [] then [] else show[..|show| - 1];
      while !Fits(From(show, base), footer)
        invariant SpillFrom(Now(), show, base, mid, footer, ok) ==
                  SpillFrom(old(Now()), show, base0, mid0, footer, ok)
        decreases if base <= |show| then |show| - base else 0
      {
        var head := From(sealable, base);
        if head == [] {
          break;
        }
        var done;
        done, base, mid := SealNext(show, head, base, mid);
        if !done {
          break;
        }
      }
    }
  }
}
