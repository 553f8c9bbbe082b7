/** The Stop hook: decide what to post, cap the turn, guarantee the answer, leave a tombstone. */
module Stop {
  import opened Chunking
  import opened Closing
  import LayOut
  import opened Layout
  import opened Progress
  import opened Spilling
  import opened Transcript
  import UnitStability
  import opened Wrappers

  const POLL_TRIES := 50
  const WARNING := "\U{26A0}\U{FE0F} bridge"
  const NO_TRANSCRIPT := ": Stop hook got no transcript"
  const UNPARSABLE := ": couldn't parse transcript"
  const UNFLUSHED := ": closing answer never flushed to the transcript"
  const NOT_FOUND := ": couldn't locate the closing answer"
  const REFUSED := ": Discord refused the final post"

  /** The transcript as the i-th read finds it; None when it does not parse. */
  type Polls = nat -> Option<seq<Row>>

  datatype Polled = Missing | Broken | Polled(turn: seq<Row>, flushed: bool)

  /** Poll until the closing text is there, at most fifty times. */
  function Awaited(polls: Polls, i: nat, last: seq<Row>): Polled
    decreases POLL_TRIES - i
  {
    if i >= POLL_TRIES then Polled(last, false)
    else
      match polls(i)
      case None => Broken
      case Some(rows) =>
        if Closing.Flushed(TurnOf(rows)) then Polled(TurnOf(rows), true) else Awaited(polls, i + 1, TurnOf(rows))
  }

  method AwaitClosing(polls: Polls) returns (p: Polled)
    ensures p == Awaited(polls, 0, [])
  {
    var turn: seq<Row> := [];
    for i := 0 to POLL_TRIES
      invariant Awaited(polls, i, turn) == Awaited(polls, 0, [])
    {
      var read := polls(i);
      if read.None? {
        return Broken;
      }
      turn := CurrentTurn(read.value);
      var flushed := ClosingFlushed(turn);
      if flushed {
        return Polled(turn, true);
      }
    }
    return Polled(turn, false);
  }

  // ------------------------------------------------------------------ the decision

  datatype Plan = Skip | Refuse(reason: string) | Close(turn: seq<Row>, text: string, alreadySent: bool)

  function Sent(turn: seq<Row>): bool {
    ClosingText(turn) != "" && WasDelivered(turn, Errors(turn), ClosingText(turn))
  }

  function PlanFor(done: Option<string>, p: Polled): Plan {
    match p
    case Missing => Refuse(NO_TRANSCRIPT)
    case Broken => Refuse(UNPARSABLE)
    case Polled(turn, flushed) =>
      if TurnId(turn).Some? && done == TurnId(turn) then Skip
      else if !flushed then Refuse(UNFLUSHED)
      else if !Sent(turn) && ClosingText(turn) == "" then Refuse(NOT_FOUND)
      else Close(turn, ClosingText(turn), Sent(turn))
  }

  method Decide(done: Option<string>, p: Polled) returns (plan: Plan)
    ensures plan == PlanFor(done, p)
  {
    match p {
      case Missing => return Refuse(NO_TRANSCRIPT);
      case Broken => return Refuse(UNPARSABLE);
      case Polled(turn, flushed) =>
        var tid := TurnId(turn);
        if tid.Some? && done == tid {
          return Skip;
        }
        var text, alreadySent := ExtractClosing(turn);
        if !flushed {
          return Refuse(UNFLUSHED);
        }
        if !alreadySent && text == "" {
          return Refuse(NOT_FOUND);
        }
        return Close(turn, text, alreadySent);
    }
  }

  // ------------------------------------------------------------------ the posts

  /** Warn on the channel; if even that fails, write the warning down. The stored turn is cleared. */
  function Failed(s: Sys, reason: string, ok: Oracle): Sys {
    var warned := Post(s, WARNING + reason, ok);
    var t := if ok(|s.trace|) then warned
             else warned.(trace := warned.trace + [Record(WARNING + reason, ok(|warned.trace|))]);
    t.(store := None)
  }

  function PostAll(s: Sys, parts: seq<string>, ok: Oracle): Sys
    decreases |parts|
  {
    if parts == [] then s else PostAll(Post(s, parts[0], ok), parts[1..], ok)
  }

  predicate AllWent(from: nat, n: nat, ok: Oracle) {
    n == 0 || (AllWent(from, n - 1, ok) && ok(from + n - 1))
  }

  lemma {:induction false} EachWent(from: nat, n: nat, i: nat, ok: Oracle)
    requires AllWent(from, n, ok) && i < n
    ensures ok(from + i)
  {
    if i < n - 1 {
      EachWent(from, n - 1, i, ok);
    }
  }

  /** Post every chunk of the answer; on any refusal write the answer down and warn. */
  function Delivered(s: Sys, text: string, ok: Oracle): (Sys, bool) {
    var parts := ChunksOf(text);
    var t := PostAll(s, parts, ok);
    if AllWent(|s.trace|, |parts|, ok) then (t, true)
    else (Failed(t.(trace := t.trace + [Record(text, ok(|t.trace|))]), REFUSED, ok), false)
  }

  function UnitsToCap(plan: Plan): seq<Item>
    requires plan.Close?
  {
    if plan.alreadySent then Units(WithoutClosing(TurnItems(plan.turn))) else UnitStability.TurnUnits(plan.turn)
  }

  function Tombstoned(s: Sys, tid: Option<string>): Sys {
    if tid.Some? then
      var st := s.state.(done := tid);
      s.(state := st, store := Some(st))
    else s.(store := None)
  }

  /** What follows the cap: the answer if the cap does not hold it, the done marker and the tombstone. */
  function AfterCap(laid: Sys, plan: Plan, covered: bool, ok: Oracle): Sys
    requires plan.Close?
  {
    var tid := TurnId(plan.turn);
    if plan.alreadySent then Tombstoned(laid, tid)
    else if covered then Tombstoned(Post(laid, DONE_FOOTER, ok), tid)
    else
      var (posted, whole) := Delivered(laid, plan.text, ok);
      if whole then Tombstoned(Post(posted, DONE_FOOTER, ok), tid) else posted
  }

  /** The locked part: first is the state read before the lock, used only if the store is gone. */
  function Committed(s: Sys, first: TurnState, plan: Plan, ok: Oracle): Sys {
    match plan
    case Skip => s
    case Refuse(reason) => Failed(s, reason, ok)
    case Close(turn, text, alreadySent) =>
      var (laid, covered) := LayOut.Laid(s.(state := s.store.GetOr(first)), UnitsToCap(plan), ok);
      AfterCap(laid, plan, covered, ok)
  }

  method Fail(hook: Hook, reason: string)
    modifies hook
    ensures hook.Now() == Failed(old(hook.Now()), reason, hook.ok)
  {
    var id := hook.ChannelSend(WARNING + reason);
    if id.None? {
      hook.trace := hook.trace + [Record(WARNING + reason, hook.ok(|hook.trace|))];
    }
    hook.store := None;
  }

  lemma {:induction false} PostAllTrace(s: Sys, parts: seq<string>, ok: Oracle)
    ensures var t := PostAll(s, parts, ok);
            && t == s.(trace := t.trace) && s.trace <= t.trace && |t.trace| == |s.trace| + |parts|
            && forall i | 0 <= i < |parts| ::
                 t.trace[|s.trace| + i] == Send(parts[i], ok(|s.trace| + i))
    decreases |parts|
  {
    if parts != [] {
      var u := Post(s, parts[0], ok);
      PostAllTrace(u, parts[1..], ok);
      var t := PostAll(s, parts, ok);
      assert t.trace[|s.trace|] == u.trace[|s.trace|];
      forall i | 0 < i < |parts|
        ensures t.trace[|s.trace| + i] == Send(parts[i], ok(|s.trace| + i))
      {
        assert parts[i] == parts[1..][i - 1];
        assert t.trace[|u.trace| + (i - 1)] == Send(parts[1..][i - 1], ok(|u.trace| + (i - 1)));
      }
    }
  }

  /** Every part is sent, whether or not the ones before it were. */
  method SendAll(hook: Hook, parts: seq<string>) returns (whole: bool)
    modifies hook
    ensures hook.Now() == PostAll(old(hook.Now()), parts, hook.ok)
    ensures whole == AllWent(|old(hook.trace)|, |parts|, hook.ok)
  {
    whole := true;
    ghost var from := |hook.trace|;
    for i := 0 to |parts|
      invariant PostAll(hook.Now(), parts[i..], hook.ok) == PostAll(old(hook.Now()), parts, hook.ok)
      invariant |hook.trace| == from + i
      invariant whole == AllWent(from, i, hook.ok)
    {
      assert parts[i..][1..] == parts[i + 1..];
      var id := hook.ChannelSend(parts[i]);
      whole := whole && id.Some?;
    }
  }

  method Deliver(hook: Hook, text: string) returns (whole: bool)
    modifies hook
    ensures (hook.Now(), whole) == Delivered(old(hook.Now()), text, hook.ok)
  {
    var parts := Chunks(text);
    whole := SendAll(hook, parts);
    if !whole {
      hook.trace := hook.trace + [Record(text, hook.ok(|hook.trace|))];
      Fail(hook, REFUSED);
    }
  }

  method Commit(hook: Hook, first: TurnState, plan: Plan)
    modifies hook
    ensures hook.Now() == Committed(old(hook.Now()), first, plan, hook.ok)
  {
    match plan {
      case Skip =>
      case Refuse(reason) => Fail(hook, reason);
      case Close(turn, text, alreadySent) =>
        hook.state := hook.store.GetOr(first);
        var items;
        if alreadySent {
          items := WorkLines(turn);
        } else {
          items := TurnLines(turn);
        }
        var units := SplitUnits(items);
        var covered := LayOut.Run(hook, units);
        if !alreadySent && !covered {
          var whole := Deliver(hook, text);
          if !whole {
            return;
          }
        }
        if !alreadySent {
          var _ := hook.ChannelSend(DONE_FOOTER);
        }
        var tid := TurnId(turn);
        if tid.Some? {
          hook.state := hook.state.(done := tid);
          hook.store := Some(hook.state);
        } else {
          hook.store := None;
        }
    }
  }

  /** The whole hook, when nothing else runs between its two parts. */
  method Run(hook: Hook, found: bool, polls: Polls)
    modifies hook
    ensures var first := Stored(old(hook.Now()));
            hook.Now() == Committed(old(hook.Now()), first,
              PlanFor(first.done, if found then Awaited(polls, 0, []) else Missing), hook.ok)
  {
    var first := hook.store.GetOr(FRESH);
    var polled := Missing;
    if found {
      polled := AwaitClosing(polls);
    }
    var plan := Decide(first.done, polled);
    Commit(hook, first, plan);
  }

  // ------------------------------------------------------------------ calls that edit nothing

  /** Between s and t messages were sent and texts recorded, and nothing was edited or frozen. */
  predicate OnlySends(s: Sys, t: Sys) {
    && s.trace <= t.trace && t.frozen == s.frozen
    && forall p | |s.trace| <= p < |t.trace| :: !t.trace[p].Edit?
  }

  lemma SendsKeepSettled(s: Sys, t: Sys, mid: Option<nat>)
    requires Settled(s.trace, s.frozen, mid) && OnlySends(s, t)
    ensures Settled(t.trace, t.frozen, mid)
  {
    forall i | 0 <= i < |s.frozen|
      ensures IsFinal(t.trace, s.frozen[i])
    {
      var f := s.frozen[i];
      assert IsFinal(s.trace, f);
      var body :| PutsAt(s.trace, f.at, f.id, body);
      assert PutsAt(t.trace, f.at, f.id, body);
    }
  }

  lemma FailedOnlySends(s: Sys, reason: string, ok: Oracle)
    ensures OnlySends(s, Failed(s, reason, ok)) && |Failed(s, reason, ok).trace| > |s.trace|
  {
  }

  lemma PostOnlySends(s: Sys, body: string, ok: Oracle)
    ensures OnlySends(s, Post(s, body, ok))
  {
  }

  lemma AllOnlySends(s: Sys, parts: seq<string>, ok: Oracle)
    ensures OnlySends(s, PostAll(s, parts, ok)) && PostAll(s, parts, ok).state == s.state
  {
    PostAllTrace(s, parts, ok);
    var t := PostAll(s, parts, ok);
    forall p | |s.trace| <= p < |t.trace|
      ensures !t.trace[p].Edit?
    {
      var i := p - |s.trace|;
      assert t.trace[|s.trace| + i] == Send(parts[i], ok(|s.trace| + i));
    }
  }

  lemma SendsTrans(s: Sys, t: Sys, u: Sys)
    requires OnlySends(s, t) && OnlySends(t, u)
    ensures OnlySends(s, u)
  {
  }

  lemma DeliveredOnlySends(s: Sys, text: string, ok: Oracle)
    ensures var (t, whole) := Delivered(s, text, ok);
            && OnlySends(s, t) && t.state == s.state
            && (!whole ==> |t.trace| > |s.trace| && t.store == None)
  {
    var u := PostAll(s, ChunksOf(text), ok);
    AllOnlySends(s, ChunksOf(text), ok);
    var v := u.(trace := u.trace + [Record(text, ok(|u.trace|))]);
    SendsTrans(s, u, v);
    FailedOnlySends(v, REFUSED, ok);
    SendsTrans(s, v, Failed(v, REFUSED, ok));
  }

  lemma AfterCapOnlySends(laid: Sys, plan: Plan, covered: bool, ok: Oracle)
    requires plan.Close?
    ensures var t := AfterCap(laid, plan, covered, ok);
            OnlySends(laid, t) && (t.store.Some? ==> Stored(t).mid == laid.state.mid)
  {
    PostOnlySends(laid, DONE_FOOTER, ok);
    DeliveredOnlySends(laid, plan.text, ok);
    var posted := Delivered(laid, plan.text, ok).0;
    PostOnlySends(posted, DONE_FOOTER, ok);
    SendsTrans(laid, posted, Post(posted, DONE_FOOTER, ok));
  }

  /** What a message shows does not change when others are sent. */
  lemma {:induction false} SendsKeepShows(trace: seq<Op>, later: seq<Op>, id: nat)
    requires trace <= later && id < |trace|
    requires forall p | |trace| <= p < |later| :: !later[p].Edit?
    ensures Shows(later, id) == Shows(trace, id)
    decreases |later|
  {
    if |later| > |trace| {
      SendsKeepShows(trace, later[..|later| - 1], id);
    } else {
      assert later == trace;
    }
  }

  // ------------------------------------------------------------------ never stale, never silent

  /** What await_closing calls flushed is: the closing was found at some read within the fifty. */
  lemma {:induction false} AwaitedIsFlushed(polls: Polls, i: nat, last: seq<Row>)
    ensures var p := Awaited(polls, i, last);
            p.Polled? && p.flushed ==> Closing.Flushed(p.turn)
    decreases POLL_TRIES - i
  {
    if i < POLL_TRIES && polls(i).Some? && !Closing.Flushed(TurnOf(polls(i).value)) {
      AwaitedIsFlushed(polls, i + 1, TurnOf(polls(i).value));
    }
  }

  predicate Found(polls: Polls, k: nat) {
    polls(k).Some? && Closing.Flushed(TurnOf(polls(k).value))
  }

  predicate Missed(polls: Polls, k: nat) {
    polls(k).Some? && !Closing.Flushed(TurnOf(polls(k).value))
  }

  /** From the i-th read on, read k is the first to find the closing text, and every earlier one parsed. */
  predicate FirstFound(polls: Polls, i: nat, k: nat) {
    i <= k < POLL_TRIES && Found(polls, k) && forall m | i <= m < k :: Missed(polls, m)
  }

  lemma FirstFoundLater(polls: Polls, i: nat, k: nat)
    requires Missed(polls, i)
    ensures FirstFound(polls, i, k) <==> FirstFound(polls, i + 1, k)
  {
  }

  lemma FoundNow(polls: Polls, i: nat, k: nat)
    requires i < POLL_TRIES && Found(polls, i)
    ensures FirstFound(polls, i, k) <==> k == i
  {
    assert !Missed(polls, i);
  }

  lemma MissedAwaitsOn(polls: Polls, i: nat, last: seq<Row>)
    requires i < POLL_TRIES && Missed(polls, i)
    ensures Awaited(polls, i, last) == Awaited(polls, i + 1, TurnOf(polls(i).value))
  {
  }

  /** A poll that reports a flushed turn reports that of the first read to find it, all earlier ones having
      parsed; and it does report one if there is such a read. */
  lemma {:induction false} AwaitedIsFirst(polls: Polls, i: nat, last: seq<Row>, k: nat)
    requires FirstFound(polls, i, k)
    ensures Awaited(polls, i, last) == Polled(TurnOf(polls(k).value), true)
    decreases POLL_TRIES - i
  {
    if Found(polls, i) {
      FoundNow(polls, i, k);
    } else {
      FirstFoundLater(polls, i, k);
      MissedAwaitsOn(polls, i, last);
      AwaitedIsFirst(polls, i + 1, TurnOf(polls(i).value), k);
    }
  }

  lemma {:induction false} FlushedWasFound(polls: Polls, i: nat, last: seq<Row>) returns (k: nat)
    requires Awaited(polls, i, last).Polled? && Awaited(polls, i, last).flushed
    ensures FirstFound(polls, i, k)
    decreases POLL_TRIES - i
  {
    if Found(polls, i) {
      k := i;
    } else {
      k := FlushedWasFound(polls, i + 1, TurnOf(polls(i).value));
      FirstFoundLater(polls, i, k);
    }
  }

  /** Stop goes on to close a turn only with a text that is there, that comes from a row after every
      tool result, and it counts the answer as sent only if a reply carried that very text. */
  lemma ClosesOnlyWithTheAnswer(done: Option<string>, found: bool, polls: Polls)
    ensures var plan := PlanFor(done, if found then Awaited(polls, 0, []) else Missing);
            plan.Close? ==>
              && plan.text != "" && (TurnId(plan.turn).Some? ==> done != TurnId(plan.turn))
              && (exists i :: IsClosingRow(plan.turn, i) && RowText(plan.turn[i]) == plan.text &&
                              forall j | i <= j < |plan.turn| :: !HasToolResult(plan.turn[j]))
              && (plan.alreadySent <==> WasDelivered(plan.turn, Errors(plan.turn), plan.text))
  {
    AwaitedIsFlushed(polls, 0, []);
    var p := if found then Awaited(polls, 0, []) else Missing;
    if p.Polled? && p.flushed {
      FlushedIffClosingIsLast(p.turn);
    }
  }

  /** With the answer flushed and not yet sent Stop closes the turn, unless it has been closed before. */
  lemma PlanCloses(done: Option<string>, turn: seq<Row>)
    requires Closing.Flushed(turn) && !Sent(turn) && (TurnId(turn).Some? ==> done != TurnId(turn))
    ensures PlanFor(done, Polled(turn, true)) == Close(turn, ClosingText(turn), false)
  {
    FlushedIffClosingIsLast(turn);
  }

  /** A warning was sent, or at least attempted, at this place or later. */
  predicate WarnedSince(trace: seq<Op>, from: nat) {
    exists p | from <= p < |trace| :: trace[p].Send? && WARNING <= trace[p].body
  }

  predicate RecordedSince(trace: seq<Op>, from: nat, text: string) {
    exists p | from <= p < |trace| :: trace[p].Record? && trace[p].text == text
  }

  /** Every chunk of the answer was sent, in order, at this place. */
  predicate PostedAt(trace: seq<Op>, from: nat, parts: seq<string>) {
    from + |parts| <= |trace| &&
    forall i | 0 <= i < |parts| :: trace[from + i] == Send(parts[i], true)
  }

  lemma FailedWarns(s: Sys, reason: string, ok: Oracle)
    ensures var t := Failed(s, reason, ok);
            && WarnedSince(t.trace, |s.trace|) && s.trace <= t.trace && t.store == None
            && (!ok(|s.trace|) ==> RecordedSince(t.trace, |s.trace|, WARNING + reason))
  {
    var t := Failed(s, reason, ok);
    assert t.trace[|s.trace|] == Send(WARNING + reason, ok(|s.trace|));
    if !ok(|s.trace|) {
      assert t.trace[|s.trace| + 1].Record?;
    }
  }

  lemma DeliveredOrRecorded(s: Sys, text: string, ok: Oracle)
    ensures var (t, whole) := Delivered(s, text, ok);
            && s.trace <= t.trace
            && (whole ==> PostedAt(t.trace, |s.trace|, ChunksOf(text)))
            && (!whole ==> RecordedSince(t.trace, |s.trace|, text) && WarnedSince(t.trace, |s.trace|)
                           && t.store == None)
  {
    var parts := ChunksOf(text);
    AllPosted(s, parts, ok);
    RecordedAndWarned(PostAll(s, parts, ok), text, ok, |s.trace|);
  }

  lemma AllPosted(s: Sys, parts: seq<string>, ok: Oracle)
    ensures var u := PostAll(s, parts, ok);
            && s.trace <= u.trace && |u.trace| == |s.trace| + |parts|
            && (AllWent(|s.trace|, |parts|, ok) ==> PostedAt(u.trace, |s.trace|, parts))
  {
    var u := PostAll(s, parts, ok);
    PostAllTrace(s, parts, ok);
    if AllWent(|s.trace|, |parts|, ok) {
      forall i | 0 <= i < |parts|
        ensures u.trace[|s.trace| + i] == Send(parts[i], true)
      {
        EachWent(|s.trace|, |parts|, i, ok);
      }
    }
  }

  lemma RecordedAndWarned(u: Sys, text: string, ok: Oracle, from: nat)
    requires from <= |u.trace|
    ensures var t := Failed(u.(trace := u.trace + [Record(text, ok(|u.trace|))]), REFUSED, ok);
            u.trace <= t.trace && RecordedSince(t.trace, from, text) && WarnedSince(t.trace, from) && t.store == None
  {
    var v := u.(trace := u.trace + [Record(text, ok(|u.trace|))]);
    FailedWarns(v, REFUSED, ok);
    var t := Failed(v, REFUSED, ok);
    assert t.trace[|u.trace|] == v.trace[|u.trace|];
    var p :| |v.trace| <= p < |t.trace| && t.trace[p].Send? && WARNING <= t.trace[p].body;
    assert from <= p;
  }

  lemma LaidOnlyAdds(s: Sys, units: seq<Item>, ok: Oracle)
    ensures s.trace <= LayOut.Laid(s, units, ok).0.trace
  {
    SpillOnlyAdds(s, units, s.state.base, s.state.mid, DONE_FOOTER, ok);
  }

  /** Unless the turn was finished before, or a reply already delivered the answer, either lay_out reports it
      shown, or every chunk of it was sent, or it was written down and a warning attempted; every refusal
      attempts a warning. */
  lemma CoveredOrPosted(s: Sys, first: TurnState, plan: Plan, ok: Oracle)
    ensures var t := Committed(s, first, plan, ok);
            match plan
            case Skip => t == s
            case Refuse(_) => WarnedSince(t.trace, |s.trace|)
            case Close(_, text, alreadySent) =>
              var (laid, covered) := LayOut.Laid(s.(state := s.store.GetOr(first)), UnitsToCap(plan), ok);
              && s.trace <= laid.trace <= t.trace
              && (alreadySent || covered || PostedAt(t.trace, |laid.trace|, ChunksOf(text)) ||
                  (RecordedSince(t.trace, |laid.trace|, text) && WarnedSince(t.trace, |laid.trace|)))
  {
    match plan {
      case Skip =>
      case Refuse(reason) => FailedWarns(s, reason, ok);
      case Close(turn, text, alreadySent) =>
        var loaded := s.(state := s.store.GetOr(first));
        LaidOnlyAdds(loaded, UnitsToCap(plan), ok);
        DeliveredOrRecorded(LayOut.Laid(loaded, UnitsToCap(plan), ok).0, text, ok);
    }
  }

  // ------------------------------------------------------------------ the tombstone

  lemma StoredIsTombstone(s: Sys, first: TurnState, plan: Plan, ok: Oracle)
    requires plan.Close? && TurnId(plan.turn).Some? && Committed(s, first, plan, ok).store.Some?
    ensures Stored(Committed(s, first, plan, ok)).done == TurnId(plan.turn)
  {
  }

  /** Once Stop has stored a turn's tombstone, progress steps of that turn make no call at all, in
      whatever number they still arrive, and a further Stop skips. */
  lemma {:induction false} StopSilencesTurn(s: Sys, first: TurnState, plan: Plan, events: seq<Event>, ok: Oracle)
    requires plan.Close? && TurnId(plan.turn).Some?
    requires Committed(s, first, plan, ok).store.Some?
    requires forall i | 0 <= i < |events| :: TurnId(events[i].turn) == TurnId(plan.turn)
    ensures var t := Committed(s, first, plan, ok);
            && RunAll(t, events, ok).trace == t.trace && RunAll(t, events, ok).store == t.store
            && PlanFor(Stored(t).done, Polled(plan.turn, true)) == Skip
  {
    var t := Committed(s, first, plan, ok);
    StoredIsTombstone(s, first, plan, ok);
    TombstoneSilences(t, events, ok);
  }
}
