/** What is written on the connections, counted against where the messages went. */
module Tally {
  import opened Exchange
  import opened Wrappers

  predicate Carries(line: Line, msg: Inbound) {
    line == Reply(msg) || line == Frame(msg)
  }

  /** How many lines carry the message. */
  function Carrying(lines: seq<Line>, msg: Inbound): nat {
    if lines == [] then 0
    else Carrying(lines[..|lines| - 1], msg) + (if Carries(lines[|lines| - 1], msg) then 1 else 0)
  }

  function LinesOn(conns: Conns, msg: Inbound, k: nat): nat {
    if k in conns then Carrying(conns[k].lines, msg) else 0
  }

  predicate SinkIs(sinks: seq<Sink>, k: nat) {
    |sinks| == 1 && (sinks[0] == ToClaim(k) || (sinks[0].ToAgent? && sinks[0].conn == k))
  }

  predicate DeliveredTo(f: Flow, t: nat, msg: Inbound, k: nat) {
    t in f.threads && f.threads[t] == Over(msg) && t in f.sinks && SinkIs(f.sinks[t], k)
  }

  /** The routing threads that gave the message to this connection. */
  function Deliveries(f: Flow, msg: Inbound, k: nat): set<nat> {
    set t | t in f.threads && DeliveredTo(f, t, msg, k)
  }

  /** On every connection, the lines that carry a message are as many as the threads that gave it there. */
  ghost predicate Tallied(s: State) {
    forall k: nat, msg :: LinesOn(s.mail.conns, msg, k) == |Deliveries(s.flow, msg, k)|
  }

  // ------------------------------------------------------------------ what a step writes

  /** The message this step writes, and the connection it writes it on. */
  function Writing(s: State, a: Action): Option<(Inbound, nat)>
    requires Enabled(s, a)
  {
    if a.ScanClaims? then
      var msg := s.flow.threads[a.t].msg;
      var m := Taker(s.mail.claims, s.mail.conns, msg, 0);
      if m < |s.mail.claims| then Some((msg, s.mail.claims[m].conn)) else None
    else if a.Push? && Live(s.mail.conns, s.flow.threads[a.t].conn) then
      Some((s.flow.threads[a.t].msg, s.flow.threads[a.t].conn))
    else None
  }

  function One(w: Option<(Inbound, nat)>, msg: Inbound, k: nat): nat {
    if w == Some((msg, k)) then 1 else 0
  }

  lemma CarryingSnoc(lines: seq<Line>, line: Line, msg: Inbound)
    ensures Carrying(lines + [line], msg) == Carrying(lines, msg) + if Carries(line, msg) then 1 else 0
  {
    assert (lines + [line])[..|lines|] == lines;
  }

  lemma MaybeOneMore(lines: seq<Line>, inbound: Inbound, msg: Inbound, more: bool)
    ensures Carrying(lines + (if more then [Reply(inbound)] else []), msg) ==
            Carrying(lines, msg) + if more && inbound == msg then 1 else 0
  {
    CarryingSnoc(lines, Reply(inbound), msg);
    assert lines + [] == lines;
  }

  lemma ScanCounts(s: State, inbound: Inbound, msg: Inbound, k: nat)
    requires InOrder(s)
    ensures var m := Taker(s.mail.claims, s.mail.conns, inbound, 0);
            LinesOn(Scanned(s.mail, inbound).conns, msg, k) == LinesOn(s.mail.conns, msg, k) +
              if m < |s.mail.claims| && s.mail.claims[m].conn == k && inbound == msg then 1 else 0
  {
    var m := Taker(s.mail.claims, s.mail.conns, inbound, 0);
    if k in s.mail.conns {
      ScanLines(s, inbound, k);
      MaybeOneMore(s.mail.conns[k].lines, inbound, msg, m < |s.mail.claims| && s.mail.claims[m].conn == k);
    } else if m < |s.mail.claims| {
      WaitingGotNothing(s, s.mail.claims[m]);
    }
  }

  lemma ScanWrites(s: State, t: nat, msg: Inbound, k: nat)
    requires InOrder(s) && Enabled(s, ScanClaims(t))
    ensures LinesOn(MailAfter(s, ScanClaims(t)).conns, msg, k) ==
            LinesOn(s.mail.conns, msg, k) + One(Writing(s, ScanClaims(t)), msg, k)
  {
    ScanCounts(s, s.flow.threads[t].msg, msg, k);
  }

  lemma LapseWrites(s: State, now: int, msg: Inbound, k: nat)
    ensures LinesOn(Reaped(s.mail, now).conns, msg, k) == LinesOn(s.mail.conns, msg, k)
  {
    if k in s.mail.conns {
      CarryingSnoc(s.mail.conns[k].lines, Lapsed, msg);
    }
  }

  lemma PushWrites(s: State, t: nat, msg: Inbound, k: nat)
    requires Enabled(s, Push(t))
    ensures LinesOn(MailAfter(s, Push(t)).conns, msg, k) ==
            LinesOn(s.mail.conns, msg, k) + One(Writing(s, Push(t)), msg, k)
  {
    if k in s.mail.conns {
      CarryingSnoc(s.mail.conns[k].lines, Frame(s.flow.threads[t].msg), msg);
    }
  }

  lemma StepWrites(s: State, a: Action, msg: Inbound, k: nat)
    requires InOrder(s) && Enabled(s, a)
    ensures LinesOn(MailAfter(s, a).conns, msg, k) == LinesOn(s.mail.conns, msg, k) + One(Writing(s, a), msg, k)
  {
    match a
    case ScanClaims(t) => ScanWrites(s, t, msg, k);
    case Lapse(now) => LapseWrites(s, now, msg, k);
    case Push(t) => PushWrites(s, t, msg, k);
    case _ =>
  }

  // ------------------------------------------------------------------ what a step delivers

  lemma ThreadDelivers(s: State, a: Action, msg: Inbound, k: nat)
    requires OneSinkEach(s.flow) && Enabled(s, a) && IsThreadStep(a)
    ensures !DeliveredTo(s.flow, a.t, msg, k)
    ensures DeliveredTo(FlowAfter(s, a), a.t, msg, k) <==> Writing(s, a) == Some((msg, k))
  {
    assert s.flow.sinks[a.t] == [];
  }

  lemma OthersDeliver(s: State, a: Action, t: nat, msg: Inbound, k: nat)
    requires OneSinkEach(s.flow) && Enabled(s, a) && (IsThreadStep(a) ==> a.t != t)
    ensures DeliveredTo(FlowAfter(s, a), t, msg, k) <==> DeliveredTo(s.flow, t, msg, k)
  {
  }

  lemma StepDelivers(s: State, a: Action, msg: Inbound, k: nat)
    requires OneSinkEach(s.flow) && Enabled(s, a)
    ensures |Deliveries(FlowAfter(s, a), msg, k)| == |Deliveries(s.flow, msg, k)| + One(Writing(s, a), msg, k)
  {
    var was, now := Deliveries(s.flow, msg, k), Deliveries(FlowAfter(s, a), msg, k);
    forall t | !IsThreadStep(a) || a.t != t
      ensures t in now <==> t in was
    {
      OthersDeliver(s, a, t, msg, k);
    }
    if IsThreadStep(a) {
      ThreadDelivers(s, a, msg, k);
      if Writing(s, a) == Some((msg, k)) {
        assert now == was + {a.t};
      } else {
        assert now == was;
      }
    } else {
      assert now == was;
    }
  }

  // ------------------------------------------------------------------ every interleaving

  lemma StepKeepsTally(s: State, a: Action)
    requires InOrder(s) && Tallied(s)
    ensures Tallied(Do(s, a))
  {
    if Enabled(s, a) {
      forall k: nat, msg
        ensures LinesOn(Do(s, a).mail.conns, msg, k) == |Deliveries(Do(s, a).flow, msg, k)|
      {
        StepWrites(s, a, msg, k);
        StepDelivers(s, a, msg, k);
      }
    }
  }

  /** In every interleaving, on every connection, exactly the messages that routing threads gave to it are
      written, each as often as threads gave it there. */
  lemma {:induction false} EveryInterleaving(actions: seq<Action>)
    ensures Tallied(Run(INITIAL, actions))
  {
    if actions != [] {
      var n := |actions| - 1;
      EveryInterleaving(actions[..n]);
      Exchange.EveryInterleaving(actions[..n]);
      StepKeepsTally(Run(INITIAL, actions[..n]), actions[n]);
    }
  }

  /** A message that one thread routed is written once in all: on the connection that thread gave it to, if it
      gave it to one, and on no other. */
  lemma {:induction false} RoutedOnceWrittenOnce(actions: seq<Action>, t: nat, msg: Inbound, k: nat)
    requires var f := Run(INITIAL, actions).flow;
             && t in f.threads && f.threads[t] == Over(msg)
             && forall u | u in f.threads && u != t :: f.threads[u] != Over(msg)
    ensures var s := Run(INITIAL, actions);
            && t in s.flow.sinks && |s.flow.sinks[t]| == 1
            && LinesOn(s.mail.conns, msg, k) == if SinkIs(s.flow.sinks[t], k) then 1 else 0
  {
    EveryInterleaving(actions);
    Exchange.EveryInterleaving(actions);
    var f := Run(INITIAL, actions).flow;
    if SinkIs(f.sinks[t], k) {
      assert Deliveries(f, msg, k) == {t};
    } else {
      assert Deliveries(f, msg, k) == {};
    }
  }

  // ------------------------------------------------------------------ over all connections

  /** The lines that carry the message on the connections below n. */
  function AllLines(conns: Conns, msg: Inbound, n: nat): nat {
    if n == 0 then 0 else AllLines(conns, msg, n - 1) + LinesOn(conns, msg, n - 1)
  }

  predicate DeliveredBelow(f: Flow, t: nat, msg: Inbound, n: nat) {
    t in f.threads && f.threads[t] == Over(msg) && t in f.sinks && exists k | 0 <= k < n :: SinkIs(f.sinks[t], k)
  }

  function AllDeliveries(f: Flow, msg: Inbound, n: nat): set<nat> {
    set t | t in f.threads && DeliveredBelow(f, t, msg, n)
  }

  lemma OneMoreConn(f: Flow, msg: Inbound, n: nat)
    ensures |AllDeliveries(f, msg, n + 1)| == |AllDeliveries(f, msg, n)| + |Deliveries(f, msg, n)|
  {
    var rest, last := AllDeliveries(f, msg, n), Deliveries(f, msg, n);
    forall t
      ensures t in AllDeliveries(f, msg, n + 1) <==> t in rest || t in last
      ensures !(t in rest && t in last)
    {
      BelowNext(f, t, msg, n);
    }
    assert AllDeliveries(f, msg, n + 1) == rest + last && rest !! last;
  }

  lemma BelowNext(f: Flow, t: nat, msg: Inbound, n: nat)
    ensures DeliveredBelow(f, t, msg, n + 1) <==> DeliveredBelow(f, t, msg, n) || DeliveredTo(f, t, msg, n)
    ensures !(DeliveredBelow(f, t, msg, n) && DeliveredTo(f, t, msg, n))
  {
  }

  lemma {:induction false} SumOfDeliveries(s: State, msg: Inbound, n: nat)
    requires Tallied(s)
    ensures AllLines(s.mail.conns, msg, n) == |AllDeliveries(s.flow, msg, n)|
  {
    if n > 0 {
      SumOfDeliveries(s, msg, n - 1);
      OneMoreConn(s.flow, msg, n - 1);
    } else {
      assert AllDeliveries(s.flow, msg, 0) == {};
    }
  }

  /** In every interleaving, the lines that carry a message, summed over all connections, are as many as the
      routing threads of that message that gave it to a claim or to an agent. */
  lemma LinesAreDeliveries(actions: seq<Action>, msg: Inbound, n: nat)
    ensures var s := Run(INITIAL, actions);
            AllLines(s.mail.conns, msg, n) == |AllDeliveries(s.flow, msg, n)|
  {
    EveryInterleaving(actions);
    SumOfDeliveries(Run(INITIAL, actions), msg, n);
  }
}
