/** The Broker object: its fields, its locked sections and its calls, one thread at a time. */
module Mediator {
  import Text
  import opened Wrappers
  import E = Emitting
  import X = Exchange

  type Oracle = nat -> bool

  /** The first attempt from n on that succeeds, within the retries left. */
  function Attempted(ok: Oracle, n: nat, retries: nat): (r: (nat, bool))
    decreases retries
  {
    if ok(n) || retries == 0 then (n, ok(n)) else Attempted(ok, n + 1, retries - 1)
  }

  lemma {:induction false} AttemptedWithin(ok: Oracle, n: nat, retries: nat)
    ensures var (last, went) := Attempted(ok, n, retries);
            && n <= last <= n + retries
            && (went <==> exists i | n <= i <= n + retries :: ok(i))
            && (forall i | n <= i < last :: !ok(i))
    decreases retries
  {
    if !ok(n) && retries > 0 {
      AttemptedWithin(ok, n + 1, retries - 1);
    }
  }

  function Without(claims: seq<X.Claim>, c: X.Claim): seq<X.Claim> {
    if claims == [] then [] else if claims[0] == c then claims[1..] else [claims[0]] + Without(claims[1..], c)
  }

  lemma {:induction false} WithoutAfter(front: seq<X.Claim>, c: X.Claim, back: seq<X.Claim>)
    requires c !in front
    ensures Without(front + [c] + back, c) == front + back
  {
    if front == [] {
      assert front + [c] + back == [c] + back;
      assert ([c] + back)[1..] == back;
    } else {
      WithoutAfter(front[1..], c, back);
      assert (front + [c] + back)[1..] == front[1..] + [c] + back;
    }
  }

  /** Where an inbound message ended up. */
  datatype Routed = ToExchange(conn: nat) | ToControl | ToAgent(agent: string) | Undelivered

  class Broker {
    const ok: Oracle           // the transport: does its n-th call succeed,
    const out: nat -> string   // and what does it print?
    var calls: nat             // transport calls so far
    var emitted: set<E.Key>
    var claims: seq<X.Claim>
    var conns: X.Conns
    var channels: map<string, nat>
    var routes: map<string, string>
    var control: Option<string>

    constructor (ok: Oracle, out: nat -> string)
      ensures this.ok == ok && this.out == out && calls == 0 && emitted == {} && claims == [] && conns == map[]
      ensures channels == map[] && routes == map[] && control == None
    {
      this.ok := ok;
      this.out := out;
      calls, emitted, claims, conns, channels, routes, control := 0, {}, [], map[], map[], map[], None;
    }

    method SetRoutes(newRoutes: map<string, string>, newControl: Option<string>)
      modifies this`routes, this`control
      ensures routes == newRoutes && control == newControl
    {
      routes := newRoutes;
      control := newControl;
    }

    /** Call the adapter, retrying a transient failure. */
    method Op() returns (went: bool)
      modifies this`calls
      ensures (calls - 1, went) == Attempted(ok, old(calls), E.OP_RETRIES)
      ensures old(calls) < calls <= old(calls) + 1 + E.OP_RETRIES
    {
      went := ok(calls);
      calls := calls + 1;
      for i := 0 to E.OP_RETRIES
        invariant old(calls) < calls == old(calls) + 1 + i
        invariant went == ok(calls - 1)
        invariant Attempted(ok, calls - 1, E.OP_RETRIES - i) == Attempted(ok, old(calls), E.OP_RETRIES)
      {
        if went {
          break;
        }
        went := ok(calls);
        calls := calls + 1;
      }
    }

    method ClaimKey(key: E.Key) returns (isNew: bool)
      modifies this`emitted
      ensures (emitted, isNew) == E.Claimed(old(emitted), key)
    {
      if key in emitted {
        return false;
      }
      emitted := emitted + {key};
      return true;
    }

    method ReleaseKey(key: E.Key)
      modifies this`emitted
      ensures emitted == E.Released(old(emitted), key)
    {
      emitted := emitted - {key};
    }

    /** Emit one message: a known key is dropped without a call; otherwise it is sent within three
        attempts, and its key stays if and only if the send succeeded. The id is what the send printed; a send
        that printed nothing has none, and is sent all the same. */
    method Emit(key: Option<E.Key>) returns (id: Option<string>)
      modifies this`calls, this`emitted
      ensures key.Some? && key.value in old(emitted) ==> id == None && calls == old(calls) && emitted == old(emitted)
      ensures !(key.Some? && key.value in old(emitted)) ==>
                var (last, went) := Attempted(ok, old(calls), E.OP_RETRIES);
                && calls == last + 1
                && id == (if went && Text.Strip(out(last)) != "" then Some(Text.Strip(out(last))) else None)
                && emitted == old(emitted) + (if went && key.Some? then {key.value} else {})
    {
      if key.Some? {
        var isNew := ClaimKey(key.value);
        if !isNew {
          return None;
        }
      }
      var went := Op();
      if !went {
        if key.Some? {
          ReleaseKey(key.value);
        }
        return None;
      }
      var mid := Text.Strip(out(calls - 1));
      return if mid != "" then Some(mid) else None;
    }

    /** One claim of the locked scan: it is left, dropped as dead, or takes the message. */
    method ScanOne(snapshot: seq<X.Claim>, ghost before: X.Conns, msg: X.Inbound, i: nat) returns (taken: bool)
      requires X.DistinctConns(snapshot) && i < |snapshot| && snapshot[i].conn in before
      requires claims == X.NotFor(snapshot[..i], msg) + snapshot[i..]
      requires conns == X.PassedConns(snapshot, before, msg, i)
      modifies this`claims, this`conns
      ensures taken <==> X.Takes(snapshot[i], before, msg)
      ensures taken ==> claims == X.NotFor(snapshot[..i], msg) + snapshot[i + 1..]
      ensures var passed, conn := X.PassedConns(snapshot, before, msg, i), snapshot[i].conn;
              taken ==> conns == X.Closed(X.Written(passed, conn, X.Reply(msg)), conn)
      ensures !taken ==> claims == X.NotFor(snapshot[..i + 1], msg) + snapshot[i + 1..] &&
                         conns == X.PassedConns(snapshot, before, msg, i + 1)
    {
      var claim := snapshot[i];
      X.PassOne(snapshot, before, msg, i);
      if !X.Matches(claim, msg) {
        KeepScanned(snapshot, msg, i);
        return false;
      }
      RemoveScanned(snapshot, msg, i);
      claims := Without(claims, claim);
      if X.Live(conns, claim.conn) {
        conns := X.Closed(X.Written(conns, claim.conn, X.Reply(msg)), claim.conn);
        return true;
      }
      conns := X.Closed(conns, claim.conn);
      return false;
    }

    /** The locked scan: it leaves exactly what the newest-live-claim rule says. */
    method TakeClaim(msg: X.Inbound) returns (taker: Option<nat>)
      requires X.DistinctConns(claims) && forall i | 0 <= i < |claims| :: claims[i].conn in conns
      modifies this`claims, this`conns
      ensures var m := X.Taker(old(claims), old(conns), msg, 0);
              && claims == X.ScannedClaims(old(claims), msg, m)
              && conns == X.ScannedConns(old(claims), old(conns), msg, m)
              && taker == if m < |old(claims)| then Some(old(claims)[m].conn) else None
    {
      var snapshot := claims;
      ghost var before := conns;
      var i := 0;
      X.NothingPassed(snapshot, before, msg);
      while i < |snapshot|
        invariant 0 <= i <= |snapshot|
        invariant forall j | 0 <= j < i :: !X.Takes(snapshot[j], before, msg)
        invariant claims == X.NotFor(snapshot[..i], msg) + snapshot[i..]
        invariant conns == X.PassedConns(snapshot, before, msg, i)
      {
        var taken := ScanOne(snapshot, before, msg, i);
        if taken {
          X.TakerIs(snapshot, before, msg, i);
          return Some(snapshot[i].conn);
        }
        i := i + 1;
      }
      X.TakerIs(snapshot, before, msg, |snapshot|);
      return None;
    }

    /** One claim of the reaper's pass. */
    method ReapOne(snapshot: seq<X.Claim>, ghost before: X.Conns, now: int, i: nat)
      requires X.DistinctConns(snapshot) && i < |snapshot| && snapshot[i].conn in before
      requires claims == X.Unexpired(snapshot[..i], now) + snapshot[i..]
      requires conns == X.ReapedConns(snapshot[..i], before, now)
      modifies this`claims, this`conns
      ensures claims == X.Unexpired(snapshot[..i + 1], now) + snapshot[i + 1..]
      ensures conns == X.ReapedConns(snapshot[..i + 1], before, now)
    {
      var claim := snapshot[i];
      X.ReapNext(snapshot, before, now, i);
      if claim.expires <= now {
        RemoveReaped(snapshot, now, i);
        claims := Without(claims, claim);
        conns := X.Closed(X.Written(conns, claim.conn, X.Lapsed), claim.conn);
      } else {
        KeepReaped(snapshot, now, i);
      }
    }

    /** One pass of the reaper. */
    method ReapOnce(now: int)
      requires X.DistinctConns(claims) && forall i | 0 <= i < |claims| :: claims[i].conn in conns
      modifies this`claims, this`conns
      ensures claims == X.Unexpired(old(claims), now)
      ensures conns == X.ReapedConns(old(claims), old(conns), now)
    {
      var snapshot := claims;
      ghost var before := conns;
      X.NothingReaped(snapshot, before, now);
      for i := 0 to |snapshot|
        invariant claims == X.Unexpired(snapshot[..i], now) + snapshot[i..]
        invariant conns == X.ReapedConns(snapshot[..i], before, now)
      {
        ReapOne(snapshot, before, now, i);
      }
      assert snapshot[..|snapshot|] == snapshot;
    }

    /** A newer attach takes the agent's place and closes the connection it supersedes. */
    method Attach(conn: nat, agent: string)
      modifies this`channels, this`conns
      ensures channels == old(channels)[agent := conn]
      ensures conns == if agent in old(channels) && old(channels)[agent] != conn
                       then X.Closed(old(conns), old(channels)[agent]) else old(conns)
    {
      if agent in channels && channels[agent] != conn {
        conns := X.Closed(conns, channels[agent]);
      }
      channels := channels[agent := conn];
    }

    method Detach(conn: nat, agent: string)
      modifies this`channels, this`conns
      ensures channels == X.Dropped(old(channels), agent, conn) && conns == X.Closed(old(conns), conn)
    {
      if agent in channels && channels[agent] == conn {
        channels := channels - {agent};
      }
      conns := X.Closed(conns, conn);
    }

    /** Route one inbound message, when no other thread runs in between: an open claim that can take it,
        else the control channel, else the live agent of its channel, else a refusal. */
    method RouteInbound(msg: X.Inbound) returns (to: Routed)
      requires X.DistinctConns(claims) && forall i | 0 <= i < |claims| :: claims[i].conn in conns
      modifies this`claims, this`conns, this`channels, this`calls
      ensures to == Destination(old(claims), old(conns), old(channels), old(routes), old(control), msg)
      ensures to.Undelivered? <==> calls > old(calls)
      ensures var m := X.Taker(old(claims), old(conns), msg, 0);
              var scanned := X.ScannedConns(old(claims), old(conns), msg, m);
              && claims == X.ScannedClaims(old(claims), msg, m)
              && conns == (if to.ToAgent? then X.Written(scanned, old(channels)[to.agent], X.Frame(msg)) else scanned)
      ensures channels == if to.Undelivered? && msg.chat in routes then old(channels) - {routes[msg.chat]}
                          else old(channels)
    {
      var taker := TakeClaim(msg);
      if taker.Some? {
        return ToExchange(taker.value);
      }
      if control == Some(msg.chat) {
        return ToControl;
      }
      if msg.chat in routes {
        var agent := routes[msg.chat];
        if agent in channels {
          var chan := channels[agent];
          if X.Live(conns, chan) {
            conns := X.Written(conns, chan, X.Frame(msg));
            return ToAgent(agent);
          }
          channels := X.Dropped(channels, agent, chan);
        }
      }
      var _ := Op();
      return Undelivered;
    }
  }

  /** The rule for one inbound message. */
  function Destination(claims: seq<X.Claim>, conns: X.Conns, channels: map<string, nat>,
                       routes: map<string, string>, control: Option<string>, msg: X.Inbound): Routed
  {
    var m := X.Taker(claims, conns, msg, 0);
    if m < |claims| then ToExchange(claims[m].conn)
    else if control == Some(msg.chat) then ToControl
    else if msg.chat in routes && routes[msg.chat] in channels &&
            X.Live(X.ScannedConns(claims, conns, msg, m), channels[routes[msg.chat]]) then ToAgent(routes[msg.chat])
    else Undelivered
  }

  /** The sink of the concurrent machine that a destination stands for. */
  function SinkOf(to: Routed, channels: map<string, nat>): X.Sink {
    match to
    case ToExchange(conn) => X.ToClaim(conn)
    case ToControl => X.ToControl
    case ToAgent(agent) => X.ToAgent(agent, if agent in channels then channels[agent] else 0)
    case Undelivered => X.NoOne
  }

  /** All steps of one routing thread, one after the other; those it does not come to change nothing. */
  function Alone(s: X.State, t: nat): X.State {
    Onward(X.Do(X.Do(s, X.ScanClaims(t)), X.CheckControl(t)), t)
  }

  function Onward(s: X.State, t: nat): X.State {
    Finish(X.Do(X.Do(s, X.LookUp(t)), X.FindChannel(t)), t)
  }

  function Finish(s: X.State, t: nat): X.State {
    X.Do(X.Do(X.Do(s, X.Push(t)), X.Drop(t)), X.React(t))
  }

  /** Where the thread is and what it has reached. */
  predicate Reached(s: X.State, t: nat, pc: X.Pc, sinks: seq<X.Sink>) {
    t in s.flow.threads && t in s.flow.sinks && s.flow.threads[t] == pc && s.flow.sinks[t] == sinks
  }

  lemma ThreadStep(s: X.State, a: X.Action, pc: X.Pc)
    requires X.IsThreadStep(a) && X.Enabled(s, a) && Reached(s, a.t, pc, [])
    ensures var (next, sink) := X.Next(s, pc);
            Reached(X.Do(s, a), a.t, next, if sink.Some? then [sink.value] else [])
    ensures var s' := X.Do(s, a); s'.routes == s.routes && s'.control == s.control
    ensures !a.Drop? ==> X.Do(s, a).registry == s.registry
    ensures !a.ScanClaims? && !a.Push? ==> X.Do(s, a).mail == s.mail
  {
  }

  lemma PushOrRefuse(s: X.State, t: nat, msg: X.Inbound, agent: string, conn: nat)
    requires Reached(s, t, X.Pushing(msg, agent, conn), [])
    ensures Reached(Finish(s, t), t, X.Over(msg),
                    [if X.Live(s.mail.conns, conn) then X.ToAgent(agent, conn) else X.NoOne])
  {
    ThreadStep(s, X.Push(t), X.Pushing(msg, agent, conn));
    var s1 := X.Do(s, X.Push(t));
    if !X.Live(s.mail.conns, conn) {
      ThreadStep(s1, X.Drop(t), X.Dropping(msg, agent, conn));
      ThreadStep(X.Do(s1, X.Drop(t)), X.React(t), X.Refusing(msg));
    }
  }

  lemma RefusingFinishes(s: X.State, t: nat, msg: X.Inbound)
    requires Reached(s, t, X.Refusing(msg), [])
    ensures Reached(Finish(s, t), t, X.Over(msg), [X.NoOne])
  {
    ThreadStep(s, X.React(t), X.Refusing(msg));
  }

  /** The sink of a message that no claim and not the control channel took. */
  function AgentSink(s: X.State, msg: X.Inbound): X.Sink {
    var channels := s.registry.channels;
    if msg.chat in s.routes && s.routes[msg.chat] in channels && X.Live(s.mail.conns, channels[s.routes[msg.chat]])
    then X.ToAgent(s.routes[msg.chat], channels[s.routes[msg.chat]])
    else X.NoOne
  }

  lemma FoundAgent(s: X.State, t: nat, msg: X.Inbound)
    requires msg.chat in s.routes && Reached(s, t, X.Routing(msg, s.routes[msg.chat]), [])
    ensures Reached(Finish(X.Do(s, X.FindChannel(t)), t), t, X.Over(msg), [AgentSink(s, msg)])
  {
    var agent := s.routes[msg.chat];
    ThreadStep(s, X.FindChannel(t), X.Routing(msg, agent));
    var s' := X.Do(s, X.FindChannel(t));
    if agent in s.registry.channels {
      PushOrRefuse(s', t, msg, agent, s.registry.channels[agent]);
    } else {
      RefusingFinishes(s', t, msg);
    }
  }

  lemma RouteOrRefuse(s: X.State, t: nat, msg: X.Inbound)
    requires Reached(s, t, X.NotControl(msg), [])
    ensures Reached(Onward(s, t), t, X.Over(msg), [AgentSink(s, msg)])
  {
    ThreadStep(s, X.LookUp(t), X.NotControl(msg));
    var s' := X.Do(s, X.LookUp(t));
    assert AgentSink(s', msg) == AgentSink(s, msg);
    if msg.chat in s.routes {
      FoundAgent(s', t, msg);
    } else {
      RefusingWaits(s', X.FindChannel(t), msg);
      RefusingFinishes(s', t, msg);
    }
  }

  lemma RefusingWaits(s: X.State, a: X.Action, msg: X.Inbound)
    requires a.FindChannel? && Reached(s, a.t, X.Refusing(msg), [])
    ensures X.Do(s, a) == s
  {
  }

  /** A routing thread of the concurrent machine that no one interrupts reaches the destination of the
      sequential rule, and no other. */
  lemma AloneReachesDestination(s: X.State, t: nat, msg: X.Inbound)
    requires Reached(s, t, X.Arrived(msg), [])
    ensures var channels := s.registry.channels;
            Reached(Alone(s, t), t, X.Over(msg),
                    [SinkOf(Destination(s.mail.claims, s.mail.conns, channels, s.routes, s.control, msg), channels)])
  {
    ThreadStep(s, X.ScanClaims(t), X.Arrived(msg));
    var s1 := X.Do(s, X.ScanClaims(t));
    if X.Taker(s.mail.claims, s.mail.conns, msg, 0) < |s.mail.claims| {
      OverStays(s1, X.CheckControl(t));
      OnwardStays(s1, t);
    } else {
      Unconsumed(s1, t, msg);
      NotTaken(s, t, msg);
    }
  }

  /** What no claim takes goes where the rule sends it. */
  lemma NotTaken(s: X.State, t: nat, msg: X.Inbound)
    requires Reached(s, t, X.Arrived(msg), [])
    requires X.Taker(s.mail.claims, s.mail.conns, msg, 0) == |s.mail.claims|
    ensures var channels := s.registry.channels;
            (if s.control == Some(msg.chat) then X.ToControl else AgentSink(X.Do(s, X.ScanClaims(t)), msg)) ==
            SinkOf(Destination(s.mail.claims, s.mail.conns, channels, s.routes, s.control, msg), channels)
  {
  }

  lemma Unconsumed(s: X.State, t: nat, msg: X.Inbound)
    requires Reached(s, t, X.Unclaimed(msg), [])
    ensures Reached(Onward(X.Do(s, X.CheckControl(t)), t), t, X.Over(msg),
                    [if s.control == Some(msg.chat) then X.ToControl else AgentSink(s, msg)])
  {
    ThreadStep(s, X.CheckControl(t), X.Unclaimed(msg));
    var s' := X.Do(s, X.CheckControl(t));
    if s.control == Some(msg.chat) {
      OnwardStays(s', t);
    } else {
      RouteOrRefuse(s', t, msg);
    }
  }

  lemma OverStays(s: X.State, a: X.Action)
    requires X.IsThreadStep(a) && a.t in s.flow.threads && s.flow.threads[a.t].Over?
    ensures X.Do(s, a) == s
  {
  }

  lemma OnwardStays(s: X.State, t: nat)
    requires t in s.flow.threads && s.flow.threads[t].Over?
    ensures Onward(s, t) == s
  {
    OverStays(s, X.LookUp(t));
    OverStays(s, X.FindChannel(t));
    OverStays(s, X.Push(t));
    OverStays(s, X.Drop(t));
    OverStays(s, X.React(t));
  }

  lemma RemoveScanned(snapshot: seq<X.Claim>, msg: X.Inbound, i: nat)
    requires X.DistinctConns(snapshot) && i < |snapshot|
    ensures Without(X.NotFor(snapshot[..i], msg) + snapshot[i..], snapshot[i]) ==
            X.NotFor(snapshot[..i], msg) + snapshot[i + 1..]
  {
    var front := X.NotFor(snapshot[..i], msg);
    WithoutAfter(front, snapshot[i], snapshot[i + 1..]);
    assert front + snapshot[i..] == front + [snapshot[i]] + snapshot[i + 1..];
  }

  lemma RemoveReaped(snapshot: seq<X.Claim>, now: int, i: nat)
    requires X.DistinctConns(snapshot) && i < |snapshot|
    ensures Without(X.Unexpired(snapshot[..i], now) + snapshot[i..], snapshot[i]) ==
            X.Unexpired(snapshot[..i], now) + snapshot[i + 1..]
  {
    var front := X.Unexpired(snapshot[..i], now);
    WithoutAfter(front, snapshot[i], snapshot[i + 1..]);
    assert front + snapshot[i..] == front + [snapshot[i]] + snapshot[i + 1..];
  }

  lemma KeepScanned(snapshot: seq<X.Claim>, msg: X.Inbound, i: nat)
    requires i < |snapshot|
    ensures X.NotFor(snapshot[..i], msg) + [snapshot[i]] + snapshot[i + 1..] ==
            X.NotFor(snapshot[..i], msg) + snapshot[i..]
  {
  }

  lemma KeepReaped(snapshot: seq<X.Claim>, now: int, i: nat)
    requires i < |snapshot|
    ensures X.Unexpired(snapshot[..i], now) + [snapshot[i]] + snapshot[i + 1..] ==
            X.Unexpired(snapshot[..i], now) + snapshot[i..]
  {
  }
}
