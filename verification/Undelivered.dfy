/** When a routed message reaches no one. */
module Undelivered {
  import opened Exchange
  import opened Wrappers

  /** The step of a routing thread that finds no way on: the chat has no route, the agent is not registered, or the
      connection found for it is dead or has been closed since. */
  predicate FindsNoWay(s: State, a: Action, t: nat) {
    Enabled(s, a) &&
    match a
    case LookUp(u) => u == t && s.flow.threads[t].msg.chat !in s.routes
    case FindChannel(u) => u == t && s.flow.threads[t].agent !in s.registry.channels
    case Push(u) => u == t && !Live(s.mail.conns, s.flow.threads[t].conn)
    case _ => false
  }

  /** The thread has refused its message, or is about to. */
  predicate Refuses(s: State, t: nat) {
    At(s, t) && t in s.flow.sinks &&
    (s.flow.threads[t].Dropping? || s.flow.threads[t].Refusing? ||
     (s.flow.threads[t].Over? && s.flow.sinks[t] == [NoOne]))
  }

  /** The thread has reached a sink if and only if it is over. */
  predicate OnItsWay(s: State, t: nat) {
    At(s, t) && t in s.flow.sinks && |s.flow.sinks[t]| == if s.flow.threads[t].Over? then 1 else 0
  }

  lemma StepRefusesIff(s: State, a: Action, t: nat)
    requires OnItsWay(s, t)
    ensures OnItsWay(Do(s, a), t)
    ensures Refuses(Do(s, a), t) <==> Refuses(s, t) || FindsNoWay(s, a, t)
  {
    if Enabled(s, a) && IsThreadStep(a) && a.t == t {
      OwnStepRefusesIff(s, a);
    }
  }

  lemma OwnStepRefusesIff(s: State, a: Action)
    requires Enabled(s, a) && IsThreadStep(a) && OnItsWay(s, a.t)
    ensures OnItsWay(Do(s, a), a.t)
    ensures Refuses(Do(s, a), a.t) <==> Refuses(s, a.t) || FindsNoWay(s, a, a.t)
  {
    var (pc, sink) := Next(s, s.flow.threads[a.t]);
    assert s.flow.sinks[a.t] == [];
    assert Do(s, a).flow == Moved(s.flow, a.t, pc, sink);
    if sink.Some? {
      assert Do(s, a).flow.sinks[a.t] == [sink.value];
    }
  }

  /** At some step of the run the thread found no way on. */
  predicate FoundNoWay(s: State, t: nat, actions: seq<Action>) {
    exists i | 0 <= i < |actions| :: FindsNoWay(Exchange.Run(s, actions[..i]), actions[i], t)
  }

  lemma FoundNoWaySnoc(s: State, t: nat, actions: seq<Action>, a: Action)
    ensures FoundNoWay(s, t, actions + [a]) <==> FoundNoWay(s, t, actions) || FindsNoWay(Exchange.Run(s, actions), a, t)
  {
    var all, n := actions + [a], |actions|;
    assert all[..n] == actions;
    assert forall i | 0 <= i < n :: all[..i] == actions[..i] && all[i] == actions[i];
    if FoundNoWay(s, t, actions) {
      var i :| 0 <= i < n && FindsNoWay(Exchange.Run(s, actions[..i]), actions[i], t);
      assert FindsNoWay(Exchange.Run(s, all[..i]), all[i], t);
    }
    if FindsNoWay(Exchange.Run(s, actions), a, t) {
      assert FindsNoWay(Exchange.Run(s, all[..n]), all[n], t);
    }
  }

  /** In every interleaving, a message whose thread has just received it ends up with no one if and only if one of the
      thread's three lookups found no way on. */
  lemma {:induction false} ReachesNoOneIff(s: State, t: nat, actions: seq<Action>)
    requires OnItsWay(s, t) && s.flow.threads[t].Arrived?
    ensures var u := Exchange.Run(s, actions);
            && OnItsWay(u, t) && (Refuses(u, t) <==> FoundNoWay(s, t, actions))
            && (u.flow.threads[t].Over? ==> (FoundNoWay(s, t, actions) <==> u.flow.sinks[t] == [NoOne]))
  {
    if actions != [] {
      var n := |actions| - 1;
      ReachesNoOneIff(s, t, actions[..n]);
      StepRefusesIff(Exchange.Run(s, actions[..n]), actions[n], t);
      FoundNoWaySnoc(s, t, actions[..n], actions[n]);
      assert actions == actions[..n] + [actions[n]];
    }
  }

  lemma Advance(s: State, a: Action)
    requires Enabled(s, a) && IsThreadStep(a) && OnItsWay(s, a.t)
    ensures var (pc, sink) := Next(s, s.flow.threads[a.t]);
            && Do(s, a).flow.threads[a.t] == pc && a.t in Do(s, a).flow.sinks
            && Do(s, a).flow.sinks[a.t] == (if sink.Some? then [sink.value] else [])
            && Do(s, a).registry == RegistryAfter(s, a) && Do(s, a).mail == MailAfter(s, a)
  {
    assert s.flow.sinks[a.t] == [];
  }

  lemma PushFails(s: State, t: nat, msg: Inbound, agent: string, conn: nat)
    requires OnItsWay(s, t) && s.flow.threads[t] == Pushing(msg, agent, conn) && !Live(s.mail.conns, conn)
    requires agent in s.registry.channels && s.registry.channels[agent] != conn
    ensures var u := Do(Do(Do(s, Push(t)), Drop(t)), React(t));
            && u.flow.threads[t] == Over(msg) && u.flow.sinks[t] == [NoOne]
            && u.registry.channels == s.registry.channels && u.mail.conns == s.mail.conns
  {
    Advance(s, Push(t));
    Advance(Do(s, Push(t)), Drop(t));
    Advance(Do(Do(s, Push(t)), Drop(t)), React(t));
  }

  lemma AttachSupersedes(s: State, t: nat, msg: Inbound, agent: string, conn: nat)
    requires OnItsWay(s, t) && s.flow.threads[t] == Routing(msg, agent)
    requires agent in s.registry.channels && s.registry.channels[agent] != conn
    requires Unused(s, conn) && !s.mail.conns[conn].dead
    ensures var u := Do(Do(s, FindChannel(t)), Attach(conn, agent));
            && OnItsWay(u, t) && u.flow.threads[t] == Pushing(msg, agent, s.registry.channels[agent])
            && agent in u.registry.channels && u.registry.channels[agent] == conn && Live(u.mail.conns, conn)
            && !Live(u.mail.conns, s.registry.channels[agent])
  {
    var found := Do(s, FindChannel(t));
    assert found.flow.threads[t] == Pushing(msg, agent, s.registry.channels[agent]) && found.flow.sinks[t] == [];
  }

  /** A thread has found the agent's connection when the agent attaches anew: the push fails on the connection that
      the attach closed, and the message is refused though the agent is registered on a live connection. */
  lemma SupersededIsRefused(s: State, t: nat, agent: string, conn: nat, msg: Inbound)
    requires OnItsWay(s, t) && s.flow.threads[t] == Routing(msg, agent)
    requires agent in s.registry.channels && s.registry.channels[agent] != conn
    requires Unused(s, conn) && !s.mail.conns[conn].dead
    ensures var u := Do(Do(Do(Do(Do(s, FindChannel(t)), Attach(conn, agent)), Push(t)), Drop(t)), React(t));
            && u.flow.threads[t] == Over(msg) && u.flow.sinks[t] == [NoOne]
            && agent in u.registry.channels && u.registry.channels[agent] == conn && Live(u.mail.conns, conn)
  {
    AttachSupersedes(s, t, msg, agent, conn);
    PushFails(Do(Do(s, FindChannel(t)), Attach(conn, agent)), t, msg, agent, s.registry.channels[agent]);
  }
}
