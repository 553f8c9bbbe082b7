/** Inbound mediation under concurrency: open claims, the agents' sockets, routing and the reaper.

    A connection is a number. Its client may die at any time; a write fails on a dead or closed one. */
module Exchange {
  import Lists
  import Text
  import opened Wrappers

  datatype Inbound = Inbound(id: string, chat: string)

  datatype Line = Reply(msg: Inbound) | Lapsed | Frame(msg: Inbound)

  datatype Conn = Conn(dead: bool, closed: bool, lines: seq<Line>)

  datatype Claim = Claim(chat: string, since: string, conn: nat, expires: int)

  const OPEN := Conn(false, false, [])

  type Conns = map<nat, Conn>

  // ------------------------------------------------------------------ message order

  function Value(s: string): nat
    requires forall i | 0 <= i < |s| :: '0' <= s[i] <= '9'
  {
    if s == "" then 0 else 10 * Value(s[..|s| - 1]) + (s[|s| - 1] as int - '0' as int)
  }

  predicate TextAfter(a: string, b: string) {
    if a == "" then false
    else if b == "" then true
    else if a[0] != b[0] then a[0] > b[0]
    else TextAfter(a[1..], b[1..])
  }

  /** Strictly newer: by number when both ids are numeric, else by text. */
  predicate After(id: string, since: string) {
    if Text.IsDigits(id) && Text.IsDigits(since) then Value(id) > Value(since) else TextAfter(id, since)
  }

  // ------------------------------------------------------------------ locked sections

  predicate Matches(c: Claim, msg: Inbound) {
    c.chat == msg.chat && After(msg.id, c.since)
  }

  predicate Live(conns: Conns, conn: nat) {
    conn in conns && !conns[conn].dead && !conns[conn].closed
  }

  function Written(conns: Conns, conn: nat, line: Line): Conns {
    if Live(conns, conn) then conns[conn := conns[conn].(lines := conns[conn].lines + [line])] else conns
  }

  function Closed(conns: Conns, conn: nat): Conns {
    if conn in conns then conns[conn := conns[conn].(closed := true)] else conns
  }

  predicate DistinctConns(claims: seq<Claim>) {
    forall i, j | 0 <= i < j < |claims| :: claims[i].conn != claims[j].conn
  }

  predicate Takes(c: Claim, conns: Conns, msg: Inbound) {
    Matches(c, msg) && Live(conns, c.conn)
  }

  /** The place of the newest claim from i on that can take the message; |claims| if none can. */
  function Taker(claims: seq<Claim>, conns: Conns, msg: Inbound, i: nat): (m: nat)
    requires i <= |claims|
    ensures i <= m <= |claims|
    ensures m < |claims| ==> Takes(claims[m], conns, msg)
    ensures forall j | i <= j < m :: !Takes(claims[j], conns, msg)
    decreases |claims| - i
  {
    if i == |claims| || Takes(claims[i], conns, msg) then i else Taker(claims, conns, msg, i + 1)
  }

  function NotFor(claims: seq<Claim>, msg: Inbound): (r: seq<Claim>)
    ensures forall c :: c in r <==> c in claims && !Matches(c, msg)
  {
    Lists.Filter(c => !Matches(c, msg), claims)
  }

  /** The stack after the claims above m were scanned. */
  function ScannedClaims(claims: seq<Claim>, msg: Inbound, m: nat): seq<Claim>
    requires m <= |claims|
  {
    NotFor(claims[..m], msg) + (if m < |claims| then claims[m + 1..] else [])
  }

  predicate MatchedAbove(claims: seq<Claim>, msg: Inbound, m: nat, k: nat)
    requires m <= |claims|
  {
    exists c | c in claims[..m] :: c.conn == k && Matches(c, msg)
  }

  /** The connections after the claims above m were scanned: matching ones were dead and are closed. */
  function PassedConns(claims: seq<Claim>, conns: Conns, msg: Inbound, m: nat): Conns
    requires m <= |claims|
  {
    map k | k in conns :: if MatchedAbove(claims, msg, m, k) then conns[k].(closed := true) else conns[k]
  }

  /** The connections after the whole scan: the taker got the message and was closed. */
  function ScannedConns(claims: seq<Claim>, conns: Conns, msg: Inbound, m: nat): Conns
    requires m <= |claims|
  {
    var passed := PassedConns(claims, conns, msg, m);
    if m < |claims| then Closed(Written(passed, claims[m].conn, Reply(msg)), claims[m].conn) else passed
  }

  predicate ExpiredOn(claims: seq<Claim>, now: int, k: nat) {
    exists c | c in claims :: c.conn == k && c.expires <= now
  }

  function Unexpired(claims: seq<Claim>, now: int): (r: seq<Claim>)
    ensures forall c :: c in r <==> c in claims && c.expires > now
  {
    Lists.Filter((c: Claim) => c.expires > now, claims)
  }

  /** A lapsed claim's connection is told so if it can be written to, and closed. */
  function LapsedConn(c: Conn): Conn {
    Conn(c.dead, true, if c.dead || c.closed then c.lines else c.lines + [Lapsed])
  }

  function ReapedConns(claims: seq<Claim>, conns: Conns, now: int): Conns {
    map k | k in conns :: if ExpiredOn(claims, now, k) then LapsedConn(conns[k]) else conns[k]
  }

  /** Drop the agent's entry only if it still holds this connection. */
  function Dropped(channels: map<string, nat>, agent: string, conn: nat): map<string, nat> {
    if agent in channels && channels[agent] == conn then channels - {agent} else channels
  }

  // ------------------------------------------------------------------ the machine

  /** The claim stack, every connection, and the connections that ever carried a claim. */
  datatype Mail = Mail(claims: seq<Claim>, conns: Conns, asked: set<nat>)

  /** The agents' sockets: the live registry, and what happened so far - whom each attached connection
      serves, each agent's newest attach, and the attached connections that failed or disconnected. */
  datatype Registry = Registry(
    channels: map<string, nat>, serving: map<nat, string>, newest: map<string, nat>, gone: set<nat>)

  /** Where one routing thread is. */
  datatype Pc =
    | Arrived(msg: Inbound)
    | Unclaimed(msg: Inbound)
    | NotControl(msg: Inbound)
    | Routing(msg: Inbound, agent: string)
    | Pushing(msg: Inbound, agent: string, conn: nat)
    | Dropping(msg: Inbound, agent: string, conn: nat)
    | Refusing(msg: Inbound)
    | Over(msg: Inbound)

  datatype Sink = ToClaim(conn: nat) | ToControl | ToAgent(agent: string, conn: nat) | NoOne

  /** The routing threads and the sinks each has reached. */
  datatype Flow = Flow(threads: map<nat, Pc>, sinks: map<nat, seq<Sink>>)

  datatype State = State(
    mail: Mail, registry: Registry, flow: Flow, routes: map<string, string>, control: Option<string>)

  datatype Action =
    | Connect(conn: nat)
    | Die(conn: nat)
    | Ask(claim: Claim)
    | Attach(conn: nat, agent: string)
    | Detach(conn: nat)
    | Lapse(now: int)
    | SetRoutes(routes: map<string, string>)
    | SetControl(control: Option<string>)
    | Receive(t: nat, msg: Inbound)
    | ScanClaims(t: nat)
    | CheckControl(t: nat)
    | LookUp(t: nat)
    | FindChannel(t: nat)
    | Push(t: nat)
    | Drop(t: nat)
    | React(t: nat)

  const INITIAL := State(Mail([], map[], {}), Registry(map[], map[], map[], {}), Flow(map[], map[]), map[], None)

  predicate Unused(s: State, conn: nat) {
    conn in s.mail.conns && !s.mail.conns[conn].closed && conn !in s.mail.asked && conn !in s.registry.serving
  }

  predicate At(s: State, t: nat) {
    t in s.flow.threads
  }

  predicate Enabled(s: State, a: Action) {
    match a
    case Connect(conn) => conn !in s.mail.conns
    case Die(conn) => conn in s.mail.conns
    case Ask(claim) => Unused(s, claim.conn)
    case Attach(conn, _) => Unused(s, conn)
    case Detach(conn) => conn in s.registry.serving
    case Lapse(_) => true
    case SetRoutes(_) => true
    case SetControl(_) => true
    case Receive(t, _) => !At(s, t)
    case ScanClaims(t) => At(s, t) && s.flow.threads[t].Arrived?
    case CheckControl(t) => At(s, t) && s.flow.threads[t].Unclaimed?
    case LookUp(t) => At(s, t) && s.flow.threads[t].NotControl?
    case FindChannel(t) => At(s, t) && s.flow.threads[t].Routing?
    case Push(t) => At(s, t) && s.flow.threads[t].Pushing?
    case Drop(t) => At(s, t) && s.flow.threads[t].Dropping?
    case React(t) => At(s, t) && s.flow.threads[t].Refusing?
  }

  function Scanned(m: Mail, msg: Inbound): Mail {
    var k := Taker(m.claims, m.conns, msg, 0);
    m.(claims := ScannedClaims(m.claims, msg, k), conns := ScannedConns(m.claims, m.conns, msg, k))
  }

  function Reaped(m: Mail, now: int): Mail {
    m.(claims := Unexpired(m.claims, now), conns := ReapedConns(m.claims, m.conns, now))
  }

  // What a step does to each of the three parts.

  function MailAfter(s: State, a: Action): Mail
    requires Enabled(s, a)
  {
    var m := s.mail;
    match a
    case Connect(conn) => m.(conns := m.conns[conn := OPEN])
    case Die(conn) => m.(conns := m.conns[conn := m.conns[conn].(dead := true)])
    case Ask(claim) => m.(claims := [claim] + m.claims, asked := m.asked + {claim.conn})
    case Attach(_, agent) =>
      if agent in s.registry.channels then m.(conns := Closed(m.conns, s.registry.channels[agent])) else m
    case Detach(conn) => m.(conns := Closed(m.conns, conn))
    case Lapse(now) => Reaped(m, now)
    case ScanClaims(t) => Scanned(m, s.flow.threads[t].msg)
    case Push(t) => m.(conns := Written(m.conns, s.flow.threads[t].conn, Frame(s.flow.threads[t].msg)))
    case _ => m
  }

  function RegistryAfter(s: State, a: Action): Registry
    requires Enabled(s, a)
  {
    var g := s.registry;
    match a
    case Attach(conn, agent) =>
      g.(channels := g.channels[agent := conn], serving := g.serving[conn := agent], newest := g.newest[agent := conn])
    case Detach(conn) => g.(channels := Dropped(g.channels, g.serving[conn], conn), gone := g.gone + {conn})
    case Drop(t) =>
      var pc := s.flow.threads[t];
      g.(channels := Dropped(g.channels, pc.agent, pc.conn), gone := g.gone + {pc.conn})
    case _ => g
  }

  /** Where the thread goes, and the sink it reaches by the way. */
  function Next(s: State, pc: Pc): (Pc, Option<Sink>) {
    match pc
    case Arrived(msg) =>
      var k := Taker(s.mail.claims, s.mail.conns, msg, 0);
      if k < |s.mail.claims| then (Over(msg), Some(ToClaim(s.mail.claims[k].conn))) else (Unclaimed(msg), None)
    case Unclaimed(msg) => if s.control == Some(msg.chat) then (Over(msg), Some(ToControl)) else (NotControl(msg), None)
    case NotControl(msg) =>
      (if msg.chat in s.routes then Routing(msg, s.routes[msg.chat]) else Refusing(msg), None)
    case Routing(msg, agent) =>
      (if agent in s.registry.channels then Pushing(msg, agent, s.registry.channels[agent]) else Refusing(msg), None)
    case Pushing(msg, agent, conn) =>
      if Live(s.mail.conns, conn) then (Over(msg), Some(ToAgent(agent, conn))) else (Dropping(msg, agent, conn), None)
    case Dropping(msg, _, _) => (Refusing(msg), None)
    case Refusing(msg) => (Over(msg), Some(NoOne))
    case Over(_) => (pc, None)
  }

  function Moved(f: Flow, t: nat, pc: Pc, sink: Option<Sink>): Flow {
    var had := if t in f.sinks then f.sinks[t] else [];
    Flow(f.threads[t := pc], if sink.Some? then f.sinks[t := had + [sink.value]] else f.sinks)
  }

  predicate IsThreadStep(a: Action) {
    a.ScanClaims? || a.CheckControl? || a.LookUp? || a.FindChannel? || a.Push? || a.Drop? || a.React?
  }

  function FlowAfter(s: State, a: Action): Flow
    requires Enabled(s, a)
  {
    if a.Receive? then Flow(s.flow.threads[a.t := Arrived(a.msg)], s.flow.sinks[a.t := []])
    else if IsThreadStep(a) then
      var (pc, sink) := Next(s, s.flow.threads[a.t]);
      Moved(s.flow, a.t, pc, sink)
    else s.flow
  }

  /** One atomic step; an action that is not enabled changes nothing. */
  function Do(s: State, a: Action): State {
    if !Enabled(s, a) then s
    else State(MailAfter(s, a), RegistryAfter(s, a), FlowAfter(s, a),
               if a.SetRoutes? then a.routes else s.routes,
               if a.SetControl? then a.control else s.control)
  }

  function Run(s: State, actions: seq<Action>): State {
    if actions == [] then s else Do(Run(s, actions[..|actions| - 1]), actions[|actions| - 1])
  }

  // ------------------------------------------------------------------ claims

  predicate OnStack(claims: seq<Claim>, k: nat) {
    exists c | c in claims :: c.conn == k
  }

  /** Each claim has its own connection; while it waits the connection is open and got nothing, and once
      it left the stack the connection is closed, with at most one line. */
  predicate Waiting(m: Mail) {
    && DistinctConns(m.claims)
    && (forall c | c in m.claims :: c.conn in m.asked)
    && (forall k | k in m.asked :: k in m.conns && |m.conns[k].lines| <= 1)
    && (forall k | k in m.asked :: (OnStack(m.claims, k) <==> !m.conns[k].closed))
    && (forall k | k in m.asked && m.conns[k].lines != [] :: m.conns[k].closed)
  }

  /** Claim connections and attached connections are different ones, and only those get lines. */
  predicate Apart(m: Mail, serving: set<nat>) {
    && (forall k | k in m.asked :: k !in serving)
    && (forall k | k in m.conns && k !in m.asked && k !in serving :: m.conns[k].lines == [])
    && (forall k | k in serving :: k in m.conns)
  }

  /** A closed connection stays closed and gets nothing more. */
  predicate ClosedIsFinal(conns: Conns, conns': Conns) {
    forall k | k in conns && conns[k].closed ::
      k in conns' && conns'[k].closed && conns'[k].lines == conns[k].lines
  }

  /** The stack loses claims: their connections are closed with at most one line, others are as before. */
  predicate Leaves(claims: seq<Claim>, conns: Conns, claims': seq<Claim>, conns': Conns) {
    && DistinctConns(claims')
    && (forall c | c in claims' :: c in claims)
    && conns'.Keys == conns.Keys
    && (forall c | c in claims && c !in claims' :: c.conn in conns ==>
          conns'[c.conn].closed && |conns'[c.conn].lines| <= |conns[c.conn].lines| + 1)
    && (forall k | k in conns && (OnStack(claims', k) || !OnStack(claims, k)) :: conns'[k] == conns[k])
  }

  lemma LeavingKeeps(m: Mail, serving: set<nat>, claims: seq<Claim>, conns: Conns)
    requires Waiting(m) && Apart(m, serving) && Leaves(m.claims, m.conns, claims, conns)
    ensures var m' := Mail(claims, conns, m.asked); Waiting(m') && Apart(m', serving)
    ensures ClosedIsFinal(m.conns, conns)
  {
    forall k | k in m.asked
      ensures OnStack(claims, k) <==> !conns[k].closed
      ensures |conns[k].lines| <= 1 && (conns[k].lines != [] ==> conns[k].closed)
    {
      if OnStack(m.claims, k) && !OnStack(claims, k) {
        var c :| c in m.claims && c.conn == k;
        assert c !in claims;
      } else if OnStack(claims, k) {
        assert OnStack(m.claims, k);
      }
    }
    forall k | k in m.conns && k !in m.asked
      ensures conns[k] == m.conns[k]
    {
      assert !OnStack(m.claims, k);
    }
    forall k | k in m.conns && m.conns[k].closed
      ensures conns[k] == m.conns[k]
    {
      assert !OnStack(m.claims, k);
    }
  }

  lemma SameConnSameClaim(claims: seq<Claim>, c: Claim, d: Claim)
    requires DistinctConns(claims) && c in claims && d in claims && c.conn == d.conn
    ensures c == d
  {
    var i :| 0 <= i < |claims| && claims[i] == c;
    var j :| 0 <= j < |claims| && claims[j] == d;
  }

  lemma {:induction false} FilterKeepsDistinct(f: Claim -> bool, claims: seq<Claim>)
    requires DistinctConns(claims)
    ensures DistinctConns(Lists.Filter(f, claims))
  {
    if claims != [] {
      var n := |claims| - 1;
      FilterKeepsDistinct(f, claims[..n]);
      forall c | c in Lists.Filter(f, claims[..n])
        ensures c.conn != claims[n].conn
      {
        var i :| 0 <= i < n && claims[..n][i] == c;
        assert claims[i] == c;
      }
    }
  }

  /** Who is left on the stack: everyone but the taker and the matching claims above it. */
  lemma ScannedMembers(claims: seq<Claim>, msg: Inbound, m: nat, c: Claim)
    requires DistinctConns(claims) && m <= |claims|
    ensures c in ScannedClaims(claims, msg, m) <==>
            c in claims && !MatchedAbove(claims, msg, m, c.conn) && (m < |claims| ==> c.conn != claims[m].conn)
  {
    if c in claims {
      var i :| 0 <= i < |claims| && claims[i] == c;
      if i < m {
        assert claims[..m][i] == c;
      } else if i > m {
        assert claims[m + 1..][i - m - 1] == c;
      }
      if MatchedAbove(claims, msg, m, c.conn) {
        var d :| d in claims[..m] && d.conn == c.conn && Matches(d, msg);
        SameConnSameClaim(claims, c, d);
      }
    }
    if c in ScannedClaims(claims, msg, m) && c !in NotFor(claims[..m], msg) {
      var j :| m < j < |claims| && claims[j] == c;
      forall d | d in claims[..m]
        ensures d.conn != c.conn
      {
        var i :| 0 <= i < m && claims[i] == d;
      }
    } else if c in NotFor(claims[..m], msg) {
      var i :| 0 <= i < m && claims[i] == c;
      assert forall d | d in claims[..m] && d.conn == c.conn :: d == c by {
        forall d | d in claims[..m] && d.conn == c.conn
          ensures d == c
        {
          SameConnSameClaim(claims, c, d);
        }
      }
    }
  }

  lemma ScannedDistinct(claims: seq<Claim>, msg: Inbound, m: nat)
    requires DistinctConns(claims) && m <= |claims|
    ensures DistinctConns(ScannedClaims(claims, msg, m))
  {
    var front := NotFor(claims[..m], msg);
    var back := if m < |claims| then claims[m + 1..] else [];
    FilterKeepsDistinct(c => !Matches(c, msg), claims[..m]);
    forall c, d | c in front && d in back
      ensures c.conn != d.conn
    {
      var i :| 0 <= i < m && claims[i] == c;
      var j :| m < j < |claims| && claims[j] == d;
    }
  }

  /** What the scan leaves on each connection. */
  lemma ScannedConn(claims: seq<Claim>, conns: Conns, msg: Inbound, k: nat)
    requires DistinctConns(claims) && k in conns
    ensures var m := Taker(claims, conns, msg, 0);
            var conns' := ScannedConns(claims, conns, msg, m);
            && conns'.Keys == conns.Keys
            && conns'[k] == if m < |claims| && claims[m].conn == k then Conn(false, true, conns[k].lines + [Reply(msg)])
                            else if MatchedAbove(claims, msg, m, k) then conns[k].(closed := true)
                            else conns[k]
  {
    var m := Taker(claims, conns, msg, 0);
    if m < |claims| {
      forall d | d in claims[..m]
        ensures d.conn != claims[m].conn
      {
        var i :| 0 <= i < m && claims[i] == d;
      }
    }
  }

  /** A claim the scan took off has its connection closed, with at most one line more. */
  lemma ScanTakesOff(claims: seq<Claim>, conns: Conns, msg: Inbound, c: Claim)
    requires DistinctConns(claims) && c in claims && c.conn in conns
    ensures var m := Taker(claims, conns, msg, 0);
            var conn := ScannedConns(claims, conns, msg, m)[c.conn];
            c !in ScannedClaims(claims, msg, m) ==> conn.closed && |conn.lines| <= |conns[c.conn].lines| + 1
  {
    ScannedMembers(claims, msg, Taker(claims, conns, msg, 0), c);
    ScannedConn(claims, conns, msg, c.conn);
  }

  /** A connection whose claim stays, or that has none, is not touched. */
  lemma ScanLeavesOthers(claims: seq<Claim>, conns: Conns, msg: Inbound, k: nat)
    requires DistinctConns(claims) && k in conns
    ensures var m := Taker(claims, conns, msg, 0);
            OnStack(ScannedClaims(claims, msg, m), k) || !OnStack(claims, k) ==>
              ScannedConns(claims, conns, msg, m)[k] == conns[k]
  {
    var m := Taker(claims, conns, msg, 0);
    ScannedConn(claims, conns, msg, k);
    if OnStack(ScannedClaims(claims, msg, m), k) {
      var c :| c in ScannedClaims(claims, msg, m) && c.conn == k;
      ScannedMembers(claims, msg, m, c);
    } else if !OnStack(claims, k) {
      assert m < |claims| ==> claims[m] in claims;
      assert forall c | c in claims[..m] :: c in claims;
    }
  }

  lemma ScanKeepsMembers(claims: seq<Claim>, msg: Inbound, m: nat)
    requires DistinctConns(claims) && m <= |claims|
    ensures DistinctConns(ScannedClaims(claims, msg, m))
    ensures forall c | c in ScannedClaims(claims, msg, m) :: c in claims
  {
    ScannedDistinct(claims, msg, m);
    forall c | c in ScannedClaims(claims, msg, m)
      ensures c in claims
    {
      ScannedMembers(claims, msg, m, c);
    }
  }

  lemma ScanLeaves(claims: seq<Claim>, conns: Conns, msg: Inbound)
    requires DistinctConns(claims)
    ensures var m := Taker(claims, conns, msg, 0);
            Leaves(claims, conns, ScannedClaims(claims, msg, m), ScannedConns(claims, conns, msg, m))
  {
    var m := Taker(claims, conns, msg, 0);
    var claims', conns' := ScannedClaims(claims, msg, m), ScannedConns(claims, conns, msg, m);
    ScanKeepsMembers(claims, msg, m);
    assert conns'.Keys == conns.Keys;
    forall c | c in claims && c !in claims' && c.conn in conns
      ensures conns'[c.conn].closed && |conns'[c.conn].lines| <= |conns[c.conn].lines| + 1
    {
      ScanTakesOff(claims, conns, msg, c);
    }
    forall k | k in conns && (OnStack(claims', k) || !OnStack(claims, k))
      ensures conns'[k] == conns[k]
    {
      ScanLeavesOthers(claims, conns, msg, k);
    }
  }

  lemma ReapLeaves(claims: seq<Claim>, conns: Conns, now: int)
    requires DistinctConns(claims)
    ensures Leaves(claims, conns, Unexpired(claims, now), ReapedConns(claims, conns, now))
  {
    FilterKeepsDistinct((c: Claim) => c.expires > now, claims);
    var claims', conns' := Unexpired(claims, now), ReapedConns(claims, conns, now);
    forall k | k in conns && (OnStack(claims', k) || !OnStack(claims, k))
      ensures conns'[k] == conns[k]
    {
      if ExpiredOn(claims, now, k) {
        var c :| c in claims && c.conn == k && c.expires <= now;
        var d :| d in claims' && d.conn == k;
        SameConnSameClaim(claims, c, d);
      }
    }
  }

  lemma AskKeeps(m: Mail, serving: set<nat>, claim: Claim)
    requires Waiting(m) && Apart(m, serving)
    requires claim.conn in m.conns && !m.conns[claim.conn].closed && claim.conn !in m.asked && claim.conn !in serving
    ensures var m' := Mail([claim] + m.claims, m.conns, m.asked + {claim.conn}); Waiting(m') && Apart(m', serving)
  {
    var claims := [claim] + m.claims;
    assert claims[0] == claim;
    forall k
      ensures OnStack(claims, k) <==> k == claim.conn || OnStack(m.claims, k)
    {
      assert forall c :: c in claims <==> c == claim || c in m.claims;
    }
  }

  /** Writing to or closing a connection that carries no claim, attaching it, or opening a new one. */
  lemma OtherConnKeeps(m: Mail, serving: set<nat>, conn: nat, conns: Conns, serving': set<nat>)
    requires Waiting(m) && Apart(m, serving) && conn !in m.asked
    requires conns.Keys == m.conns.Keys + {conn}
    requires forall k | k in m.conns && k != conn :: conns[k] == m.conns[k]
    requires serving' == serving || serving' == serving + {conn}
    requires conn in serving' || conns[conn].lines == []
    ensures var m' := Mail(m.claims, conns, m.asked); Waiting(m') && Apart(m', serving')
  {
  }

  lemma ConnectKeeps(m: Mail, serving: set<nat>, conn: nat)
    requires Waiting(m) && Apart(m, serving) && conn !in m.conns
    ensures var m' := m.(conns := m.conns[conn := OPEN]);
            Waiting(m') && Apart(m', serving) && ClosedIsFinal(m.conns, m'.conns)
  {
    OtherConnKeeps(m, serving, conn, m.conns[conn := OPEN], serving);
  }

  lemma CloseKeeps(m: Mail, serving: set<nat>, conn: nat)
    requires Waiting(m) && Apart(m, serving) && conn in serving
    ensures var m' := m.(conns := Closed(m.conns, conn));
            Waiting(m') && Apart(m', serving) && ClosedIsFinal(m.conns, m'.conns)
  {
    OtherConnKeeps(m, serving, conn, Closed(m.conns, conn), serving);
  }

  lemma WriteKeeps(m: Mail, serving: set<nat>, conn: nat, line: Line)
    requires Waiting(m) && Apart(m, serving) && conn in serving
    ensures var m' := m.(conns := Written(m.conns, conn, line));
            Waiting(m') && Apart(m', serving) && ClosedIsFinal(m.conns, m'.conns)
  {
    OtherConnKeeps(m, serving, conn, Written(m.conns, conn, line), serving);
  }

  /** An agent's attach: the connection starts to serve and the one it supersedes is closed. */
  lemma AttachKeeps(s: State, conn: nat, agent: string)
    requires Waiting(s.mail) && Apart(s.mail, s.registry.serving.Keys) && Unused(s, conn)
    requires forall a | a in s.registry.channels :: s.registry.channels[a] in s.registry.serving
    ensures var m' := MailAfter(s, Attach(conn, agent));
            Waiting(m') && Apart(m', s.registry.serving.Keys + {conn}) && ClosedIsFinal(s.mail.conns, m'.conns)
  {
    OtherConnKeeps(s.mail, s.registry.serving.Keys, conn, s.mail.conns, s.registry.serving.Keys + {conn});
    if agent in s.registry.channels {
      var prior := s.registry.channels[agent];
      OtherConnKeeps(s.mail, s.registry.serving.Keys + {conn}, prior, Closed(s.mail.conns, prior),
                     s.registry.serving.Keys + {conn});
    }
  }

  lemma DieKeeps(m: Mail, serving: set<nat>, conn: nat)
    requires Waiting(m) && Apart(m, serving) && conn in m.conns
    ensures var m' := m.(conns := m.conns[conn := m.conns[conn].(dead := true)]); Waiting(m') && Apart(m', serving)
  {
  }

  lemma ScanKeeps(m: Mail, serving: set<nat>, msg: Inbound)
    requires Waiting(m) && Apart(m, serving)
    ensures var m' := Scanned(m, msg);
            Waiting(m') && Apart(m', serving) && ClosedIsFinal(m.conns, m'.conns) && m'.asked == m.asked
  {
    ScanLeaves(m.claims, m.conns, msg);
    LeavingKeeps(m, serving, Scanned(m, msg).claims, Scanned(m, msg).conns);
  }

  lemma ReapKeeps(m: Mail, serving: set<nat>, now: int)
    requires Waiting(m) && Apart(m, serving)
    ensures var m' := Reaped(m, now);
            Waiting(m') && Apart(m', serving) && ClosedIsFinal(m.conns, m'.conns) && m'.asked == m.asked
  {
    ReapLeaves(m.claims, m.conns, now);
    LeavingKeeps(m, serving, Reaped(m, now).claims, Reaped(m, now).conns);
  }

  predicate OnClaims(a: Action) {
    a.Ask? || a.Lapse? || a.ScanClaims?
  }

  predicate OnConns(a: Action) {
    a.Connect? || a.Die? || a.Attach? || a.Detach? || a.Push?
  }

  lemma ClaimStepKeeps(s: State, a: Action)
    requires Waiting(s.mail) && Apart(s.mail, s.registry.serving.Keys) && Enabled(s, a) && OnClaims(a)
    ensures var m' := MailAfter(s, a);
            Waiting(m') && Apart(m', s.registry.serving.Keys) && ClosedIsFinal(s.mail.conns, m'.conns)
  {
    var m, serving := s.mail, s.registry.serving.Keys;
    match a {
      case Ask(claim) => AskKeeps(m, serving, claim);
      case Lapse(now) => ReapKeeps(m, serving, now);
      case ScanClaims(t) => ScanKeeps(m, serving, s.flow.threads[t].msg);
    }
  }

  lemma ConnStepKeeps(s: State, a: Action)
    requires Waiting(s.mail) && Apart(s.mail, s.registry.serving.Keys) && Enabled(s, a) && OnConns(a)
    requires forall g | g in s.registry.channels :: s.registry.channels[g] in s.registry.serving
    requires a.Push? ==> s.flow.threads[a.t].conn in s.registry.serving
    ensures var m' := MailAfter(s, a);
            && Waiting(m') && Apart(m', RegistryAfter(s, a).serving.Keys) && ClosedIsFinal(s.mail.conns, m'.conns)
  {
    var m, serving := s.mail, s.registry.serving.Keys;
    match a {
      case Connect(conn) => ConnectKeeps(m, serving, conn);
      case Die(conn) => DieKeeps(m, serving, conn);
      case Attach(conn, agent) =>
        AttachKeeps(s, conn, agent);
        assert RegistryAfter(s, a).serving.Keys == serving + {conn};
      case Detach(conn) => CloseKeeps(m, serving, conn);
      case Push(t) => WriteKeeps(m, serving, s.flow.threads[t].conn, Frame(s.flow.threads[t].msg));
    }
  }

  lemma MailKeeps(s: State, a: Action)
    requires Waiting(s.mail) && Apart(s.mail, s.registry.serving.Keys) && Enabled(s, a)
    requires forall g | g in s.registry.channels :: s.registry.channels[g] in s.registry.serving
    requires a.Push? ==> s.flow.threads[a.t].conn in s.registry.serving
    ensures var m' := MailAfter(s, a);
            && Waiting(m') && Apart(m', RegistryAfter(s, a).serving.Keys) && ClosedIsFinal(s.mail.conns, m'.conns)
  {
    if OnClaims(a) {
      ClaimStepKeeps(s, a);
    } else if OnConns(a) {
      ConnStepKeeps(s, a);
    }
  }

  lemma AskedStays(s: State, a: Action)
    requires Enabled(s, a)
    ensures s.mail.asked <= MailAfter(s, a).asked
  {
  }

  // ------------------------------------------------------------------ sinks

  /** A routing thread that is over has reached exactly one sink, one that is not over none. */
  predicate OneSinkEach(f: Flow) {
    && f.sinks.Keys == f.threads.Keys
    && forall t | t in f.threads :: |f.sinks[t]| == if f.threads[t].Over? then 1 else 0
  }

  lemma NextSinksOnce(s: State, pc: Pc)
    requires !pc.Over?
    ensures Next(s, pc).0.Over? <==> Next(s, pc).1.Some?
  {
  }

  lemma FlowKeeps(s: State, a: Action)
    requires OneSinkEach(s.flow) && Enabled(s, a)
    ensures OneSinkEach(FlowAfter(s, a))
  {
    if IsThreadStep(a) {
      NextSinksOnce(s, s.flow.threads[a.t]);
    }
  }

  // ------------------------------------------------------------------ the registry

  /** An agent is registered exactly while its newest attach has neither failed nor disconnected, and it
      is registered with that connection. */
  ghost predicate NewestStays(g: Registry) {
    && (forall a :: a in g.channels <==> a in g.newest && g.newest[a] !in g.gone)
    && (forall a | a in g.channels :: g.channels[a] == g.newest[a])
    && (forall a | a in g.newest :: g.newest[a] in g.serving && g.serving[g.newest[a]] == a)
    && g.gone <= g.serving.Keys
  }

  /** A thread on its way to an agent's connection holds one that the agent attached. */
  predicate HoldsOwn(g: Registry, pc: Pc) {
    pc.Pushing? || pc.Dropping? ==> pc.conn in g.serving && g.serving[pc.conn] == pc.agent
  }

  predicate AllHoldOwn(g: Registry, f: Flow) {
    forall t | t in f.threads :: HoldsOwn(g, f.threads[t])
  }

  lemma RegistryKeeps(s: State, a: Action)
    requires NewestStays(s.registry) && AllHoldOwn(s.registry, s.flow) && Enabled(s, a)
    ensures NewestStays(RegistryAfter(s, a))
    ensures forall pc | HoldsOwn(s.registry, pc) :: HoldsOwn(RegistryAfter(s, a), pc)
  {
    if a.Drop? {
      assert HoldsOwn(s.registry, s.flow.threads[a.t]);
    }
  }

  lemma NextHoldsOwn(s: State, pc: Pc)
    requires NewestStays(s.registry) && HoldsOwn(s.registry, pc)
    ensures HoldsOwn(s.registry, Next(s, pc).0)
  {
  }

  lemma ThreadsHoldOwn(s: State, a: Action)
    requires NewestStays(s.registry) && AllHoldOwn(s.registry, s.flow) && Enabled(s, a)
    ensures AllHoldOwn(s.registry, FlowAfter(s, a))
  {
    if IsThreadStep(a) {
      assert HoldsOwn(s.registry, s.flow.threads[a.t]);
      NextHoldsOwn(s, s.flow.threads[a.t]);
    }
  }

  /** An entry leaves the registry only on behalf of the connection it holds: by that connection's own
      disconnect, by a failed write to it, or because a newer attach of the agent took its place. */
  lemma {:induction false} EntryLeavesOnlyForItsConnection(s: State, a: Action, agent: string)
    requires var g, g' := s.registry.channels, Do(s, a).registry.channels;
             agent in g && (agent !in g' || g'[agent] != g[agent])
    ensures var conn := s.registry.channels[agent];
            || (a == Detach(conn) && s.registry.serving[conn] == agent)
            || (a.Attach? && a.agent == agent && agent in Do(s, a).registry.channels &&
                Do(s, a).registry.channels[agent] == a.conn)
            || (a.Drop? && s.flow.threads[a.t].Dropping? &&
                s.flow.threads[a.t].agent == agent && s.flow.threads[a.t].conn == conn)
  {
  }

  // ------------------------------------------------------------------ every interleaving

  ghost predicate InOrder(s: State) {
    && Waiting(s.mail) && Apart(s.mail, s.registry.serving.Keys)
    && OneSinkEach(s.flow)
    && NewestStays(s.registry) && AllHoldOwn(s.registry, s.flow)
  }

  lemma StepKeepsOrder(s: State, a: Action)
    requires InOrder(s)
    ensures InOrder(Do(s, a)) && ClosedIsFinal(s.mail.conns, Do(s, a).mail.conns)
    ensures s.mail.asked <= Do(s, a).mail.asked
  {
    if Enabled(s, a) {
      if a.Push? {
        assert HoldsOwn(s.registry, s.flow.threads[a.t]);
      }
      MailKeeps(s, a);
      AskedStays(s, a);
      FlowKeeps(s, a);
      RegistryKeeps(s, a);
      ThreadsHoldOwn(s, a);
    }
  }

  /** In every interleaving of asks, attaches, disconnects, client deaths, route changes, the reaper and
      any number of routing threads: a claim's connection is open exactly while the claim is on the
      stack and gets at most one line; a routing thread reaches one sink and then is over; an agent is
      registered with its newest attach until that one fails or disconnects. */
  lemma {:induction false} EveryInterleaving(actions: seq<Action>)
    ensures InOrder(Run(INITIAL, actions))
  {
    if actions != [] {
      var n := |actions| - 1;
      EveryInterleaving(actions[..n]);
      StepKeepsOrder(Run(INITIAL, actions[..n]), actions[n]);
    }
  }

  /** A claim that left the stack never comes back, and its connection never gets another line. */
  lemma {:induction false} ClaimLeavesOnce(s: State, actions: seq<Action>, k: nat)
    requires InOrder(s) && k in s.mail.asked && !OnStack(s.mail.claims, k)
    ensures var t := Run(s, actions);
            && InOrder(t) && k in t.mail.asked && !OnStack(t.mail.claims, k)
            && t.mail.conns[k].closed && t.mail.conns[k].lines == s.mail.conns[k].lines
            && |t.mail.conns[k].lines| <= 1
  {
    if actions != [] {
      var n := |actions| - 1;
      ClaimLeavesOnce(s, actions[..n], k);
      StepKeepsOrder(Run(s, actions[..n]), actions[n]);
    }
  }

  /** Claim i is the newest one that can take the message. */
  predicate IsTaker(s: State, msg: Inbound, i: nat) {
    && i < |s.mail.claims|
    && Takes(s.mail.claims[i], s.mail.conns, msg)
    && forall j | 0 <= j < i :: !Takes(s.mail.claims[j], s.mail.conns, msg)
  }

  lemma ScanLines(s: State, msg: Inbound, k: nat)
    requires InOrder(s) && k in s.mail.conns
    ensures var m := Taker(s.mail.claims, s.mail.conns, msg, 0);
            && k in Scanned(s.mail, msg).conns
            && Scanned(s.mail, msg).conns[k].lines ==
               s.mail.conns[k].lines +
               (if m < |s.mail.claims| && s.mail.claims[m].conn == k then [Reply(msg)] else [])
  {
    ScannedConn(s.mail.claims, s.mail.conns, msg, k);
  }

  lemma WaitingGotNothing(s: State, c: Claim)
    requires InOrder(s) && c in s.mail.claims
    ensures c.conn in s.mail.conns && s.mail.conns[c.conn].lines == []
  {
    assert OnStack(s.mail.claims, c.conn);
  }

  /** In any reachable state the scan gives an inbound message to the newest live matching claim, whose
      connection then holds that one reply and no other connection a new line; dead waiters never consume it. */
  lemma NewestLiveClaimTakes(s: State, t: nat, i: nat)
    requires InOrder(s) && Enabled(s, ScanClaims(t)) && IsTaker(s, s.flow.threads[t].msg, i)
    ensures var s', msg, conn := Do(s, ScanClaims(t)), s.flow.threads[t].msg, s.mail.claims[i].conn;
            && s'.flow.threads[t] == Over(msg) && s'.flow.sinks[t] == [ToClaim(conn)]
            && conn in s'.mail.conns && s'.mail.conns[conn].lines == [Reply(msg)]
            && forall k | k in s.mail.conns && k != conn ::
                 k in s'.mail.conns && s'.mail.conns[k].lines == s.mail.conns[k].lines
  {
    var msg := s.flow.threads[t].msg;
    TakerIs(s.mail.claims, s.mail.conns, msg, i);
    WaitingGotNothing(s, s.mail.claims[i]);
    forall k | k in s.mail.conns
      ensures k in Scanned(s.mail, msg).conns && Scanned(s.mail, msg).conns[k].lines ==
              s.mail.conns[k].lines + if s.mail.claims[i].conn == k then [Reply(msg)] else []
    {
      ScanLines(s, msg, k);
    }
  }

  /** If no live claim matches, the message goes on and no connection gets a line. */
  lemma UntakenGoesOn(s: State, t: nat)
    requires InOrder(s) && Enabled(s, ScanClaims(t)) && forall i: nat :: !IsTaker(s, s.flow.threads[t].msg, i)
    ensures var s', msg := Do(s, ScanClaims(t)), s.flow.threads[t].msg;
            && s'.flow.threads[t] == Unclaimed(msg)
            && forall k | k in s.mail.conns :: k in s'.mail.conns && s'.mail.conns[k].lines == s.mail.conns[k].lines
  {
    var msg := s.flow.threads[t].msg;
    assert !IsTaker(s, msg, Taker(s.mail.claims, s.mail.conns, msg, 0));
    forall k | k in s.mail.conns
      ensures k in Scanned(s.mail, msg).conns && Scanned(s.mail, msg).conns[k].lines == s.mail.conns[k].lines
    {
      ScanLines(s, msg, k);
    }
  }

  // ------------------------------------------------------------------ the passes, claim by claim

  lemma NothingPassed(claims: seq<Claim>, conns: Conns, msg: Inbound)
    ensures PassedConns(claims, conns, msg, 0) == conns && NotFor(claims[..0], msg) == []
  {
  }

  /** Passing the claim at i: it stays if it does not match, and is closed if it matches but is dead. */
  lemma PassOne(claims: seq<Claim>, conns: Conns, msg: Inbound, i: nat)
    requires DistinctConns(claims) && i < |claims| && claims[i].conn in conns
    ensures var passed := PassedConns(claims, conns, msg, i);
            && claims[..i + 1][..i] == claims[..i]
            && (Live(passed, claims[i].conn) <==> Live(conns, claims[i].conn))
            && (!Matches(claims[i], msg) ==>
                  PassedConns(claims, conns, msg, i + 1) == passed &&
                  NotFor(claims[..i + 1], msg) == NotFor(claims[..i], msg) + [claims[i]])
            && (Matches(claims[i], msg) ==>
                  PassedConns(claims, conns, msg, i + 1) == Closed(passed, claims[i].conn) &&
                  NotFor(claims[..i + 1], msg) == NotFor(claims[..i], msg))
  {
    var c := claims[i];
    assert claims[..i + 1] == claims[..i] + [c];
    forall d | d in claims[..i]
      ensures d.conn != c.conn
    {
      var j :| 0 <= j < i && claims[j] == d;
    }
    forall k
      ensures MatchedAbove(claims, msg, i + 1, k) <==>
              MatchedAbove(claims, msg, i, k) || (c.conn == k && Matches(c, msg))
    {
      assert forall d :: d in claims[..i + 1] <==> d in claims[..i] || d == c;
    }
  }

  lemma TakerIs(claims: seq<Claim>, conns: Conns, msg: Inbound, i: nat)
    requires i <= |claims| && (i < |claims| ==> Takes(claims[i], conns, msg))
    requires forall j | 0 <= j < i :: !Takes(claims[j], conns, msg)
    ensures Taker(claims, conns, msg, 0) == i
  {
  }

  lemma NothingReaped(claims: seq<Claim>, conns: Conns, now: int)
    ensures ReapedConns(claims[..0], conns, now) == conns && Unexpired(claims[..0], now) == []
  {
  }

  /** Reaping the claim at i. */
  lemma ReapNext(claims: seq<Claim>, conns: Conns, now: int, i: nat)
    requires DistinctConns(claims) && i < |claims| && claims[i].conn in conns
    ensures var c, reaped := claims[i], ReapedConns(claims[..i], conns, now);
            && claims[..i + 1][..i] == claims[..i]
            && Unexpired(claims[..i + 1], now) == Unexpired(claims[..i], now) + (if c.expires > now then [c] else [])
            && ReapedConns(claims[..i + 1], conns, now) ==
               if c.expires <= now then Closed(Written(reaped, c.conn, Lapsed), c.conn) else reaped
  {
    var c := claims[i];
    forall d | d in claims[..i]
      ensures d.conn != c.conn
    {
      var j :| 0 <= j < i && claims[j] == d;
    }
    forall k
      ensures ExpiredOn(claims[..i + 1], now, k) <==>
              ExpiredOn(claims[..i], now, k) || (c.conn == k && c.expires <= now)
    {
      assert forall d :: d in claims[..i + 1] <==> d in claims[..i] || d == c;
    }
    assert !ExpiredOn(claims[..i], now, c.conn);
  }
}
