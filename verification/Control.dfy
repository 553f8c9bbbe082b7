/** Fleet commands over the store, and the routing cache that follows it. */
module Control {
  import opened FleetStore
  import opened Wrappers

  // ------------------------------------------------------------------ key=value tokens

  /** The place of the first '='; |tok| if there is none. */
  function EqualsAt(tok: string, i: nat): (k: nat)
    requires i <= |tok|
    ensures i <= k <= |tok|
    decreases |tok| - i
  {
    if i == |tok| || tok[i] == '=' then i else EqualsAt(tok, i + 1)
  }

  function WithPair(kv: map<string, string>, tok: string): map<string, string> {
    var k := EqualsAt(tok, 0);
    if k < |tok| then kv[tok[..k] := tok[k + 1..]] else kv
  }

  function PairsOf(tokens: seq<string>): map<string, string> {
    if tokens == [] then map[] else WithPair(PairsOf(tokens[..|tokens| - 1]), tokens[|tokens| - 1])
  }

  method Pairs(tokens: seq<string>) returns (kv: map<string, string>)
    ensures kv == PairsOf(tokens)
  {
    kv := map[];
    for i := 0 to |tokens|
      invariant kv == PairsOf(tokens[..i])
    {
      assert tokens[..i + 1][..i] == tokens[..i];
      kv := WithPair(kv, tokens[i]);
    }
    assert tokens[..|tokens|] == tokens;
  }

  function Get(kv: map<string, string>, key: string, default: string): string {
    if key in kv then kv[key] else default
  }

  /** The token assigns to this key. */
  predicate Names(tok: string, key: string) {
    '=' !in key && key + "=" <= tok
  }

  lemma {:induction false} EqualsAtIsFirst(tok: string, i: nat)
    requires i <= |tok|
    ensures '=' !in tok[i..EqualsAt(tok, i)]
    ensures EqualsAt(tok, i) < |tok| ==> tok[EqualsAt(tok, i)] == '='
    decreases |tok| - i
  {
    if i < |tok| && tok[i] != '=' {
      EqualsAtIsFirst(tok, i + 1);
      assert tok[i..EqualsAt(tok, i)] == [tok[i]] + tok[i + 1..EqualsAt(tok, i)];
    }
  }

  lemma OnePair(kv: map<string, string>, tok: string, key: string)
    ensures Names(tok, key) ==> key in WithPair(kv, tok) && WithPair(kv, tok)[key] == tok[|key| + 1..]
    ensures !Names(tok, key) ==> (key in WithPair(kv, tok) <==> key in kv)
    ensures !Names(tok, key) && key in kv ==> WithPair(kv, tok)[key] == kv[key]
  {
    EqualsAtIsFirst(tok, 0);
    var k := EqualsAt(tok, 0);
    assert tok[0..k] == tok[..k];
    if Names(tok, key) {
      assert tok[..|key|] == key && tok[|key|] == '=';
      assert k >= |key| by {
        assert forall i | 0 <= i < |key| :: tok[i] == key[i];
      }
      assert k <= |key| by {
        assert forall i | 0 <= i < k :: tok[..k][i] == tok[i];
      }
    } else if k < |tok| {
      assert tok[..k] + "=" == tok[..k + 1];
      assert key == tok[..k] ==> key + "=" <= tok;
    }
  }

  /** A key has a value if and only if some token assigns to it, and the value is the last one's,
      everything after its first '='. */
  lemma {:induction false} LastPairWins(tokens: seq<string>, key: string)
    ensures key in PairsOf(tokens) <==> exists i :: 0 <= i < |tokens| && Names(tokens[i], key)
    ensures forall i | 0 <= i < |tokens| && Names(tokens[i], key) &&
                       (forall j | i < j < |tokens| :: !Names(tokens[j], key)) ::
              key in PairsOf(tokens) && PairsOf(tokens)[key] == tokens[i][|key| + 1..]
  {
    if tokens != [] {
      var n := |tokens| - 1;
      LastPairWins(tokens[..n], key);
      OnePair(PairsOf(tokens[..n]), tokens[n], key);
      assert forall i | 0 <= i < n :: tokens[..n][i] == tokens[i];
    }
  }

  // ------------------------------------------------------------------ fleet transformers

  function WithAgent(fleet: Fleet, agent: Agent): Fleet {
    fleet.(agents := fleet.agents[agent.id := agent])
  }

  function WithoutAgent(fleet: Fleet, id: string): Fleet {
    fleet.(agents := fleet.agents - {id})
  }

  /** What a spawn finds outside: the resolved absolute workdir, whether it could be imported or created
      and trusted, and the channel the adapter creates, if it can. */
  datatype Surroundings = Surroundings(workdir: string, usable: bool, canCreate: bool, created: Option<string>)

  const DEFAULT_ARGS := "--permission-mode auto --dangerously-load-development-channels server:clidecar"

  /** The channel of a new agent: given, or created beside the control channel. */
  function NewChannel(fleet: Fleet, kv: map<string, string>, env: Surroundings): Option<string> {
    if Get(kv, "channel", "") != "" then Some(kv["channel"])
    else if !env.canCreate || fleet.control.GetOr("") == "" || env.created.GetOr("") == "" then None
    else env.created
  }

  function Spawn(fleet: Fleet, args: seq<string>, env: Surroundings): Option<Fleet> {
    if args == [] || !ValidId(args[0]) || args[0] in fleet.agents || !env.usable then None
    else
      var kv := PairsOf(args[1..]);
      match NewChannel(fleet, kv, env)
      case None => None
      case Some(channel) =>
        Some(WithAgent(fleet, Agent(args[0], channel, env.workdir, Get(kv, "args", DEFAULT_ARGS), true)))
  }

  function Toggle(fleet: Fleet, args: seq<string>, enabled: bool): Option<Fleet> {
    if |args| != 1 || args[0] !in fleet.agents then None
    else Some(WithAgent(fleet, fleet.agents[args[0]].(enabled := enabled)))
  }

  function Remove(fleet: Fleet, args: seq<string>): Option<Fleet> {
    if |args| != 1 || args[0] !in fleet.agents then None else Some(WithoutAgent(fleet, args[0]))
  }

  function Route(fleet: Fleet, args: seq<string>): Option<Fleet> {
    if |args| < 2 || args[0] !in fleet.agents then None
    else
      var channel := Get(PairsOf(args[1..]), "channel", "");
      if channel == "" then None else Some(WithAgent(fleet, fleet.agents[args[0]].(channel := channel)))
  }

  function Set(fleet: Fleet, args: seq<string>): Option<Fleet> {
    if |args| < 2 || args[0] !in fleet.agents then None
    else
      var kv, cur := PairsOf(args[1..]), fleet.agents[args[0]];
      Some(WithAgent(fleet, cur.(channel := Get(kv, "channel", cur.channel),
                                 workdir := Get(kv, "workdir", cur.workdir),
                                 args := Get(kv, "args", cur.args))))
  }

  /** The fleet a command asks to persist, if it gets that far. Other verbs never change the fleet. */
  function Proposed(fleet: Fleet, verb: string, args: seq<string>, env: Surroundings): Option<Fleet> {
    if verb == "spawn" then Spawn(fleet, args, env)
    else if verb == "stop" then Toggle(fleet, args, false)
    else if verb == "start" then Toggle(fleet, args, true)
    else if verb == "remove" then Remove(fleet, args)
    else if verb == "route" then Route(fleet, args)
    else if verb == "set" then Set(fleet, args)
    else None
  }

  /** A command changes no agent but the one it names. */
  lemma OnlyTheNamedAgentChanges(fleet: Fleet, c: Command, id: string)
    requires KeyedById(fleet) && Proposed(fleet, c.verb, c.args, c.env).Some?
    requires c.args == [] || id != c.args[0]
    ensures var f := Proposed(fleet, c.verb, c.args, c.env).value;
            && (id in f.agents <==> id in fleet.agents)
            && (id in f.agents ==> f.agents[id] == fleet.agents[id])
  {
  }

  /** Removing a spawned agent, and starting a stopped one, gives the old fleet back. */
  lemma RemoveUndoesSpawn(fleet: Fleet, args: seq<string>, env: Surroundings)
    requires Spawn(fleet, args, env).Some?
    ensures Remove(Spawn(fleet, args, env).value, args[..1]) == Some(fleet)
  {
    var f := Spawn(fleet, args, env).value;
    assert (f.agents - {args[0]}) == fleet.agents;
  }

  lemma StartUndoesStop(fleet: Fleet, id: string)
    requires KeyedById(fleet) && id in fleet.agents
    ensures var stopped := Toggle(fleet, [id], false);
            stopped.Some? && (Toggle(stopped.value, [id], true) == Some(fleet) <==> fleet.agents[id].enabled)
  {
    var f := Toggle(Toggle(fleet, [id], false).value, [id], true).value;
    if fleet.agents[id].enabled {
      assert f.agents == fleet.agents;
    } else {
      assert f.agents[id].enabled;
    }
  }

  // ------------------------------------------------------------------ the gateway

  /** The live routing table, the control channel and the adapter's listen set. */
  datatype Gateway = Gateway(routes: map<string, string>, control: Option<string>, listen: set<string>)

  datatype System = System(db: Db, gateway: Gateway)

  function GatewayOf(fleet: Fleet): Gateway
    requires Valid(fleet)
  {
    Gateway(Routes(fleet), fleet.control, ListenChannels(fleet))
  }

  /** An unreadable store keeps the last routes. */
  function Refreshed(s: System): System {
    match Loaded(s.db)
    case None => s
    case Some(fleet) => s.(gateway := GatewayOf(fleet))
  }

  datatype Command = Command(verb: string, args: seq<string>, env: Surroundings, fate: Fate)

  /** The fleet the command would persist, given what the store reads as. */
  function Proposal(db: Db, c: Command): Option<Fleet> {
    match Loaded(db)
    case None => None
    case Some(fleet) => Proposed(fleet, c.verb, c.args, c.env)
  }

  predicate Accepted(db: Db, c: Command) {
    var p := Proposal(db, c);
    p.Some? && Accepts(p.value, c.fate)
  }

  /** One command: read, transform, persist, and refresh the gateway if it was persisted. */
  function Dispatched(s: System, c: Command): System {
    match Proposal(s.db, c)
    case None => s
    case Some(fleet) =>
      var saved := s.(db := Saved(s.db, fleet, c.fate));
      if Accepts(fleet, c.fate) then Refreshed(saved) else saved
  }

  class Controller {
    var db: Db
    var gateway: Gateway

    constructor (db: Db, gateway: Gateway)
      ensures this.db == db && this.gateway == gateway
    {
      this.db := db;
      this.gateway := gateway;
    }

    /** refresh_fleet: install the stored fleet's routes, or keep the last ones. */
    method RefreshFleet()
      modifies this`gateway
      ensures System(db, gateway) == Refreshed(old(System(db, gateway)))
    {
      var fleet := Load(db);
      if fleet.Some? {
        gateway := GatewayOf(fleet.value);
      }
    }

    method Save(fleet: Fleet, fate: Fate) returns (refused: bool)
      modifies this`db
      ensures db == Saved(old(db), fleet, fate) && refused == !Accepts(fleet, fate)
    {
      var problem := Validate(fleet);
      if problem.Some? || fate.StopsAtOnce? {
        return true;
      }
      if fate.StopsInSchema? {
        db := if db.Absent? then Bare else db;
        return true;
      }
      db := WithSchema(db);
      if fate.StopsAfterSchema? || !DistinctIds(fleet) {
        return true;
      }
      db := Written(fleet);
      return false;
    }

    method Dispatch(c: Command)
      modifies this
      ensures System(db, gateway) == Dispatched(old(System(db, gateway)), c)
    {
      var fleet := Load(db);
      if fleet.None? {
        return;
      }
      var proposed := Proposed(fleet.value, c.verb, c.args, c.env);
      if proposed.None? {
        return;
      }
      var refused := Save(proposed.value, c.fate);
      if !refused {
        RefreshFleet();
      }
    }
  }

  // ------------------------------------------------------------------ one command

  /** What load returns is filed under the agents' own ids, with no empty workdir or control channel. */
  lemma LoadedIsStorable(db: Db)
    requires Loaded(db).Some?
    ensures Valid(Loaded(db).value) && Storable(Loaded(db).value)
  {
    var f := Loaded(db).value;
    forall id | id in f.agents
      ensures f.agents[id].id == id && f.agents[id].workdir != ""
    {
      assert id in db.rows;
    }
  }

  predicate NoEmptyWorkdir(fleet: Fleet) {
    forall id | id in fleet.agents :: fleet.agents[id].workdir != ""
  }

  /** Every handler keeps agents filed under their own ids and leaves the control channel alone. */
  lemma ProposalKeepsKeys(db: Db, c: Command)
    requires Proposal(db, c).Some?
    ensures var f := Proposal(db, c).value;
            KeyedById(f) && DistinctIds(f) && f.control == Loaded(db).value.control && f.control != Some("")
  {
    LoadedIsStorable(db);
  }

  /** A refused command changes neither the store nor the routing table. */
  lemma RefusedChangesNothing(s: System, c: Command)
    requires !Accepted(s.db, c)
    ensures Dispatched(s, c) == s
  {
  }

  /** After an accepted command the store holds the proposed fleet, valid; it reads back as that fleet, and
      the live gateway is that fleet's, as soon as no workdir is empty; and it does not read at all, and the
      gateway stays as it was, if some workdir is. */
  lemma AcceptedIsLive(s: System, c: Command)
    requires Accepted(s.db, c)
    ensures var f := Proposal(s.db, c).value;
            var s' := Dispatched(s, c);
            && Valid(f) && KeyedById(f) && DistinctIds(f) && s'.db == Written(f)
            && (NoEmptyWorkdir(f) ==> Loaded(s'.db) == Some(f) && s'.gateway == GatewayOf(f))
            && (!NoEmptyWorkdir(f) ==> Loaded(s'.db) == None && s'.gateway == s.gateway)
  {
    var f := Proposal(s.db, c).value;
    ProposalKeepsKeys(s.db, c);
    if NoEmptyWorkdir(f) {
      StorableLoads(f);
    } else {
      var id :| id in f.agents && f.agents[id].workdir == "";
      RowOfAgent(f, id);
    }
  }

  lemma WorkdirEmptied()
    ensures PairsOf(["workdir="]) == map["workdir" := ""]
  {
    var tok := "workdir=";
    assert EqualsAt(tok, 7) == 7 && EqualsAt(tok, 6) == 7 && EqualsAt(tok, 5) == 7 && EqualsAt(tok, 4) == 7;
    assert EqualsAt(tok, 3) == 7 && EqualsAt(tok, 2) == 7 && EqualsAt(tok, 1) == 7 && EqualsAt(tok, 0) == 7;
    assert tok[..7] == "workdir" && tok[8..] == "";
    assert WithPair(map[], tok) == map["workdir" := ""];
    var none: seq<string> := [];
    assert [tok][..0] == none;
  }

  lemma ValidWithNewWorkdir(fleet: Fleet, id: string, workdir: string)
    requires Valid(fleet) && KeyedById(fleet) && id in fleet.agents
    ensures Valid(WithAgent(fleet, fleet.agents[id].(workdir := workdir)))
  {
    var f := WithAgent(fleet, fleet.agents[id].(workdir := workdir));
    forall i | i in f.agents
      ensures ValidAgent(f, i)
    {
      assert ValidAgent(fleet, i);
    }
  }

  /** `set <id> workdir=` on any stored agent is accepted, and from then on the store does not read. */
  lemma EmptyWorkdirIsAccepted(s: System, id: string, env: Surroundings)
    requires Loaded(s.db).Some? && id in Loaded(s.db).value.agents
    ensures var c := Command("set", [id, "workdir="], env, Completes);
            Accepted(s.db, c) && Loaded(Dispatched(s, c).db) == None
  {
    var c := Command("set", [id, "workdir="], env, Completes);
    var fleet := Loaded(s.db).value;
    LoadedIsStorable(s.db);
    assert c.args[1..] == ["workdir="];
    WorkdirEmptied();
    var f := WithAgent(fleet, fleet.agents[id].(workdir := ""));
    assert Proposal(s.db, c) == Some(f);
    ProposalKeepsKeys(s.db, c);
    ValidWithNewWorkdir(fleet, id, "");
    AcceptedIsLive(s, c);
    assert f.agents[id].workdir == "";
  }

  /** The one way to an unreadable store: a `set` whose last workdir pair is empty. */
  predicate ErasesWorkdir(c: Command) {
    c.verb == "set" && |c.args| >= 2 && Get(PairsOf(c.args[1..]), "workdir", "kept") == ""
  }

  lemma WorkdirsKeptIffNotErased(fleet: Fleet, c: Command)
    requires KeyedById(fleet) && NoEmptyWorkdir(fleet) && c.env.workdir != ""
    requires Proposed(fleet, c.verb, c.args, c.env).Some?
    ensures NoEmptyWorkdir(Proposed(fleet, c.verb, c.args, c.env).value) <==> !ErasesWorkdir(c)
  {
    var f := Proposed(fleet, c.verb, c.args, c.env).value;
    if ErasesWorkdir(c) {
      assert f.agents[c.args[0]].workdir == "";
    }
  }

  /** An accepted command leaves a store that reads, with the gateway in step, if and only if it is not
      one that erases a workdir. A resolved spawn directory is absolute, so never empty. */
  lemma AcceptedReadsIffWorkdirKept(s: System, c: Command)
    requires Accepted(s.db, c) && c.env.workdir != ""
    ensures Loaded(Dispatched(s, c).db).Some? <==> !ErasesWorkdir(c)
    ensures var f := Proposal(s.db, c).value;
            !ErasesWorkdir(c) ==> Loaded(Dispatched(s, c).db) == Some(f) && Dispatched(s, c).gateway == GatewayOf(f)
  {
    AcceptedIsLive(s, c);
    LoadedIsStorable(s.db);
    WorkdirsKeptIffNotErased(Loaded(s.db).value, c);
  }

  // ------------------------------------------------------------------ every run

  /** A command; a save from the command line; the gateway's poll of the store. */
  datatype Event = Run(command: Command) | CliSave(fleet: Fleet, fate: Fate) | Poll

  function After(s: System, e: Event): System {
    match e
    case Run(c) => Dispatched(s, c)
    case CliSave(fleet, fate) => s.(db := Saved(s.db, fleet, fate))
    case Poll => Refreshed(s)
  }

  function AfterAll(s: System, events: seq<Event>): System {
    if events == [] then s else After(AfterAll(s, events[..|events| - 1]), events[|events| - 1])
  }

  /** The tables spell out a valid fleet, or nothing was committed yet. An empty workdir is not a
      question of validity here. */
  predicate StoreValid(db: Db) {
    db.Tables? && db.meta.Some? ==>
      var f := Spelled(db.meta.value, db.rows);
      OneChannelEach(f.agents) &&
      forall id | id in f.agents :: ValidAgent(f, id)
  }

  /** The live gateway is the one it started with, or that of some valid fleet that was read back. */
  ghost predicate GatewayIsSomeFleets(initial: Gateway, g: Gateway) {
    g == initial || exists f: Fleet :: Valid(f) && Storable(f) && g == GatewayOf(f)
  }

  lemma RefreshedIsSomeFleets(initial: Gateway, s: System)
    requires GatewayIsSomeFleets(initial, s.gateway)
    ensures GatewayIsSomeFleets(initial, Refreshed(s).gateway)
  {
    if Loaded(s.db).Some? {
      LoadedIsStorable(s.db);
    }
  }

  lemma WrittenIsValid(fleet: Fleet)
    requires Valid(fleet) && DistinctIds(fleet) && KeyedById(fleet)
    ensures StoreValid(Written(fleet))
  {
    var rows := RowsOf(fleet);
    var f := Spelled(fleet.control.GetOr(""), rows);
    forall id | id in f.agents
      ensures id in fleet.agents && f.agents[id] == AgentOf(id, RowOf(fleet.agents[id])) && ValidAgent(f, id)
    {
      RowHasAgent(fleet, id);
      assert ValidAgent(fleet, id);
    }
  }

  ghost predicate Sound(initial: Gateway, s: System) {
    StoreValid(s.db) && GatewayIsSomeFleets(initial, s.gateway)
  }

  lemma CommandKeepsSound(initial: Gateway, s: System, c: Command)
    requires Sound(initial, s)
    ensures Sound(initial, Dispatched(s, c))
  {
    if Accepted(s.db, c) {
      var f := Proposal(s.db, c).value;
      AcceptedIsLive(s, c);
      ProposalKeepsKeys(s.db, c);
      WrittenIsValid(f);
      assert NoEmptyWorkdir(f) ==> Storable(f);
    } else {
      RefusedChangesNothing(s, c);
    }
  }

  lemma EventKeepsSound(initial: Gateway, s: System, e: Event)
    requires Sound(initial, s) && (e.CliSave? ==> KeyedById(e.fleet))
    ensures Sound(initial, After(s, e))
  {
    match e
    case Run(c) => CommandKeepsSound(initial, s, c);
    case CliSave(fleet, fate) =>
      if Accepts(fleet, fate) {
        WrittenIsValid(fleet);
      }
    case Poll => RefreshedIsSomeFleets(initial, s);
  }

  /** Over any mix of commands, command-line saves, failures and polls the stored fleet stays valid and the
      live routes are always those of some fleet that was read back, never those of a misread store. */
  lemma {:induction false} EveryRun(s: System, events: seq<Event>)
    requires StoreValid(s.db)
    requires forall e | e in events && e.CliSave? :: KeyedById(e.fleet)
    ensures Sound(s.gateway, AfterAll(s, events))
  {
    if events != [] {
      var n := |events| - 1;
      EveryRun(s, events[..n]);
      EventKeepsSound(s.gateway, AfterAll(s, events[..n]), events[n]);
    }
  }

  function Commands(commands: seq<Command>): seq<Event> {
    seq(|commands|, i requires 0 <= i < |commands| => Run(commands[i]))
  }

  /** A store that does not read refuses every further command: nothing changes, however many follow. */
  lemma {:induction false} UnreadableRefusesAll(s: System, commands: seq<Command>)
    requires Loaded(s.db) == None
    ensures AfterAll(s, Commands(commands)) == s
  {
    if commands != [] {
      var n := |commands| - 1;
      UnreadableRefusesAll(s, commands[..n]);
      assert Commands(commands)[..n] == Commands(commands[..n]);
    }
  }
}
