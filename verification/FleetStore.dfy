/** The desired state of the fleet and the crash-prone store that holds it. */
module FleetStore {
  import Text
  import opened Wrappers

  datatype Agent = Agent(id: string, channel: string, workdir: string, args: string, enabled: bool)

  datatype Fleet = Fleet(control: Option<string>, agents: map<string, Agent>)

  // ------------------------------------------------------------------ validity

  predicate IdStart(c: char) {
    'a' <= c <= 'z' || '0' <= c <= '9'
  }

  predicate IdRest(s: string) {
    forall i | 0 <= i < |s| :: IdStart(s[i]) || s[i] == '_' || s[i] == '-'
  }

  /** The id pattern; its end anchor also matches before one final newline. */
  predicate ValidId(s: string) {
    var body := if s != "" && s[|s| - 1] == '\n' then s[..|s| - 1] else s;
    body != "" && IdStart(body[0]) && IdRest(body[1..])
  }

  predicate ValidAgent(fleet: Fleet, id: string)
    requires id in fleet.agents
  {
    ValidId(id) && Text.IsDigits(fleet.agents[id].channel) && Some(fleet.agents[id].channel) != fleet.control
  }

  predicate OneChannelEach(agents: map<string, Agent>) {
    forall i, j | i in agents && j in agents && i != j :: agents[i].channel != agents[j].channel
  }

  predicate Valid(fleet: Fleet) {
    (forall id | id in fleet.agents :: ValidAgent(fleet, id)) && OneChannelEach(fleet.agents)
  }

  datatype Problem =
    | BadId(id: string)
    | BadChannel(id: string)
    | OnControl(id: string)
    | Shared(first: string, id: string)

  /** The checks one agent at a time, with the channels seen so far: it finds no problem exactly when
      the fleet is valid. */
  method Validate(fleet: Fleet) returns (problem: Option<Problem>)
    ensures problem.None? <==> Valid(fleet)
  {
    var seen: map<string, string> := map[];
    var left := fleet.agents.Keys;
    while left != {}
      invariant left <= fleet.agents.Keys
      invariant forall id | id in fleet.agents && id !in left ::
                  ValidAgent(fleet, id) && fleet.agents[id].channel in seen && seen[fleet.agents[id].channel] == id
      invariant forall c | c in seen ::
                  seen[c] in fleet.agents && seen[c] !in left && fleet.agents[seen[c]].channel == c
      decreases left
    {
      var id :| id in left;
      var agent := fleet.agents[id];
      if !ValidId(id) {
        return Some(BadId(id));
      }
      if !Text.IsDigits(agent.channel) {
        return Some(BadChannel(id));
      }
      if Some(agent.channel) == fleet.control {
        return Some(OnControl(id));
      }
      if agent.channel in seen {
        assert !OneChannelEach(fleet.agents) by {
          assert fleet.agents[seen[agent.channel]].channel == fleet.agents[id].channel && seen[agent.channel] != id;
        }
        return Some(Shared(seen[agent.channel], id));
      }
      seen := seen[agent.channel := id];
      left := left - {id};
    }
    return None;
  }

  // ------------------------------------------------------------------ routing views

  predicate KeyedById(fleet: Fleet) {
    forall id | id in fleet.agents :: fleet.agents[id].id == id
  }

  /** Channel to agent, for enabled agents only. */
  function Routes(fleet: Fleet): map<string, string>
    requires Valid(fleet)
  {
    map id | id in fleet.agents && fleet.agents[id].enabled :: fleet.agents[id].channel := fleet.agents[id].id
  }

  function ListenChannels(fleet: Fleet): set<string> {
    (set id | id in fleet.agents && fleet.agents[id].enabled :: fleet.agents[id].channel) +
    (if fleet.control.Some? && fleet.control.value != "" then {fleet.control.value} else {})
  }

  lemma EveryEnabledAgentIsRouted(fleet: Fleet, id: string)
    requires Valid(fleet) && KeyedById(fleet) && id in fleet.agents && fleet.agents[id].enabled
    ensures fleet.agents[id].channel in Routes(fleet) && Routes(fleet)[fleet.agents[id].channel] == id
  {
    assert fleet.agents[id].channel in Routes(fleet);
  }

  lemma EveryRouteIsAnEnabledAgent(fleet: Fleet, c: string)
    requires Valid(fleet) && KeyedById(fleet) && c in Routes(fleet)
    ensures var id := Routes(fleet)[c];
            id in fleet.agents && fleet.agents[id].enabled && fleet.agents[id].channel == c && Some(c) != fleet.control
  {
    var id :| id in fleet.agents && fleet.agents[id].enabled && fleet.agents[id].channel == c;
    EveryEnabledAgentIsRouted(fleet, id);
    assert ValidAgent(fleet, id);
  }

  /** The routes pair the enabled agents with their channels one to one and never hold the control
      channel. */
  lemma RoutesAreABijection(fleet: Fleet)
    requires Valid(fleet) && KeyedById(fleet)
    ensures var r := Routes(fleet);
            && (forall c, d | c in r && d in r && r[c] == r[d] :: c == d)
            && (forall id :: (id in fleet.agents && fleet.agents[id].enabled) <==> id in r.Values)
            && (forall c | c in r :: r[c] in fleet.agents && fleet.agents[r[c]].channel == c)
            && (fleet.control.Some? ==> fleet.control.value !in r)
  {
    var r := Routes(fleet);
    forall id | id in fleet.agents && fleet.agents[id].enabled
      ensures id in r.Values
    {
      EveryEnabledAgentIsRouted(fleet, id);
    }
    forall c | c in r
      ensures r[c] in fleet.agents && fleet.agents[r[c]].channel == c && fleet.agents[r[c]].enabled
      ensures Some(c) != fleet.control
    {
      EveryRouteIsAnEnabledAgent(fleet, c);
    }
  }

  /** What is listened to is what is routed, and the control channel unless that is empty. */
  lemma ListenedIffRoutedOrControl(fleet: Fleet, c: string)
    requires Valid(fleet) && KeyedById(fleet)
    ensures c in ListenChannels(fleet) <==> c in Routes(fleet) || (c != "" && fleet.control == Some(c))
  {
    if c in Routes(fleet) {
      EveryRouteIsAnEnabledAgent(fleet, c);
    }
  }

  // ------------------------------------------------------------------ the database

  datatype Row = Row(channel: string, workdir: string, args: string, enabled: int)

  /** No file; a file whose tables are not all there; or the tables: the control-channel entry and the
      agents by primary key. */
  datatype Db = Absent | Bare | Tables(meta: Option<string>, rows: map<string, Row>)

  function RowOf(a: Agent): Row {
    Row(a.channel, a.workdir, a.args, if a.enabled then 1 else 0)
  }

  function AgentOf(id: string, r: Row): Agent {
    Agent(id, r.channel, r.workdir, r.args, r.enabled != 0)
  }

  /** The fleet the tables spell out, before any check. */
  function Spelled(meta: string, rows: map<string, Row>): Fleet {
    Fleet(if meta == "" then None else Some(meta), map id | id in rows :: AgentOf(id, rows[id]))
  }

  predicate RowsReadable(rows: map<string, Row>) {
    forall id | id in rows :: rows[id].channel != "" && rows[id].workdir != ""
  }

  /** Reading never takes an absent or half-initialised store for an empty fleet. */
  function Loaded(db: Db): Option<Fleet> {
    if !db.Tables? || db.meta.None? then None
    else
      var fleet := Spelled(db.meta.value, db.rows);
      if RowsReadable(db.rows) && Valid(fleet) then Some(fleet) else None
  }

  method Load(db: Db) returns (fleet: Option<Fleet>)
    ensures fleet == Loaded(db)
  {
    if !db.Tables? || db.meta.None? {
      return None;
    }
    var control := if db.meta.value != "" then Some(db.meta.value) else None;
    var agents: map<string, Agent> := map[];
    var left := db.rows.Keys;
    while left != {}
      invariant left <= db.rows.Keys && agents.Keys == db.rows.Keys - left
      invariant forall id | id in agents ::
                  db.rows[id].channel != "" && db.rows[id].workdir != "" && agents[id] == AgentOf(id, db.rows[id])
      decreases left
    {
      var id :| id in left;
      var row := db.rows[id];
      if row.channel == "" || row.workdir == "" {
        return None;
      }
      agents := agents[id := AgentOf(id, row)];
      left := left - {id};
    }
    assert Fleet(control, agents) == Spelled(db.meta.value, db.rows);
    var problem := Validate(Fleet(control, agents));
    return if problem.None? then Some(Fleet(control, agents)) else None;
  }

  predicate DistinctIds(fleet: Fleet) {
    forall i, j | i in fleet.agents && j in fleet.agents && i != j :: fleet.agents[i].id != fleet.agents[j].id
  }

  function RowsOf(fleet: Fleet): map<string, Row>
    requires DistinctIds(fleet)
  {
    map k | k in fleet.agents :: fleet.agents[k].id := RowOf(fleet.agents[k])
  }

  function Written(fleet: Fleet): Db
    requires DistinctIds(fleet)
  {
    Tables(Some(fleet.control.GetOr("")), RowsOf(fleet))
  }

  function WithSchema(db: Db): Db {
    if db.Tables? then db else Tables(None, map[])
  }

  /** How far a save gets: to its end, to the end of the schema step, to the bare file, or nowhere. */
  datatype Fate = Completes | StopsAfterSchema | StopsInSchema | StopsAtOnce

  predicate Accepts(fleet: Fleet, fate: Fate) {
    Valid(fleet) && DistinctIds(fleet) && fate.Completes?
  }

  /** The schema is committed on its own, then all rows in one transaction, which two agents with the
      same id abort. */
  function Saved(db: Db, fleet: Fleet, fate: Fate): Db {
    if !Valid(fleet) || fate.StopsAtOnce? then db
    else if fate.StopsInSchema? then (if db.Absent? then Bare else db)
    else if fate.StopsAfterSchema? || !DistinctIds(fleet) then WithSchema(db)
    else Written(fleet)
  }

  // ------------------------------------------------------------------ round trip

  /** What the store can hold faithfully. */
  predicate Storable(fleet: Fleet) {
    && KeyedById(fleet)
    && (forall id | id in fleet.agents :: fleet.agents[id].workdir != "")
    && fleet.control != Some("")
  }

  lemma RowOfAgent(fleet: Fleet, id: string)
    requires KeyedById(fleet) && DistinctIds(fleet) && id in fleet.agents
    ensures id in RowsOf(fleet) && RowsOf(fleet)[id] == RowOf(fleet.agents[id])
  {
    assert fleet.agents[id].id == id;
  }

  lemma RowHasAgent(fleet: Fleet, id: string)
    requires KeyedById(fleet) && DistinctIds(fleet) && id in RowsOf(fleet)
    ensures id in fleet.agents && RowsOf(fleet)[id] == RowOf(fleet.agents[id])
  {
  }

  lemma AgentAndBack(a: Agent)
    ensures AgentOf(a.id, RowOf(a)) == a
  {
  }

  lemma SpelledBack(fleet: Fleet)
    requires KeyedById(fleet) && DistinctIds(fleet) && fleet.control != Some("")
    ensures Spelled(fleet.control.GetOr(""), RowsOf(fleet)) == fleet
  {
    var spelled := Spelled(fleet.control.GetOr(""), RowsOf(fleet)).agents;
    forall id
      ensures id in spelled <==> id in fleet.agents
      ensures id in spelled ==> spelled[id] == fleet.agents[id]
    {
      if id in fleet.agents {
        RowOfAgent(fleet, id);
        AgentAndBack(fleet.agents[id]);
      } else if id in RowsOf(fleet) {
        RowHasAgent(fleet, id);
      }
    }
    assert spelled == fleet.agents;
  }

  lemma StorableLoads(fleet: Fleet)
    requires Valid(fleet) && DistinctIds(fleet) && Storable(fleet)
    ensures Loaded(Written(fleet)) == Some(fleet)
  {
    SpelledBack(fleet);
    forall id | id in RowsOf(fleet)
      ensures RowsOf(fleet)[id].channel != "" && RowsOf(fleet)[id].workdir != ""
    {
      RowHasAgent(fleet, id);
      assert ValidAgent(fleet, id);
    }
  }

  lemma LoadsOnlyStorable(fleet: Fleet)
    requires DistinctIds(fleet) && Loaded(Written(fleet)) == Some(fleet)
    ensures Storable(fleet)
  {
    var rows := RowsOf(fleet);
    var back := Spelled(fleet.control.GetOr(""), rows);
    assert back == fleet;
    forall id | id in fleet.agents
      ensures fleet.agents[id].id == id && fleet.agents[id].workdir != ""
    {
      assert id in rows && back.agents[id] == AgentOf(id, rows[id]);
    }
  }

  /** After an accepted save, load returns that very fleet if and only if every workdir is non-empty,
      every agent is filed under its own id and the control channel is not the empty string. */
  lemma LoadAfterSaveIffStorable(db: Db, fleet: Fleet, fate: Fate)
    requires Accepts(fleet, fate)
    ensures Loaded(Saved(db, fleet, fate)) == Some(fleet) <==> Storable(fleet)
  {
    assert Saved(db, fleet, fate) == Written(fleet);
    if Storable(fleet) {
      StorableLoads(fleet);
    } else if Loaded(Written(fleet)) == Some(fleet) {
      LoadsOnlyStorable(fleet);
    }
  }

  // ------------------------------------------------------------------ crashes

  /** The pre-SQLite file beside the store. */
  datatype Legacy = NoFile | BrokenFile | File(fleet: Fleet)

  /** The store, the legacy file, what was committed so far and what every load returned. */
  datatype World = World(db: Db, legacy: Legacy, committed: seq<Fleet>, returned: seq<Option<Fleet>>)

  datatype Event =
    | Save(fleet: Fleet, fate: Fate)
    | Read(fate: Fate, renamed: bool)  // how far its migration gets, and whether the rename works

  function Store(w: World, fleet: Fleet, fate: Fate): World {
    w.(db := Saved(w.db, fleet, fate), committed := if Accepts(fleet, fate) then w.committed + [fleet] else w.committed)
  }

  /** A load first seeds an absent store from a readable legacy file. */
  function Migrated(w: World, fate: Fate, renamed: bool): World {
    if !w.db.Absent? || !w.legacy.File? then w
    else
      var seeded := Store(w, w.legacy.fleet, fate);
      if Accepts(w.legacy.fleet, fate) && renamed then seeded.(legacy := NoFile) else seeded
  }

  function Do(w: World, e: Event): World {
    match e
    case Save(fleet, fate) => Store(w, fleet, fate)
    case Read(fate, renamed) =>
      var m := Migrated(w, fate, renamed);
      m.(returned := m.returned + [Loaded(m.db)])
  }

  function Run(w: World, events: seq<Event>): World {
    if events == [] then w else Do(Run(w, events[..|events| - 1]), events[|events| - 1])
  }

  /** The store holds exactly the last committed fleet, or nothing at all. */
  predicate HoldsLast(w: World) {
    if w.committed == [] then w.db == Absent || w.db == Bare || w.db == Tables(None, map[])
    else
      var last := w.committed[|w.committed| - 1];
      Valid(last) && DistinctIds(last) && w.db == Written(last)
  }

  predicate CommittedEarlier(w: World, r: Option<Fleet>) {
    exists i | 0 <= i < |w.committed| ::
      Valid(w.committed[i]) && DistinctIds(w.committed[i]) && r == Loaded(Written(w.committed[i]))
  }

  /** Over any run of saves, loads and migrations that stop anywhere, the store holds the last committed
      fleet or nothing, and every load returned nothing or what the store of a committed fleet reads as. */
  lemma {:induction false} StoreIsSafe(legacy: Legacy, events: seq<Event>)
    ensures var w := Run(World(Absent, legacy, [], []), events);
            HoldsLast(w) && AllCommitted(w, w.returned)
  {
    if events != [] {
      var n := |events| - 1;
      StoreIsSafe(legacy, events[..n]);
      EventKeepsSafe(Run(World(Absent, legacy, [], []), events[..n]), events[n]);
    }
  }

  ghost predicate Safe(w: World) {
    HoldsLast(w) && AllCommitted(w, w.returned)
  }

  lemma StillCommitted(w: World, v: World, r: Option<Fleet>)
    requires CommittedEarlier(w, r) && w.committed <= v.committed
    ensures CommittedEarlier(v, r)
  {
    var k :| 0 <= k < |w.committed| && Valid(w.committed[k]) && DistinctIds(w.committed[k]) &&
             r == Loaded(Written(w.committed[k]));
    assert v.committed[k] == w.committed[k];
  }

  predicate AllCommitted(w: World, returned: seq<Option<Fleet>>) {
    forall i | 0 <= i < |returned| :: returned[i].None? || CommittedEarlier(w, returned[i])
  }

  lemma StillAllCommitted(w: World, v: World, returned: seq<Option<Fleet>>)
    requires AllCommitted(w, returned) && w.committed <= v.committed
    ensures AllCommitted(v, returned)
  {
    forall i | 0 <= i < |returned| && returned[i].Some?
      ensures CommittedEarlier(v, returned[i])
    {
      StillCommitted(w, v, returned[i]);
    }
  }

  lemma StoreKeepsSafe(w: World, fleet: Fleet, fate: Fate)
    requires Safe(w)
    ensures Safe(Store(w, fleet, fate))
  {
    StillAllCommitted(w, Store(w, fleet, fate), w.returned);
  }

  lemma LoadsLast(w: World)
    requires HoldsLast(w) && Loaded(w.db).Some?
    ensures CommittedEarlier(w, Loaded(w.db))
  {
    var k := |w.committed| - 1;
    assert w.db == Written(w.committed[k]);
  }

  lemma ReadKeepsSafe(w: World)
    requires Safe(w)
    ensures Safe(w.(returned := w.returned + [Loaded(w.db)]))
  {
    var v := w.(returned := w.returned + [Loaded(w.db)]);
    StillAllCommitted(w, v, w.returned);
    if Loaded(w.db).Some? {
      LoadsLast(w);
      StillCommitted(w, v, Loaded(w.db));
    }
  }

  lemma EventKeepsSafe(w: World, e: Event)
    requires Safe(w)
    ensures Safe(Do(w, e))
  {
    match e
    case Save(fleet, fate) => StoreKeepsSafe(w, fleet, fate);
    case Read(fate, renamed) =>
      if w.legacy.File? {
        StoreKeepsSafe(w, w.legacy.fleet, fate);
        LegacyDoesNotMatter(Store(w, w.legacy.fleet, fate), NoFile);
      }
      ReadKeepsSafe(Migrated(w, fate, renamed));
  }

  lemma LegacyDoesNotMatter(w: World, legacy: Legacy)
    requires Safe(w)
    ensures Safe(w.(legacy := legacy))
  {
    StillAllCommitted(w, w.(legacy := legacy), w.returned);
  }

  lemma ReadBackIsWritten(fleet: Fleet)
    requires KeyedById(fleet) && DistinctIds(fleet) && fleet.control != Some("")
    requires Loaded(Written(fleet)).Some?
    ensures Loaded(Written(fleet)).value == fleet
  {
    SpelledBack(fleet);
  }

  /** Where every fleet that was committed is filed by its agents' ids and has no empty control channel, every
      load returned nothing or one of those fleets itself. */
  lemma LoadsReturnCommitted(legacy: Legacy, events: seq<Event>, i: nat)
    requires var w := Run(World(Absent, legacy, [], []), events);
             && i < |w.returned|
             && forall f | f in w.committed :: KeyedById(f) && f.control != Some("")
    ensures var w := Run(World(Absent, legacy, [], []), events);
            w.returned[i].None? || w.returned[i].value in w.committed
  {
    StoreIsSafe(legacy, events);
    var w := Run(World(Absent, legacy, [], []), events);
    if w.returned[i].Some? {
      var k :| 0 <= k < |w.committed| && Valid(w.committed[k]) && DistinctIds(w.committed[k]) &&
               w.returned[i] == Loaded(Written(w.committed[k]));
      ReadBackIsWritten(w.committed[k]);
    }
  }

  /** A load returns a fleet of no agents only if a fleet of no agents was committed. */
  lemma {:induction false} EmptyOnlyIfSavedEmpty(legacy: Legacy, events: seq<Event>, i: nat)
    requires var w := Run(World(Absent, legacy, [], []), events);
             i < |w.returned| && w.returned[i].Some? && w.returned[i].value.agents == map[]
    ensures var w := Run(World(Absent, legacy, [], []), events);
            exists k | 0 <= k < |w.committed| :: w.committed[k].agents == map[]
  {
    StoreIsSafe(legacy, events);
    var w := Run(World(Absent, legacy, [], []), events);
    var k :| 0 <= k < |w.committed| && Valid(w.committed[k]) && DistinctIds(w.committed[k]) &&
             w.returned[i] == Loaded(Written(w.committed[k]));
    NoRowsNoAgents(w.committed[k]);
  }

  lemma NoRowsNoAgents(f: Fleet)
    requires DistinctIds(f) && Loaded(Written(f)).Some? && Loaded(Written(f)).value.agents == map[]
    ensures f.agents == map[]
  {
    EveryAgentIsRead(f);
  }

  lemma EveryAgentIsRead(f: Fleet)
    requires DistinctIds(f) && Loaded(Written(f)).Some?
    ensures forall a | a in f.agents :: f.agents[a].id in Loaded(Written(f)).value.agents
  {
    assert forall a | a in f.agents :: f.agents[a].id in RowsOf(f);
  }
}
