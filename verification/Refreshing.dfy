/** Commands, command-line saves and refreshes that overlap: none of them holds a lock over its steps. */
module Refreshing {
  import opened Control
  import opened FleetStore
  import opened Wrappers

  /** A fleet as a refresh read it, and how many saves had been accepted by then. */
  datatype Reading = Reading(fleet: Fleet, at: nat)

  /** The fleets that commands under way will persist, those that refreshes under way have read, the number of saves
      accepted so far, and the reading installed last. */
  datatype World = World(
    system: System,
    proposed: map<nat, Fleet>,
    read: map<nat, Reading>,
    saves: nat,
    installed: Option<Reading>)

  /** A command reads the store and later persists what it made of it; a refresh reads the store and later
      installs its routes; the command line saves. */
  datatype Action =
    | Propose(t: nat, command: Command)
    | Persist(t: nat, fate: Fate)
    | Read(t: nat)
    | Install(t: nat)
    | CliSave(fleet: Fleet, fate: Fate)

  /** The store after a save, counted if it is accepted. */
  function Stored(w: World, fleet: Fleet, fate: Fate): World {
    w.(system := w.system.(db := Saved(w.system.db, fleet, fate)),
       saves := if Accepts(fleet, fate) then w.saves + 1 else w.saves)
  }

  function Do(w: World, a: Action): World {
    var s := w.system;
    match a
    case Propose(t, c) =>
      (match Proposal(s.db, c)
       case None => w
       case Some(f) => w.(proposed := w.proposed[t := f]))
    case Persist(t, fate) =>
      if t !in w.proposed then w
      else Stored(w, w.proposed[t], fate).(proposed := w.proposed - {t})
    case Read(t) =>
      (match Loaded(s.db)
       case None => w
       case Some(f) => w.(read := w.read[t := Reading(f, w.saves)]))
    case Install(t) =>
      if t !in w.read || !Valid(w.read[t].fleet) then w
      else w.(system := s.(gateway := GatewayOf(w.read[t].fleet)), read := w.read - {t}, installed := Some(w.read[t]))
    case CliSave(fleet, fate) => Stored(w, fleet, fate)
  }

  function DoAll(w: World, actions: seq<Action>): World {
    if actions == [] then w else Do(DoAll(w, actions[..|actions| - 1]), actions[|actions| - 1])
  }

  predicate Filed(f: Fleet) {
    KeyedById(f) && DistinctIds(f)
  }

  ghost predicate Sound(initial: Gateway, w: World) {
    && StoreValid(w.system.db)
    && GatewayIsSomeFleets(initial, w.system.gateway)
    && (forall t | t in w.proposed :: Filed(w.proposed[t]) && w.system.db.Tables?)
    && (forall t | t in w.read :: Valid(w.read[t].fleet) && Storable(w.read[t].fleet))
  }

  lemma SavedStaysValid(db: Db, fleet: Fleet, fate: Fate)
    requires StoreValid(db) && Filed(fleet)
    ensures StoreValid(Saved(db, fleet, fate)) && (db.Tables? ==> Saved(db, fleet, fate).Tables?)
  {
    if Accepts(fleet, fate) {
      WrittenIsValid(fleet);
    }
  }

  lemma ActionKeepsSound(initial: Gateway, w: World, a: Action)
    requires Sound(initial, w) && (a.CliSave? ==> Filed(a.fleet))
    ensures Sound(initial, Do(w, a))
  {
    match a
    case Propose(t, c) =>
      if Proposal(w.system.db, c).Some? {
        ProposalKeepsKeys(w.system.db, c);
      }
    case Persist(t, fate) =>
      if t in w.proposed {
        SavedStaysValid(w.system.db, w.proposed[t], fate);
      }
    case Read(t) =>
      if Loaded(w.system.db).Some? {
        LoadedIsStorable(w.system.db);
      }
    case Install(t) =>
    case CliSave(fleet, fate) => SavedStaysValid(w.system.db, fleet, fate);
  }

  /** In every interleaving of commands, refreshes and command-line saves, with any failures, the stored fleet is
      valid and the live routes are those of some fleet that was read. */
  lemma {:induction false} EveryInterleaving(initial: Gateway, w: World, actions: seq<Action>)
    requires Sound(initial, w)
    requires forall i | 0 <= i < |actions| && actions[i].CliSave? :: Filed(actions[i].fleet)
    ensures Sound(initial, DoAll(w, actions))
  {
    if actions != [] {
      var n := |actions| - 1;
      EveryInterleaving(initial, w, actions[..n]);
      ActionKeepsSound(initial, DoAll(w, actions[..n]), actions[n]);
    }
  }

  /** A command that is refused when it persists changes neither the store nor the routes, whatever happened since
      it read the store. */
  lemma RefusedPersistChangesNothing(initial: Gateway, w: World, t: nat, fate: Fate)
    requires Sound(initial, w) && t in w.proposed && !Accepts(w.proposed[t], fate)
    ensures Do(w, Persist(t, fate)).system == w.system
  {
  }

  // ------------------------------------------------------------------ when no change is lost

  /** What the tables spell out, whether or not it reads. */
  function Held(db: Db): Option<Fleet> {
    if db.Tables? && db.meta.Some? then Some(Spelled(db.meta.value, db.rows)) else None
  }

  function Named(c: Command): Option<string> {
    if c.args == [] then None else Some(c.args[0])
  }

  /** The same control channel, and the same agents but for the named one. */
  ghost predicate AgreeBut(f: Fleet, g: Fleet, named: Option<string>) {
    && f.control == g.control
    && forall id | Some(id) != named ::
         (id in f.agents <==> id in g.agents) && (id in f.agents ==> f.agents[id] == g.agents[id])
  }

  lemma AgreeTrans(f: Fleet, g: Fleet, h: Fleet, named: Option<string>)
    requires AgreeBut(f, g, named) && AgreeBut(g, h, named)
    ensures AgreeBut(f, h, named)
  {
  }

  lemma AgreeSymm(f: Fleet, g: Fleet, named: Option<string>)
    requires AgreeBut(f, g, named)
    ensures AgreeBut(g, f, named)
  {
  }

  /** A command proposes what it read, but for the agent it names. */
  lemma ProposalAgrees(db: Db, c: Command)
    requires Proposal(db, c).Some?
    ensures Held(db) == Loaded(db) && AgreeBut(Held(db).value, Proposal(db, c).value, Named(c))
  {
    LoadedIsStorable(db);
    ProposalKeepsKeys(db, c);
    OthersAreKept(Loaded(db).value, c, Proposal(db, c).value);
  }

  lemma OthersAreKept(fleet: Fleet, c: Command, f: Fleet)
    requires KeyedById(fleet) && Proposed(fleet, c.verb, c.args, c.env) == Some(f) && f.control == fleet.control
    ensures AgreeBut(fleet, f, Named(c))
  {
    forall id | Some(id) != Named(c)
      ensures id in fleet.agents <==> id in f.agents
      ensures id in fleet.agents ==> fleet.agents[id] == f.agents[id]
    {
      OnlyTheNamedAgentChanges(fleet, c, id);
    }
  }

  lemma ProposalIsHeld(db: Db, c: Command)
    requires Proposal(db, c).Some?
    ensures DistinctIds(Proposal(db, c).value)
    ensures Held(Written(Proposal(db, c).value)) == Proposal(db, c)
  {
    ProposalKeepsKeys(db, c);
    SpelledBack(Proposal(db, c).value);
  }

  /** The action is not a step of the command that t runs. */
  predicate Others(t: nat, a: Action) {
    (a.Propose? ==> a.t != t) && (a.Persist? ==> a.t != t)
  }

  lemma ActionWaits(w: World, t: nat, a: Action)
    requires t in w.proposed && Held(w.system.db).Some? && Others(t, a)
    ensures var u := Do(w, a); t in u.proposed && u.proposed[t] == w.proposed[t] && Held(u.system.db).Some?
  {
  }

  lemma {:induction false} ProposalWaits(w: World, t: nat, actions: seq<Action>)
    requires t in w.proposed && Held(w.system.db).Some? && forall i | 0 <= i < |actions| :: Others(t, actions[i])
    ensures var u := DoAll(w, actions);
            t in u.proposed && u.proposed[t] == w.proposed[t] && Held(u.system.db).Some?
  {
    if actions != [] {
      var n := |actions| - 1;
      ProposalWaits(w, t, actions[..n]);
      ActionWaits(DoAll(w, actions[..n]), t, actions[n]);
    }
  }

  /** A command that reads the store, waits while others do anything, and is then accepted: it leaves the control
      channel and every agent but the one it names as the store has them, if and only if the store has them as
      they were when the command read it. */
  lemma NoChangeLostIff(w: World, t: nat, c: Command, actions: seq<Action>, fate: Fate)
    requires Proposal(w.system.db, c).Some? && Accepts(Proposal(w.system.db, c).value, fate)
    requires forall i | 0 <= i < |actions| :: Others(t, actions[i])
    ensures var u := DoAll(Do(w, Propose(t, c)), actions);
            var was, read, now := Held(u.system.db), Held(w.system.db), Held(Do(u, Persist(t, fate)).system.db);
            && was.Some? && read.Some? && now == Proposal(w.system.db, c)
            && (AgreeBut(was.value, now.value, Named(c)) <==> AgreeBut(was.value, read.value, Named(c)))
  {
    var f, u := Proposal(w.system.db, c).value, DoAll(Do(w, Propose(t, c)), actions);
    ProposalAgrees(w.system.db, c);
    ProposalIsHeld(w.system.db, c);
    ProposalWaits(Do(w, Propose(t, c)), t, actions);
    PersistIs(u, t, fate);
    var was, read := Held(u.system.db).value, Held(w.system.db).value;
    AgreeSymm(read, f, Named(c));
    if AgreeBut(was, f, Named(c)) {
      AgreeTrans(was, f, read, Named(c));
    }
    if AgreeBut(was, read, Named(c)) {
      AgreeTrans(was, read, f, Named(c));
    }
  }

  /** The action leaves the control channel and every agent but this one in the store. */
  ghost predicate Spares(w: World, a: Action, named: Option<string>) {
    var was, now := Held(w.system.db), Held(Do(w, a).system.db);
    was.Some? ==> now.Some? && AgreeBut(was.value, now.value, named)
  }

  lemma {:induction false} SparedAgree(w: World, actions: seq<Action>, named: Option<string>)
    requires Held(w.system.db).Some?
    requires forall i | 0 <= i < |actions| :: Spares(DoAll(w, actions[..i]), actions[i], named)
    ensures var u := DoAll(w, actions);
            Held(u.system.db).Some? && AgreeBut(Held(w.system.db).value, Held(u.system.db).value, named)
  {
    if actions != [] {
      var n := |actions| - 1;
      forall i | 0 <= i < n
        ensures Spares(DoAll(w, actions[..n][..i]), actions[..n][i], named)
      {
        assert actions[..n][..i] == actions[..i];
      }
      SparedAgree(w, actions[..n], named);
      var u := DoAll(w, actions[..n]);
      assert Spares(u, actions[n], named);
      AgreeTrans(Held(w.system.db).value, Held(u.system.db).value, Held(Do(u, actions[n]).system.db).value, named);
    }
  }

  /** So no change is lost whenever no save accepted in between touches another agent. */
  lemma NoChangeLostIfSpared(w: World, t: nat, c: Command, actions: seq<Action>, fate: Fate)
    requires Proposal(w.system.db, c).Some? && Accepts(Proposal(w.system.db, c).value, fate)
    requires forall i | 0 <= i < |actions| :: Others(t, actions[i])
    requires var v := Do(w, Propose(t, c));
             forall i | 0 <= i < |actions| :: Spares(DoAll(v, actions[..i]), actions[i], Named(c))
    ensures var u := DoAll(Do(w, Propose(t, c)), actions);
            var was, now := Held(u.system.db), Held(Do(u, Persist(t, fate)).system.db);
            was.Some? && now.Some? && AgreeBut(was.value, now.value, Named(c))
  {
    ProposalAgrees(w.system.db, c);
    SparedAgree(Do(w, Propose(t, c)), actions, Named(c));
    NoChangeLostIff(w, t, c, actions, fate);
    var u := DoAll(Do(w, Propose(t, c)), actions);
    AgreeSymm(Held(w.system.db).value, Held(u.system.db).value, Named(c));
  }

  // ------------------------------------------------------------------ when the routes are the store's

  /** A reading made after the last accepted save is what the store reads as; the live routes are those of the
      reading installed last. */
  predicate Dated(initial: Gateway, w: World) {
    && (forall t | t in w.read :: IsDated(w, w.read[t]))
    && (w.installed.None? ==> w.system.gateway == initial)
    && (w.installed.Some? ==> IsDated(w, w.installed.value) && w.system.gateway == GatewayOf(w.installed.value.fleet))
  }

  predicate IsDated(w: World, r: Reading) {
    && Valid(r.fleet) && r.at <= w.saves
    && (r.at == w.saves ==> Loaded(w.system.db) == Some(r.fleet))
  }

  lemma SaveKeepsDated(initial: Gateway, w: World, fleet: Fleet, fate: Fate)
    requires Dated(initial, w)
    ensures Dated(initial, Stored(w, fleet, fate))
  {
    if !Accepts(fleet, fate) && Loaded(w.system.db).Some? {
      assert Saved(w.system.db, fleet, fate) == w.system.db;
    }
    forall r | IsDated(w, r)
      ensures IsDated(Stored(w, fleet, fate), r)
    {
    }
  }

  lemma ActionKeepsDated(initial: Gateway, w: World, a: Action)
    requires Dated(initial, w)
    ensures Dated(initial, Do(w, a))
  {
    match a
    case Persist(t, fate) =>
      if t in w.proposed {
        SaveKeepsDated(initial, w, w.proposed[t], fate);
      }
    case CliSave(fleet, fate) => SaveKeepsDated(initial, w, fleet, fate);
    case _ =>
  }

  lemma {:induction false} RunKeepsDated(initial: Gateway, w: World, actions: seq<Action>)
    requires Dated(initial, w)
    ensures Dated(initial, DoAll(w, actions))
  {
    if actions != [] {
      var n := |actions| - 1;
      RunKeepsDated(initial, w, actions[..n]);
      ActionKeepsDated(initial, DoAll(w, actions[..n]), actions[n]);
    }
  }

  /** In every interleaving, with any failures: once a refresh has installed routes, the live routes are those of the
      stored fleet if and only if the refresh installed last read the store after the last accepted save, or read a
      fleet with the same routes. */
  lemma RoutesAreTheStoresIff(w: World, actions: seq<Action>)
    requires w.read == map[] && w.installed == None
    requires DoAll(w, actions).installed.Some? && Loaded(DoAll(w, actions).system.db).Some?
    ensures var v := DoAll(w, actions);
            var r, stored := v.installed.value, Loaded(v.system.db).value;
            && Valid(r.fleet) && Valid(stored)
            && (r.at == v.saves ==> r.fleet == stored)
            && (v.system.gateway == GatewayOf(stored) <==> r.at == v.saves || GatewayOf(r.fleet) == GatewayOf(stored))
  {
    RunKeepsDated(w.system.gateway, w, actions);
    LoadedIsStorable(DoAll(w, actions).system.db);
  }

  // ------------------------------------------------------------------ when they go wrong

  lemma PersistIs(w: World, t: nat, fate: Fate)
    requires t in w.proposed && Accepts(w.proposed[t], fate)
    ensures var v := Do(w, Persist(t, fate));
            v.system.db == Written(w.proposed[t]) && v.proposed == w.proposed - {t}
  {
  }

  /** Two commands that both read the store before either persisted. */
  function BothPersisted(w: World, c: Command, d: Command): World {
    var proposed := Do(Do(w, Propose(0, c)), Propose(1, d));
    Do(Do(proposed, Persist(0, c.fate)), Persist(1, d.fate))
  }

  lemma SecondOverwrites(w: World, c: Command, d: Command)
    requires Proposal(w.system.db, c).Some? && Proposal(w.system.db, d).Some?
    requires Accepts(Proposal(w.system.db, c).value, c.fate) && Accepts(Proposal(w.system.db, d).value, d.fate)
    ensures BothPersisted(w, c, d).system.db == Written(Proposal(w.system.db, d).value)
  {
    var proposed := Do(Do(w, Propose(0, c)), Propose(1, d));
    PersistIs(proposed, 0, c.fate);
    PersistIs(Do(proposed, Persist(0, c.fate)), 1, d.fate);
  }

  /** Once both are accepted, every agent that the second one did not name is in the store as it was before both:
      what the first one changed is lost. */
  lemma OverlappingCommandsLoseOne(w: World, c: Command, d: Command, id: string)
    requires Proposal(w.system.db, c).Some? && Proposal(w.system.db, d).Some?
    requires Accepts(Proposal(w.system.db, c).value, c.fate) && Accepts(Proposal(w.system.db, d).value, d.fate)
    requires NoEmptyWorkdir(Proposal(w.system.db, d).value) && (d.args == [] || id != d.args[0])
    ensures var was, now := Loaded(w.system.db).value.agents, Loaded(BothPersisted(w, c, d).system.db);
            && now.Some? && (id in now.value.agents <==> id in was)
            && (id in was ==> now.value.agents[id] == was[id])
  {
    var f := Proposal(w.system.db, d).value;
    LoadedIsStorable(w.system.db);
    ProposalKeepsKeys(w.system.db, d);
    OnlyTheNamedAgentChanges(Loaded(w.system.db).value, d, id);
    StorableLoads(f);
    SecondOverwrites(w, c, d);
  }

  lemma ReadIs(w: World, t: nat, fleet: Fleet)
    requires Loaded(w.system.db) == Some(fleet)
    ensures Do(w, Action.Read(t)) == w.(read := w.read[t := Reading(fleet, w.saves)])
  {
  }

  lemma InstallIs(w: World, t: nat)
    requires t in w.read && Valid(w.read[t].fleet)
    ensures Do(w, Install(t)).system == w.system.(gateway := GatewayOf(w.read[t].fleet))
    ensures Do(w, Install(t)).read == w.read - {t}
  {
  }

  /** A refresh reads the store, a save follows, another refresh reads that and installs it, and the first one
      installs what it had read. */
  function LateInstall(w: World, fleet: Fleet): World {
    var saved := Do(Do(w, Action.Read(0)), Action.CliSave(fleet, Completes));
    Do(Do(Do(saved, Action.Read(1)), Install(1)), Install(0))
  }

  /** The live routes are then the old fleet's, whatever the store now holds. */
  lemma LateInstallIsStale(w: World, fleet: Fleet)
    requires Loaded(w.system.db).Some? && Accepts(fleet, Completes) && Storable(fleet)
    ensures var was, v := Loaded(w.system.db).value, LateInstall(w, fleet);
            Valid(was) && Loaded(v.system.db) == Some(fleet) && v.system.gateway == GatewayOf(was)
  {
    var was := Loaded(w.system.db).value;
    LoadedIsStorable(w.system.db);
    SavedAfterRead(w, was, fleet);
    BothInstall(Do(Do(w, Action.Read(0)), Action.CliSave(fleet, Completes)), was, fleet);
  }

  lemma SavedAfterRead(w: World, was: Fleet, fleet: Fleet)
    requires Loaded(w.system.db) == Some(was) && Accepts(fleet, Completes) && Storable(fleet)
    ensures var saved := Do(Do(w, Action.Read(0)), Action.CliSave(fleet, Completes));
            0 in saved.read && saved.read[0].fleet == was && Loaded(saved.system.db) == Some(fleet)
  {
    ReadIs(w, 0, was);
    CliSaveIs(Do(w, Action.Read(0)), fleet);
    StorableLoads(fleet);
  }

  lemma CliSaveIs(w: World, fleet: Fleet)
    requires Accepts(fleet, Completes)
    ensures var v := Do(w, Action.CliSave(fleet, Completes));
            v.system.db == Written(fleet) && v.read == w.read
  {
  }

  lemma BothInstall(saved: World, was: Fleet, fleet: Fleet)
    requires 0 in saved.read && saved.read[0].fleet == was && Valid(was) && Valid(fleet)
    requires Loaded(saved.system.db) == Some(fleet)
    ensures var v := Do(Do(Do(saved, Action.Read(1)), Install(1)), Install(0));
            v.system.gateway == GatewayOf(was) && v.system.db == saved.system.db
  {
    ReadIs(saved, 1, fleet);
    var both := Do(saved, Action.Read(1));
    InstallIs(both, 1);
    InstallIs(Do(both, Install(1)), 0);
  }
}
