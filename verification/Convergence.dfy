/** Store, routing table and processes together: what a command leads to. */
module Convergence {
  import opened Control
  import opened FleetStore
  import opened Wrappers
  import S = Supervisor

  /** The list a pass reads: the enabled agents of the stored fleet, in some order; none if it does not read. */
  predicate ReadsAs(db: Db, read: Option<seq<string>>) {
    match Loaded(db)
    case None => read == None
    case Some(f) =>
      && read.Some?
      && (forall id | id in read.value :: id in f.agents && f.agents[id].enabled)
      && (forall id | id in f.agents && f.agents[id].enabled :: id in read.value)
  }

  ghost predicate NothingFails(s: S.State, read: seq<string>, c: S.Conditions) {
    forall id :: S.Worked(s, read, c, id)
  }

  /** After an accepted command that erases no workdir, and a pass in which nothing fails, the running
      agents are exactly the routed ones. */
  lemma RunningIffRouted(s: System, c: Command, l: S.Limits, sup: S.State, read: Option<seq<string>>,
                         conditions: S.Conditions)
    requires Accepted(s.db, c) && c.env.workdir != "" && !ErasesWorkdir(c)
    requires ReadsAs(Dispatched(s, c).db, read) && NothingFails(sup, read.GetOr([]), conditions)
    ensures forall id :: id in S.Reconciled(l, sup, read, conditions).running <==>
                         id in Dispatched(s, c).gateway.routes.Values
  {
    AcceptedReadsIffWorkdirKept(s, c);
    AcceptedIsLive(s, c);
    var f := Proposal(s.db, c).value;
    S.ConvergesIffNothingFailed(l, sup, read.value, conditions);
    RoutesAreABijection(f);
    assert Dispatched(s, c).gateway.routes == Routes(f);
  }

  /** After a command that erases a workdir, and ever after while only commands come, no pass starts or
      stops anything and no route changes. */
  lemma ErasedWorkdirFreezesFleet(s: System, c: Command, more: seq<Command>, l: S.Limits, sup: S.State,
                                  read: Option<seq<string>>, conditions: S.Conditions)
    requires Accepted(s.db, c) && c.env.workdir != "" && ErasesWorkdir(c)
    requires ReadsAs(AfterAll(Dispatched(s, c), Commands(more)).db, read)
    ensures AfterAll(Dispatched(s, c), Commands(more)).gateway == s.gateway
    ensures S.Reconciled(l, sup, read, conditions).running == sup.running
  {
    AcceptedReadsIffWorkdirKept(s, c);
    AcceptedIsLive(s, c);
    UnreadableRefusesAll(Dispatched(s, c), more);
  }
}
