/** That a cold query can get to its watch, and from a delivered change to an assignment. */
module Wakeup {
  import opened Wrappers
  import opened Backend
  import opened Pods
  import opened Characters
  import opened Selection
  import opened Demand
  import opened Protocol
  import opened Invariants
  import opened Coalescing

  /** The query sits in its watch, its lock is free, and the watch has a change to deliver. */
  ghost predicate Awakened(cfg: Config, s: State, q: nat) {
    && Known(s, q) && s.queries[q].phase.Watching? && s.directors[s.queries[q].director].holder == None
    && Deliverable(cfg, s, s.queries[q].req.mapName, s.queries[q].phase.version)
  }

  function WakeupSteps(q: nat, items: seq<Pod>): seq<Step> {
    [WatchReturns(q, false)] + [Acquire(q)] + [List(q, items)]
  }

  /** One step from a state reached. */
  lemma StepOn(cfg: Config, s: State, steps: seq<Step>, now: State, step: Step, next: State)
    requires Legal(cfg, s, steps) && After(cfg, s, steps) == now
    requires Enabled(cfg, now, step) && Apply(cfg, now, step) == next
    ensures Legal(cfg, s, steps + [step]) && After(cfg, s, steps + [step]) == next
  {
    hide Enabled, Apply, Legal;
    LegalExtends(cfg, s, steps, step);
  }

  lemma FirstStep(cfg: Config, s: State, step: Step)
    requires Enabled(cfg, s, step)
    ensures Legal(cfg, s, [step]) && After(cfg, s, [step]) == Apply(cfg, s, step)
  {
    hide Enabled, Apply;
    assert Legal(cfg, s, []) && [step][..0] == [];
  }

  lemma Returns(cfg: Config, s: State, q: nat)
    requires Awakened(cfg, s, q)
    ensures Enabled(cfg, s, WatchReturns(q, false))
    ensures Apply(cfg, s, WatchReturns(q, false)) == SetPhase(s, q, Requeued)
  {
    hide Deliverable;
  }

  lemma Relocks(cfg: Config, s: State, q: nat)
    requires Known(s, q) && s.queries[q].phase == Requeued && s.directors[s.queries[q].director].holder == None
    ensures Enabled(cfg, s, Acquire(q))
    ensures var s' := Apply(cfg, s, Acquire(q));
            && Known(s', q) && s'.queries[q].phase == Listing(true) && s'.queries[q].req == s.queries[q].req
            && s'.queries[q].director == s.queries[q].director
            && s'.directors[s.queries[q].director].holder == Some(q)
            && s'.history == s.history && s'.clock == s.clock
  {
  }

  lemma Relists(cfg: Config, s: State, q: nat, items: seq<Pod>)
    requires Known(s, q) && s.queries[q].phase == Listing(true)
    requires IsListing(cfg, s.queries[q].req.mapName, Current(s), items)
    ensures Enabled(cfg, s, List(q, items))
    ensures Apply(cfg, s, List(q, items)) == SetPhase(s, q, Deciding(items, Revision(s), s.clock))
  {
    hide IsListing;
  }

  /**
   * From a delivered change the query comes back to a decision: it can return, take the free lock and list, and what
   * it then evaluates is a list of the Pods as they are; if one of them may be chosen, it is not cold any more.
   */
  lemma WakeupReconsiders(cfg: Config, s: State, q: nat, items: seq<Pod>)
    requires Chronicle(s) && Awakened(cfg, s, q) && IsListing(cfg, s.queries[q].req.mapName, Current(s), items)
    ensures
      var req := s.queries[q].req;
      && Legal(cfg, s, WakeupSteps(q, items))
      && var s' := After(cfg, s, WakeupSteps(q, items));
      && Known(s', q) && s'.queries[q].phase == Deciding(items, Revision(s), s.clock) && s'.queries[q].req == req
      && s'.directors[s'.queries[q].director].holder == Some(q)
      && s'.history == s.history && s'.clock == s.clock && Enabled(cfg, s', Evaluate(q))
      && ((exists n :: n in Current(s) && InMap(cfg, req.mapName, Current(s)[n]) && PassesFilters(cfg, Current(s)[n])
                       && Eligible(cfg, req, s.clock, Current(s)[n])) ==>
            Decide(cfg, req, items, s.clock) != Cold)
  {
    hide Chronicle, Apply, Enabled, Legal, Awakened, IsListing, Eligible, InMap, PassesFilters, Decide, After;
    AwakenedIsKnown(cfg, s, q);
    Returns(cfg, s, q);
    FirstStep(cfg, s, WatchReturns(q, false));
    var s1 := SetPhase(s, q, Requeued);
    Relocks(cfg, s1, q);
    var s2 := Apply(cfg, s1, Acquire(q));
    StepOn(cfg, s, [WatchReturns(q, false)], s1, Acquire(q), s2);
    Relists(cfg, s2, q, items);
    var s3 := SetPhase(s2, q, Deciding(items, Revision(s), s.clock));
    StepOn(cfg, s, [WatchReturns(q, false)] + [Acquire(q)], s2, List(q, items), s3);
    CanEvaluate(cfg, s3, q);
    EligibleIsNotCold(cfg, s, s.queries[q].req, items);
  }

  lemma AwakenedIsKnown(cfg: Config, s: State, q: nat)
    requires Awakened(cfg, s, q)
    ensures Known(s, q) && s.queries[q].phase.Watching? && s.directors[s.queries[q].director].holder == None
  {
    hide Deliverable;
  }

  lemma CanEvaluate(cfg: Config, s: State, q: nat)
    requires Known(s, q) && s.queries[q].phase.Deciding?
    ensures Enabled(cfg, s, Evaluate(q))
  {
  }

  lemma EligibleIsNotCold(cfg: Config, s: State, req: Request, items: seq<Pod>)
    requires Chronicle(s) && IsListing(cfg, req.mapName, Current(s), items)
    ensures (exists n :: n in Current(s) && InMap(cfg, req.mapName, Current(s)[n]) && PassesFilters(cfg, Current(s)[n])
                         && Eligible(cfg, req, s.clock, Current(s)[n])) ==>
              Decide(cfg, req, items, s.clock) != Cold
  {
    hide Chronicle, Eligible, InMap, PassesFilters, Decide;
    CurrentNames(s);
    DecisionIsAboutOptimum(cfg, req, items, s.clock);
    if n :| n in Current(s) && InMap(cfg, req.mapName, Current(s)[n]) && PassesFilters(cfg, Current(s)[n])
            && Eligible(cfg, req, s.clock, Current(s)[n]) {
      assert Current(s)[n] in items;
    }
  }

  // ----- into the watch -----

  /** The steps of a group's first cold query: decide, signal, post, be accepted, watch. */
  function ColdSteps(q: nat, d: nat, f: nat): seq<Step> {
    [Evaluate(q)] + [PostDemand(d, f)] + [AnswerDemand(d, f, Response(202))] + [SeeAnswer(q)]
  }

  lemma Signals(cfg: Config, s: State, q: nat)
    requires StartsCold(cfg, s, Evaluate(q)) && BoardsOk(s)
    requires !GroupHeld(s, s.queries[q].director, GroupOf(cfg.demand.value, s.queries[q].req.mapName))
    ensures
      var query := s.queries[q];
      var s' := Apply(cfg, s, Evaluate(q));
      var f := |s.directors[query.director].board.flights|;
      && Known(s', q) && s'.queries[q].director == query.director && s'.queries[q].req == query.req
      && s'.queries[q].flight == Some(f)
      && s'.queries[q].phase == Signalled(query.phase.items, query.phase.version, s.clock)
      && |s'.directors[query.director].board.flights| == f + 1
      && !s'.directors[query.director].board.flights[f].posted
      && s'.directors[query.director].board.flights[f].outcome == None
      && s'.directors[query.director].holder == None
  {
    hide Decide, BoardOk, Counted;
    var query := s.queries[q];
    assert BoardOk(s.directors[query.director].board, LiveFlights(s, query.director));
    SignalKeepsBoard(s.directors[query.director].board, LiveFlights(s, query.director),
                     GroupOf(cfg.demand.value, query.req.mapName), s.clock + cfg.demand.value.bootTimeout);
    NewFlight(s.directors[query.director].board, LiveFlights(s, query.director),
              GroupOf(cfg.demand.value, query.req.mapName), s.clock + cfg.demand.value.bootTimeout);
  }

  lemma NewFlight(board: Board, live: set<nat>, group: string, deadline: int)
    requires BoardOk(board, live) && !GroupLive(board, live, group)
    ensures var (after, f) := JoinOrStart(board, live, group, deadline);
            f == |board.flights| && after.flights == board.flights + [Flight(group, deadline, false, None)]
  {
    hide Counted;
  }

  /** Signalled on a flight of its director that is neither posted nor answered, with the lock free. */
  ghost predicate Raised(s: State, q: nat, f: nat) {
    && Known(s, q) && s.queries[q].phase.Signalled? && s.queries[q].flight == Some(f)
    && s.directors[s.queries[q].director].holder == None
    && f < |s.directors[s.queries[q].director].board.flights|
    && !s.directors[s.queries[q].director].board.flights[f].posted
    && s.directors[s.queries[q].director].board.flights[f].outcome == None
  }

  lemma Posts(cfg: Config, s: State, q: nat, f: nat)
    requires Raised(s, q, f)
    ensures var d := s.queries[q].director;
            && Enabled(cfg, s, PostDemand(d, f))
            && Enabled(cfg, Apply(cfg, s, PostDemand(d, f)), AnswerDemand(d, f, Response(202)))
            && var s' := Apply(cfg, Apply(cfg, s, PostDemand(d, f)), AnswerDemand(d, f, Response(202)));
            && s'.queries == s.queries && s'.history == s.history
            && d in s'.directors && s'.directors[d].holder == None
            && f < |s'.directors[d].board.flights| && s'.directors[d].board.flights[f].outcome == Some(Success(()))
  {
  }

  lemma Sees(cfg: Config, s: State, q: nat, f: nat)
    requires Known(s, q) && s.queries[q].phase.Signalled? && s.queries[q].flight == Some(f)
    requires f < |s.directors[s.queries[q].director].board.flights|
    requires s.directors[s.queries[q].director].board.flights[f].outcome == Some(Success(()))
    ensures Enabled(cfg, s, SeeAnswer(q))
    ensures Apply(cfg, s, SeeAnswer(q))
            == SetPhase(s, q, Watching(s.queries[q].phase.items, s.queries[q].phase.version, s.queries[q].phase.at))
  {
  }

  /**
   * The first cold query of a group gets to its watch: it lets go of the lock, its demand can be posted, and once that
   * is accepted it watches from the revision of the list it decided on.
   */
  lemma ColdQueryGetsToWatch(cfg: Config, s: State, q: nat, d: nat, f: nat)
    requires Known(s, q) && s.queries[q].phase.Deciding? && cfg.demand.Some?
    requires d == s.queries[q].director && f == |s.directors[d].board.flights|
    requires StartsCold(cfg, s, Evaluate(q)) && BoardsOk(s)
    requires !GroupHeld(s, d, GroupOf(cfg.demand.value, s.queries[q].req.mapName))
    ensures Legal(cfg, s, ColdSteps(q, d, f))
    ensures var s' := After(cfg, s, ColdSteps(q, d, f));
            && Known(s', q) && d in s'.directors && s'.directors[d].holder == None
            && s'.queries[q].phase == Watching(s.queries[q].phase.items, s.queries[q].phase.version, s.clock)
  {
    hide Apply, Enabled, Legal, After, StartsCold, BoardsOk, GroupHeld;
    ColdIsEnabled(cfg, s, q);
    Signals(cfg, s, q);
    var query := s.queries[q];
    var s1 := Apply(cfg, s, Evaluate(q));
    FirstStep(cfg, s, Evaluate(q));
    Posts(cfg, s1, q, f);
    var s2 := Apply(cfg, s1, PostDemand(d, f));
    StepOn(cfg, s, [Evaluate(q)], s1, PostDemand(d, f), s2);
    var s3 := Apply(cfg, s2, AnswerDemand(d, f, Response(202)));
    StepOn(cfg, s, [Evaluate(q)] + [PostDemand(d, f)], s2, AnswerDemand(d, f, Response(202)), s3);
    Sees(cfg, s3, q, f);
    var s4 := SetPhase(s3, q, Watching(query.phase.items, query.phase.version, s.clock));
    StepOn(cfg, s, [Evaluate(q)] + [PostDemand(d, f)] + [AnswerDemand(d, f, Response(202))], s3, SeeAnswer(q), s4);
  }

  lemma ColdIsEnabled(cfg: Config, s: State, q: nat)
    requires StartsCold(cfg, s, Evaluate(q))
    ensures Enabled(cfg, s, Evaluate(q)) && Known(s, q) && s.queries[q].phase.Deciding? && cfg.demand.Some?
  {
    hide Decide;
  }
}
