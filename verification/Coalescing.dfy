/** Cold queries of one group share one live flight per director, and a flight signals at most once. */
module Coalescing {
  import opened Wrappers
  import opened Backend
  import opened Pods
  import opened Characters
  import opened Selection
  import opened Demand
  import opened Protocol
  import opened Invariants

  ghost predicate BoardsOk(s: State) {
    forall d :: d in s.directors ==> BoardOk(s.directors[d].board, LiveFlights(s, d))
  }

  /** Every query that holds a flight holds one of its own group. */
  ghost predicate FlightOk(cfg: Config, s: State, query: Query) {
    query.flight.Some? ==>
      && cfg.demand.Some? && query.director in s.directors
      && var flights := s.directors[query.director].board.flights;
         query.flight.value < |flights| &&
         flights[query.flight.value].group == GroupOf(cfg.demand.value, query.req.mapName)
  }

  ghost predicate FlightsOk(cfg: Config, s: State) {
    forall q :: q in s.queries ==> FlightOk(cfg, s, s.queries[q])
  }

  /** Some query of the director holds a flight of the group. */
  ghost predicate GroupHeld(s: State, d: nat, group: string)
    requires d in s.directors
  {
    GroupLive(s.directors[d].board, LiveFlights(s, d), group)
  }

  /** Flights are only given up, and boards stay as they are. */
  ghost predicate NoNewFlights(s: State, s': State) {
    && s'.directors.Keys == s.directors.Keys
    && (forall d :: d in s.directors ==> s'.directors[d].board == s.directors[d].board)
    && (forall q :: q in s'.queries && s'.queries[q].flight.Some? ==>
          && q in s.queries && s'.queries[q].flight == s.queries[q].flight
          && s'.queries[q].director == s.queries[q].director && s'.queries[q].req == s.queries[q].req)
  }

  lemma NoNewFlightsKeeps(cfg: Config, s: State, s': State)
    requires BoardsOk(s) && FlightsOk(cfg, s) && NoNewFlights(s, s')
    ensures BoardsOk(s') && FlightsOk(cfg, s')
    ensures forall d :: d in s'.directors ==> LiveFlights(s', d) <= LiveFlights(s, d)
  {
    hide Counted;
    forall d | d in s'.directors ensures LiveFlights(s', d) <= LiveFlights(s, d) {
    }
    forall q | q in s'.queries ensures FlightOk(cfg, s', s'.queries[q]) {
      if s'.queries[q].flight.Some? {
        assert FlightOk(cfg, s, s.queries[q]);
      }
    }
  }

  lemma FinishGivesUp(s: State, q: nat, reply: Reply, decided: bool)
    requires Known(s, q)
    ensures NoNewFlights(s, Finish(s, q, reply, decided))
  {
  }

  lemma InstallGivesUp(s: State, q: nat, target: Target, reply: Reply)
    requires Known(s, q)
    ensures Known(InstallRoute(s, q, target), q)
    ensures NoNewFlights(s, Finish(InstallRoute(s, q, target), q, reply, true))
  {
  }

  /** Steps other than a fresh cold evaluation and the demand's own answers. */
  lemma OrdinaryStep(cfg: Config, s: State, step: Step)
    requires Enabled(cfg, s, step) && !step.PostDemand? && !step.AnswerDemand? && !step.Evaluate?
    ensures NoNewFlights(s, Apply(cfg, s, step))
  {
    hide Apply, Enabled, NoNewFlights;
    if Ends(step) {
      EndGivesUp(cfg, s, step, Actor(step).value);
    } else if step.Install? {
      InstallStepGivesUp(cfg, s, step.q);
    } else if step.SeeAnswer? {
      SeeAnswerGivesUp(cfg, s, step.q);
    } else if Actor(step) == None {
      BystanderFlights(cfg, s, step);
    } else if step.ApplyPatch? {
      PatchFlights(cfg, s, step.q, step.delivered);
    } else {
      MoveFlights(cfg, s, step);
    }
  }

  lemma EndGivesUp(cfg: Config, s: State, step: Step, q: nat)
    requires Enabled(cfg, s, step) && Ends(step) && Actor(step) == Some(q)
    ensures NoNewFlights(s, Apply(cfg, s, step))
  {
    hide Finish, NoNewFlights;
    FinishGivesUp(s, q, NoRoute, s.queries[q].phase.Answered?);
    FinishGivesUp(s, q, NoRoute, false);
    FinishGivesUp(s, q, StartupFailed(Timeout), false);
    FinishGivesUp(s, q, StartupFailed(Cancelled), false);
  }

  lemma InstallStepGivesUp(cfg: Config, s: State, q: nat)
    requires Enabled(cfg, s, Install(q))
    ensures NoNewFlights(s, Apply(cfg, s, Install(q)))
  {
    hide Finish, NoNewFlights, InstallRoute, JoinedAt;
    InstallGivesUp(s, q, s.queries[q].phase.target, JoinedAt(cfg, s.queries[q].phase.pod));
  }

  lemma SeeAnswerGivesUp(cfg: Config, s: State, q: nat)
    requires Enabled(cfg, s, SeeAnswer(q))
    ensures NoNewFlights(s, Apply(cfg, s, SeeAnswer(q)))
  {
    hide Finish;
    var query := s.queries[q];
    match s.directors[query.director].board.flights[query.flight.value].outcome.value
    case Success(_) =>
    case Failure(error) => FinishGivesUp(s, q, StartupFailed(error), false);
  }

  lemma BystanderFlights(cfg: Config, s: State, step: Step)
    requires Enabled(cfg, s, step) && Actor(step) == None && !step.PostDemand? && !step.AnswerDemand?
    ensures NoNewFlights(s, Apply(cfg, s, step))
  {
    hide Visible, Draining;
  }

  lemma MoveFlights(cfg: Config, s: State, step: Step)
    requires Enabled(cfg, s, step)
    requires step.Arrive? || step.Acquire? || step.List? || step.WatchReturns?
    ensures NoNewFlights(s, Apply(cfg, s, step))
  {
    hide NoNewFlights, Enabled, Apply;
    if step.Arrive? {
      ArriveFlights(cfg, s, step);
    } else {
      ResumeFlights(cfg, s, step);
    }
  }

  lemma ArriveFlights(cfg: Config, s: State, step: Step)
    requires Enabled(cfg, s, step) && step.Arrive?
    ensures NoNewFlights(s, Apply(cfg, s, step))
  {
    hide ValidRequest;
  }

  lemma ResumeFlights(cfg: Config, s: State, step: Step)
    requires Enabled(cfg, s, step) && (step.Acquire? || step.List? || step.WatchReturns?)
    ensures NoNewFlights(s, Apply(cfg, s, step))
  {
    hide IsListing, Deliverable;
  }

  lemma PatchFlights(cfg: Config, s: State, q: nat, delivered: bool)
    requires Enabled(cfg, s, ApplyPatch(q, delivered))
    ensures NoNewFlights(s, Apply(cfg, s, ApplyPatch(q, delivered)))
  {
    hide Apply;
    PatchFrame(cfg, s, q, delivered);
  }

  lemma EvaluateGivesUp(cfg: Config, s: State, q: nat)
    requires Enabled(cfg, s, Evaluate(q))
    requires !(Decide(cfg, s.queries[q].req, s.queries[q].phase.items, s.clock).Cold?
               && cfg.demand.Some? && s.queries[q].flight == None)
    ensures NoNewFlights(s, ApplyEvaluate(cfg, s, q))
  {
    hide Decide, Finish, InstallRoute, JoinedAt, JoinOrStart;
    var query := s.queries[q];
    match Decide(cfg, query.req, query.phase.items, s.clock)
    case Cold =>
      if cfg.demand == None {
        FinishGivesUp(s, q, NoServer, true);
      }
    case Refused => FinishGivesUp(s, q, NoRoute, true);
    case Keep(pod, target) => InstallGivesUp(s, q, target, JoinedAt(cfg, pod));
    case Assign(pod, target) =>
  }

  lemma OneMoreFlight(s: State, s': State, q: nat, e: nat)
    requires q in s.queries && s.queries[q].flight == None && q in s'.queries && s'.queries[q].flight.Some?
    requires s'.queries == s.queries[q := s'.queries[q]] && s'.queries[q].director == s.queries[q].director
    ensures LiveFlights(s', e) == if e == s.queries[q].director then LiveFlights(s, e) + {s'.queries[q].flight.value}
                                  else LiveFlights(s, e)
  {
    forall f | f in LiveFlights(s, e) ensures f in LiveFlights(s', e) {
      var p :| p in s.queries && s.queries[p].director == e && s.queries[p].flight == Some(f);
      assert p in s'.queries && s'.queries[p] == s.queries[p];
    }
    forall f | f in LiveFlights(s', e)
      ensures f in LiveFlights(s, e) || (e == s.queries[q].director && Some(f) == s'.queries[q].flight)
    {
      var p :| p in s'.queries && s'.queries[p].director == e && s'.queries[p].flight == Some(f);
      assert p != q ==> s'.queries[p] == s.queries[p];
    }
  }

  /** What a first cold evaluation does to the director's board: it joins or starts the group's flight. */
  lemma FirstSignalBoards(cfg: Config, s: State, q: nat)
    requires BoardsOk(s) && cfg.demand.Some?
    requires Known(s, q) && s.queries[q].phase.Deciding? && s.queries[q].flight == None
    ensures
      var s' := GoCold(s, q, cfg.demand.value);
      var d := s.queries[q].director;
      var group := GroupOf(cfg.demand.value, s.queries[q].req.mapName);
      var (board, f) := JoinOrStart(s.directors[d].board, LiveFlights(s, d), group,
                                    s.clock + cfg.demand.value.bootTimeout);
      && BoardsOk(s')
      && LiveFlights(s', d) == LiveFlights(s, d) + {f}
      && (forall e :: e in s.directors && e != d ==>
            LiveFlights(s', e) == LiveFlights(s, e) && s'.directors[e].board == s.directors[e].board)
      && s'.directors.Keys == s.directors.Keys && s'.directors[d].board == board
  {
    hide BoardOk, JoinOrStart, GoCold, LiveFlights;
    var s' := GoCold(s, q, cfg.demand.value);
    var d := s.queries[q].director;
    var group := GroupOf(cfg.demand.value, s.queries[q].req.mapName);
    var deadline := s.clock + cfg.demand.value.bootTimeout;
    var (board, f) := JoinOrStart(s.directors[d].board, LiveFlights(s, d), group, deadline);
    SignalKeepsBoard(s.directors[d].board, LiveFlights(s, d), group, deadline);
    FirstSignalShape(s, q, cfg.demand.value);
    forall e | e in s.directors
      ensures LiveFlights(s', e) == if e == d then LiveFlights(s, d) + {f} else LiveFlights(s, e)
      ensures BoardOk(s'.directors[e].board, LiveFlights(s', e))
    {
      OneMoreFlight(s, s', q, e);
    }
  }

  lemma FirstSignalFlights(cfg: Config, s: State, q: nat)
    requires BoardsOk(s) && FlightsOk(cfg, s) && cfg.demand.Some?
    requires Known(s, q) && s.queries[q].phase.Deciding? && s.queries[q].flight == None
    ensures FlightsOk(cfg, GoCold(s, q, cfg.demand.value))
  {
    hide BoardOk, JoinOrStart, GoCold, FlightOk, LiveFlights;
    var s' := GoCold(s, q, cfg.demand.value);
    var d := s.queries[q].director;
    SignalKeepsBoard(s.directors[d].board, LiveFlights(s, d), GroupOf(cfg.demand.value, s.queries[q].req.mapName),
                     s.clock + cfg.demand.value.bootTimeout);
    FirstSignalShape(s, q, cfg.demand.value);
    forall p | p in s'.queries ensures FlightOk(cfg, s', s'.queries[p]) {
      if p == q {
        JoinedFlightOk(cfg, s', s'.queries[q]);
      } else {
        FlightOkGrows(cfg, s, s', s.queries[p]);
      }
    }
  }

  lemma JoinedFlightOk(cfg: Config, s: State, query: Query)
    requires cfg.demand.Some? && query.flight.Some? && query.director in s.directors
    requires var flights := s.directors[query.director].board.flights;
             query.flight.value < |flights| &&
             flights[query.flight.value].group == GroupOf(cfg.demand.value, query.req.mapName)
    ensures FlightOk(cfg, s, query)
  {
  }

  lemma FlightOkGrows(cfg: Config, s: State, s': State, query: Query)
    requires FlightOk(cfg, s, query) && s.directors.Keys == s'.directors.Keys
    requires forall d :: d in s.directors ==> s.directors[d].board.flights <= s'.directors[d].board.flights
    ensures FlightOk(cfg, s', query)
  {
  }

  lemma FirstSignalShape(s: State, q: nat, demand: DemandConfig)
    requires Known(s, q) && s.queries[q].phase.Deciding? && s.queries[q].flight == None
    ensures
      var s' := GoCold(s, q, demand);
      var query := s.queries[q];
      var (board, f) := JoinOrStart(s.directors[query.director].board, LiveFlights(s, query.director),
                                    GroupOf(demand, query.req.mapName), s.clock + demand.bootTimeout);
      && q in s'.queries && s'.queries == s.queries[q := s'.queries[q]]
      && s'.queries[q].flight == Some(f) && s'.queries[q].director == query.director && s'.queries[q].req == query.req
      && s'.directors.Keys == s.directors.Keys
      && s'.directors[query.director].board == board
      && forall e :: e in s.directors && e != query.director ==> s'.directors[e] == s.directors[e]
  {
    hide JoinOrStart, LiveFlights;
  }

  lemma DemandStep(cfg: Config, s: State, step: Step)
    requires BoardsOk(s) && FlightsOk(cfg, s) && Enabled(cfg, s, step) && (step.PostDemand? || step.AnswerDemand?)
    ensures var s' := Apply(cfg, s, step);
            && BoardsOk(s') && FlightsOk(cfg, s')
            && forall d :: d in s'.directors ==> LiveFlights(s', d) == LiveFlights(s, d)
    ensures Apply(cfg, s, step).directors.Keys == s.directors.Keys
    ensures forall d :: d in s.directors ==> Apply(cfg, s, step).directors[d].board.rises == s.directors[d].board.rises
    ensures forall d :: d in s.directors ==> SameGroups(s.directors[d].board, Apply(cfg, s, step).directors[d].board)
  {
    hide BoardOk, LiveFlights, FlightOk, Apply, Enabled;
    var s' := Apply(cfg, s, step);
    DemandShape(cfg, s, step);
    var board := s.directors[step.d].board;
    assert BoardOk(board, LiveFlights(s, step.d));
    if step.PostDemand? {
      PostKeepsBoard(board, LiveFlights(s, step.d), step.f);
    } else {
      AnswerKeepsBoard(board, LiveFlights(s, step.d), step.f, step.outcome);
    }
    forall d | d in s'.directors
      ensures LiveFlights(s', d) == LiveFlights(s, d) && BoardOk(s'.directors[d].board, LiveFlights(s', d))
    {
      SameLive(s, s', d);
    }
    forall q | q in s'.queries ensures FlightOk(cfg, s', s'.queries[q]) {
      FlightOkSameGroups(cfg, s, s', s.queries[q]);
    }
  }

  ghost predicate SameGroups(a: Board, b: Board) {
    |a.flights| == |b.flights| && forall f :: 0 <= f < |a.flights| ==> a.flights[f].group == b.flights[f].group
  }

  lemma SameLive(s: State, s': State, d: nat)
    requires s'.queries == s.queries
    ensures LiveFlights(s', d) == LiveFlights(s, d)
  {
  }

  lemma FlightOkSameGroups(cfg: Config, s: State, s': State, query: Query)
    requires FlightOk(cfg, s, query) && s'.directors.Keys == s.directors.Keys
    requires forall d :: d in s.directors ==> SameGroups(s.directors[d].board, s'.directors[d].board)
    ensures FlightOk(cfg, s', query)
  {
  }

  lemma DemandShape(cfg: Config, s: State, step: Step)
    requires Enabled(cfg, s, step) && (step.PostDemand? || step.AnswerDemand?)
    ensures
      var s' := Apply(cfg, s, step);
      && s'.queries == s.queries && s'.directors.Keys == s.directors.Keys
      && step.d in s.directors && step.f < |s.directors[step.d].board.flights|
      && (step.PostDemand? ==> !s.directors[step.d].board.flights[step.f].posted)
      && s'.directors[step.d].board == (if step.PostDemand? then Post(s.directors[step.d].board, step.f)
                                        else Answer(s.directors[step.d].board, step.f, step.outcome))
      && (forall d :: d in s.directors && d != step.d ==> s'.directors[d] == s.directors[d])
      && forall d :: d in s.directors ==> SameGroups(s.directors[d].board, s'.directors[d].board)
                                          && s'.directors[d].board.rises == s.directors[d].board.rises
  {
    hide Interpret;
  }

  /** A first cold evaluation changes boards; any other evaluation does not. */
  ghost predicate StartsCold(cfg: Config, s: State, step: Step) {
    step.Evaluate? && Enabled(cfg, s, step) && cfg.demand.Some? && s.queries[step.q].flight == None &&
    Decide(cfg, s.queries[step.q].req, s.queries[step.q].phase.items, s.clock).Cold?
  }

  lemma BoardsKept(cfg: Config, s: State, step: Step)
    requires BoardsOk(s) && FlightsOk(cfg, s) && Enabled(cfg, s, step)
    ensures BoardsOk(Apply(cfg, s, step)) && FlightsOk(cfg, Apply(cfg, s, step))
  {
    hide BoardsOk, FlightsOk, GoCold, Decide, NoNewFlights, Finish, InstallRoute, IsListing, Deliverable;
    if StartsCold(cfg, s, step) {
      FirstSignalBoards(cfg, s, step.q);
      FirstSignalFlights(cfg, s, step.q);
    } else if step.PostDemand? || step.AnswerDemand? {
      DemandStep(cfg, s, step);
    } else {
      GivesUp(cfg, s, step);
      NoNewFlightsKeeps(cfg, s, Apply(cfg, s, step));
    }
  }

  lemma GivesUp(cfg: Config, s: State, step: Step)
    requires Enabled(cfg, s, step) && !StartsCold(cfg, s, step) && !step.PostDemand? && !step.AnswerDemand?
    ensures NoNewFlights(s, Apply(cfg, s, step))
  {
    hide ApplyEvaluate, NoNewFlights, Decide, IsListing, Deliverable;
    if step.Evaluate? {
      EvaluateGivesUp(cfg, s, step.q);
    } else {
      OrdinaryStep(cfg, s, step);
    }
  }

  lemma {:induction false} BoardsAlways(cfg: Config, s0: State, steps: seq<Step>)
    requires Init(s0) && Legal(cfg, s0, steps)
    ensures BoardsOk(After(cfg, s0, steps)) && FlightsOk(cfg, After(cfg, s0, steps))
    decreases |steps|
  {
    hide Apply, Enabled;
    if steps != [] {
      var n := |steps| - 1;
      BoardsAlways(cfg, s0, steps[..n]);
      BoardsKept(cfg, After(cfg, s0, steps[..n]), steps[n]);
    }
  }

  /**
   * In every reachable state, two queries of a director waiting on the same group hold the same flight, so the
   * same deadline and the same answer; it is the one the table names; and the requests posted for a group are
   * at most as many as the times it went from unheld to held.
   */
  lemma OneFlightPerGroup(cfg: Config, s0: State, steps: seq<Step>, d: nat, group: string)
    requires Init(s0) && Legal(cfg, s0, steps) && d in After(cfg, s0, steps).directors && cfg.demand.Some?
    ensures
      var s := After(cfg, s0, steps);
      var board := s.directors[d].board;
      && (forall q, q' :: q in s.queries && q' in s.queries && s.queries[q].director == d == s.queries[q'].director &&
                          s.queries[q].flight.Some? && s.queries[q'].flight.Some? &&
                          GroupOf(cfg.demand.value, s.queries[q].req.mapName)
                          == GroupOf(cfg.demand.value, s.queries[q'].req.mapName) ==>
            s.queries[q].flight == s.queries[q'].flight)
      && (forall q :: q in s.queries && s.queries[q].director == d && s.queries[q].flight.Some? ==>
            var g := GroupOf(cfg.demand.value, s.queries[q].req.mapName);
            g in board.table && board.table[g] == s.queries[q].flight.value)
      && Count(board.posts, group) <= Count(board.rises, group)
  {
    hide Apply, Enabled, Init, Legal;
    var s := After(cfg, s0, steps);
    var board := s.directors[d].board;
    BoardsAlways(cfg, s0, steps);
    assert BoardOk(board, LiveFlights(s, d));
    PostedAtMostCreated(board.flights, group);
    forall q | q in s.queries && s.queries[q].director == d && s.queries[q].flight.Some?
      ensures var g := GroupOf(cfg.demand.value, s.queries[q].req.mapName);
              g in board.table && board.table[g] == s.queries[q].flight.value
    {
      assert FlightOk(cfg, s, s.queries[q]);
      assert s.queries[q].flight.value in LiveFlights(s, d);
    }
  }

  /** What the second counter counts: the steps after which a group is held and before which it was not. */
  lemma RiseMeansUnheldToHeld(cfg: Config, s: State, step: Step, d: nat, group: string)
    requires BoardsOk(s) && FlightsOk(cfg, s) && Enabled(cfg, s, step) && d in s.directors
    ensures
      var s' := Apply(cfg, s, step);
      && d in s'.directors
      && Count(s'.directors[d].board.rises, group)
         == Count(s.directors[d].board.rises, group)
            + (if !GroupHeld(s, d, group) && GroupHeld(s', d, group) then 1 else 0)
  {
    hide BoardsOk, FlightsOk, BoardOk, GoCold, Decide, Finish, InstallRoute, IsListing, Deliverable, Draining;
    var s' := Apply(cfg, s, step);
    if StartsCold(cfg, s, step) {
      SignalRise(cfg, s, step.q, d, group);
    } else if step.PostDemand? || step.AnswerDemand? {
      DemandStep(cfg, s, step);
    } else {
      GivesUp(cfg, s, step);
      NoNewFlightsKeeps(cfg, s, s');
    }
  }

  lemma SignalRise(cfg: Config, s: State, q: nat, d: nat, group: string)
    requires BoardsOk(s) && FlightsOk(cfg, s) && cfg.demand.Some? && d in s.directors
    requires Known(s, q) && s.queries[q].phase.Deciding? && s.queries[q].flight == None
    ensures
      var s' := GoCold(s, q, cfg.demand.value);
      && d in s'.directors
      && Count(s'.directors[d].board.rises, group)
         == Count(s.directors[d].board.rises, group)
            + (if !GroupHeld(s, d, group) && GroupHeld(s', d, group) then 1 else 0)
  {
    hide GoCold, FlightsOk, Counted, LiveFlights;
    FirstSignalBoards(cfg, s, q);
    var e := s.queries[q].director;
    var joined := GroupOf(cfg.demand.value, s.queries[q].req.mapName);
    SignalKeepsBoard(s.directors[e].board, LiveFlights(s, e), joined, s.clock + cfg.demand.value.bootTimeout);
    assert BoardOk(s.directors[e].board, LiveFlights(s, e));
  }
}
