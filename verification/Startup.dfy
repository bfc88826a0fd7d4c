/** The demand a cold query raises: for which group, until when, and what its answer does to the query. */
module Startup {
  import opened Wrappers
  import opened Backend
  import opened Pods
  import opened Characters
  import opened Selection
  import opened Demand
  import opened Protocol
  import opened Invariants
  import opened Coalescing
  import Answers

  /** The step starts a flight of director `d`: a query found nothing for a map whose group and deadline these are. */
  ghost predicate Starts(cfg: Config, s: State, step: Step, d: nat, flight: Flight) {
    && step.Evaluate? && Enabled(cfg, s, step) && cfg.demand.Some? && s.queries[step.q].director == d
    && Decide(cfg, s.queries[step.q].req, s.queries[step.q].phase.items, s.clock) == Cold
    && var demand := cfg.demand.value;
       var mapName := s.queries[step.q].req.mapName;
    && flight.group == (if mapName in demand.groups then demand.groups[mapName] else mapName)
    && flight.deadline == s.clock + demand.bootTimeout
  }

  /** What an answered flight reports, by what its request met. */
  ghost predicate Reports(outcome: PostOutcome, reported: Result<(), DemandError>) {
    && (reported.Success? <==> outcome == Response(202))
    && (reported == Failure(UnknownGroup) <==> outcome == Response(404))
    && (reported == Failure(Maintenance) <==> outcome == Response(503))
    && (reported == Failure(Timeout) <==> outcome == DeadlinePassed)
    && reported != Failure(Cancelled)
  }

  lemma InterpretReports(outcome: PostOutcome)
    ensures Reports(outcome, Interpret(outcome))
  {
  }

  function FlightsOf(s: State, d: nat): seq<Flight> {
    if d in s.directors then s.directors[d].board.flights else []
  }

  /** How a step may change one flight of a director. */
  ghost predicate FlightMoves(cfg: Config, s: State, step: Step, d: nat, f: nat, s': State) {
    var before := FlightsOf(s, d);
    var after := FlightsOf(s', d);
    f < |after| ==>
      if f < |before| then
        || after[f] == before[f]
        || (step == PostDemand(d, f) && !before[f].posted && after[f] == before[f].(posted := true))
        || (step.AnswerDemand? && step.d == d && step.f == f && before[f].posted && before[f].outcome == None
            && after[f].outcome.Some? && after[f] == before[f].(outcome := after[f].outcome)
            && Reports(step.outcome, after[f].outcome.value))
      else
        f == |before| && Starts(cfg, s, step, d, after[f]) && !after[f].posted && after[f].outcome == None
  }

  lemma SameBoardsMove(cfg: Config, s: State, step: Step, d: nat, f: nat, s': State)
    requires s'.directors.Keys == s.directors.Keys
    requires forall e :: e in s.directors ==> s'.directors[e].board == s.directors[e].board
    ensures FlightMoves(cfg, s, step, d, f, s')
  {
    hide Starts;
  }

  lemma DemandMoves(cfg: Config, s: State, step: Step, d: nat, f: nat)
    requires Enabled(cfg, s, step) && (step.PostDemand? || step.AnswerDemand?)
    ensures FlightMoves(cfg, s, step, d, f, Apply(cfg, s, step))
  {
    hide Starts, Interpret;
    if step.AnswerDemand? {
      InterpretReports(step.outcome);
    }
  }

  lemma ColdMoves(cfg: Config, s: State, q: nat, d: nat, f: nat)
    requires StartsCold(cfg, s, Evaluate(q)) && BoardsOk(s)
    ensures FlightMoves(cfg, s, Evaluate(q), d, f, Apply(cfg, s, Evaluate(q)))
  {
    hide Decide, BoardOk, LiveFlights, GroupLive;
    var query := s.queries[q];
    var e := query.director;
    var demand := cfg.demand.value;
    assert Apply(cfg, s, Evaluate(q)) == GoCold(s, q, demand);
    assert BoardOk(s.directors[e].board, LiveFlights(s, e));
    FirstSignalShape(s, q, demand);
  }

  lemma FlightsMove(cfg: Config, s: State, step: Step, d: nat, f: nat)
    requires Enabled(cfg, s, step) && BoardsOk(s)
    ensures FlightMoves(cfg, s, step, d, f, Apply(cfg, s, step))
  {
    hide Apply, Enabled, BoardsOk, FlightMoves;
    if StartsCold(cfg, s, step) {
      ColdMoves(cfg, s, step.q, d, f);
    } else if step.PostDemand? || step.AnswerDemand? {
      DemandMoves(cfg, s, step, d, f);
    } else {
      GivesUp(cfg, s, step);
      SameBoardsMove(cfg, s, step, d, f, Apply(cfg, s, step));
    }
  }

  // ----- the history of a flight -----

  ghost predicate StartedAt(cfg: Config, s0: State, steps: seq<Step>, d: nat, flight: Flight, i: nat) {
    i < |steps| && Legal(cfg, s0, steps[..i]) && Starts(cfg, After(cfg, s0, steps[..i]), steps[i], d, flight)
  }

  ghost predicate AnsweredAt(cfg: Config, s0: State, steps: seq<Step>, d: nat, f: nat, flight: Flight, i: nat) {
    && i < |steps| && steps[i].AnswerDemand? && steps[i].d == d && steps[i].f == f
    && flight.outcome.Some? && Reports(steps[i].outcome, flight.outcome.value)
  }

  /** Where a flight comes from and, when it is answered, what answered it. */
  ghost predicate Explained(cfg: Config, s0: State, steps: seq<Step>, d: nat, f: nat, flight: Flight) {
    && (exists i: nat :: StartedAt(cfg, s0, steps, d, flight, i))
    && (flight.outcome.Some? ==> flight.posted && exists i: nat :: AnsweredAt(cfg, s0, steps, d, f, flight, i))
  }

  lemma ExplainedLater(cfg: Config, s0: State, steps: seq<Step>, d: nat, f: nat, before: Flight, after: Flight)
    requires steps != [] && Explained(cfg, s0, steps[..|steps| - 1], d, f, before)
    requires after.group == before.group && after.deadline == before.deadline
    requires after.outcome.Some? ==> after.posted
    requires after.outcome == before.outcome || AnsweredAt(cfg, s0, steps, d, f, after, |steps| - 1)
    ensures Explained(cfg, s0, steps, d, f, after)
  {
    hide Legal;
    var n := |steps| - 1;
    var i: nat :| StartedAt(cfg, s0, steps[..n], d, before, i);
    assert steps[..n][..i] == steps[..i] && steps[..n][i] == steps[i];
    assert StartedAt(cfg, s0, steps, d, after, i);
    if after.outcome.Some? && after.outcome == before.outcome {
      var j: nat :| AnsweredAt(cfg, s0, steps[..n], d, f, before, j);
      assert steps[..n][j] == steps[j];
      assert AnsweredAt(cfg, s0, steps, d, f, after, j);
    }
  }

  lemma MovesExplained(cfg: Config, s0: State, steps: seq<Step>, d: nat, f: nat)
    requires Legal(cfg, s0, steps) && steps != []
    requires var s := After(cfg, s0, steps[..|steps| - 1]);
             && FlightMoves(cfg, s, steps[|steps| - 1], d, f, After(cfg, s0, steps))
             && (f < |FlightsOf(s, d)| ==> Explained(cfg, s0, steps[..|steps| - 1], d, f, FlightsOf(s, d)[f]))
    requires f < |FlightsOf(After(cfg, s0, steps), d)|
    ensures Explained(cfg, s0, steps, d, f, FlightsOf(After(cfg, s0, steps), d)[f])
  {
    hide Starts, Reports, Apply, Enabled;
    var n := |steps| - 1;
    var s := After(cfg, s0, steps[..n]);
    var flight := FlightsOf(After(cfg, s0, steps), d)[f];
    if f < |FlightsOf(s, d)| {
      ExplainedLater(cfg, s0, steps, d, f, FlightsOf(s, d)[f], flight);
    } else {
      assert StartedAt(cfg, s0, steps, d, flight, n);
    }
  }

  /**
   * Every flight of every run was started by a query that found nothing, for the group of its map, with the boot time
   * from that instant as its deadline; and a flight that was answered was posted before, and reports what its
   * request met: acceptance only for 202, an unknown group only for 404, maintenance only for 503.
   */
  lemma {:induction false} FlightsAreExplained(cfg: Config, s0: State, steps: seq<Step>, d: nat, f: nat)
    requires Init(s0) && Legal(cfg, s0, steps) && f < |FlightsOf(After(cfg, s0, steps), d)|
    ensures Explained(cfg, s0, steps, d, f, FlightsOf(After(cfg, s0, steps), d)[f])
    decreases |steps|
  {
    hide Enabled, Apply, Explained, FlightMoves, BoardsOk, FlightsOk;
    if steps != [] {
      var n := |steps| - 1;
      var s := After(cfg, s0, steps[..n]);
      if f < |FlightsOf(s, d)| {
        FlightsAreExplained(cfg, s0, steps[..n], d, f);
      }
      BoardsAlways(cfg, s0, steps[..n]);
      FlightsMove(cfg, s, steps[n], d, f);
      MovesExplained(cfg, s0, steps, d, f);
    }
  }

  // ----- waiting only after acceptance -----

  ghost predicate WaitsAccepted(s: State, q: nat)
    requires q in s.queries
  {
    s.queries[q].phase.Watching? ==> Answers.Outcome(s, q).Some? && Answers.Outcome(s, q).value.Success?
  }

  lemma OnlySeeAnswerWatches(cfg: Config, s: State, step: Step, q: nat)
    requires Enabled(cfg, s, step) && Actor(step) == Some(q) && !step.SeeAnswer?
    ensures var s' := Apply(cfg, s, step); q in s'.queries && !s'.queries[q].phase.Watching?
  {
    hide IsListing, Deliverable, Decide, JoinOrStart, Unlock, Assigned, JoinedAt, LiveFlights, ValidRequest;
  }

  lemma SeenAcceptance(cfg: Config, s: State, q: nat)
    requires Enabled(cfg, s, SeeAnswer(q))
    ensures var s' := Apply(cfg, s, SeeAnswer(q)); q in s'.queries && WaitsAccepted(s', q)
  {
    hide Unlock;
  }

  lemma AcceptanceStays(cfg: Config, s: State, step: Step, q: nat)
    requires Enabled(cfg, s, step) && Actor(step) != Some(q) && BoardsOk(s) && q in s.queries && WaitsAccepted(s, q)
    ensures var s' := Apply(cfg, s, step); q in s'.queries && WaitsAccepted(s', q)
  {
    hide Apply, Enabled, BoardsOk, Starts, Reports;
    StepFrame(cfg, s, step);
    if s.queries[q].phase.Watching? {
      FlightsMove(cfg, s, step, s.queries[q].director, s.queries[q].flight.value);
      FlightsNeverVanish(cfg, s, step, s.queries[q].director);
    }
  }

  lemma FlightsNeverVanish(cfg: Config, s: State, step: Step, d: nat)
    requires Enabled(cfg, s, step) && BoardsOk(s)
    ensures |FlightsOf(s, d)| <= |FlightsOf(Apply(cfg, s, step), d)|
  {
    hide Apply, Enabled, BoardsOk, LiveFlights;
    if StartsCold(cfg, s, step) {
      ColdKeepsFlights(cfg, s, step.q, d);
    } else if step.PostDemand? || step.AnswerDemand? {
      DemandShape(cfg, s, step);
    } else {
      GivesUp(cfg, s, step);
    }
  }

  lemma ColdKeepsFlights(cfg: Config, s: State, q: nat, d: nat)
    requires StartsCold(cfg, s, Evaluate(q)) && BoardsOk(s)
    ensures |FlightsOf(s, d)| <= |FlightsOf(Apply(cfg, s, Evaluate(q)), d)|
  {
    hide Decide, BoardOk, LiveFlights, GroupLive;
    FirstSignalShape(s, q, cfg.demand.value);
  }

  /** A cold query watches the Pods only once the demand for its group was accepted. */
  lemma {:induction false} WatchesAreAccepted(cfg: Config, s0: State, steps: seq<Step>)
    requires Init(s0) && Legal(cfg, s0, steps)
    ensures var s := After(cfg, s0, steps); forall q :: q in s.queries ==> WaitsAccepted(s, q)
    decreases |steps|
  {
    hide Enabled, Apply, WaitsAccepted, BoardsOk, FlightsOk;
    if steps != [] {
      var n := |steps| - 1;
      var s := After(cfg, s0, steps[..n]);
      var s' := After(cfg, s0, steps);
      WatchesAreAccepted(cfg, s0, steps[..n]);
      BoardsAlways(cfg, s0, steps[..n]);
      StepFrame(cfg, s, steps[n]);
      forall q | q in s'.queries ensures WaitsAccepted(s', q) {
        if Some(q) != Actor(steps[n]) {
          AcceptanceStays(cfg, s, steps[n], q);
        } else if steps[n].SeeAnswer? {
          SeenAcceptance(cfg, s, q);
        } else {
          OnlySeeAnswerWatches(cfg, s, steps[n], q);
          NotWatching(s', q);
        }
      }
    }
  }

  lemma NotWatching(s: State, q: nat)
    requires q in s.queries && !s.queries[q].phase.Watching?
    ensures WaitsAccepted(s, q)
  {
  }
}
