/** What each answer of a query tells its client, in every run. */
module Answers {
  import opened Wrappers
  import opened Backend
  import opened Pods
  import opened Characters
  import opened Selection
  import opened Demand
  import opened Protocol
  import opened Invariants
  import opened Backing
  import Uniqueness

  // ----- where answers come from -----

  /** The step that gives each answer, and nothing else gives it. */
  ghost predicate AnsweredBy(cfg: Config, s: State, step: Step, q: nat, reply: Reply)
    requires Enabled(cfg, s, step) && Actor(step) == Some(q)
  {
    match reply
    case InvalidId => step.Arrive? && !ValidRequest(step.req)
    case NoServer =>
      step.Evaluate? && cfg.demand == None && Decide(cfg, s.queries[q].req, s.queries[q].phase.items, s.clock) == Cold
    case Joined(_, _) =>
      || (step.Install? && reply == JoinedAt(cfg, s.queries[q].phase.pod))
      || (step.Evaluate?
          && var decision := Decide(cfg, s.queries[q].req, s.queries[q].phase.items, s.clock);
             decision.Keep? && reply == JoinedAt(cfg, decision.pod))
    case NoRoute =>
      || (step.RejectPatch? && PodChanged(s, q)) || step.NetworkError?
      || (step.Evaluate? && Decide(cfg, s.queries[q].req, s.queries[q].phase.items, s.clock) == Refused)
    case StartupFailed(error) =>
      || (step.TimesOut? && error == Timeout && OutOfTime(s, q))
      || (step.Disconnects? && error == Cancelled && q in s.queries && InColdWait(s.queries[q].phase))
      || (step.SeeAnswer? && Outcome(s, q) == Some(Failure(error)))
  }

  /** The Pod a query is about to write is gone or has been written since its list. */
  ghost predicate PodChanged(s: State, q: nat) {
    && q in s.queries && s.queries[q].phase.Patching?
    && var pod := s.queries[q].phase.pod;
       pod.name !in Current(s) || Current(s)[pod.name].version != pod.version
  }

  /** The deadline of the flight a query holds has come. */
  predicate OutOfTime(s: State, q: nat) {
    && q in s.queries && s.queries[q].flight.Some? && s.queries[q].director in s.directors
    && var flights := s.directors[s.queries[q].director].board.flights;
       s.queries[q].flight.value < |flights| && flights[s.queries[q].flight.value].deadline <= s.clock
  }

  /** The outcome of the flight a query holds, if it has one. */
  function Outcome(s: State, q: nat): Option<Result<(), DemandError>> {
    if q in s.queries && s.queries[q].flight.Some? && s.queries[q].director in s.directors
       && s.queries[q].flight.value < |s.directors[s.queries[q].director].board.flights|
    then s.directors[s.queries[q].director].board.flights[s.queries[q].flight.value].outcome
    else None
  }

  lemma FinishedPhase(s: State, q: nat, reply: Reply, decided: bool)
    requires Known(s, q)
    ensures q in Finish(s, q, reply, decided).queries && Finish(s, q, reply, decided).queries[q].phase == Done(reply)
  {
    hide Unlock;
  }

  lemma EvaluateAnswers(cfg: Config, s: State, q: nat)
    requires Enabled(cfg, s, Evaluate(q))
    ensures var s' := Apply(cfg, s, Evaluate(q));
            q in s'.queries &&
            (s'.queries[q].phase.Done? ==> AnsweredBy(cfg, s, Evaluate(q), q, s'.queries[q].phase.reply))
  {
    hide Decide, Finish, InstallRoute, JoinOrStart, Unlock;
    var query := s.queries[q];
    match Decide(cfg, query.req, query.phase.items, s.clock)
    case Cold =>
      if cfg.demand == None {
        FinishedPhase(s, q, NoServer, true);
      }
    case Refused => FinishedPhase(s, q, NoRoute, true);
    case Keep(pod, target) =>
      InstallFrame(s, q, target, JoinedAt(cfg, pod));
      FinishedPhase(InstallRoute(s, q, target), q, JoinedAt(cfg, pod), true);
    case Assign(pod, target) =>
  }

  lemma InstallAnswers(cfg: Config, s: State, q: nat)
    requires Enabled(cfg, s, Install(q))
    ensures var s' := Apply(cfg, s, Install(q));
            q in s'.queries && s'.queries[q].phase == Done(JoinedAt(cfg, s.queries[q].phase.pod))
  {
    hide Finish, InstallRoute, JoinedAt;
    InstallFrame(s, q, s.queries[q].phase.target, JoinedAt(cfg, s.queries[q].phase.pod));
    FinishedPhase(InstallRoute(s, q, s.queries[q].phase.target), q, JoinedAt(cfg, s.queries[q].phase.pod), true);
  }

  lemma EndAnswers(cfg: Config, s: State, step: Step, q: nat)
    requires Enabled(cfg, s, step) && Ends(step) && Actor(step) == Some(q)
    ensures var s' := Apply(cfg, s, step);
            q in s'.queries && s'.queries[q].phase.Done? && AnsweredBy(cfg, s, step, q, s'.queries[q].phase.reply)
  {
    hide Finish;
    FinishedPhase(s, q, NoRoute, s.queries[q].phase.Answered?);
    FinishedPhase(s, q, NoRoute, false);
    FinishedPhase(s, q, StartupFailed(Timeout), false);
    FinishedPhase(s, q, StartupFailed(Cancelled), false);
  }

  lemma SeeAnswerAnswers(cfg: Config, s: State, q: nat)
    requires Enabled(cfg, s, SeeAnswer(q))
    ensures var s' := Apply(cfg, s, SeeAnswer(q));
            && q in s'.queries
            && (s'.queries[q].phase.Done? ==> AnsweredBy(cfg, s, SeeAnswer(q), q, s'.queries[q].phase.reply))
            && (s'.queries[q].phase.Watching? <==> Outcome(s, q).Some? && Outcome(s, q).value.Success?)
  {
    hide Finish;
    var query := s.queries[q];
    match s.directors[query.director].board.flights[query.flight.value].outcome.value
    case Success(_) =>
    case Failure(error) => FinishedPhase(s, q, StartupFailed(error), false);
  }

  lemma MovesAnswer(cfg: Config, s: State, step: Step, q: nat)
    requires Enabled(cfg, s, step) && Actor(step) == Some(q)
    requires step.Arrive? || step.Acquire? || step.List? || step.WatchReturns?
    ensures var s' := Apply(cfg, s, step);
            && q in s'.queries
            && (s'.queries[q].phase.Done? ==> AnsweredBy(cfg, s, step, q, s'.queries[q].phase.reply))
  {
    hide IsListing, Deliverable, ValidRequest;
  }

  /** Every answer is given by the step that stands for its reason. */
  lemma AnswersHaveReasons(cfg: Config, s: State, step: Step, q: nat)
    requires Enabled(cfg, s, step) && Actor(step) == Some(q)
    ensures var s' := Apply(cfg, s, step);
            && q in s'.queries
            && (s'.queries[q].phase.Done? ==> AnsweredBy(cfg, s, step, q, s'.queries[q].phase.reply))
  {
    hide Apply, Enabled, AnsweredBy;
    if step.Evaluate? {
      EvaluateAnswers(cfg, s, q);
    } else if step.Install? {
      InstallAnswers(cfg, s, q);
      InstallIsReason(cfg, s, q);
    } else if step.SeeAnswer? {
      SeeAnswerAnswers(cfg, s, q);
    } else if step.ApplyPatch? {
      PatchFrame(cfg, s, q, step.delivered);
    } else if Ends(step) {
      EndAnswers(cfg, s, step, q);
    } else {
      MovesAnswer(cfg, s, step, q);
    }
  }

  lemma InstallIsReason(cfg: Config, s: State, q: nat)
    requires Enabled(cfg, s, Install(q))
    ensures AnsweredBy(cfg, s, Install(q), q, JoinedAt(cfg, s.queries[q].phase.pod))
  {
  }

  // ----- the content of a success -----

  /** Data port `i` is the last one of its name. */
  ghost predicate LastOfItsName(dataPorts: seq<DataPort>, i: nat) {
    i < |dataPorts| && forall j :: i < j < |dataPorts| ==> dataPorts[j].name != dataPorts[i].name
  }

  lemma LastBefore(dataPorts: seq<DataPort>, i: nat)
    requires LastOfItsName(dataPorts, i) && i < |dataPorts| - 1
    ensures LastOfItsName(dataPorts[..|dataPorts| - 1], i)
    ensures dataPorts[i].name != dataPorts[|dataPorts| - 1].name
  {
  }

  /** The answer names every data port, each with the listener of the last one of its name. */
  lemma {:induction false} PublicPortsExactly(dataPorts: seq<DataPort>)
    ensures forall name :: name in PublicPorts(dataPorts) <==> exists d :: d in dataPorts && d.name == name
    ensures forall i: nat :: LastOfItsName(dataPorts, i) ==>
              && dataPorts[i].name in PublicPorts(dataPorts)
              && PublicPorts(dataPorts)[dataPorts[i].name] == dataPorts[i].port
  {
    if dataPorts != [] {
      hide LastOfItsName;
      var n := |dataPorts| - 1;
      PublicPortsExactly(dataPorts[..n]);
      assert dataPorts == dataPorts[..n] + [dataPorts[n]];
      forall i: nat | LastOfItsName(dataPorts, i)
        ensures i < |dataPorts| && dataPorts[i].name in PublicPorts(dataPorts)
        ensures PublicPorts(dataPorts)[dataPorts[i].name] == dataPorts[i].port
      {
        LastInside(dataPorts, i);
        if i < n {
          LastBefore(dataPorts, i);
        }
      }
    }
  }

  lemma LastInside(dataPorts: seq<DataPort>, i: nat)
    requires LastOfItsName(dataPorts, i)
    ensures i < |dataPorts|
  {
  }

  /** At revision `r`, not before the grant, the Pod with this identity hosted the character and had this target. */
  ghost predicate NamesHost(cfg: Config, s: State, query: Query, server: string, target: Target, r: nat, n: string) {
    && query.granted <= r < |s.history| && n in s.history[r]
    && s.history[r][n].uid == Some(server)
    && Hosts(cfg, s.history[r][n], query.req.character)
    && QueryTarget(cfg.mapping, cfg.dataPorts, s.history[r][n].body) == Some(target)
  }

  lemma WriteNamesHost(cfg: Config, s: State, query: Query)
    requires QueryOk(cfg, s, query) && query.phase.Answered?
    ensures query.phase.pod.uid.Some?
    ensures NamesHost(cfg, s, query, query.phase.pod.uid.value, query.phase.target, query.phase.written,
                      query.phase.pod.name)
  {
    hide QueryTarget;
    var written := s.history[query.phase.written][query.phase.pod.name];
    assert written.body == query.phase.pod.body && written.uid == query.phase.pod.uid;
    assert Hosts(cfg, written, query.req.character);
  }

  lemma ListNamesHost(cfg: Config, s: State, query: Query)
    requires QueryOk(cfg, s, query) && query.phase.Deciding?
    requires Decide(cfg, query.req, query.phase.items, s.clock).Keep?
    ensures
      var decision := Decide(cfg, query.req, query.phase.items, s.clock);
      && decision.pod.uid.Some?
      && NamesHost(cfg, s, query, decision.pod.uid.value, decision.target, query.phase.version, decision.pod.name)
  {
    hide QueryTarget, Decide, Eligible, InMap, PassesFilters, ValidRequest, ValidId;
    DecisionIsAboutOptimum(cfg, query.req, query.phase.items, s.clock);
    assert Decide(cfg, query.req, query.phase.items, s.clock).pod in query.phase.items;
  }

  lemma NamesHostExtends(cfg: Config, s: State, s': State, query: Query, query': Query, server: string, target: Target,
                         r: nat, n: string)
    requires NamesHost(cfg, s, query, server, target, r, n) && Extends(s, s')
    requires query'.granted == query.granted && query'.req == query.req
    ensures NamesHost(cfg, s', query', server, target, r, n)
  {
    hide QueryTarget;
    assert s'.history[r] == s.history[r];
  }

  /** The entry a query installed, as it stood right after. */
  ghost predicate HasEntry(s: State, query: Query, q: nat, target: Target) {
    && query.director in s.directors && query.client in s.directors[query.director].sessions
    && s.directors[query.director].sessions[query.client] == Entry(Some(q), target, Revision(s))
  }

  lemma InstallHasEntry(s: State, q: nat, target: Target, reply: Reply)
    requires Known(s, q)
    ensures var s' := Finish(InstallRoute(s, q, target), q, reply, true);
            && q in s'.queries && s'.queries[q] == s.queries[q].(phase := Done(reply), flight := None)
            && HasEntry(s', s'.queries[q], q, target) && s'.history == s.history
  {
  }

  /** A successful answer names the Pod whose target was just installed, which hosted the character under the lock. */
  ghost predicate Succeeds(cfg: Config, s': State, q: nat)
    requires q in s'.queries
  {
    var query := s'.queries[q];
    query.phase.Done? && query.phase.reply.Joined? ==>
      && query.phase.reply.ports == PublicPorts(cfg.dataPorts)
      && exists target, r: nat, n :: HasEntry(s', query, q, target) && r <= Revision(s')
                                     && NamesHost(cfg, s', query, query.phase.reply.server, target, r, n)
  }

  lemma InstallSucceeds(cfg: Config, s: State, q: nat)
    requires Chronicle(s) && QueriesOk(cfg, s) && Enabled(cfg, s, Install(q))
    ensures var s' := Apply(cfg, s, Install(q)); q in s'.queries && Succeeds(cfg, s', q)
  {
    hide Chronicle, QueriesOk, QueryOk, Finish, InstallRoute, NamesHost, HasEntry;
    Recall(cfg, s, q);
    var query := s.queries[q];
    var s' := Apply(cfg, s, Install(q));
    WriteNamesHost(cfg, s, query);
    InstallHasEntry(s, q, query.phase.target, JoinedAt(cfg, query.phase.pod));
    StepFrame(cfg, s, Install(q));
    NamesHostExtends(cfg, s, s', query, s'.queries[q], query.phase.pod.uid.value, query.phase.target,
                     query.phase.written, query.phase.pod.name);
    NamedRevision(cfg, s', s'.queries[q], query.phase.pod.uid.value, query.phase.target, query.phase.written,
                  query.phase.pod.name);
  }

  lemma NamedRevision(cfg: Config, s: State, query: Query, server: string, target: Target, r: nat, n: string)
    requires NamesHost(cfg, s, query, server, target, r, n)
    ensures r <= Revision(s)
  {
    hide QueryTarget;
  }

  lemma KeepSucceeds(cfg: Config, s: State, q: nat)
    requires Chronicle(s) && QueriesOk(cfg, s) && Enabled(cfg, s, Evaluate(q))
    requires Decide(cfg, s.queries[q].req, s.queries[q].phase.items, s.clock).Keep?
    ensures var s' := Apply(cfg, s, Evaluate(q)); q in s'.queries && Succeeds(cfg, s', q)
  {
    hide Chronicle, QueriesOk, QueryOk, Finish, InstallRoute, NamesHost, HasEntry, Decide;
    Recall(cfg, s, q);
    var query := s.queries[q];
    var decision := Decide(cfg, query.req, query.phase.items, s.clock);
    var s' := Apply(cfg, s, Evaluate(q));
    ListNamesHost(cfg, s, query);
    InstallHasEntry(s, q, decision.target, JoinedAt(cfg, decision.pod));
    StepFrame(cfg, s, Evaluate(q));
    NamesHostExtends(cfg, s, s', query, s'.queries[q], decision.pod.uid.value, decision.target, query.phase.version,
                     decision.pod.name);
    NamedRevision(cfg, s', s'.queries[q], decision.pod.uid.value, decision.target, query.phase.version,
                  decision.pod.name);
  }

  /** Whatever step answers a query with success, the answer is right at that moment. */
  lemma SuccessIsRight(cfg: Config, s: State, step: Step, q: nat)
    requires Chronicle(s) && QueriesOk(cfg, s) && Enabled(cfg, s, step) && Actor(step) == Some(q)
    ensures var s' := Apply(cfg, s, step); q in s'.queries && Succeeds(cfg, s', q)
  {
    hide Chronicle, QueriesOk, Apply, Enabled, HasEntry, NamesHost, JoinedAt, Decide;
    AnswersHaveReasons(cfg, s, step, q);
    if step.Install? {
      InstallSucceeds(cfg, s, q);
    } else if step.Evaluate? {
      EvaluatesDeciding(cfg, s, q);
      if Decide(cfg, s.queries[q].req, s.queries[q].phase.items, s.clock).Keep? {
        KeepSucceeds(cfg, s, q);
      }
    }
  }

  lemma EvaluatesDeciding(cfg: Config, s: State, q: nat)
    requires Enabled(cfg, s, Evaluate(q))
    ensures q in s.queries && s.queries[q].phase.Deciding?
  {
  }

  // ----- runs -----

  lemma {:induction false} LegalPrefix(cfg: Config, s: State, steps: seq<Step>, i: nat)
    requires Legal(cfg, s, steps) && i <= |steps|
    ensures Legal(cfg, s, steps[..i])
    decreases |steps|
  {
    hide Enabled, Apply;
    if i == |steps| {
      assert steps[..i] == steps;
    } else {
      var n := |steps| - 1;
      LegalPrefix(cfg, s, steps[..n], i);
      assert steps[..n][..i] == steps[..i];
    }
  }

  /** The first `i` steps of the run, after which the query is answered as it is at the end, and rightly so. */
  ghost predicate RightlyAnsweredAt(cfg: Config, s0: State, steps: seq<Step>, q: nat, query: Query, i: nat) {
    && i <= |steps| && Legal(cfg, s0, steps[..i])
    && var s := After(cfg, s0, steps[..i]);
       q in s.queries && s.queries[q] == query && Succeeds(cfg, s, q)
  }

  /**
   * A query answered with success, in every reachable state: at the moment of the answer its client's route was the
   * one the query had just installed, and at some revision between its grant of the lock and that moment the Pod
   * with the identity it was told hosted its character and had that very target.
   */
  lemma {:induction false} SuccessNamesTheServer(cfg: Config, s0: State, steps: seq<Step>, q: nat)
    requires Init(s0) && Legal(cfg, s0, steps)
    requires var s := After(cfg, s0, steps);
             q in s.queries && s.queries[q].phase.Done? && s.queries[q].phase.reply.Joined?
    ensures exists i: nat :: RightlyAnsweredAt(cfg, s0, steps, q, After(cfg, s0, steps).queries[q], i)
    decreases |steps|
  {
    hide Init, Enabled, Apply, Succeeds, Inv;
    if steps == [] {
      NobodyAnswered(cfg, s0, q);
    } else {
      var n := |steps| - 1;
      var s := After(cfg, s0, steps[..n]);
      var s' := After(cfg, s0, steps);
      InvAlways(cfg, s0, steps[..n]);
      InvGives(cfg, s);
      StepFrame(cfg, s, steps[n]);
      if Actor(steps[n]) == Some(q) {
        SuccessIsRight(cfg, s, steps[n], q);
        assert steps[..n + 1] == steps;
        assert RightlyAnsweredAt(cfg, s0, steps, q, s'.queries[q], n + 1);
      } else {
        SuccessNamesTheServer(cfg, s0, steps[..n], q);
        var i: nat :| RightlyAnsweredAt(cfg, s0, steps[..n], q, s.queries[q], i);
        assert steps[..n][..i] == steps[..i];
        assert RightlyAnsweredAt(cfg, s0, steps, q, s'.queries[q], i);
      }
    }
  }

  lemma NobodyAnswered(cfg: Config, s0: State, q: nat)
    requires Init(s0)
    ensures q !in s0.queries
  {
  }

  /** The ports of a successful answer: the data ports' names, each with the listener of the last one so named. */
  lemma SuccessNamesThePorts(cfg: Config, s0: State, steps: seq<Step>, q: nat)
    requires Init(s0) && Legal(cfg, s0, steps)
    requires var s := After(cfg, s0, steps);
             q in s.queries && s.queries[q].phase.Done? && s.queries[q].phase.reply.Joined?
    ensures
      var ports := After(cfg, s0, steps).queries[q].phase.reply.ports;
      && (forall name :: name in ports <==> exists d :: d in cfg.dataPorts && d.name == name)
      && (forall i: nat :: LastOfItsName(cfg.dataPorts, i) ==>
            cfg.dataPorts[i].name in ports && ports[cfg.dataPorts[i].name] == cfg.dataPorts[i].port)
  {
    hide Init, Legal, HasEntry, NamesHost, PublicPorts;
    SuccessNamesTheServer(cfg, s0, steps, q);
    var i: nat :| RightlyAnsweredAt(cfg, s0, steps, q, After(cfg, s0, steps).queries[q], i);
    PublicPortsExactly(cfg.dataPorts);
  }

  /** Some id of the request is not a valid one. */
  ghost predicate NamesInvalidId(req: Request) {
    exists id :: (id == req.mapName || id == req.character || id in req.friends) && !ValidId(id)
  }

  ghost predicate RefusalsRight(s: State) {
    forall q :: q in s.queries ==> (s.queries[q].phase == Done(InvalidId) <==> NamesInvalidId(s.queries[q].req))
  }

  lemma ArrivalRefused(cfg: Config, s: State, step: Step)
    requires Enabled(cfg, s, step) && step.Arrive?
    ensures var s' := Apply(cfg, s, step);
            && step.q in s'.queries
            && (s'.queries[step.q].phase == Done(InvalidId) <==> NamesInvalidId(s'.queries[step.q].req))
  {
    hide ValidId;
  }

  /** A later step of a query neither changes its request nor answers it so. */
  lemma LaterNotRefused(cfg: Config, s: State, step: Step, q: nat)
    requires Enabled(cfg, s, step) && Actor(step) == Some(q) && !step.Arrive?
    ensures var s' := Apply(cfg, s, step);
            && q in s.queries && !s.queries[q].phase.Done? && q in s'.queries
            && s'.queries[q].req == s.queries[q].req && s'.queries[q].phase != Done(InvalidId)
  {
    AnswersHaveReasons(cfg, s, step, q);
    hide Apply, Enabled, AnsweredBy;
    KeepsRequest(cfg, s, step, q);
    NeverRefusesLater(cfg, s, step, q);
  }

  lemma NeverRefusesLater(cfg: Config, s: State, step: Step, q: nat)
    requires Enabled(cfg, s, step) && Actor(step) == Some(q) && !step.Arrive?
    ensures !AnsweredBy(cfg, s, step, q, InvalidId)
  {
  }

  lemma KeepsRequest(cfg: Config, s: State, step: Step, q: nat)
    requires Enabled(cfg, s, step) && Actor(step) == Some(q) && !step.Arrive?
    ensures var s' := Apply(cfg, s, step);
            q in s.queries && !s.queries[q].phase.Done? && q in s'.queries && s'.queries[q].req == s.queries[q].req
  {
    hide IsListing, Deliverable, Decide, JoinOrStart, Unlock, Assigned, JoinedAt, LiveFlights;
  }

  /** A query is refused for its ids exactly when one of them is invalid. */
  lemma {:induction false} RefusedExactlyForInvalidIds(cfg: Config, s0: State, steps: seq<Step>)
    requires Init(s0) && Legal(cfg, s0, steps)
    ensures RefusalsRight(After(cfg, s0, steps))
    decreases |steps|
  {
    hide Enabled, Apply, NamesInvalidId, Inv, QueriesOk;
    if steps != [] {
      var n := |steps| - 1;
      var s := After(cfg, s0, steps[..n]);
      var s' := After(cfg, s0, steps);
      RefusedExactlyForInvalidIds(cfg, s0, steps[..n]);
      InvAlways(cfg, s0, steps[..n]);
      StepFrame(cfg, s, steps[n]);
      InvGives(cfg, s);
      forall q | q in s'.queries
        ensures s'.queries[q].phase == Done(InvalidId) <==> NamesInvalidId(s'.queries[q].req)
      {
        if Some(q) == Actor(steps[n]) {
          if steps[n].Arrive? {
            ArrivalRefused(cfg, s, steps[n]);
          } else {
            LaterNotRefused(cfg, s, steps[n], q);
          }
        }
      }
    }
  }

  /** Step `i` of the run is what the query's answer stands for. */
  ghost predicate ReasonAt(cfg: Config, s0: State, steps: seq<Step>, q: nat, reply: Reply, i: nat) {
    && i < |steps| && Legal(cfg, s0, steps[..i]) && Enabled(cfg, After(cfg, s0, steps[..i]), steps[i])
    && Actor(steps[i]) == Some(q) && AnsweredBy(cfg, After(cfg, s0, steps[..i]), steps[i], q, reply)
  }

  /** Every answer in every run has its reason: the step that gave it, in the state it was given in. */
  lemma {:induction false} EveryAnswerHasAReason(cfg: Config, s0: State, steps: seq<Step>, q: nat)
    requires Init(s0) && Legal(cfg, s0, steps)
    requires q in After(cfg, s0, steps).queries && After(cfg, s0, steps).queries[q].phase.Done?
    ensures exists i: nat :: ReasonAt(cfg, s0, steps, q, After(cfg, s0, steps).queries[q].phase.reply, i)
    decreases |steps|
  {
    hide Init, Enabled, Apply, AnsweredBy;
    if steps == [] {
      NobodyAnswered(cfg, s0, q);
    } else {
      var n := |steps| - 1;
      var s := After(cfg, s0, steps[..n]);
      var reply := After(cfg, s0, steps).queries[q].phase.reply;
      StepFrame(cfg, s, steps[n]);
      if Actor(steps[n]) == Some(q) {
        AnswersHaveReasons(cfg, s, steps[n], q);
        assert ReasonAt(cfg, s0, steps, q, reply, n);
      } else {
        EveryAnswerHasAReason(cfg, s0, steps[..n], q);
        var i: nat :| ReasonAt(cfg, s0, steps[..n], q, reply, i);
        assert steps[..n][..i] == steps[..i] && steps[..n][i] == steps[i];
        assert ReasonAt(cfg, s0, steps, q, reply, i);
      }
    }
  }
}
