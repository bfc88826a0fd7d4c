/** Facts that hold in every reachable state, whatever outside writers do; the theorems build on them. */
module Invariants {
  import opened Wrappers
  import opened Backend
  import opened Pods
  import opened Characters
  import opened Selection
  import opened Demand
  import opened Protocol

  /** A Pod's version names the revision that wrote it, so equal versions mean equal content. */
  ghost predicate Chronicle(s: State) {
    && s.history != []
    && forall r, n {:trigger WrittenAt(s, s.history[r][n], n, r)} ::
         0 <= r < |s.history| && n in s.history[r] ==> WrittenAt(s, s.history[r][n], n, r)
  }

  ghost predicate WrittenAt(s: State, pod: Pod, n: string, r: nat)
    requires r < |s.history|
  {
    pod.name == n && pod.version <= r && n in s.history[pod.version] && s.history[pod.version][n] == pod
  }

  /** The list a suspended query carries is the list of its recorded revision. */
  ghost predicate ListedAt(cfg: Config, s: State, query: Query, items: seq<Pod>, version: nat) {
    version < |s.history| && IsListing(cfg, query.req.mapName, s.history[version], items)
  }

  ghost predicate ColdSince(cfg: Config, s: State, query: Query, items: seq<Pod>, version: nat, at: int) {
    ListedAt(cfg, s, query, items, version) && at <= s.clock && Decide(cfg, query.req, items, at) == Cold
  }

  /** What each suspension point remembers is true of the history. */
  ghost predicate QueryOk(cfg: Config, s: State, query: Query) {
    && query.director in s.directors
    && query.granted < |s.history|
    && (query.phase != Done(InvalidId) ==> ValidRequest(query.req))
    && (InColdWait(query.phase) ==> query.flight.Some?)
    && match query.phase
       case Deciding(items, version, since) => ListedAt(cfg, s, query, items, version) && query.granted <= version
       case Signalled(items, version, at) => ColdSince(cfg, s, query, items, version, at)
       case Watching(items, version, at) => ColdSince(cfg, s, query, items, version, at)
       case Patching(items, version, at, pod, target) =>
         && ListedAt(cfg, s, query, items, version) && at <= s.clock && query.granted <= version
         && Decide(cfg, query.req, items, at) == Assign(pod, target)
       case Answered(delivered, pod, target, written) =>
         && query.granted <= written < |s.history| && pod.name in s.history[written]
         && s.history[written][pod.name] == WithAllocated(cfg, pod, query.req.character).(version := written)
         && QueryTarget(cfg.mapping, cfg.dataPorts, pod.body) == Some(target) && pod.uid.Some?
       case Done(reply) => query.flight == None
       case _ => true
  }

  ghost predicate QueriesOk(cfg: Config, s: State) {
    forall q :: q in s.queries ==> QueryOk(cfg, s, s.queries[q])
  }

  /** The lock of a director is held by exactly the query whose phase says so. */
  ghost predicate LockOk(s: State, d: nat)
    requires d in s.directors
  {
    && (forall q :: q in s.queries && s.queries[q].director == d && HoldsLock(s.queries[q].phase) ==>
          s.directors[d].holder == Some(q))
    && (s.directors[d].holder.Some? ==>
          var q := s.directors[d].holder.value;
          && q in s.queries && s.queries[q].director == d && HoldsLock(s.queries[q].phase)
          && s.directors[d].grants != [] && s.directors[d].grants[|s.directors[d].grants| - 1] == q)
  }

  ghost predicate LocksOk(s: State) {
    forall d :: d in s.directors ==> LockOk(s, d)
  }

  ghost predicate Inv(cfg: Config, s: State) {
    Chronicle(s) && QueriesOk(cfg, s) && LocksOk(s)
  }

  // ----- frames -----

  /** Later states extend the history and never turn the clock back. */
  ghost predicate Extends(s: State, s': State) {
    s.history <= s'.history && s.clock <= s'.clock && s.directors.Keys == s'.directors.Keys
  }

  /** The query a step acts on. */
  function Actor(step: Step): Option<nat> {
    match step
    case Arrive(q, _, _, _) => Some(q)
    case Acquire(q) => Some(q)
    case List(q, _) => Some(q)
    case Evaluate(q) => Some(q)
    case ApplyPatch(q, _) => Some(q)
    case RejectPatch(q) => Some(q)
    case Install(q) => Some(q)
    case NetworkError(q) => Some(q)
    case SeeAnswer(q) => Some(q)
    case WatchReturns(q, _) => Some(q)
    case TimesOut(q) => Some(q)
    case Disconnects(q) => Some(q)
    case _ => None
  }

  /** Steps that end a query without a route. */
  predicate Ends(step: Step) {
    step.RejectPatch? || step.NetworkError? || step.TimesOut? || step.Disconnects?
  }

  /** A query's own step other than its write: only that query and its director change. */
  ghost predicate OnlyQuery(s: State, s': State, q: nat) {
    && s'.history == s.history && s'.clock == s.clock && s'.drains == s.drains
    && s.directors.Keys == s'.directors.Keys
    && s.queries.Keys <= s'.queries.Keys
    && forall p :: p in s'.queries && p != q ==> p in s.queries && s'.queries[p] == s.queries[p]
  }

  lemma FinishFrame(s: State, q: nat, reply: Reply, decided: bool)
    requires Known(s, q)
    ensures OnlyQuery(s, Finish(s, q, reply, decided), q)
  {
    hide Unlock;
  }

  lemma InstallFrame(s: State, q: nat, target: Target, reply: Reply)
    requires Known(s, q)
    ensures Known(InstallRoute(s, q, target), q)
    ensures OnlyQuery(s, Finish(InstallRoute(s, q, target), q, reply, true), q)
  {
    hide Unlock;
  }

  lemma EvaluateFrame(cfg: Config, s: State, q: nat)
    requires Enabled(cfg, s, Evaluate(q))
    ensures OnlyQuery(s, ApplyEvaluate(cfg, s, q), q)
  {
    hide Decide, JoinOrStart, Unlock, Finish, InstallRoute, JoinedAt;
    var query := s.queries[q];
    match Decide(cfg, query.req, query.phase.items, s.clock)
    case Cold => FinishFrame(s, q, NoServer, true);
    case Refused => FinishFrame(s, q, NoRoute, true);
    case Keep(pod, target) => InstallFrame(s, q, target, JoinedAt(cfg, pod));
    case Assign(pod, target) =>
  }

  lemma SeeAnswerFrame(cfg: Config, s: State, q: nat)
    requires Enabled(cfg, s, SeeAnswer(q))
    ensures OnlyQuery(s, Apply(cfg, s, SeeAnswer(q)), q)
  {
    hide Finish;
    var query := s.queries[q];
    match s.directors[query.director].board.flights[query.flight.value].outcome.value
    case Success(_) =>
    case Failure(error) => FinishFrame(s, q, StartupFailed(error), false);
  }

  lemma EndFrame(cfg: Config, s: State, step: Step, q: nat)
    requires Enabled(cfg, s, step) && Ends(step) && Actor(step) == Some(q)
    ensures OnlyQuery(s, Apply(cfg, s, step), q)
  {
    hide Finish, OnlyQuery;
    FinishFrame(s, q, NoRoute, s.queries[q].phase.Answered?);
    FinishFrame(s, q, NoRoute, false);
    FinishFrame(s, q, StartupFailed(Timeout), false);
    FinishFrame(s, q, StartupFailed(Cancelled), false);
  }

  lemma ActorFrame(cfg: Config, s: State, step: Step, q: nat)
    requires Enabled(cfg, s, step) && Actor(step) == Some(q) && !step.ApplyPatch?
    ensures OnlyQuery(s, Apply(cfg, s, step), q)
  {
    hide ApplyEvaluate, Finish, InstallRoute, IsListing, Deliverable, ValidRequest;
    if step.Evaluate? {
      EvaluateFrame(cfg, s, q);
    } else if step.SeeAnswer? {
      SeeAnswerFrame(cfg, s, q);
    } else if step.Install? {
      InstallFrame(s, q, s.queries[q].phase.target, JoinedAt(cfg, s.queries[q].phase.pod));
    } else if Ends(step) {
      EndFrame(cfg, s, step, q);
    }
  }

  /** Steps without an actor leave the queries alone. */
  lemma BystanderFrame(cfg: Config, s: State, step: Step)
    requires Enabled(cfg, s, step) && Actor(step) == None
    ensures var s' := Apply(cfg, s, step);
            && s'.queries == s.queries && s.directors.Keys == s'.directors.Keys
            && s.history <= s'.history && s.clock <= s'.clock && |s'.history| <= |s.history| + 1
            && (step.Tick? || s'.clock == s.clock)
  {
    hide Visible, Draining, Post, Answer;
  }

  lemma PatchFrame(cfg: Config, s: State, q: nat, delivered: bool)
    requires Enabled(cfg, s, ApplyPatch(q, delivered))
    ensures
      var s' := Apply(cfg, s, ApplyPatch(q, delivered));
      && s' == s.(history := s'.history, queries := s'.queries)
      && s'.history == s.history + [Assigned(cfg, s, s.queries[q].phase.pod.name, s.queries[q].req.character)]
      && s'.queries == s.queries[q := s.queries[q].(phase := s'.queries[q].phase)]
      && s'.queries[q].phase
         == Answered(delivered, s.queries[q].phase.pod, s.queries[q].phase.target, |s.history|)
  {
    hide Assigned;
  }

  lemma StepFrame(cfg: Config, s: State, step: Step)
    requires Enabled(cfg, s, step)
    ensures var s' := Apply(cfg, s, step);
            && Extends(s, s')
            && |s'.history| <= |s.history| + 1
            && s.queries.Keys <= s'.queries.Keys
            && (forall q :: q in s'.queries && Some(q) != Actor(step) ==>
                q in s.queries && s'.queries[q] == s.queries[q])
            && (step.Tick? || s'.clock == s.clock)
  {
    hide Apply, Enabled, Assigned;
    if step.ApplyPatch? {
      PatchFrame(cfg, s, step.q, step.delivered);
    } else if Actor(step).Some? {
      ActorFrame(cfg, s, step, Actor(step).value);
    } else {
      BystanderFrame(cfg, s, step);
    }
  }

  lemma QueryOkExtends(cfg: Config, s: State, s': State, query: Query)
    requires QueryOk(cfg, s, query) && Extends(s, s')
    ensures QueryOk(cfg, s', query)
  {
  }

  lemma OtherQueriesOk(cfg: Config, s: State, step: Step, q: nat)
    requires QueriesOk(cfg, s) && Enabled(cfg, s, step)
    requires q in Apply(cfg, s, step).queries && Some(q) != Actor(step)
    ensures QueryOk(cfg, Apply(cfg, s, step), Apply(cfg, s, step).queries[q])
  {
    StepFrame(cfg, s, step);
    QueryOkExtends(cfg, s, Apply(cfg, s, step), s.queries[q]);
  }

  // ----- the version guard -----

  /** Of one name, equal versions mean equal content, whenever they are read. */
  lemma SameVersionSameContent(s: State, n: string, r: nat, r': nat)
    requires Chronicle(s) && r < |s.history| && r' < |s.history| && n in s.history[r] && n in s.history[r']
    requires s.history[r][n].version == s.history[r'][n].version
    ensures s.history[r][n] == s.history[r'][n]
  {
    assert WrittenAt(s, s.history[r][n], n, r);
    assert WrittenAt(s, s.history[r'][n], n, r');
  }

  /** A guarded write that is accepted finds the very Pod the query listed: same version, same content. */
  lemma AcceptedPatchSeesListedPod(cfg: Config, s: State, q: nat)
    requires Chronicle(s) && q in s.queries && QueryOk(cfg, s, s.queries[q]) && s.queries[q].phase.Patching?
    requires PatchFits(s, s.queries[q].phase.pod)
    ensures Current(s)[s.queries[q].phase.pod.name] == s.queries[q].phase.pod
  {
    hide Chronicle, QueryOk, Decide, IsUsed, Eligible, InMap, PassesFilters, QueryTarget, ValidRequest;
    var phase := s.queries[q].phase;
    PatchMeaning(cfg, s, s.queries[q]);
    CurrentNames(s);
    assert phase.pod in phase.items;
    SameVersionSameContent(s, phase.pod.name, phase.version, |s.history| - 1);
  }

  // ----- preservation -----

  lemma CurrentNames(s: State)
    requires Chronicle(s)
    ensures s.history != [] && Current(s) == s.history[|s.history| - 1]
    ensures forall n :: n in Current(s) ==> Current(s)[n].name == n
  {
    forall n | n in Current(s) ensures Current(s)[n].name == n {
      assert WrittenAt(s, Current(s)[n], n, |s.history| - 1);
    }
  }

  /** The Pod name a step writes to, if any. */
  function Touched(s: State, step: Step): Option<string> {
    match step
    case Outside(name, _) => Some(name)
    case ApplyPatch(q, _) =>
      if q in s.queries && s.queries[q].phase.Patching? then Some(s.queries[q].phase.pod.name) else None
    case MarkDrain(_, name) => Some(name)
    case DeleteDrained(i) => if i in s.drains then Some(s.drains[i].name) else None
    case _ => None
  }

  /** A write adds one revision that differs from the previous one at one name only. */
  ghost predicate OneWrite(s: State, s': State, name: string) {
    && |s'.history| == |s.history| + 1
    && s.history <= s'.history
    && (forall n :: n in Current(s') && n != name ==> n in Current(s) && Current(s')[n] == Current(s)[n])
    && (forall n :: n in Current(s) && n != name ==> n in Current(s'))
    && (name in Current(s') ==> Current(s')[name].version == |s.history|)
  }

  lemma HistoryFrame(cfg: Config, s: State, step: Step)
    requires Enabled(cfg, s, step)
    ensures var s' := Apply(cfg, s, step);
            match Touched(s, step)
            case None => s'.history == s.history
            case Some(name) => OneWrite(s, s', name)
  {
    hide ApplyEvaluate, Apply, Enabled, Assigned;
    if step.ApplyPatch? {
      PatchWrites(cfg, s, step.q, step.delivered);
    } else if Actor(step).Some? {
      ActorFrame(cfg, s, step, Actor(step).value);
    } else {
      BystanderWrites(cfg, s, step);
    }
  }

  lemma PatchWrites(cfg: Config, s: State, q: nat, delivered: bool)
    requires Enabled(cfg, s, ApplyPatch(q, delivered))
    ensures Touched(s, ApplyPatch(q, delivered)) == Some(s.queries[q].phase.pod.name)
    ensures OneWrite(s, Apply(cfg, s, ApplyPatch(q, delivered)), s.queries[q].phase.pod.name)
  {
    PatchFrame(cfg, s, q, delivered);
  }

  lemma BystanderWrites(cfg: Config, s: State, step: Step)
    requires Enabled(cfg, s, step) && Actor(step) == None
    ensures var s' := Apply(cfg, s, step);
            match Touched(s, step)
            case None => s'.history == s.history
            case Some(name) => OneWrite(s, s', name)
  {
    hide Visible, Draining, Post, Answer;
  }

  lemma WrittenNameKept(cfg: Config, s: State, step: Step, name: string)
    requires Chronicle(s) && Enabled(cfg, s, step) && Touched(s, step) == Some(name)
    ensures name in Current(Apply(cfg, s, step)) ==> Current(Apply(cfg, s, step))[name].name == name
  {
    hide Chronicle, ApplyEvaluate, Decide, IsListing, Deliverable, Visible, Draining;
    CurrentNames(s);
  }

  lemma WrittenAtExtends(s: State, s': State, n: string, r: nat)
    requires Chronicle(s) && s.history <= s'.history && r < |s.history| && n in s.history[r]
    ensures WrittenAt(s', s.history[r][n], n, r)
  {
    assert WrittenAt(s, s.history[r][n], n, r);
  }

  lemma ChronicleAppends(s: State, s': State, name: string)
    requires Chronicle(s) && OneWrite(s, s', name)
    requires name in Current(s') ==> Current(s')[name].name == name
    ensures Chronicle(s')
  {
    hide Chronicle, WrittenAt;
    var last := |s.history|;
    CurrentNames(s);
    forall r, n | 0 <= r < |s'.history| && n in s'.history[r] ensures WrittenAt(s', s'.history[r][n], n, r) {
      if r < last {
        WrittenAtExtends(s, s', n, r);
      } else if n != name {
        WrittenAtExtends(s, s', n, last - 1);
        WrittenAtLater(s', s'.history[r][n], n, last - 1, last);
      } else {
        WrittenNow(s', n);
      }
    }
    ChronicleFromEntries(s');
  }

  lemma WrittenAtLater(s: State, pod: Pod, n: string, r: nat, later: nat)
    requires r < later < |s.history| && WrittenAt(s, pod, n, r)
    ensures WrittenAt(s, pod, n, later)
  {
  }

  lemma WrittenNow(s: State, n: string)
    requires s.history != [] && n in Current(s) && Current(s)[n].name == n && Current(s)[n].version == |s.history| - 1
    ensures WrittenAt(s, Current(s)[n], n, |s.history| - 1)
  {
  }

  lemma ChronicleFromEntries(s: State)
    requires s.history != []
    requires forall r, n :: 0 <= r < |s.history| && n in s.history[r] ==> WrittenAt(s, s.history[r][n], n, r)
    ensures Chronicle(s)
  {
  }

  lemma ChronicleUnchanged(s: State, s': State)
    requires Chronicle(s) && s'.history == s.history
    ensures Chronicle(s')
  {
    forall r, n | 0 <= r < |s'.history| && n in s'.history[r] ensures WrittenAt(s', s'.history[r][n], n, r) {
      assert WrittenAt(s, s.history[r][n], n, r);
    }
  }

  lemma ChronicleKept(cfg: Config, s: State, step: Step)
    requires Chronicle(s) && Enabled(cfg, s, step)
    ensures Chronicle(Apply(cfg, s, step))
  {
    hide Chronicle, Apply, Enabled, OneWrite;
    var s' := Apply(cfg, s, step);
    HistoryFrame(cfg, s, step);
    match Touched(s, step)
    case None => ChronicleUnchanged(s, s');
    case Some(name) =>
      WrittenNameKept(cfg, s, step, name);
      ChronicleAppends(s, s', name);
  }

  lemma EvaluateOk(cfg: Config, s: State, q: nat)
    requires QueriesOk(cfg, s) && Enabled(cfg, s, Evaluate(q))
    ensures var s' := ApplyEvaluate(cfg, s, q); q in s'.queries && QueryOk(cfg, s', s'.queries[q])
  {
    hide QueriesOk, Decide, Unlock, IsListing, JoinOrStart, ValidRequest, QueryTarget;
    Recall(cfg, s, q);
  }

  lemma Recall(cfg: Config, s: State, q: nat)
    requires QueriesOk(cfg, s) && q in s.queries
    ensures QueryOk(cfg, s, s.queries[q])
  {
  }

  /** The Pod a pending patch names is the optimum of the query's list, with a resolved target. */
  lemma PatchMeaning(cfg: Config, s: State, query: Query)
    requires QueryOk(cfg, s, query) && query.phase.Patching?
    ensures
      var phase := query.phase;
      && IsOptimum(cfg, query.req, phase.items, phase.at, phase.pod)
      && !IsUsed(cfg, phase.pod, query.req.character)
      && QueryTarget(cfg.mapping, cfg.dataPorts, phase.pod.body) == Some(phase.target) && phase.pod.uid.Some?
      && ValidRequest(query.req) && query.director in s.directors && phase.at <= s.clock
      && ListedAt(cfg, s, query, phase.items, phase.version) && query.granted <= phase.version
  {
    hide Decide, ListedAt, ValidRequest, QueryTarget, IsOptimum, IsUsed;
    DecisionIsAboutOptimum(cfg, query.req, query.phase.items, query.phase.at);
  }

  lemma GrantedBefore(cfg: Config, s: State, q: nat)
    requires q in s.queries && QueryOk(cfg, s, s.queries[q])
    ensures s.queries[q].granted < |s.history|
  {
    hide ListedAt, ColdSince, Decide;
  }

  lemma AnsweredOk(cfg: Config, s: State, query: Query)
    requires query.phase.Answered? && query.director in s.directors && ValidRequest(query.req)
    requires query.granted <= query.phase.written < |s.history|
    requires query.phase.pod.name in s.history[query.phase.written]
    requires s.history[query.phase.written][query.phase.pod.name]
             == WithAllocated(cfg, query.phase.pod, query.req.character).(version := query.phase.written)
    requires QueryTarget(cfg.mapping, cfg.dataPorts, query.phase.pod.body) == Some(query.phase.target)
    requires query.phase.pod.uid.Some?
    ensures QueryOk(cfg, s, query)
  {
  }

  lemma ApplyPatchOk(cfg: Config, s: State, q: nat, delivered: bool)
    requires Chronicle(s) && QueriesOk(cfg, s) && Enabled(cfg, s, ApplyPatch(q, delivered))
    ensures var s' := Apply(cfg, s, ApplyPatch(q, delivered)); q in s'.queries && QueryOk(cfg, s', s'.queries[q])
  {
    hide Chronicle, QueriesOk, QueryOk, Decide, IsOptimum, ListedAt, QueryTarget, IsUsed, ValidRequest, WithAllocated;
    Recall(cfg, s, q);
    var query := s.queries[q];
    PatchMeaning(cfg, s, query);
    AcceptedPatchSeesListedPod(cfg, s, q);
    GrantedBefore(cfg, s, q);
    var s' := Apply(cfg, s, ApplyPatch(q, delivered));
    PatchFrame(cfg, s, q, delivered);
    AnsweredOk(cfg, s', s'.queries[q]);
  }

  lemma FinishOk(cfg: Config, s: State, q: nat, reply: Reply, decided: bool)
    requires Known(s, q) && QueryOk(cfg, s, s.queries[q]) && ValidRequest(s.queries[q].req)
    ensures var s' := Finish(s, q, reply, decided); q in s'.queries && QueryOk(cfg, s', s'.queries[q])
  {
    hide ValidRequest, Unlock, Decide, IsListing, QueryTarget, WithLabel;
  }

  /** Steps that only move a query's phase, within or into the protocol. */
  lemma MoveOk(cfg: Config, s: State, step: Step, q: nat)
    requires Enabled(cfg, s, step) && Actor(step) == Some(q)
    requires step.Arrive? || step.Acquire? || step.WatchReturns?
    requires q in s.queries ==> QueryOk(cfg, s, s.queries[q])
    requires s.history != []
    ensures var s' := Apply(cfg, s, step); q in s'.queries && QueryOk(cfg, s', s'.queries[q])
  {
    hide Decide, IsListing, WithLabel, ValidRequest, QueryTarget, Deliverable;
  }

  lemma SeeAnswerOk(cfg: Config, s: State, q: nat)
    requires Enabled(cfg, s, SeeAnswer(q)) && QueryOk(cfg, s, s.queries[q])
    ensures var s' := Apply(cfg, s, SeeAnswer(q)); q in s'.queries && QueryOk(cfg, s', s'.queries[q])
  {
    hide Decide, IsListing, ValidRequest, QueryTarget, Finish;
    var query := s.queries[q];
    match s.directors[query.director].board.flights[query.flight.value].outcome.value
    case Success(_) =>
    case Failure(error) => FinishOk(cfg, s, q, StartupFailed(error), false);
  }

  lemma EndOk(cfg: Config, s: State, step: Step, q: nat)
    requires Enabled(cfg, s, step) && Ends(step) && Actor(step) == Some(q) && QueryOk(cfg, s, s.queries[q])
    ensures var s' := Apply(cfg, s, step); q in s'.queries && QueryOk(cfg, s', s'.queries[q])
  {
    hide Decide, ListedAt, ValidRequest, QueryTarget, Finish, WithLabel;
    FinishOk(cfg, s, q, NoRoute, s.queries[q].phase.Answered?);
    FinishOk(cfg, s, q, NoRoute, false);
    FinishOk(cfg, s, q, StartupFailed(Timeout), false);
    FinishOk(cfg, s, q, StartupFailed(Cancelled), false);
  }

  lemma InstallOk(cfg: Config, s: State, q: nat)
    requires Enabled(cfg, s, Install(q)) && QueryOk(cfg, s, s.queries[q])
    ensures var s' := Apply(cfg, s, Install(q)); q in s'.queries && QueryOk(cfg, s', s'.queries[q])
  {
    hide ValidRequest, QueryTarget, WithLabel, JoinedAt;
  }

  lemma ActorOk(cfg: Config, s: State, step: Step, q: nat)
    requires Inv(cfg, s) && Enabled(cfg, s, step) && Actor(step) == Some(q)
    ensures var s' := Apply(cfg, s, step); q in s'.queries && QueryOk(cfg, s', s'.queries[q])
  {
    hide Chronicle, LocksOk, QueriesOk, QueryOk, ApplyEvaluate, IsListing, Deliverable, Finish, InstallRoute;
    hide ValidRequest;
    CurrentNames(s);
    if q in s.queries {
      Recall(cfg, s, q);
    }
    if step.Evaluate? {
      EvaluateOk(cfg, s, q);
    } else if step.ApplyPatch? {
      ApplyPatchOk(cfg, s, q, step.delivered);
    } else if step.List? {
      ListOk(cfg, s, q, step.items);
    } else if step.SeeAnswer? {
      SeeAnswerOk(cfg, s, q);
    } else if step.Install? {
      InstallOk(cfg, s, q);
    } else if Ends(step) {
      EndOk(cfg, s, step, q);
    } else {
      MoveOk(cfg, s, step, q);
    }
  }

  lemma ListOk(cfg: Config, s: State, q: nat, items: seq<Pod>)
    requires Chronicle(s) && Enabled(cfg, s, List(q, items)) && QueryOk(cfg, s, s.queries[q])
    ensures var s' := Apply(cfg, s, List(q, items)); q in s'.queries && QueryOk(cfg, s', s'.queries[q])
  {
    hide Chronicle, IsListing, ValidRequest;
    CurrentNames(s);
  }

  lemma FinishLocks(s: State, q: nat, reply: Reply, decided: bool)
    requires LocksOk(s) && Known(s, q)
    ensures LocksOk(Finish(s, q, reply, decided))
  {
    var s' := Finish(s, q, reply, decided);
    forall d | d in s'.directors ensures LockOk(s', d) {
      assert LockOk(s, d);
    }
  }

  lemma AcquireLocks(cfg: Config, s: State, q: nat)
    requires LocksOk(s) && Enabled(cfg, s, Acquire(q))
    ensures LocksOk(Apply(cfg, s, Acquire(q)))
  {
    var s' := Apply(cfg, s, Acquire(q));
    forall d | d in s'.directors ensures LockOk(s', d) {
      assert LockOk(s, d);
    }
  }

  lemma GoColdLocks(s: State, q: nat, demand: DemandConfig)
    requires LocksOk(s) && Known(s, q) && s.queries[q].phase.Deciding?
    ensures LocksOk(GoCold(s, q, demand))
  {
    hide JoinOrStart;
    var s' := GoCold(s, q, demand);
    forall d | d in s'.directors ensures LockOk(s', d) {
      assert LockOk(s, d);
    }
  }

  /** A change that leaves every lock, and whether each query holds one, as it was. */
  lemma SameLocks(s: State, s': State)
    requires LocksOk(s) && s'.directors.Keys == s.directors.Keys
    requires forall d :: d in s.directors ==>
               s'.directors[d].holder == s.directors[d].holder && s'.directors[d].grants == s.directors[d].grants
    requires forall q :: q in s.queries ==>
               && q in s'.queries && s'.queries[q].director == s.queries[q].director
               && HoldsLock(s'.queries[q].phase) == HoldsLock(s.queries[q].phase)
    requires forall q :: q in s'.queries && q !in s.queries ==> !HoldsLock(s'.queries[q].phase)
    ensures LocksOk(s')
  {
    forall d | d in s'.directors ensures LockOk(s', d) {
      assert LockOk(s, d);
    }
  }

  lemma EvaluateLocks(cfg: Config, s: State, q: nat)
    requires LocksOk(s) && Enabled(cfg, s, Evaluate(q))
    ensures LocksOk(ApplyEvaluate(cfg, s, q))
  {
    hide LocksOk, QueryTarget;
    var query := s.queries[q];
    match Decide(cfg, query.req, query.phase.items, s.clock)
    case Cold =>
      if cfg.demand == None {
        FinishLocks(s, q, NoServer, true);
      } else {
        GoColdLocks(s, q, cfg.demand.value);
      }
    case Refused => FinishLocks(s, q, NoRoute, true);
    case Keep(pod, target) =>
      SameLocks(s, InstallRoute(s, q, target));
      FinishLocks(InstallRoute(s, q, target), q, JoinedAt(cfg, pod), true);
    case Assign(pod, target) => SameLocks(s, ApplyEvaluate(cfg, s, q));
  }

  lemma BystanderLocks(cfg: Config, s: State, step: Step)
    requires LocksOk(s) && Enabled(cfg, s, step) && Actor(step) == None
    ensures LocksOk(Apply(cfg, s, step))
  {
    hide LocksOk, Draining, Visible, Post, Answer;
    SameLocks(s, Apply(cfg, s, step));
  }

  lemma InstallLocks(cfg: Config, s: State, q: nat)
    requires LocksOk(s) && Enabled(cfg, s, Install(q))
    ensures LocksOk(Apply(cfg, s, Install(q)))
  {
    hide LocksOk, Finish, JoinedAt;
    var phase := s.queries[q].phase;
    SameLocks(s, InstallRoute(s, q, phase.target));
    FinishLocks(InstallRoute(s, q, phase.target), q, JoinedAt(cfg, phase.pod), true);
  }

  lemma EndLocks(cfg: Config, s: State, step: Step, q: nat)
    requires LocksOk(s) && Enabled(cfg, s, step) && Ends(step) && Actor(step) == Some(q)
    ensures LocksOk(Apply(cfg, s, step))
  {
    hide LocksOk, Finish;
    FinishLocks(s, q, NoRoute, s.queries[q].phase.Answered?);
    FinishLocks(s, q, NoRoute, false);
    FinishLocks(s, q, StartupFailed(Timeout), false);
    FinishLocks(s, q, StartupFailed(Cancelled), false);
  }

  lemma SeeAnswerLocks(cfg: Config, s: State, q: nat)
    requires LocksOk(s) && Enabled(cfg, s, SeeAnswer(q))
    ensures LocksOk(Apply(cfg, s, SeeAnswer(q)))
  {
    hide LocksOk, Finish;
    var query := s.queries[q];
    match s.directors[query.director].board.flights[query.flight.value].outcome.value
    case Success(_) => SameLocks(s, Apply(cfg, s, SeeAnswer(q)));
    case Failure(error) => FinishLocks(s, q, StartupFailed(error), false);
  }

  lemma LocksKept(cfg: Config, s: State, step: Step)
    requires LocksOk(s) && Enabled(cfg, s, step)
    ensures LocksOk(Apply(cfg, s, step))
  {
    hide LocksOk, IsListing, Deliverable, Assigned, ApplyEvaluate, ValidRequest, Finish, InstallRoute;
    if Actor(step) == None {
      BystanderLocks(cfg, s, step);
    } else if step.Evaluate? {
      EvaluateLocks(cfg, s, step.q);
    } else if step.Install? {
      InstallLocks(cfg, s, step.q);
    } else if step.Acquire? {
      AcquireLocks(cfg, s, step.q);
    } else if step.SeeAnswer? {
      SeeAnswerLocks(cfg, s, step.q);
    } else if Ends(step) {
      EndLocks(cfg, s, step, Actor(step).value);
    } else {
      SameLocks(s, Apply(cfg, s, step));
    }
  }

  /** Every step keeps the invariant, including arbitrary outside writes. */
  lemma InvKept(cfg: Config, s: State, step: Step)
    requires Inv(cfg, s) && Enabled(cfg, s, step)
    ensures Inv(cfg, Apply(cfg, s, step))
  {
    var s' := Apply(cfg, s, step);
    hide Chronicle, LocksOk, Apply, Enabled, QueryOk;
    ChronicleKept(cfg, s, step);
    LocksKept(cfg, s, step);
    forall q | q in s'.queries ensures QueryOk(cfg, s', s'.queries[q]) {
      if Some(q) == Actor(step) {
        ActorOk(cfg, s, step, q);
      } else {
        OtherQueriesOk(cfg, s, step, q);
      }
    }
  }

  lemma {:induction false} InvAlways(cfg: Config, s: State, steps: seq<Step>)
    requires Init(s) && Legal(cfg, s, steps)
    ensures Inv(cfg, After(cfg, s, steps))
    decreases |steps|
  {
    if steps != [] {
      var n := |steps| - 1;
      InvAlways(cfg, s, steps[..n]);
      InvKept(cfg, After(cfg, s, steps[..n]), steps[n]);
    }
  }
}
