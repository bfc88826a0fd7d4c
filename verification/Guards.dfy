/** What the version guard gives under every interleaving, and why a blocked watch has missed nothing. */
module Guards {
  import opened Wrappers
  import opened Pods
  import opened Characters
  import opened Selection
  import opened Protocol
  import opened Invariants

  /** Steps taken by a director or its proxy, as opposed to the cluster, the clock and the draining controller. */
  predicate DirectorStep(step: Step) {
    !step.Tick? && !step.Outside? && !step.MarkDrain? && !step.ConfirmDrain? && !step.DeleteDrained?
  }

  /**
   * Every change a director ever makes to the store is one label of one Pod, set to `Allocated`: the Pod is
   * not draining at that moment, the label is not `Used` at that moment, and it is the Pod the query chose.
   */
  lemma DirectorWrites(cfg: Config, s0: State, steps: seq<Step>, step: Step)
    requires Init(s0) && Legal(cfg, s0, steps) && DirectorStep(step)
    requires Enabled(cfg, After(cfg, s0, steps), step)
    ensures
      var s := After(cfg, s0, steps);
      var s' := Apply(cfg, s, step);
      s'.history == s.history ||
      (step.ApplyPatch? &&
       var query := s.queries[step.q];
       var pod := query.phase.pod;
       && pod.name in Current(s) && Current(s)[pod.name] == pod
       && !Draining(pod)
       && !IsUsed(cfg, pod, query.req.character)
       && Ready(pod)
       && s'.history == s.history + [Current(s)[pod.name := pod.(
            labels := pod.labels[Key(cfg, query.req.character) := "Allocated"], version := |s.history|)]])
  {
    var s := After(cfg, s0, steps);
    InvAlways(cfg, s0, steps);
    HistoryFrame(cfg, s, step);
    if step.ApplyPatch? {
      hide Chronicle, QueryOk, IsListing, Visible;
      Recall(cfg, s, step.q);
      PatchMeaning(cfg, s, s.queries[step.q]);
      AcceptedPatchSeesListedPod(cfg, s, step.q);
    }
  }

  // ----- draining -----

  ghost predicate StampsPast(cfg: Config, s: State) {
    forall r, n :: 0 <= r < |s.history| && n in s.history[r] ==> NoFutureStamps(cfg, s.history[r][n], s.clock)
  }

  /** Outside writers never stamp a disconnection in the future. */
  predicate HonestStamps(cfg: Config, s: State, step: Step) {
    step.Outside? && step.pod.Some? ==>
      NoFutureStamps(cfg, step.pod.value.(name := step.name, version := |s.history|), s.clock)
  }

  ghost predicate AllHonest(cfg: Config, s0: State, steps: seq<Step>)
    requires Legal(cfg, s0, steps)
    decreases |steps|
  {
    steps == [] ||
    (var n := |steps| - 1;
     AllHonest(cfg, s0, steps[..n]) && HonestStamps(cfg, After(cfg, s0, steps[..n]), steps[n]))
  }

  lemma MarkingKeepsStamps(cfg: Config, pod: Pod, version: nat, now: int)
    requires NoFutureStamps(cfg, pod, now)
    ensures NoFutureStamps(cfg, pod.(labels := pod.labels[DRAIN_LABEL := "true"], version := version), now)
  {
    var marked := pod.(labels := pod.labels[DRAIN_LABEL := "true"], version := version);
    forall k | k in marked.labels && HasPrefix(cfg, k) && marked.labels[k] == "Disconnected"
      ensures k in pod.labels && pod.labels[k] == "Disconnected" &&
              Stamp(cfg, marked, IdOf(cfg, k)) == Stamp(cfg, pod, IdOf(cfg, k))
    {
    }
  }

  lemma AssigningKeepsStamps(cfg: Config, pod: Pod, id: string, version: nat, now: int)
    requires NoFutureStamps(cfg, pod, now) && ValidId(id)
    ensures NoFutureStamps(cfg, WithAllocated(cfg, pod, id).(version := version), now)
  {
    AllocationAddsOne(cfg, pod, id, now);
    var before := WithAllocated(cfg, pod, id);
    assert forall x :: Stamp(cfg, before.(version := version), x) == Stamp(cfg, before, x);
  }

  /** The Pod a step writes, when it writes one: honest if its predecessor and outside writers are. */
  lemma WrittenStampsPast(cfg: Config, s: State, step: Step, name: string)
    requires Chronicle(s) && QueriesOk(cfg, s) && StampsPast(cfg, s)
    requires Enabled(cfg, s, step) && HonestStamps(cfg, s, step)
    requires Touched(s, step) == Some(name) && name in Current(Apply(cfg, s, step))
    ensures NoFutureStamps(cfg, Current(Apply(cfg, s, step))[name], s.clock)
  {
    hide Chronicle, QueriesOk, QueryOk, StampsPast, NoFutureStamps, WithAllocated, Decide, ValidRequest, ValidId;
    hide IsListing, Visible, Draining;
    if name in Current(s) {
      CurrentStampsPast(cfg, s, name);
    }
    match step
    case ApplyPatch(q, _) =>
      PatcherIsValid(cfg, s, q);
      AssigningKeepsStamps(cfg, Current(s)[name], s.queries[q].req.character, |s.history|, s.clock);
    case MarkDrain(_, _) => MarkingKeepsStamps(cfg, Current(s)[name], |s.history|, s.clock);
    case _ =>
  }

  lemma CurrentStampsPast(cfg: Config, s: State, name: string)
    requires StampsPast(cfg, s) && name in Current(s)
    ensures NoFutureStamps(cfg, Current(s)[name], s.clock)
  {
  }

  lemma PatcherIsValid(cfg: Config, s: State, q: nat)
    requires QueriesOk(cfg, s) && q in s.queries && s.queries[q].phase.Patching?
    ensures ValidId(s.queries[q].req.character)
  {
    Recall(cfg, s, q);
  }

  lemma StampsPastKept(cfg: Config, s: State, step: Step)
    requires Chronicle(s) && QueriesOk(cfg, s) && StampsPast(cfg, s)
    requires Enabled(cfg, s, step) && HonestStamps(cfg, s, step)
    ensures StampsPast(cfg, Apply(cfg, s, step))
  {
    hide Chronicle, QueriesOk, Apply, Enabled, NoFutureStamps;
    var s' := Apply(cfg, s, step);
    StepFrame(cfg, s, step);
    HistoryFrame(cfg, s, step);
    var last := |s.history|;
    if Touched(s, step).Some? && Touched(s, step).value in Current(s') {
      WrittenStampsPast(cfg, s, step, Touched(s, step).value);
    }
    forall r, n | 0 <= r < |s'.history| && n in s'.history[r] ensures NoFutureStamps(cfg, s'.history[r][n], s'.clock) {
      if r < last {
        VisibilityOnlyShrinks(cfg, s.history[r][n], s.clock, s'.clock);
      } else {
        assert s'.history[r] == Current(s');
        if Touched(s, step) != Some(n) {
          assert n in s.history[last - 1] && s.history[last - 1] == Current(s);
        }
        VisibilityOnlyShrinks(cfg, s'.history[r][n], s.clock, s'.clock);
      }
    }
  }

  /** What a draining controller has established about the Pod it confirmed. */
  ghost predicate DrainOk(cfg: Config, s: State, drain: Drain) {
    drain.Confirmed? ==>
      && drain.version < |s.history| && drain.name in s.history[drain.version]
      && Draining(s.history[drain.version][drain.name])
      && VisibleIds(cfg, s.history[drain.version][drain.name], s.clock) == {}
  }

  ghost predicate DrainsOk(cfg: Config, s: State) {
    forall i :: i in s.drains ==> DrainOk(cfg, s, s.drains[i])
  }

  lemma DrainOkExtends(cfg: Config, s: State, s': State, drain: Drain)
    requires DrainOk(cfg, s, drain) && StampsPast(cfg, s) && Extends(s, s')
    ensures DrainOk(cfg, s', drain)
  {
    if drain.Confirmed? {
      VisibilityOnlyShrinks(cfg, s.history[drain.version][drain.name], s.clock, s'.clock);
    }
  }

  lemma ConfirmedOk(cfg: Config, s: State, i: nat)
    requires Chronicle(s) && Enabled(cfg, s, ConfirmDrain(i))
    ensures var s' := Apply(cfg, s, ConfirmDrain(i)); DrainOk(cfg, s', s'.drains[i])
  {
    assert WrittenAt(s, Current(s)[s.drains[i].name], s.drains[i].name, |s.history| - 1);
  }

  lemma DrainsKept(cfg: Config, s: State, step: Step)
    requires Chronicle(s) && StampsPast(cfg, s) && DrainsOk(cfg, s) && Enabled(cfg, s, step)
    ensures DrainsOk(cfg, Apply(cfg, s, step))
  {
    var s' := Apply(cfg, s, step);
    StepFrame(cfg, s, step);
    DrainsFrame(cfg, s, step);
    hide Chronicle, StampsPast, Apply, Enabled, DrainOk;
    forall i | i in s'.drains ensures DrainOk(cfg, s', s'.drains[i]) {
      if step == ConfirmDrain(i) {
        ConfirmedOk(cfg, s, i);
      } else if s'.drains[i].Confirmed? {
        DrainOkExtends(cfg, s, s', s.drains[i]);
      } else {
        MarkedOk(cfg, s', s'.drains[i]);
      }
    }
  }

  lemma MarkedOk(cfg: Config, s: State, drain: Drain)
    requires drain.Marked?
    ensures DrainOk(cfg, s, drain)
  {
  }

  lemma DrainsFrame(cfg: Config, s: State, step: Step)
    requires Enabled(cfg, s, step)
    ensures var s' := Apply(cfg, s, step);
            forall i :: i in s'.drains && step != ConfirmDrain(i) ==>
              s'.drains[i].Marked? || (i in s.drains && s'.drains[i] == s.drains[i])
  {
    hide Apply, Enabled;
    if step.ApplyPatch? {
      PatchFrame(cfg, s, step.q, step.delivered);
    } else if Actor(step).Some? {
      ActorFrame(cfg, s, step, Actor(step).value);
    } else {
      BystanderDrains(cfg, s, step);
    }
  }

  lemma BystanderDrains(cfg: Config, s: State, step: Step)
    requires Enabled(cfg, s, step) && Actor(step) == None
    ensures var s' := Apply(cfg, s, step);
            forall i :: i in s'.drains && step != ConfirmDrain(i) ==>
              s'.drains[i].Marked? || (i in s.drains && s'.drains[i] == s.drains[i])
  {
    hide Visible, Draining;
  }

  lemma {:induction false} DrainsAlways(cfg: Config, s0: State, steps: seq<Step>)
    requires Init(s0) && StampsPast(cfg, s0) && Legal(cfg, s0, steps) && AllHonest(cfg, s0, steps)
    ensures StampsPast(cfg, After(cfg, s0, steps)) && DrainsOk(cfg, After(cfg, s0, steps))
    decreases |steps|
  {
    if steps != [] {
      var n := |steps| - 1;
      var s := After(cfg, s0, steps[..n]);
      DrainsAlways(cfg, s0, steps[..n]);
      InvAlways(cfg, s0, steps[..n]);
      hide Chronicle, QueriesOk, StampsPast, DrainsOk, Apply, Enabled;
      StampsPastKept(cfg, s, steps[n]);
      DrainsKept(cfg, s, steps[n]);
    }
  }

  /**
   * A controller that marks a Pod, re-reads it empty and deletes it under the version it re-read never
   * deletes a Pod that shows a character, however directors, other writers and the clock interleave.
   */
  lemma DrainedPodIsEmpty(cfg: Config, s0: State, steps: seq<Step>, i: nat)
    requires Init(s0) && StampsPast(cfg, s0) && Legal(cfg, s0, steps) && AllHonest(cfg, s0, steps)
    requires Enabled(cfg, After(cfg, s0, steps), DeleteDrained(i))
    ensures
      var s := After(cfg, s0, steps);
      var pod := Current(s)[s.drains[i].name];
      VisibleIds(cfg, pod, s.clock) == {} && Draining(pod)
  {
    DrainsAlways(cfg, s0, steps);
    InvAlways(cfg, s0, steps);
    var s := After(cfg, s0, steps);
    var drain := s.drains[i];
    assert DrainOk(cfg, s, drain);
    assert WrittenAt(s, Current(s)[drain.name], drain.name, |s.history| - 1);
  }

  // ----- waking up -----

  lemma {:induction false} UnchangedWhileNothingDelivered(cfg: Config, history: seq<Store>, mapName: string,
                                                          from: nat, to: nat)
    requires from <= to < |history|
    requires forall r :: from <= r < to ==> Matching(cfg, mapName, history[r]) == Matching(cfg, mapName, history[r + 1])
    ensures Matching(cfg, mapName, history[from]) == Matching(cfg, mapName, history[to])
  {
    if from < to {
      UnchangedWhileNothingDelivered(cfg, history, mapName, from, to - 1);
    }
  }

  /** The list of `version` is still a list of the current store, and nothing current was eligible at `at`. */
  ghost predicate NothingMissed(cfg: Config, s: State, req: Request, items: seq<Pod>, version: nat, at: int)
    requires version < |s.history|
  {
    && Matching(cfg, req.mapName, s.history[version]) == Matching(cfg, req.mapName, Current(s))
    && IsListing(cfg, req.mapName, Current(s), items)
    && forall n :: n in Current(s) && InMap(cfg, req.mapName, Current(s)[n]) && PassesFilters(cfg, Current(s)[n]) ==>
         !Eligible(cfg, req, at, Current(s)[n])
  }

  lemma BlockedMissesNothing(cfg: Config, s: State, query: Query, items: seq<Pod>, version: nat, at: int)
    requires Chronicle(s) && ColdSince(cfg, s, query, items, version, at)
    requires !Deliverable(cfg, s, query.req.mapName, version)
    ensures NothingMissed(cfg, s, query.req, items, version, at)
  {
    hide Chronicle, Eligible, InMap, PassesFilters, Decide, IsListing, Matching, IsOptimum, IsUsed;
    var m := query.req.mapName;
    UnchangedWhileNothingDelivered(cfg, s.history, m, version, |s.history| - 1);
    ListingDependsOnMatching(cfg, m, s.history[version], Current(s), items);
    DecisionIsAboutOptimum(cfg, query.req, items, at);
    CurrentNames(s);
    NothingEligibleInStore(cfg, query.req, Current(s), items, at);
  }

  lemma NothingEligibleInStore(cfg: Config, req: Request, store: Store, items: seq<Pod>, at: int)
    requires IsListing(cfg, req.mapName, store, items) && forall n :: n in store ==> store[n].name == n
    requires forall p :: p in items ==> !Eligible(cfg, req, at, p)
    ensures forall n :: n in store && InMap(cfg, req.mapName, store[n]) && PassesFilters(cfg, store[n]) ==>
              !Eligible(cfg, req, at, store[n])
  {
    hide Eligible, InMap, PassesFilters;
    forall n | n in store && InMap(cfg, req.mapName, store[n]) && PassesFilters(cfg, store[n])
      ensures !Eligible(cfg, req, at, store[n])
    {
      assert store[n] in items;
    }
  }

  /**
   * Whenever a cold query is between its list and the end of its watch and the watch has nothing to deliver,
   * the label-matching Pods are exactly those it listed: its list is still a current one, and at the instant it
   * was evaluated no current Pod was eligible. So as soon as one is, the watch has something to deliver.
   */
  lemma NoLostWakeup(cfg: Config, s0: State, steps: seq<Step>, q: nat)
    requires Init(s0) && Legal(cfg, s0, steps)
    requires q in After(cfg, s0, steps).queries
    requires var phase := After(cfg, s0, steps).queries[q].phase; phase.Signalled? || phase.Watching?
    ensures
      var s := After(cfg, s0, steps);
      var query := s.queries[q];
      && query.phase.version < |s.history|
      && (!Deliverable(cfg, s, query.req.mapName, query.phase.version) ==>
           NothingMissed(cfg, s, query.req, query.phase.items, query.phase.version, query.phase.at))
  {
    var s := After(cfg, s0, steps);
    InvAlways(cfg, s0, steps);
    Recall(cfg, s, q);
    hide Chronicle, QueriesOk, NothingMissed, Deliverable, IsListing, Decide;
    var query := s.queries[q];
    if !Deliverable(cfg, s, query.req.mapName, query.phase.version) {
      BlockedMissesNothing(cfg, s, query, query.phase.items, query.phase.version, query.phase.at);
    }
  }

  /** A delivery stays pending: no step of anyone else takes it away before the query itself moves on. */
  lemma DeliveryStaysPending(cfg: Config, s: State, step: Step, mapName: string, version: nat)
    requires Enabled(cfg, s, step) && Deliverable(cfg, s, mapName, version)
    ensures Deliverable(cfg, Apply(cfg, s, step), mapName, version)
  {
    hide Apply, Enabled, Matching;
    StepFrame(cfg, s, step);
    var s' := Apply(cfg, s, step);
    var r :| version <= r < |s.history| - 1 &&
             Matching(cfg, mapName, s.history[r]) != Matching(cfg, mapName, s.history[r + 1]);
    assert s'.history[r] == s.history[r] && s'.history[r + 1] == s.history[r + 1];
  }
}
