/** No interleaving of directors, controllers and time puts more visible characters on a Pod than it may have. */
module Capacity {
  import opened Wrappers
  import opened Pods
  import opened Characters
  import opened Selection
  import opened Protocol
  import opened Invariants
  import opened Guards

  ghost predicate Fits(cfg: Config, pod: Pod, now: int) {
    NoFutureStamps(cfg, pod, now) && |VisibleIds(cfg, pod, now)| <= cfg.maxCharacters
  }

  /** Every Pod content of the history fits at the present instant. */
  ghost predicate AllFit(cfg: Config, s: State) {
    forall r, n :: 0 <= r < |s.history| && n in s.history[r] ==> Fits(cfg, s.history[r][n], s.clock)
  }

  /** A pending patch was decided on a Pod that fitted at that instant. */
  ghost predicate PatchesFitted(cfg: Config, s: State) {
    forall q :: q in s.queries && s.queries[q].phase.Patching? ==>
      Fits(cfg, s.queries[q].phase.pod, s.queries[q].phase.at)
  }

  /** Outside writers show no character on a Pod that was not visible there, and stamp no future instant. */
  ghost predicate Disciplined(cfg: Config, s: State, step: Step) {
    && HonestStamps(cfg, s, step)
    && (step.Outside? && step.pod.Some? ==>
          var pod := step.pod.value.(name := step.name, version := |s.history|);
          if step.name in Current(s)
          then VisibleIds(cfg, pod, s.clock) <= VisibleIds(cfg, Current(s)[step.name], s.clock)
          else VisibleIds(cfg, pod, s.clock) == {})
  }

  ghost predicate AllDisciplined(cfg: Config, s0: State, steps: seq<Step>)
    requires Legal(cfg, s0, steps)
    decreases |steps|
  {
    steps == [] ||
    (var n := |steps| - 1;
     AllDisciplined(cfg, s0, steps[..n]) && Disciplined(cfg, After(cfg, s0, steps[..n]), steps[n]))
  }

  lemma {:induction false} SubsetIsSmaller(a: set<string>, b: set<string>)
    requires a <= b
    ensures |a| <= |b|
  {
    if a != {} {
      var x :| x in a;
      SubsetIsSmaller(a - {x}, b - {x});
    }
  }

  lemma FitsLater(cfg: Config, pod: Pod, now: int, later: int)
    requires Fits(cfg, pod, now) && now <= later
    ensures Fits(cfg, pod, later)
  {
    VisibilityOnlyShrinks(cfg, pod, now, later);
    SubsetIsSmaller(VisibleIds(cfg, pod, later), VisibleIds(cfg, pod, now));
  }

  lemma VersionIsInvisible(cfg: Config, pod: Pod, version: nat, now: int)
    ensures VisibleIds(cfg, pod.(version := version), now) == VisibleIds(cfg, pod, now)
    ensures NoFutureStamps(cfg, pod.(version := version), now) == NoFutureStamps(cfg, pod, now)
  {
    var other := pod.(version := version);
    assert Stamps(cfg, other) == Stamps(cfg, pod);
    assert forall id :: Stamp(cfg, other, id) == Stamp(cfg, pod, id);
    assert forall id :: Sighting(cfg, other, id, now) == Sighting(cfg, pod, id, now);
  }

  /**
   * The heart of the argument. The Pod had room at `at`, or already showed the character then; since then its
   * content is the same and it can only have lost visible characters, so one more still fits.
   */
  lemma AssignmentFits(cfg: Config, pod: Pod, id: string, at: int, now: int, version: nat)
    requires ValidId(id) && at <= now && Fits(cfg, pod, at)
    requires Visible(cfg, pod, id, at) || |VisibleIds(cfg, pod, at)| < cfg.maxCharacters
    ensures Fits(cfg, WithAllocated(cfg, pod, id).(version := version), now)
  {
    VisibilityOnlyShrinks(cfg, pod, at, now);
    AllocationAddsOne(cfg, pod, id, now);
    VersionIsInvisible(cfg, WithAllocated(cfg, pod, id), version, now);
    SubsetIsSmaller(VisibleIds(cfg, pod, now) + {id}, VisibleIds(cfg, pod, at) + {id});
    assert Visible(cfg, pod, id, at) ==> VisibleIds(cfg, pod, at) + {id} == VisibleIds(cfg, pod, at);
  }

  lemma MarkingFits(cfg: Config, pod: Pod, version: nat, now: int)
    requires Fits(cfg, pod, now)
    ensures Fits(cfg, pod.(labels := pod.labels[DRAIN_LABEL := "true"], version := version), now)
    ensures VisibleIds(cfg, pod.(labels := pod.labels[DRAIN_LABEL := "true"], version := version), now)
            <= VisibleIds(cfg, pod, now)
  {
    MarkingKeepsStamps(cfg, pod, version, now);
    var marked := pod.(labels := pod.labels[DRAIN_LABEL := "true"], version := version);
    assert Stamps(cfg, marked) == Stamps(cfg, pod);
    forall id | Visible(cfg, marked, id, now) ensures Visible(cfg, pod, id, now) {
      assert Key(cfg, id) != DRAIN_LABEL;
      assert Stamp(cfg, marked, id) == Stamp(cfg, pod, id);
    }
    SubsetIsSmaller(VisibleIds(cfg, marked, now), VisibleIds(cfg, pod, now));
  }

  lemma CurrentFits(cfg: Config, s: State, name: string)
    requires AllFit(cfg, s) && name in Current(s)
    ensures Fits(cfg, Current(s)[name], s.clock)
  {
  }

  lemma PatchFitsPod(cfg: Config, s: State, q: nat)
    requires Chronicle(s) && QueriesOk(cfg, s) && PatchesFitted(cfg, s) && q in s.queries
    requires s.queries[q].phase.Patching? && PatchFits(s, s.queries[q].phase.pod)
    ensures var name := s.queries[q].phase.pod.name;
            Fits(cfg, Assigned(cfg, s, name, s.queries[q].req.character)[name], s.clock)
  {
    Recall(cfg, s, q);
    hide Chronicle, QueriesOk, QueryOk, Fits, IsListing, ListedAt;
    var query := s.queries[q];
    PatchMeaning(cfg, s, query);
    AcceptedPatchSeesListedPod(cfg, s, q);
    AssignmentFits(cfg, query.phase.pod, query.req.character, query.phase.at, s.clock, |s.history|);
  }

  lemma WrittenFits(cfg: Config, s: State, step: Step, name: string)
    requires Chronicle(s) && QueriesOk(cfg, s) && AllFit(cfg, s) && PatchesFitted(cfg, s)
    requires Enabled(cfg, s, step) && Disciplined(cfg, s, step)
    requires Touched(s, step) == Some(name) && name in Current(Apply(cfg, s, step))
    ensures Fits(cfg, Current(Apply(cfg, s, step))[name], s.clock)
  {
    hide Chronicle, QueriesOk, AllFit, PatchesFitted, NoFutureStamps, WithAllocated, Decide, Visible, Draining;
    hide IsListing;
    if name in Current(s) {
      CurrentFits(cfg, s, name);
    }
    match step
    case ApplyPatch(q, _) => PatchFitsPod(cfg, s, q);
    case MarkDrain(_, _) => MarkingFits(cfg, Current(s)[name], |s.history|, s.clock);
    case Outside(_, pod) =>
      if name in Current(s) {
        SubsetIsSmaller(VisibleIds(cfg, Current(Apply(cfg, s, step))[name], s.clock),
                        VisibleIds(cfg, Current(s)[name], s.clock));
      }
    case _ =>
  }

  lemma AllFitKept(cfg: Config, s: State, step: Step)
    requires Chronicle(s) && QueriesOk(cfg, s) && AllFit(cfg, s) && PatchesFitted(cfg, s)
    requires Enabled(cfg, s, step) && Disciplined(cfg, s, step)
    ensures AllFit(cfg, Apply(cfg, s, step))
  {
    hide Chronicle, QueriesOk, PatchesFitted, Apply, Enabled, Fits, Disciplined;
    var s' := Apply(cfg, s, step);
    StepFrame(cfg, s, step);
    HistoryFrame(cfg, s, step);
    if Touched(s, step).Some? && Touched(s, step).value in Current(s') {
      WrittenFits(cfg, s, step, Touched(s, step).value);
    }
    var last := |s.history|;
    forall r, n | 0 <= r < |s'.history| && n in s'.history[r] ensures Fits(cfg, s'.history[r][n], s'.clock) {
      if r < last {
        FitsLater(cfg, s.history[r][n], s.clock, s'.clock);
      } else {
        assert s'.history[r] == Current(s');
        if Touched(s, step) != Some(n) {
          assert n in s.history[last - 1] && s.history[last - 1] == Current(s);
        }
        FitsLater(cfg, s'.history[r][n], s.clock, s'.clock);
      }
    }
  }

  lemma EvaluateFits(cfg: Config, s: State, q: nat)
    requires QueriesOk(cfg, s) && AllFit(cfg, s) && Enabled(cfg, s, Evaluate(q))
    ensures var s' := ApplyEvaluate(cfg, s, q);
            q in s'.queries && s'.queries[q].phase.Patching? ==>
              Fits(cfg, s'.queries[q].phase.pod, s'.queries[q].phase.at)
  {
    Recall(cfg, s, q);
    var query := s.queries[q];
    DecisionIsAboutOptimum(cfg, query.req, query.phase.items, s.clock);
    hide Fits, QueriesOk, Decide, Eligible, IsUsed;
    match Decide(cfg, query.req, query.phase.items, s.clock)
    case Assign(pod, target) =>
      assert pod in query.phase.items;
      assert s.history[query.phase.version][pod.name] == pod;
    case _ =>
  }

  lemma PatchesFittedKept(cfg: Config, s: State, step: Step)
    requires QueriesOk(cfg, s) && AllFit(cfg, s) && PatchesFitted(cfg, s) && Enabled(cfg, s, step)
    ensures PatchesFitted(cfg, Apply(cfg, s, step))
  {
    var s' := Apply(cfg, s, step);
    StepFrame(cfg, s, step);
    hide QueriesOk, AllFit, Fits;
    forall q | q in s'.queries && s'.queries[q].phase.Patching?
      ensures Fits(cfg, s'.queries[q].phase.pod, s'.queries[q].phase.at)
    {
      if Some(q) == Actor(step) {
        OnlyEvaluationPatches(cfg, s, step, q);
        EvaluateFits(cfg, s, q);
      } else {
        assert s'.queries[q] == s.queries[q];
      }
    }
  }

  /** Only evaluating a list leads a query to its patch. */
  lemma OnlyEvaluationPatches(cfg: Config, s: State, step: Step, q: nat)
    requires Enabled(cfg, s, step) && Actor(step) == Some(q)
    requires q in Apply(cfg, s, step).queries && Apply(cfg, s, step).queries[q].phase.Patching?
    ensures step == Evaluate(q)
  {
    hide Decide, IsListing, Deliverable, GoCold, Unlock, Assigned, ValidRequest;
  }

  lemma {:induction false} FitAlways(cfg: Config, s0: State, steps: seq<Step>)
    requires Init(s0) && AllFit(cfg, s0) && Legal(cfg, s0, steps) && AllDisciplined(cfg, s0, steps)
    ensures AllFit(cfg, After(cfg, s0, steps)) && PatchesFitted(cfg, After(cfg, s0, steps))
    decreases |steps|
  {
    if steps != [] {
      var n := |steps| - 1;
      var s := After(cfg, s0, steps[..n]);
      FitAlways(cfg, s0, steps[..n]);
      InvAlways(cfg, s0, steps[..n]);
      hide Chronicle, QueriesOk, AllFit, PatchesFitted, Apply, Enabled, Disciplined;
      AllFitKept(cfg, s, steps[n]);
      PatchesFittedKept(cfg, s, steps[n]);
    }
  }

  /**
   * Any number of directors and queries, any disciplined outside writers, any passing of time: if every Pod
   * starts with at most the configured number of visible characters, every Pod of every reachable store has.
   */
  lemma CapacitySafety(cfg: Config, s0: State, steps: seq<Step>)
    requires Init(s0) && AllFit(cfg, s0) && Legal(cfg, s0, steps) && AllDisciplined(cfg, s0, steps)
    ensures var s := After(cfg, s0, steps);
            forall n :: n in Current(s) ==> |VisibleIds(cfg, Current(s)[n], s.clock)| <= cfg.maxCharacters
  {
    FitAlways(cfg, s0, steps);
    InvAlways(cfg, s0, steps);
    var s := After(cfg, s0, steps);
    hide AllFit, Chronicle;
    forall n | n in Current(s) ensures |VisibleIds(cfg, Current(s)[n], s.clock)| <= cfg.maxCharacters {
      CurrentFits(cfg, s, n);
    }
  }
}
