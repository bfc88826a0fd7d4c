/** With one director, and while occupied Pods stay open, a character is visible on at most one Pod of a map. */
module Uniqueness {
  import opened Wrappers
  import opened Pods
  import opened Characters
  import opened Selection
  import opened Protocol
  import opened Invariants
  import opened Guards
  import opened Capacity

  /** The Pod `n` of the store belongs to the map and shows the character. */
  predicate ShowsAt(cfg: Config, store: Store, m: string, n: string, id: string, now: int) {
    n in store && InMap(cfg, m, store[n]) && Visible(cfg, store[n], id, now)
  }

  ghost predicate UniqueIn(cfg: Config, store: Store, now: int) {
    forall m, n, n', id :: ShowsAt(cfg, store, m, n, id, now) && ShowsAt(cfg, store, m, n', id, now) ==> n == n'
  }

  /** Able to receive queries but for its room. */
  predicate Open(cfg: Config, pod: Pod) {
    Ready(pod) && !Draining(pod) && PassesFilters(cfg, pod)
  }

  ghost predicate OccupiedOpen(cfg: Config, store: Store, now: int) {
    forall m, n, id :: ShowsAt(cfg, store, m, n, id, now) ==> Open(cfg, store[n])
  }

  /** One store shows nothing, at its instant, that the other did not show at an earlier one. */
  ghost predicate NoSpread(cfg: Config, before: Store, t: int, after: Store, t': int) {
    forall m, n, id :: ShowsAt(cfg, after, m, n, id, t') ==> ShowsAt(cfg, before, m, n, id, t)
  }

  /** Outside writers do not move an occupied Pod into a map it was not in. */
  ghost predicate KeepsMaps(cfg: Config, s: State, step: Step) {
    step.Outside? && step.pod.Some? ==>
      var pod := step.pod.value.(name := step.name, version := |s.history|);
      VisibleIds(cfg, pod, s.clock) != {} ==>
        step.name in Current(s) && forall m :: InMap(cfg, m, pod) ==> InMap(cfg, m, Current(s)[step.name])
  }

  /** The hypotheses on a run: disciplined writers, kept maps, and occupied Pods that stay open. */
  ghost predicate AllSteady(cfg: Config, s0: State, steps: seq<Step>)
    requires Legal(cfg, s0, steps)
    decreases |steps|
  {
    && OccupiedOpen(cfg, Current(After(cfg, s0, steps)), After(cfg, s0, steps).clock)
    && (steps == [] ||
        (var n := |steps| - 1;
         && AllSteady(cfg, s0, steps[..n])
         && Disciplined(cfg, After(cfg, s0, steps[..n]), steps[n])
         && KeepsMaps(cfg, After(cfg, s0, steps[..n]), steps[n])))
  }

  ghost predicate OneDirector(s: State) {
    forall d, d' :: d in s.directors && d' in s.directors ==> d == d'
  }

  /** A label write goes to the Pod of the map that shows the character now, if there is one. */
  ghost predicate StickyChoice(cfg: Config, s: State, query: Query)
    requires query.phase.Deciding?
  {
    var decision := Decide(cfg, query.req, query.phase.items, s.clock);
    decision.Assign? ==>
      forall n :: ShowsAt(cfg, Current(s), query.req.mapName, n, query.req.character, s.clock) ==>
        n == decision.pod.name
  }

  ghost predicate StickyStep(cfg: Config, s: State, step: Step) {
    step.Evaluate? && Known(s, step.q) && s.queries[step.q].phase.Deciding? ==>
      StickyChoice(cfg, s, s.queries[step.q])
  }

  ghost predicate AllSticky(cfg: Config, s0: State, steps: seq<Step>)
    requires Legal(cfg, s0, steps)
    decreases |steps|
  {
    steps == [] ||
    (var n := |steps| - 1;
     AllSticky(cfg, s0, steps[..n]) && StickyStep(cfg, After(cfg, s0, steps[..n]), steps[n]))
  }

  // ----- the invariant -----

  /** While the lock is held nothing has spread since the list; a pending patch's character is nowhere else. */
  ghost predicate HolderOk(cfg: Config, s: State, query: Query) {
    && (query.phase.Deciding? ==>
          && query.phase.version < |s.history| && query.phase.since <= s.clock
          && UniqueIn(cfg, s.history[query.phase.version], query.phase.since)
          && OccupiedOpen(cfg, s.history[query.phase.version], query.phase.since)
          && NoSpread(cfg, s.history[query.phase.version], query.phase.since, Current(s), s.clock))
    && (query.phase.Patching? ==>
          forall n :: ShowsAt(cfg, Current(s), query.req.mapName, n, query.req.character, s.clock) ==>
            n == query.phase.pod.name)
  }

  ghost predicate HoldersOk(cfg: Config, s: State) {
    forall q :: q in s.queries ==> HolderOk(cfg, s, s.queries[q])
  }

  lemma InvParts(cfg: Config, s: State)
    requires Inv(cfg, s)
    ensures Chronicle(s) && QueriesOk(cfg, s) && LocksOk(s)
    ensures s.history != [] && Current(s) == s.history[|s.history| - 1]
  {
    hide WrittenAt, QueryOk, LockOk;
  }

  lemma OneHolder(s: State, q: nat, q': nat)
    requires LocksOk(s) && OneDirector(s) && Known(s, q) && Known(s, q')
    requires HoldsLock(s.queries[q].phase) && HoldsLock(s.queries[q'].phase)
    ensures q == q'
  {
    assert LockOk(s, s.queries[q].director) && LockOk(s, s.queries[q'].director);
  }

  lemma TimeDoesNotSpread(cfg: Config, s: State, r: nat, later: int)
    requires StampsPast(cfg, s) && r < |s.history| && s.clock <= later
    ensures NoSpread(cfg, s.history[r], s.clock, s.history[r], later)
  {
    forall m, n, id | ShowsAt(cfg, s.history[r], m, n, id, later)
      ensures ShowsAt(cfg, s.history[r], m, n, id, s.clock)
    {
      VisibilityOnlyShrinks(cfg, s.history[r][n], s.clock, later);
      assert id in VisibleIds(cfg, s.history[r][n], later);
    }
  }

  lemma UniqueWithoutSpread(cfg: Config, before: Store, t: int, after: Store, t': int)
    requires UniqueIn(cfg, before, t) && NoSpread(cfg, before, t, after, t')
    ensures UniqueIn(cfg, after, t')
  {
    hide ShowsAt;
    forall m, n, n', id | ShowsAt(cfg, after, m, n, id, t') && ShowsAt(cfg, after, m, n', id, t') ensures n == n' {
      assert ShowsAt(cfg, before, m, n, id, t) && ShowsAt(cfg, before, m, n', id, t);
    }
  }

  // ----- what each write spreads -----

  lemma OutsideDoesNotSpread(cfg: Config, s: State, step: Step)
    requires Enabled(cfg, s, step) && step.Outside? && Disciplined(cfg, s, step) && KeepsMaps(cfg, s, step)
    ensures NoSpread(cfg, Current(s), s.clock, Current(Apply(cfg, s, step)), s.clock)
  {
    hide InMap, Visible;
    var after := Current(Apply(cfg, s, step));
    forall m, n, id | ShowsAt(cfg, after, m, n, id, s.clock) ensures ShowsAt(cfg, Current(s), m, n, id, s.clock) {
      if n == step.name {
        assert id in VisibleIds(cfg, after[n], s.clock);
      }
    }
  }

  lemma MarkingDoesNotSpread(cfg: Config, s: State, step: Step)
    requires AllFit(cfg, s) && Enabled(cfg, s, step) && step.MarkDrain?
    requires OccupiedOpen(cfg, Current(Apply(cfg, s, step)), s.clock)
    ensures NoSpread(cfg, Current(s), s.clock, Current(Apply(cfg, s, step)), s.clock)
  {
    hide InMap, Visible;
    var after := Current(Apply(cfg, s, step));
    forall m, n, id | ShowsAt(cfg, after, m, n, id, s.clock) ensures ShowsAt(cfg, Current(s), m, n, id, s.clock) {
      assert Open(cfg, after[n]);
      if n == step.name {
        assert false;
      }
    }
  }

  /** Apart from an accepted patch, no step shows a character on a Pod of a map that did not show it before. */
  lemma OthersDoNotSpread(cfg: Config, s: State, step: Step)
    requires AllFit(cfg, s) && s.history != [] && Enabled(cfg, s, step) && !step.ApplyPatch?
    requires Disciplined(cfg, s, step) && KeepsMaps(cfg, s, step)
    requires var s' := Apply(cfg, s, step); OccupiedOpen(cfg, Current(s'), s'.clock)
    ensures var s' := Apply(cfg, s, step); NoSpread(cfg, Current(s), s.clock, Current(s'), s'.clock)
  {
    hide AllFit, Disciplined, KeepsMaps, OccupiedOpen, ShowsAt, ApplyEvaluate, Deliverable, IsListing, Unlock;
    hide Visible, Draining;
    var s' := Apply(cfg, s, step);
    HistoryFrame(cfg, s, step);
    if step.Outside? {
      OutsideDoesNotSpread(cfg, s, step);
    } else if step.MarkDrain? {
      MarkingDoesNotSpread(cfg, s, step);
    } else if step.Tick? {
      FitImpliesStampsPast(cfg, s);
      TimeDoesNotSpread(cfg, s, |s.history| - 1, step.to);
    } else if step.DeleteDrained? {
      RemovalDoesNotSpread(cfg, Current(s), s.drains[step.i].name, s.clock);
    } else {
      StepFrame(cfg, s, step);
    }
  }

  lemma RemovalDoesNotSpread(cfg: Config, store: Store, name: string, now: int)
    ensures NoSpread(cfg, store, now, store - {name}, now)
  {
  }

  lemma FitImpliesStampsPast(cfg: Config, s: State)
    requires AllFit(cfg, s)
    ensures StampsPast(cfg, s)
  {
  }

  /** What the assigned Pod shows in any map: what it showed before, and the character in the query's map. */
  lemma AssignedPodShows(cfg: Config, pod: Pod, c: string, mapName: string, version: nat, now: int, m: string,
                         id: string)
    requires SelectorsAreNotCharacters(cfg) && ValidId(c) && InMap(cfg, mapName, pod)
    requires var written := WithAllocated(cfg, pod, c).(version := version);
             InMap(cfg, m, written) && Visible(cfg, written, id, now)
    ensures InMap(cfg, m, pod) && (Visible(cfg, pod, id, now) || (m == mapName && id == c))
  {
    var written := WithAllocated(cfg, pod, c);
    assert InMap(cfg, m, written) by {
      assert written.labels == written.(version := version).labels;
    }
    LabelKeepsMap(cfg, pod, c, "Allocated", m);
    assert id in VisibleIds(cfg, pod, now) + {c} by {
      AllocationAddsOne(cfg, pod, c, now);
      VersionIsInvisible(cfg, written, version, now);
      assert id in VisibleIds(cfg, written.(version := version), now);
    }
    assert m == mapName by {
      assert cfg.mapLabel in Selector(cfg, m) && cfg.mapLabel in Selector(cfg, mapName);
    }
  }

  lemma PatchedPodInMap(cfg: Config, s: State, q: nat)
    requires Chronicle(s) && q in s.queries && QueryOk(cfg, s, s.queries[q]) && s.queries[q].phase.Patching?
    requires PatchFits(s, s.queries[q].phase.pod)
    ensures Current(s)[s.queries[q].phase.pod.name] == s.queries[q].phase.pod
    ensures InMap(cfg, s.queries[q].req.mapName, s.queries[q].phase.pod)
    ensures ValidId(s.queries[q].req.character)
  {
    hide Chronicle, InMap, QueryOk, Decide, Eligible, IsUsed, PassesFilters;
    AcceptedPatchSeesListedPod(cfg, s, q);
    PatchMeaning(cfg, s, s.queries[q]);
    assert s.queries[q].phase.pod in s.queries[q].phase.items;
  }

  lemma AssignmentSpreadsOne(cfg: Config, store: Store, pod: Pod, c: string, mapName: string, version: nat, now: int)
    requires SelectorsAreNotCharacters(cfg) && ValidId(c) && InMap(cfg, mapName, pod)
    requires pod.name in store && store[pod.name] == pod
    ensures
      var after := store[pod.name := WithAllocated(cfg, pod, c).(version := version)];
      forall m, n, id :: ShowsAt(cfg, after, m, n, id, now) ==>
        ShowsAt(cfg, store, m, n, id, now) || (m == mapName && n == pod.name && id == c)
  {
    hide InMap, Visible, SelectorsAreNotCharacters, ValidId, WithLabel;
    var after := store[pod.name := WithAllocated(cfg, pod, c).(version := version)];
    forall m, n, id | ShowsAt(cfg, after, m, n, id, now)
      ensures ShowsAt(cfg, store, m, n, id, now) || (m == mapName && n == pod.name && id == c)
    {
      if n == pod.name {
        AssignedPodShows(cfg, pod, c, mapName, version, now, m, id);
      }
    }
  }

  /** An accepted patch shows one character more, and on a Pod of the query's map only. */
  lemma PatchSpreadsOne(cfg: Config, s: State, q: nat, delivered: bool)
    requires Inv(cfg, s) && SelectorsAreNotCharacters(cfg) && Enabled(cfg, s, ApplyPatch(q, delivered))
    ensures
      var s' := Apply(cfg, s, ApplyPatch(q, delivered));
      var query := s.queries[q];
      forall m, n, id :: ShowsAt(cfg, Current(s'), m, n, id, s.clock) ==>
        || ShowsAt(cfg, Current(s), m, n, id, s.clock)
        || (m == query.req.mapName && n == query.phase.pod.name && id == query.req.character)
  {
    hide Inv, QueryOk, WithLabel, InMap, Visible, SelectorsAreNotCharacters, ValidId, Apply, ShowsAt;
    InvParts(cfg, s);
    PatchFrame(cfg, s, q, delivered);
    Recall(cfg, s, q);
    PatchedPodInMap(cfg, s, q);
    var query := s.queries[q];
    AssignmentSpreadsOne(cfg, Current(s), query.phase.pod, query.req.character, query.req.mapName,
                         |s.history|, s.clock);
  }

  lemma PatchKeepsUnique(cfg: Config, s: State, q: nat, delivered: bool)
    requires Inv(cfg, s) && SelectorsAreNotCharacters(cfg) && Enabled(cfg, s, ApplyPatch(q, delivered))
    requires UniqueIn(cfg, Current(s), s.clock) && HoldersOk(cfg, s)
    ensures UniqueIn(cfg, Current(Apply(cfg, s, ApplyPatch(q, delivered))), s.clock)
  {
    PatchSpreadsOne(cfg, s, q, delivered);
    assert HolderOk(cfg, s, s.queries[q]);
    hide ShowsAt, Inv, HoldersOk, Apply, SelectorsAreNotCharacters;
    var query := s.queries[q];
    var after := Current(Apply(cfg, s, ApplyPatch(q, delivered)));
    forall m, n, n', id | ShowsAt(cfg, after, m, n, id, s.clock) && ShowsAt(cfg, after, m, n', id, s.clock)
      ensures n == n'
    {
      if m == query.req.mapName && id == query.req.character {
        assert n == query.phase.pod.name || ShowsAt(cfg, Current(s), m, n, id, s.clock);
        assert n' == query.phase.pod.name || ShowsAt(cfg, Current(s), m, n', id, s.clock);
      } else {
        assert ShowsAt(cfg, Current(s), m, n, id, s.clock) && ShowsAt(cfg, Current(s), m, n', id, s.clock);
      }
    }
  }

  // ----- deciding -----

  /** An open Pod that still shows the character at evaluation is the one chosen. */
  lemma OpenHolderIsChosen(cfg: Config, req: Request, store: Store, items: seq<Pod>, since: int, now: int, pod: Pod,
                           n: string)
    requires IsListing(cfg, req.mapName, store, items) && n in store && store[n].name == n
    requires UniqueIn(cfg, store, since) && OccupiedOpen(cfg, store, since)
    requires NoSpread(cfg, store, since, store, now)
    requires ShowsAt(cfg, store, req.mapName, n, req.character, now)
    requires IsOptimum(cfg, req, items, now, pod)
    ensures n == pod.name
  {
    hide InMap, PassesFilters, Ready, Draining, Visible;
    assert ShowsAt(cfg, store, req.mapName, n, req.character, since);
    assert Open(cfg, store[n]);
    assert store[n] in items && Eligible(cfg, req, now, store[n]);
    assert Visible(cfg, pod, req.character, now) && pod in items;
    assert ShowsAt(cfg, store, req.mapName, pod.name, req.character, now);
    assert ShowsAt(cfg, store, req.mapName, pod.name, req.character, since);
  }

  lemma ShownIsNamed(cfg: Config, s: State, r: nat, m: string, n: string, id: string, now: int)
    requires Chronicle(s) && r < |s.history| && ShowsAt(cfg, s.history[r], m, n, id, now)
    ensures n in s.history[r] && s.history[r][n].name == n
  {
    assert WrittenAt(s, s.history[r][n], n, r);
  }

  // ----- preservation -----

  lemma UniqueKept(cfg: Config, s: State, step: Step)
    requires Inv(cfg, s) && AllFit(cfg, s) && HoldersOk(cfg, s) && SelectorsAreNotCharacters(cfg)
    requires UniqueIn(cfg, Current(s), s.clock)
    requires Enabled(cfg, s, step) && Disciplined(cfg, s, step) && KeepsMaps(cfg, s, step)
    requires var s' := Apply(cfg, s, step); OccupiedOpen(cfg, Current(s'), s'.clock)
    ensures var s' := Apply(cfg, s, step); UniqueIn(cfg, Current(s'), s'.clock)
  {
    hide Inv, AllFit, HoldersOk, SelectorsAreNotCharacters, Disciplined, KeepsMaps, UniqueIn, OccupiedOpen, Apply;
    hide Enabled, NoSpread;
    InvParts(cfg, s);
    if step.ApplyPatch? {
      StepFrame(cfg, s, step);
      PatchKeepsUnique(cfg, s, step.q, step.delivered);
    } else {
      OthersDoNotSpread(cfg, s, step);
      var s' := Apply(cfg, s, step);
      UniqueWithoutSpread(cfg, Current(s), s.clock, Current(s'), s'.clock);
    }
  }

  lemma BystanderHolderOk(cfg: Config, s: State, step: Step, q: nat)
    requires q in s.queries && Inv(cfg, s) && AllFit(cfg, s) && OneDirector(s) && HolderOk(cfg, s, s.queries[q])
    requires Enabled(cfg, s, step) && Actor(step) != Some(q)
    requires Disciplined(cfg, s, step) && KeepsMaps(cfg, s, step)
    requires var s' := Apply(cfg, s, step); OccupiedOpen(cfg, Current(s'), s'.clock)
    ensures HolderOk(cfg, Apply(cfg, s, step), s.queries[q])
  {
    hide Inv, Apply, Enabled, AllFit, Disciplined, KeepsMaps, ShowsAt, OccupiedOpen, UniqueIn;
    var query := s.queries[q];
    StepFrame(cfg, s, step);
    InvParts(cfg, s);
    if query.phase.Deciding? || query.phase.Patching? {
      if step.ApplyPatch? {
        KnownQuery(cfg, s, q);
        PatcherHolds(cfg, s, step);
        OneHolder(s, q, step.q);
      }
      OthersDoNotSpread(cfg, s, step);
    }
  }

  lemma PatcherHolds(cfg: Config, s: State, step: Step)
    requires Enabled(cfg, s, step) && step.ApplyPatch?
    ensures Known(s, step.q) && HoldsLock(s.queries[step.q].phase) && Actor(step) == Some(step.q)
  {
  }

  lemma KnownQuery(cfg: Config, s: State, q: nat)
    requires QueriesOk(cfg, s) && q in s.queries
    ensures Known(s, q)
  {
    Recall(cfg, s, q);
  }

  lemma ActorHolderOk(cfg: Config, s: State, step: Step, q: nat)
    requires Inv(cfg, s) && AllFit(cfg, s) && HoldersOk(cfg, s)
    requires UniqueIn(cfg, Current(s), s.clock) && OccupiedOpen(cfg, Current(s), s.clock)
    requires Enabled(cfg, s, step) && Actor(step) == Some(q) && StickyStep(cfg, s, step)
    ensures q in Apply(cfg, s, step).queries && HolderOk(cfg, Apply(cfg, s, step), Apply(cfg, s, step).queries[q])
  {
    hide Inv, AllFit, HolderOk, HoldersOk, Apply, Enabled, UniqueIn, OccupiedOpen, StickyStep;
    InvParts(cfg, s);
    if step.List? {
      ListHolderOk(cfg, s, q, step.items);
    } else if step.Evaluate? {
      HolderOf(cfg, s, q);
      EvaluateHolderOk(cfg, s, q);
    } else {
      OnlyListDecides(cfg, s, step, q);
      IdleHolderOk(cfg, Apply(cfg, s, step), Apply(cfg, s, step).queries[q]);
    }
  }

  lemma HolderOf(cfg: Config, s: State, q: nat)
    requires HoldersOk(cfg, s) && Enabled(cfg, s, Evaluate(q))
    ensures HolderOk(cfg, s, s.queries[q]) && Apply(cfg, s, Evaluate(q)) == ApplyEvaluate(cfg, s, q)
  {
    hide HolderOk, ApplyEvaluate;
  }

  lemma IdleHolderOk(cfg: Config, s: State, query: Query)
    requires !query.phase.Deciding? && !query.phase.Patching?
    ensures HolderOk(cfg, s, query)
  {
  }

  lemma ListHolderOk(cfg: Config, s: State, q: nat, items: seq<Pod>)
    requires Enabled(cfg, s, List(q, items)) && s.history != [] && Current(s) == s.history[|s.history| - 1]
    requires UniqueIn(cfg, Current(s), s.clock) && OccupiedOpen(cfg, Current(s), s.clock)
    ensures var s' := Apply(cfg, s, List(q, items)); q in s'.queries && HolderOk(cfg, s', s'.queries[q])
  {
    hide UniqueIn, OccupiedOpen, ShowsAt, IsListing;
  }

  lemma OnlyListDecides(cfg: Config, s: State, step: Step, q: nat)
    requires Enabled(cfg, s, step) && Actor(step) == Some(q) && !step.List? && !step.Evaluate?
    ensures q in Apply(cfg, s, step).queries
    ensures !Apply(cfg, s, step).queries[q].phase.Deciding? && !Apply(cfg, s, step).queries[q].phase.Patching?
  {
    hide IsListing, Deliverable, Unlock, Assigned, ValidRequest;
  }

  lemma EvaluateHolderOk(cfg: Config, s: State, q: nat)
    requires Enabled(cfg, s, Evaluate(q)) && HolderOk(cfg, s, s.queries[q]) && StickyStep(cfg, s, Evaluate(q))
    ensures var s' := ApplyEvaluate(cfg, s, q); q in s'.queries && HolderOk(cfg, s', s'.queries[q])
  {
    hide Decide, UniqueIn, OccupiedOpen, ShowsAt, GoCold, Unlock;
    EvaluateFrame(cfg, s, q);
    var query := s.queries[q];
    if Decide(cfg, query.req, query.phase.items, s.clock).Cold? {
      GoColdPhase(s, q, cfg);
    }
  }

  lemma GoColdPhase(s: State, q: nat, cfg: Config)
    requires Known(s, q) && s.queries[q].phase.Deciding?
    ensures cfg.demand.Some? ==> GoCold(s, q, cfg.demand.value).queries[q].phase.Signalled?
  {
  }

  lemma HoldersKept(cfg: Config, s: State, step: Step)
    requires Inv(cfg, s) && AllFit(cfg, s) && HoldersOk(cfg, s) && OneDirector(s)
    requires UniqueIn(cfg, Current(s), s.clock) && OccupiedOpen(cfg, Current(s), s.clock)
    requires Enabled(cfg, s, step) && Disciplined(cfg, s, step) && KeepsMaps(cfg, s, step) && StickyStep(cfg, s, step)
    requires var s' := Apply(cfg, s, step); OccupiedOpen(cfg, Current(s'), s'.clock)
    ensures HoldersOk(cfg, Apply(cfg, s, step))
  {
    var s' := Apply(cfg, s, step);
    StepFrame(cfg, s, step);
    hide Inv, AllFit, HolderOk, UniqueIn, OccupiedOpen, Apply, Enabled, Disciplined, KeepsMaps, StickyStep;
    forall q | q in s'.queries ensures HolderOk(cfg, s', s'.queries[q]) {
      if Some(q) == Actor(step) {
        ActorHolderOk(cfg, s, step, q);
      } else {
        BystanderHolderOk(cfg, s, step, q);
      }
    }
  }

  lemma {:induction false} UniqueAlways(cfg: Config, s0: State, steps: seq<Step>)
    requires Init(s0) && AllFit(cfg, s0) && OneDirector(s0) && UniqueIn(cfg, Current(s0), s0.clock)
    requires SelectorsAreNotCharacters(cfg)
    requires Legal(cfg, s0, steps) && AllSteady(cfg, s0, steps) && AllSticky(cfg, s0, steps)
    ensures AllDisciplined(cfg, s0, steps)
    ensures var s := After(cfg, s0, steps);
            UniqueIn(cfg, Current(s), s.clock) && HoldersOk(cfg, s) && OneDirector(s)
    decreases |steps|
  {
    if steps != [] {
      var n := |steps| - 1;
      var s := After(cfg, s0, steps[..n]);
      UniqueAlways(cfg, s0, steps[..n]);
      FitAlways(cfg, s0, steps[..n]);
      InvAlways(cfg, s0, steps[..n]);
      StepFrame(cfg, s, steps[n]);
      OpenNow(cfg, s0, steps[..n]);
      hide Inv, AllFit, HoldersOk, UniqueIn, OccupiedOpen, Apply, Enabled, Disciplined, KeepsMaps, StickyStep;
      UniqueKept(cfg, s, steps[n]);
      HoldersKept(cfg, s, steps[n]);
    }
  }

  lemma OpenNow(cfg: Config, s0: State, steps: seq<Step>)
    requires Legal(cfg, s0, steps) && AllSteady(cfg, s0, steps)
    ensures OccupiedOpen(cfg, Current(After(cfg, s0, steps)), After(cfg, s0, steps).clock)
  {
  }

  /**
   * One director, any number of queries: when every evaluation makes the sticky choice, each character is
   * visible on at most one Pod of a map in every reachable state. `Freshness` derives the sticky choices.
   */
  lemma StickyRunsAreUnique(cfg: Config, s0: State, steps: seq<Step>, m: string, n: string, n': string, id: string)
    requires Init(s0) && AllFit(cfg, s0) && OneDirector(s0) && UniqueIn(cfg, Current(s0), s0.clock)
    requires SelectorsAreNotCharacters(cfg)
    requires Legal(cfg, s0, steps) && AllSteady(cfg, s0, steps) && AllSticky(cfg, s0, steps)
    requires var s := After(cfg, s0, steps);
             ShowsAt(cfg, Current(s), m, n, id, s.clock) && ShowsAt(cfg, Current(s), m, n', id, s.clock)
    ensures n == n'
  {
    UniqueAlways(cfg, s0, steps);
  }
}
