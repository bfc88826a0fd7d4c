/**
 * The exact condition for whole runs, with any number of directors: characters stay on one Pod if and only if no
 * accepted write was overtaken.
 */
module Overtaking {
  import opened Wrappers
  import opened Backend
  import opened Pods
  import opened Characters
  import opened Selection
  import opened Protocol
  import opened Invariants
  import opened Guards
  import opened Capacity
  import opened Uniqueness
  import opened Freshness
  import Lapse
  import Revival

  /**
   * A pending write is overtaken by the Pod `n` when `n` shows the character now and, by the list the write was
   * decided on, did not at the instant of the decision.
   */
  ghost predicate Overtaken(cfg: Config, s: State, query: Query, n: string)
    requires query.phase.Patching? && query.phase.version < |s.history|
  {
    && ShowsAt(cfg, Current(s), query.req.mapName, n, query.req.character, s.clock)
    && !ShowsAt(cfg, s.history[query.phase.version], query.req.mapName, n, query.req.character, query.phase.at)
  }

  /** If the step is an accepted write, nothing has overtaken it. */
  ghost predicate TimelyStep(cfg: Config, s: State, step: Step) {
    step.ApplyPatch? && Enabled(cfg, s, step) && s.queries[step.q].phase.version < |s.history| ==>
      forall n :: !Overtaken(cfg, s, s.queries[step.q], n)
  }

  ghost predicate AllTimely(cfg: Config, s0: State, steps: seq<Step>)
    requires Legal(cfg, s0, steps)
    decreases |steps|
  {
    steps == [] ||
    (var n := |steps| - 1;
     AllTimely(cfg, s0, steps[..n]) && TimelyStep(cfg, After(cfg, s0, steps[..n]), steps[n]))
  }

  /** Every state of the run has each character on at most one Pod of a map. */
  ghost predicate AlwaysUnique(cfg: Config, s0: State, steps: seq<Step>)
    requires Legal(cfg, s0, steps)
    decreases |steps|
  {
    && UniqueIn(cfg, Current(After(cfg, s0, steps)), After(cfg, s0, steps).clock)
    && (steps == [] || AlwaysUnique(cfg, s0, steps[..|steps| - 1]))
  }

  // ----- what a pending query's list was like -----

  ghost predicate OrderlyAt(cfg: Config, store: Store, t: int) {
    UniqueIn(cfg, store, t) && OccupiedOpen(cfg, store, t) && StampedBy(cfg, store, t)
  }

  ghost predicate ListOrderly(cfg: Config, s: State, query: Query) {
    && (query.phase.Deciding? ==>
          && query.phase.version < |s.history| && query.phase.since <= s.clock
          && OrderlyAt(cfg, s.history[query.phase.version], query.phase.since))
    && (query.phase.Patching? ==>
          && query.phase.version < |s.history| && query.phase.at <= s.clock
          && OrderlyAt(cfg, s.history[query.phase.version], query.phase.at))
  }

  ghost predicate ListsOrderly(cfg: Config, s: State) {
    forall q :: q in s.queries ==> ListOrderly(cfg, s, s.queries[q])
  }

  lemma OrderlyStays(cfg: Config, store: Store, t: int, t': int)
    requires OrderlyAt(cfg, store, t) && t <= t'
    ensures OrderlyAt(cfg, store, t')
  {
    hide UniqueIn, OccupiedOpen, NoSpread, NoFutureStamps;
    StampedDoesNotSpread(cfg, store, t, t');
    UniqueWithoutSpread(cfg, store, t, store, t');
    Lapse.OpenWithoutSpread(cfg, store, t, t');
    forall n | n in store ensures NoFutureStamps(cfg, store[n], t') {
      VisibilityOnlyShrinks(cfg, store[n], t, t');
    }
  }

  lemma ListOrderlyExtends(cfg: Config, s: State, s': State, query: Query)
    requires ListOrderly(cfg, s, query) && Extends(s, s')
    ensures ListOrderly(cfg, s', query)
  {
    hide OrderlyAt;
  }

  lemma NewListOrderly(cfg: Config, s: State, q: nat, items: seq<Pod>)
    requires s.history != [] && OrderlyAt(cfg, Current(s), s.clock) && Enabled(cfg, s, List(q, items))
    ensures var s' := Apply(cfg, s, List(q, items)); q in s'.queries && ListOrderly(cfg, s', s'.queries[q])
  {
    hide IsListing, OrderlyAt;
  }

  lemma EvaluatedListOrderly(cfg: Config, s: State, q: nat)
    requires Enabled(cfg, s, Evaluate(q)) && ListOrderly(cfg, s, s.queries[q])
    ensures var s' := Apply(cfg, s, Evaluate(q)); q in s'.queries && ListOrderly(cfg, s', s'.queries[q])
  {
    hide Decide, Unlock, OrderlyAt;
    OrderlyStays(cfg, s.history[s.queries[q].phase.version], s.queries[q].phase.since, s.clock);
    EvaluateFrame(cfg, s, q);
  }

  lemma IdleListOrderly(cfg: Config, s: State, query: Query)
    requires !query.phase.Deciding? && !query.phase.Patching?
    ensures ListOrderly(cfg, s, query)
  {
  }

  lemma ActorListOrderly(cfg: Config, s: State, step: Step, q: nat)
    requires s.history != [] && OrderlyAt(cfg, Current(s), s.clock) && ListsOrderly(cfg, s)
    requires Enabled(cfg, s, step) && Actor(step) == Some(q)
    ensures var s' := Apply(cfg, s, step); q in s'.queries && ListOrderly(cfg, s', s'.queries[q])
  {
    hide Apply, OrderlyAt, ListOrderly, Deliverable, IsListing;
    if step.List? {
      NewListOrderly(cfg, s, q, step.items);
    } else if step.Evaluate? {
      EvaluatedListOrderly(cfg, s, q);
    } else {
      OnlyListDecides(cfg, s, step, q);
      IdleListOrderly(cfg, Apply(cfg, s, step), Apply(cfg, s, step).queries[q]);
    }
  }

  lemma ListsOrderlyKept(cfg: Config, s: State, step: Step)
    requires s.history != [] && OrderlyAt(cfg, Current(s), s.clock) && ListsOrderly(cfg, s) && Enabled(cfg, s, step)
    ensures ListsOrderly(cfg, Apply(cfg, s, step))
  {
    hide Apply, Enabled, OrderlyAt, ListOrderly;
    var s' := Apply(cfg, s, step);
    StepFrame(cfg, s, step);
    forall q | q in s'.queries ensures ListOrderly(cfg, s', s'.queries[q]) {
      if Some(q) == Actor(step) {
        ActorListOrderly(cfg, s, step, q);
      } else {
        ListOrderlyExtends(cfg, s, s', s.queries[q]);
      }
    }
  }

  // ----- one write -----

  /** What is known of an accepted write: its Pod is as listed, the optimum of the list, and in the map. */
  lemma AcceptedWrite(cfg: Config, s: State, q: nat, delivered: bool)
    requires Inv(cfg, s) && Enabled(cfg, s, ApplyPatch(q, delivered))
    ensures
      var query := s.queries[q];
      var pod := query.phase.pod;
      && query.phase.version < |s.history|
      && IsListing(cfg, query.req.mapName, s.history[query.phase.version], query.phase.items)
      && IsOptimum(cfg, query.req, query.phase.items, query.phase.at, pod)
      && pod.name in s.history[query.phase.version] && s.history[query.phase.version][pod.name] == pod
      && pod.name in Current(s) && Current(s)[pod.name] == pod
      && InMap(cfg, query.req.mapName, pod) && ValidId(query.req.character)
  {
    hide Inv, QueriesOk, LocksOk, Chronicle, QueryOk, Decide, Eligible, InMap, PassesFilters, QueryTarget;
    InvParts(cfg, s);
    Recall(cfg, s, q);
    PatchedPodInMap(cfg, s, q);
    PatchMeaning(cfg, s, s.queries[q]);
    assert s.queries[q].phase.pod in s.queries[q].phase.items;
  }

  lemma ListedNames(s: State, r: nat)
    requires Chronicle(s) && r < |s.history|
    ensures forall n :: n in s.history[r] ==> s.history[r][n].name == n
  {
    forall n | n in s.history[r] ensures s.history[r][n].name == n {
      assert WrittenAt(s, s.history[r][n], n, r);
    }
  }

  /** A Pod that shows the character now and has not overtaken the write is the one written. */
  lemma TimelyHolderIsWritten(cfg: Config, s: State, q: nat, delivered: bool, n: string)
    requires Inv(cfg, s) && Enabled(cfg, s, ApplyPatch(q, delivered)) && ListOrderly(cfg, s, s.queries[q])
    requires ShowsAt(cfg, Current(s), s.queries[q].req.mapName, n, s.queries[q].req.character, s.clock)
    requires !Overtaken(cfg, s, s.queries[q], n)
    ensures n == s.queries[q].phase.pod.name
  {
    hide Inv, Chronicle, Enabled, IsOptimum, IsListing, InMap, Visible, UniqueIn, OccupiedOpen, StampedBy, NoSpread;
    hide ValidId;
    OnlyPatchingWrites(cfg, s, q, delivered);
    var query := s.queries[q];
    var store := s.history[query.phase.version];
    AcceptedWrite(cfg, s, q, delivered);
    InvParts(cfg, s);
    ListedNames(s, query.phase.version);
    StampedDoesNotSpread(cfg, store, query.phase.at, query.phase.at);
    OpenHolderIsChosen(cfg, query.req, store, query.phase.items, query.phase.at, query.phase.at, query.phase.pod, n);
  }

  lemma OnlyPatchingWrites(cfg: Config, s: State, q: nat, delivered: bool)
    requires Enabled(cfg, s, ApplyPatch(q, delivered))
    ensures q in s.queries && s.queries[q].phase.Patching?
  {
  }

  lemma TimelyWriteKeepsUnique(cfg: Config, s: State, q: nat, delivered: bool)
    requires Inv(cfg, s) && SelectorsAreNotCharacters(cfg) && UniqueIn(cfg, Current(s), s.clock)
    requires Enabled(cfg, s, ApplyPatch(q, delivered)) && ListOrderly(cfg, s, s.queries[q])
    requires s.queries[q].phase.version < |s.history| && forall n :: !Overtaken(cfg, s, s.queries[q], n)
    ensures UniqueIn(cfg, Current(Apply(cfg, s, ApplyPatch(q, delivered))), s.clock)
  {
    hide Inv, Enabled, Apply, ListOrderly, UniqueIn, Overtaken, ShowsAt, SelectorsAreNotCharacters;
    OnlyPatchingWrites(cfg, s, q, delivered);
    var query := s.queries[q];
    forall n | ShowsAt(cfg, Current(s), query.req.mapName, n, query.req.character, s.clock)
      ensures n == query.phase.pod.name
    {
      TimelyHolderIsWritten(cfg, s, q, delivered, n);
    }
    PatchSpreadsOne(cfg, s, q, delivered);
    Revival.OneHolderAfter(cfg, Current(s), Current(Apply(cfg, s, ApplyPatch(q, delivered))), query.req.mapName,
                           query.phase.pod.name, query.req.character, s.clock);
  }

  /** The Pod written has not overtaken its own write, because it is still as listed and only loses characters. */
  lemma WrittenPodDoesNotOvertake(cfg: Config, s: State, q: nat, delivered: bool)
    requires Inv(cfg, s) && Enabled(cfg, s, ApplyPatch(q, delivered)) && ListOrderly(cfg, s, s.queries[q])
    requires s.queries[q].phase.version < |s.history|
    ensures !Overtaken(cfg, s, s.queries[q], s.queries[q].phase.pod.name)
  {
    hide Inv, Chronicle, IsOptimum, IsListing, InMap, UniqueIn, OccupiedOpen, Visible, ValidId, PatchFits;
    AcceptedWrite(cfg, s, q, delivered);
    var phase := s.queries[q].phase;
    VisibilityOnlyShrinks(cfg, phase.pod, phase.at, s.clock);
    assert s.queries[q].req.character in VisibleIds(cfg, phase.pod, s.clock) ==>
             s.queries[q].req.character in VisibleIds(cfg, phase.pod, phase.at);
  }

  lemma OvertakenWriteDoubles(cfg: Config, s: State, q: nat, delivered: bool, n: string)
    requires Inv(cfg, s) && SelectorsAreNotCharacters(cfg)
    requires Enabled(cfg, s, ApplyPatch(q, delivered)) && ListOrderly(cfg, s, s.queries[q])
    requires s.queries[q].phase.version < |s.history| && Overtaken(cfg, s, s.queries[q], n)
    ensures !UniqueIn(cfg, Current(Apply(cfg, s, ApplyPatch(q, delivered))), s.clock)
  {
    hide Inv, Enabled, Apply, ListOrderly, InMap, Visible, ValidId, IsListing, IsOptimum, SelectorsAreNotCharacters;
    hide WithLabel;
    OnlyPatchingWrites(cfg, s, q, delivered);
    var query := s.queries[q];
    var pod := query.phase.pod;
    AcceptedWrite(cfg, s, q, delivered);
    WrittenPodDoesNotOvertake(cfg, s, q, delivered);
    PatchFrame(cfg, s, q, delivered);
    var after := Current(Apply(cfg, s, ApplyPatch(q, delivered)));
    assert after == Assigned(cfg, s, pod.name, query.req.character);
    Lapse.LabelledShows(cfg, after, query.req.mapName, pod, query.req.character, "Allocated", |s.history|, s.clock);
    assert ShowsAt(cfg, after, query.req.mapName, n, query.req.character, s.clock);
  }

  /** An accepted write leaves the store unique if and only if nothing has overtaken it. */
  lemma WriteKeepsUniqueExactly(cfg: Config, s: State, q: nat, delivered: bool)
    requires Inv(cfg, s) && SelectorsAreNotCharacters(cfg) && UniqueIn(cfg, Current(s), s.clock)
    requires Enabled(cfg, s, ApplyPatch(q, delivered)) && ListOrderly(cfg, s, s.queries[q])
    ensures s.queries[q].phase.version < |s.history|
    ensures UniqueIn(cfg, Current(Apply(cfg, s, ApplyPatch(q, delivered))), s.clock) <==>
            forall n :: !Overtaken(cfg, s, s.queries[q], n)
  {
    hide Inv, Apply, UniqueIn, Overtaken, SelectorsAreNotCharacters, OrderlyAt, PatchFits;
    if n :| Overtaken(cfg, s, s.queries[q], n) {
      OvertakenWriteDoubles(cfg, s, q, delivered, n);
    } else {
      TimelyWriteKeepsUnique(cfg, s, q, delivered);
    }
  }

  // ----- whole runs -----

  lemma StepKeepsUniqueExactly(cfg: Config, s: State, step: Step)
    requires Inv(cfg, s) && AllFit(cfg, s) && SelectorsAreNotCharacters(cfg) && ListsOrderly(cfg, s)
    requires UniqueIn(cfg, Current(s), s.clock)
    requires Enabled(cfg, s, step) && Disciplined(cfg, s, step) && KeepsMaps(cfg, s, step)
    requires var s' := Apply(cfg, s, step); OccupiedOpen(cfg, Current(s'), s'.clock)
    ensures var s' := Apply(cfg, s, step); UniqueIn(cfg, Current(s'), s'.clock) <==> TimelyStep(cfg, s, step)
  {
    hide Inv, AllFit, SelectorsAreNotCharacters, Disciplined, KeepsMaps, UniqueIn, OccupiedOpen, Apply, Enabled;
    hide NoSpread, ListOrderly, Overtaken;
    InvParts(cfg, s);
    StepFrame(cfg, s, step);
    if step.ApplyPatch? {
      OnlyPatchingWrites(cfg, s, step.q, step.delivered);
      WriteKeepsUniqueExactly(cfg, s, step.q, step.delivered);
    } else {
      OthersDoNotSpread(cfg, s, step);
      var s' := Apply(cfg, s, step);
      UniqueWithoutSpread(cfg, Current(s), s.clock, Current(s'), s'.clock);
    }
  }

  lemma StampedNow(cfg: Config, s: State)
    requires s.history != [] && AllFit(cfg, s)
    ensures StampedBy(cfg, Current(s), s.clock)
  {
    FitImpliesStampsPast(cfg, s);
  }

  lemma {:induction false} SteadyIsDisciplined(cfg: Config, s0: State, steps: seq<Step>)
    requires Legal(cfg, s0, steps) && AllSteady(cfg, s0, steps)
    ensures AllDisciplined(cfg, s0, steps)
    decreases |steps|
  {
    hide Enabled, Apply, Disciplined, KeepsMaps, OccupiedOpen;
    if steps != [] {
      SteadyIsDisciplined(cfg, s0, steps[..|steps| - 1]);
    }
  }

  /** As long as the run was unique, every pending query's list was orderly. */
  lemma {:induction false} OrderlyAlways(cfg: Config, s0: State, steps: seq<Step>)
    requires Init(s0) && AllFit(cfg, s0) && SelectorsAreNotCharacters(cfg)
    requires Legal(cfg, s0, steps) && AllSteady(cfg, s0, steps) && AlwaysUnique(cfg, s0, steps)
    ensures ListsOrderly(cfg, After(cfg, s0, steps)) && AllFit(cfg, After(cfg, s0, steps))
    ensures Inv(cfg, After(cfg, s0, steps))
    decreases |steps|
  {
    hide Init, AllFit, SelectorsAreNotCharacters, UniqueIn, OccupiedOpen, Enabled, Apply, Inv, ListOrderly, StampedBy;
    hide Disciplined, KeepsMaps, AllDisciplined;
    SteadyIsDisciplined(cfg, s0, steps);
    FitAlways(cfg, s0, steps);
    InvAlways(cfg, s0, steps);
    if steps == [] {
      NothingPending(cfg, s0);
    } else {
      var n := |steps| - 1;
      var s := After(cfg, s0, steps[..n]);
      OrderlyAlways(cfg, s0, steps[..n]);
      InvHasHistory(cfg, s);
      StampedNow(cfg, s);
      ListsOrderlyKept(cfg, s, steps[n]);
    }
  }

  lemma NothingPending(cfg: Config, s0: State)
    requires Init(s0)
    ensures ListsOrderly(cfg, s0)
  {
  }

  /**
   * Any number of directors: a steady run keeps every character on at most one Pod of a map in all its states if
   * and only if no accepted write was overtaken, that is, no Pod showed the character at the write that the
   * writer's list did not show at its decision.
   */
  lemma {:induction false} RunIsUniqueExactly(cfg: Config, s0: State, steps: seq<Step>)
    requires Init(s0) && AllFit(cfg, s0) && UniqueIn(cfg, Current(s0), s0.clock) && SelectorsAreNotCharacters(cfg)
    requires Legal(cfg, s0, steps) && AllSteady(cfg, s0, steps)
    ensures AlwaysUnique(cfg, s0, steps) <==> AllTimely(cfg, s0, steps)
    decreases |steps|
  {
    hide Init, AllFit, SelectorsAreNotCharacters, UniqueIn, OccupiedOpen, Enabled, Apply, Inv, ListsOrderly;
    hide Disciplined, KeepsMaps, TimelyStep;
    if steps != [] {
      var n := |steps| - 1;
      RunIsUniqueExactly(cfg, s0, steps[..n]);
      if AlwaysUnique(cfg, s0, steps[..n]) {
        OrderlyAlways(cfg, s0, steps[..n]);
        UniqueAtEnd(cfg, s0, steps[..n]);
        StepKeepsUniqueExactly(cfg, After(cfg, s0, steps[..n]), steps[n]);
      }
    }
  }

  lemma UniqueAtEnd(cfg: Config, s0: State, steps: seq<Step>)
    requires Legal(cfg, s0, steps) && AlwaysUnique(cfg, s0, steps)
    ensures UniqueIn(cfg, Current(After(cfg, s0, steps)), After(cfg, s0, steps).clock)
  {
  }

  // ----- one director -----

  /** While the lock is held nothing shows that the list did not show at some instant up to the decision. */
  ghost predicate HeldSince(cfg: Config, s: State, query: Query) {
    && (query.phase.Deciding? ==>
          && query.phase.version < |s.history| && query.phase.since <= s.clock
          && NoSpread(cfg, s.history[query.phase.version], query.phase.since, Current(s), s.clock))
    && (query.phase.Patching? ==>
          && query.phase.version < |s.history|
          && exists t :: t <= query.phase.at && NoSpread(cfg, s.history[query.phase.version], t, Current(s), s.clock))
  }

  ghost predicate AllHeldSince(cfg: Config, s: State) {
    forall q :: q in s.queries ==> HeldSince(cfg, s, s.queries[q])
  }

  lemma SpreadComposes(cfg: Config, a: Store, t: int, b: Store, t': int, c: Store, t'': int)
    requires NoSpread(cfg, a, t, b, t') && NoSpread(cfg, b, t', c, t'')
    ensures NoSpread(cfg, a, t, c, t'')
  {
    hide ShowsAt;
  }

  lemma HeldSinceExtends(cfg: Config, s: State, s': State, query: Query)
    requires HeldSince(cfg, s, query) && Extends(s, s')
    requires query.phase.Deciding? || query.phase.Patching? ==>
               NoSpread(cfg, Current(s), s.clock, Current(s'), s'.clock)
    ensures HeldSince(cfg, s', query)
  {
    hide NoSpread;
    if query.phase.Deciding? {
      SpreadComposes(cfg, s.history[query.phase.version], query.phase.since, Current(s), s.clock,
                     Current(s'), s'.clock);
    } else if query.phase.Patching? {
      var t :| t <= query.phase.at && NoSpread(cfg, s.history[query.phase.version], t, Current(s), s.clock);
      SpreadComposes(cfg, s.history[query.phase.version], t, Current(s), s.clock, Current(s'), s'.clock);
    }
  }

  lemma BystanderHeldSince(cfg: Config, s: State, step: Step, q: nat)
    requires q in s.queries && Inv(cfg, s) && AllFit(cfg, s) && OneDirector(s) && HeldSince(cfg, s, s.queries[q])
    requires Enabled(cfg, s, step) && Actor(step) != Some(q)
    requires Disciplined(cfg, s, step) && KeepsMaps(cfg, s, step)
    requires var s' := Apply(cfg, s, step); OccupiedOpen(cfg, Current(s'), s'.clock)
    ensures HeldSince(cfg, Apply(cfg, s, step), s.queries[q])
  {
    hide Inv, Apply, Enabled, AllFit, Disciplined, KeepsMaps, NoSpread, OccupiedOpen, HeldSince;
    var query := s.queries[q];
    StepFrame(cfg, s, step);
    InvParts(cfg, s);
    if query.phase.Deciding? || query.phase.Patching? {
      if step.ApplyPatch? {
        KnownQuery(cfg, s, q);
        PatcherHolds(cfg, s, step);
        OneHolder(s, q, step.q);
      }
      OthersDoNotSpread(cfg, s, step);
    }
    HeldSinceExtends(cfg, s, Apply(cfg, s, step), query);
  }

  lemma ListedHeldSince(cfg: Config, s: State, q: nat, items: seq<Pod>)
    requires s.history != [] && Enabled(cfg, s, List(q, items))
    ensures var s' := Apply(cfg, s, List(q, items)); q in s'.queries && HeldSince(cfg, s', s'.queries[q])
  {
    hide IsListing, ShowsAt;
  }

  lemma EvaluatedHeldSince(cfg: Config, s: State, q: nat)
    requires Enabled(cfg, s, Evaluate(q)) && HeldSince(cfg, s, s.queries[q])
    ensures var s' := Apply(cfg, s, Evaluate(q)); q in s'.queries && HeldSince(cfg, s', s'.queries[q])
  {
    hide Decide, Unlock, NoSpread;
    EvaluateFrame(cfg, s, q);
    var s' := Apply(cfg, s, Evaluate(q));
    assert s'.history == s.history;
    assert NoSpread(cfg, s'.history[s.queries[q].phase.version], s.queries[q].phase.since, Current(s'), s'.clock);
  }

  lemma ActorHeldSince(cfg: Config, s: State, step: Step, q: nat)
    requires s.history != [] && AllHeldSince(cfg, s) && Enabled(cfg, s, step) && Actor(step) == Some(q)
    ensures var s' := Apply(cfg, s, step); q in s'.queries && HeldSince(cfg, s', s'.queries[q])
  {
    hide Apply, NoSpread, HeldSince, Deliverable, IsListing;
    if step.List? {
      ListedHeldSince(cfg, s, q, step.items);
    } else if step.Evaluate? {
      EvaluatedHeldSince(cfg, s, q);
    } else {
      OnlyListDecides(cfg, s, step, q);
      IdleHeldSince(cfg, Apply(cfg, s, step), Apply(cfg, s, step).queries[q]);
    }
  }

  lemma IdleHeldSince(cfg: Config, s: State, query: Query)
    requires !query.phase.Deciding? && !query.phase.Patching?
    ensures HeldSince(cfg, s, query)
  {
  }

  lemma AllHeldSinceKept(cfg: Config, s: State, step: Step)
    requires Inv(cfg, s) && AllFit(cfg, s) && OneDirector(s) && AllHeldSince(cfg, s)
    requires Enabled(cfg, s, step) && Disciplined(cfg, s, step) && KeepsMaps(cfg, s, step)
    requires var s' := Apply(cfg, s, step); OccupiedOpen(cfg, Current(s'), s'.clock)
    ensures AllHeldSince(cfg, Apply(cfg, s, step)) && OneDirector(Apply(cfg, s, step))
  {
    hide Inv, Apply, Enabled, AllFit, Disciplined, KeepsMaps, OccupiedOpen, HeldSince;
    var s' := Apply(cfg, s, step);
    StepFrame(cfg, s, step);
    InvHasHistory(cfg, s);
    forall q | q in s'.queries ensures HeldSince(cfg, s', s'.queries[q]) {
      if Some(q) == Actor(step) {
        ActorHeldSince(cfg, s, step, q);
      } else {
        BystanderHeldSince(cfg, s, step, q);
      }
    }
  }

  lemma {:induction false} HeldSinceAlways(cfg: Config, s0: State, steps: seq<Step>)
    requires Init(s0) && AllFit(cfg, s0) && OneDirector(s0) && Legal(cfg, s0, steps) && AllSteady(cfg, s0, steps)
    ensures AllHeldSince(cfg, After(cfg, s0, steps)) && OneDirector(After(cfg, s0, steps))
    decreases |steps|
  {
    hide AllFit, OccupiedOpen, Enabled, Apply, Inv, HeldSince, Disciplined, KeepsMaps, AllDisciplined;
    if steps != [] {
      var n := |steps| - 1;
      HeldSinceAlways(cfg, s0, steps[..n]);
      SteadyIsDisciplined(cfg, s0, steps[..n]);
      FitAlways(cfg, s0, steps[..n]);
      InvAlways(cfg, s0, steps[..n]);
      AllHeldSinceKept(cfg, After(cfg, s0, steps[..n]), steps[n]);
    }
  }

  /**
   * With one director a write can only be overtaken by a lapsed and revived entry: the list did show the character on
   * that Pod at an earlier instant, no longer did at the decision, and the Pod shows it now.
   */
  lemma OvertakenMeansRevived(cfg: Config, s0: State, steps: seq<Step>, q: nat, n: string)
    requires Init(s0) && AllFit(cfg, s0) && OneDirector(s0) && Legal(cfg, s0, steps) && AllSteady(cfg, s0, steps)
    requires q in After(cfg, s0, steps).queries && After(cfg, s0, steps).queries[q].phase.Patching?
    requires After(cfg, s0, steps).queries[q].phase.version < |After(cfg, s0, steps).history|
    requires Overtaken(cfg, After(cfg, s0, steps), After(cfg, s0, steps).queries[q], n)
    ensures
      var s := After(cfg, s0, steps);
      var query := s.queries[q];
      exists t :: t < query.phase.at &&
        ShowsAt(cfg, s.history[query.phase.version], query.req.mapName, n, query.req.character, t)
  {
    hide Init, AllFit, OneDirector, Legal, AllSteady, ShowsAt, HeldSince, Overtaken;
    HeldSinceAlways(cfg, s0, steps);
    OvertakenWasListed(cfg, After(cfg, s0, steps), After(cfg, s0, steps).queries[q], n);
  }

  lemma OvertakenWasListed(cfg: Config, s: State, query: Query, n: string)
    requires query.phase.Patching? && query.phase.version < |s.history|
    requires HeldSince(cfg, s, query) && Overtaken(cfg, s, query, n)
    ensures exists t :: t < query.phase.at &&
              ShowsAt(cfg, s.history[query.phase.version], query.req.mapName, n, query.req.character, t)
  {
    hide ShowsAt;
    var t :| t <= query.phase.at && NoSpread(cfg, s.history[query.phase.version], t, Current(s), s.clock);
    assert ShowsAt(cfg, s.history[query.phase.version], query.req.mapName, n, query.req.character, t);
  }
}
