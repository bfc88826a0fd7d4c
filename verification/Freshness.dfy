/**
 * Uniqueness from what can be seen before deciding: no entry of the character that has lapsed as listed belongs to a
 * Pod that shows the character now.
 */
module Freshness {
  import opened Wrappers
  import opened Pods
  import opened Characters
  import opened Selection
  import opened Protocol
  import opened Invariants
  import opened Guards
  import opened Capacity
  import opened Uniqueness

  /** The Pod `n` showed the query's character at the list and no longer does now, as listed. */
  ghost predicate Lapsed(cfg: Config, s: State, query: Query, n: string)
    requires query.phase.Deciding? && query.phase.version < |s.history|
  {
    var store := s.history[query.phase.version];
    && ShowsAt(cfg, store, query.req.mapName, n, query.req.character, query.phase.since)
    && !ShowsAt(cfg, store, query.req.mapName, n, query.req.character, s.clock)
  }

  /** The entry has lapsed as listed, yet its Pod shows the character now: it was connected again after the list. */
  ghost predicate Revived(cfg: Config, s: State, query: Query, n: string)
    requires query.phase.Deciding? && query.phase.version < |s.history|
  {
    Lapsed(cfg, s, query, n) && ShowsAt(cfg, Current(s), query.req.mapName, n, query.req.character, s.clock)
  }

  ghost predicate FreshList(cfg: Config, s: State, query: Query)
    requires query.phase.Deciding? && query.phase.version < |s.history|
  {
    forall n :: !Revived(cfg, s, query, n)
  }

  ghost predicate FreshStep(cfg: Config, s: State, step: Step) {
    step.Evaluate? && Known(s, step.q) && s.queries[step.q].phase.Deciding?
      && s.queries[step.q].phase.version < |s.history| ==>
      FreshList(cfg, s, s.queries[step.q])
  }

  /** No evaluation of the run works on a list with a revived entry. */
  ghost predicate AllFresh(cfg: Config, s0: State, steps: seq<Step>)
    requires Legal(cfg, s0, steps)
    decreases |steps|
  {
    steps == [] ||
    (var n := |steps| - 1;
     AllFresh(cfg, s0, steps[..n]) && FreshStep(cfg, After(cfg, s0, steps[..n]), steps[n]))
  }

  // ----- listed stamps are past -----

  ghost predicate StampedBy(cfg: Config, store: Store, t: int) {
    forall n :: n in store ==> NoFutureStamps(cfg, store[n], t)
  }

  ghost predicate ListStamped(cfg: Config, s: State, query: Query) {
    query.phase.Deciding? ==>
      && query.phase.version < |s.history| && query.phase.since <= s.clock
      && StampedBy(cfg, s.history[query.phase.version], query.phase.since)
  }

  ghost predicate ListsStamped(cfg: Config, s: State) {
    forall q :: q in s.queries ==> ListStamped(cfg, s, s.queries[q])
  }

  lemma ListStampedExtends(cfg: Config, s: State, s': State, query: Query)
    requires ListStamped(cfg, s, query) && Extends(s, s')
    ensures ListStamped(cfg, s', query)
  {
    hide StampedBy;
  }

  lemma NowListStamped(cfg: Config, s: State, q: nat, items: seq<Pod>)
    requires s.history != [] && StampsPast(cfg, s) && Enabled(cfg, s, List(q, items))
    ensures var s' := Apply(cfg, s, List(q, items)); q in s'.queries && ListStamped(cfg, s', s'.queries[q])
  {
    hide IsListing, NoFutureStamps;
  }

  lemma EvaluationEndsDeciding(cfg: Config, s: State, q: nat)
    requires Enabled(cfg, s, Evaluate(q))
    ensures var s' := Apply(cfg, s, Evaluate(q)); q in s'.queries && !s'.queries[q].phase.Deciding?
  {
    hide Decide, Unlock;
  }

  lemma ListsStampedKept(cfg: Config, s: State, step: Step)
    requires s.history != [] && StampsPast(cfg, s) && ListsStamped(cfg, s) && Enabled(cfg, s, step)
    ensures ListsStamped(cfg, Apply(cfg, s, step))
  {
    hide Apply, Enabled, ListStamped, StampsPast;
    var s' := Apply(cfg, s, step);
    StepFrame(cfg, s, step);
    forall q | q in s'.queries ensures ListStamped(cfg, s', s'.queries[q]) {
      if Some(q) != Actor(step) {
        ListStampedExtends(cfg, s, s', s.queries[q]);
      } else if step.List? {
        NowListStamped(cfg, s, q, step.items);
      } else {
        ElsewhereStamped(cfg, s, step, q);
      }
    }
  }

  lemma ElsewhereStamped(cfg: Config, s: State, step: Step, q: nat)
    requires Enabled(cfg, s, step) && Actor(step) == Some(q) && !step.List?
    ensures var s' := Apply(cfg, s, step); q in s'.queries && ListStamped(cfg, s', s'.queries[q])
  {
    hide Apply, Enabled, StampedBy;
    if step.Evaluate? {
      EvaluationEndsDeciding(cfg, s, q);
    } else {
      OnlyListDecides(cfg, s, step, q);
    }
  }

  // ----- a fresh list makes the sticky choice -----

  lemma StampedDoesNotSpread(cfg: Config, store: Store, t: int, t': int)
    requires StampedBy(cfg, store, t) && t <= t'
    ensures NoSpread(cfg, store, t, store, t')
  {
    forall m, n, id | ShowsAt(cfg, store, m, n, id, t') ensures ShowsAt(cfg, store, m, n, id, t) {
      VisibilityOnlyShrinks(cfg, store[n], t, t');
      assert id in VisibleIds(cfg, store[n], t');
    }
  }

  /** What a reachable deciding query carries: a list of an orderly store whose stamps were past. */
  ghost predicate OrderlyList(cfg: Config, s: State, query: Query) {
    && query.phase.Deciding? && QueryOk(cfg, s, query) && HolderOk(cfg, s, query) && ListStamped(cfg, s, query)
  }

  /** A Pod that still shows the character at evaluation is the one assigned, because an existing holder ranks first. */
  lemma StillShownIsChosen(cfg: Config, s: State, query: Query, n: string)
    requires Chronicle(s) && OrderlyList(cfg, s, query)
    requires Decide(cfg, query.req, query.phase.items, s.clock).Assign?
    requires ShowsAt(cfg, s.history[query.phase.version], query.req.mapName, n, query.req.character, s.clock)
    ensures n == Decide(cfg, query.req, query.phase.items, s.clock).pod.name
  {
    hide Chronicle, ShowsAt, IsListing, Decide, NoSpread, UniqueIn, OccupiedOpen, StampedBy, IsOptimum, IsUsed;
    var store := s.history[query.phase.version];
    DecisionIsAboutOptimum(cfg, query.req, query.phase.items, s.clock);
    StampedDoesNotSpread(cfg, store, query.phase.since, s.clock);
    ShownIsNamed(cfg, s, query.phase.version, query.req.mapName, n, query.req.character, s.clock);
    OpenHolderIsChosen(cfg, query.req, store, query.phase.items, query.phase.since, s.clock,
                       Decide(cfg, query.req, query.phase.items, s.clock).pod, n);
  }

  /** A Pod other than the one assigned that shows the character now is one whose entry was revived. */
  lemma ShownElsewhereIsRevived(cfg: Config, s: State, query: Query, n: string)
    requires Chronicle(s) && OrderlyList(cfg, s, query)
    requires var decision := Decide(cfg, query.req, query.phase.items, s.clock);
             decision.Assign? && n != decision.pod.name
    requires ShowsAt(cfg, Current(s), query.req.mapName, n, query.req.character, s.clock)
    ensures Revived(cfg, s, query, n)
  {
    hide Chronicle, ShowsAt, Decide, QueryOk, UniqueIn, OccupiedOpen, StampedBy;
    var store := s.history[query.phase.version];
    assert ShowsAt(cfg, store, query.req.mapName, n, query.req.character, query.phase.since);
    if ShowsAt(cfg, store, query.req.mapName, n, query.req.character, s.clock) {
      StillShownIsChosen(cfg, s, query, n);
    }
  }

  /** So without a revived entry the ranking's first criterion keeps an existing assignment. */
  lemma FreshListIsSticky(cfg: Config, s: State, query: Query)
    requires Chronicle(s) && OrderlyList(cfg, s, query) && FreshList(cfg, s, query)
    ensures StickyChoice(cfg, s, query)
  {
    hide Chronicle, OrderlyList, Revived, Decide, ShowsAt;
    ListIsListed(cfg, s, query);
    var decision := Decide(cfg, query.req, query.phase.items, s.clock);
    if decision.Assign? {
      forall n | ShowsAt(cfg, Current(s), query.req.mapName, n, query.req.character, s.clock)
        ensures n == decision.pod.name
      {
        if n != decision.pod.name {
          ShownElsewhereIsRevived(cfg, s, query, n);
        }
      }
    }
  }

  lemma ListIsListed(cfg: Config, s: State, query: Query)
    requires OrderlyList(cfg, s, query)
    ensures query.phase.Deciding? && query.phase.version < |s.history|
  {
  }

  // ----- runs -----

  lemma FreshStepIsSticky(cfg: Config, s: State, step: Step)
    requires Inv(cfg, s) && HoldersOk(cfg, s) && ListsStamped(cfg, s) && FreshStep(cfg, s, step)
    ensures StickyStep(cfg, s, step)
  {
    hide Inv, Chronicle, QueriesOk, QueryOk, LocksOk, HolderOk, ListStamped, FreshList, StickyChoice;
    InvParts(cfg, s);
    if step.Evaluate? && Known(s, step.q) && s.queries[step.q].phase.Deciding? {
      Recall(cfg, s, step.q);
      ListIsListed(cfg, s, s.queries[step.q]);
      FreshListIsSticky(cfg, s, s.queries[step.q]);
    }
  }

  /** A steady run that evaluates no list with a revived entry makes the sticky choice every time. */
  lemma {:induction false} FreshRunsAreSticky(cfg: Config, s0: State, steps: seq<Step>)
    requires Init(s0) && AllFit(cfg, s0) && OneDirector(s0) && UniqueIn(cfg, Current(s0), s0.clock)
    requires SelectorsAreNotCharacters(cfg)
    requires Legal(cfg, s0, steps) && AllSteady(cfg, s0, steps) && AllFresh(cfg, s0, steps)
    ensures AllSticky(cfg, s0, steps) && ListsStamped(cfg, After(cfg, s0, steps))
    decreases |steps|
  {
    hide Init, AllFit, OneDirector, UniqueIn, SelectorsAreNotCharacters, Apply, Enabled, Inv, HoldersOk;
    hide FreshStep, StickyStep, ListsStamped, StampsPast, Disciplined, KeepsMaps, OccupiedOpen, AllDisciplined;
    if steps == [] {
      NothingListed(cfg, s0);
    } else {
      var n := |steps| - 1;
      var s := After(cfg, s0, steps[..n]);
      FreshRunsAreSticky(cfg, s0, steps[..n]);
      UniqueAlways(cfg, s0, steps[..n]);
      FitAlways(cfg, s0, steps[..n]);
      FitImpliesStampsPast(cfg, s);
      InvAlways(cfg, s0, steps[..n]);
      InvHasHistory(cfg, s);
      FreshStepIsSticky(cfg, s, steps[n]);
      ListsStampedKept(cfg, s, steps[n]);
    }
  }

  lemma NothingListed(cfg: Config, s0: State)
    requires Init(s0)
    ensures ListsStamped(cfg, s0)
  {
  }

  lemma InvHasHistory(cfg: Config, s: State)
    requires Inv(cfg, s)
    ensures s.history != []
  {
  }

  /**
   * One director, any number of queries, waits and controller steps: while no listed entry of a query's character
   * lapses and is revived between its list and its evaluation, each character is visible on at most one Pod of a
   * map in every reachable state.
   */
  lemma CharacterIsOnOnePod(cfg: Config, s0: State, steps: seq<Step>, m: string, n: string, n': string, id: string)
    requires Init(s0) && AllFit(cfg, s0) && OneDirector(s0) && UniqueIn(cfg, Current(s0), s0.clock)
    requires SelectorsAreNotCharacters(cfg)
    requires Legal(cfg, s0, steps) && AllSteady(cfg, s0, steps) && AllFresh(cfg, s0, steps)
    requires var s := After(cfg, s0, steps);
             ShowsAt(cfg, Current(s), m, n, id, s.clock) && ShowsAt(cfg, Current(s), m, n', id, s.clock)
    ensures n == n'
  {
    hide Init, AllFit, OneDirector, UniqueIn, Legal, AllSteady, AllFresh, AllSticky, ShowsAt, SelectorsAreNotCharacters;
    FreshRunsAreSticky(cfg, s0, steps);
    StickyRunsAreUnique(cfg, s0, steps, m, n, n', id);
  }
}
