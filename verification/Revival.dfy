/** Exactly when an assignment doubles its character. */
module Revival {
  import opened Wrappers
  import opened Backend
  import opened Pods
  import opened Characters
  import opened Selection
  import opened Protocol
  import opened Invariants
  import opened Capacity
  import opened Uniqueness
  import opened Freshness
  import Lapse

  /** A deciding query about to assign a Pod nobody has written since the list. */
  ghost predicate AboutToAssign(cfg: Config, s: State, q: nat) {
    && Known(s, q) && OrderlyList(cfg, s, s.queries[q])
    && var decision := Decide(cfg, s.queries[q].req, s.queries[q].phase.items, s.clock);
       decision.Assign? && PatchFits(s, decision.pod)
  }

  /** Evaluating and writing, with nothing in between. */
  ghost predicate Assigns(cfg: Config, s: State, q: nat, delivered: bool) {
    Enabled(cfg, s, Evaluate(q)) && Enabled(cfg, Apply(cfg, s, Evaluate(q)), ApplyPatch(q, delivered))
  }

  ghost function AfterAssigning(cfg: Config, s: State, q: nat, delivered: bool): State
    requires Assigns(cfg, s, q, delivered)
  {
    Apply(cfg, Apply(cfg, s, Evaluate(q)), ApplyPatch(q, delivered))
  }

  /** The chosen Pod is as listed, open, in the map, and named in the store. */
  lemma ChosenIsCurrent(cfg: Config, s: State, q: nat)
    requires Chronicle(s) && AboutToAssign(cfg, s, q)
    ensures
      var query := s.queries[q];
      var pod := Decide(cfg, query.req, query.phase.items, s.clock).pod;
      && pod.name in Current(s) && Current(s)[pod.name] == pod
      && query.phase.version < |s.history|
      && pod.name in s.history[query.phase.version] && s.history[query.phase.version][pod.name] == pod
      && InMap(cfg, query.req.mapName, pod) && ValidId(query.req.character)
  {
    hide Chronicle, Decide, HolderOk, ListStamped, InMap, Open, IsListing, ValidId;
    var query := s.queries[q];
    Lapse.ChosenIsOpen(cfg, s, query, s.clock);
    CurrentNames(s);
    SameVersionSameContent(s, Decide(cfg, query.req, query.phase.items, s.clock).pod.name,
                           query.phase.version, |s.history| - 1);
  }

  lemma AssigningWrites(cfg: Config, s: State, q: nat, delivered: bool)
    requires Chronicle(s) && AboutToAssign(cfg, s, q)
    ensures Assigns(cfg, s, q, delivered)
    ensures
      var query := s.queries[q];
      var pod := Decide(cfg, query.req, query.phase.items, s.clock).pod;
      var s' := AfterAssigning(cfg, s, q, delivered);
      && s'.clock == s.clock
      && Current(s') == Current(s)[pod.name := WithAllocated(cfg, pod, query.req.character).(version := |s.history|)]
  {
    hide Chronicle, Decide, HolderOk, QueryOk, ListStamped, InMap, ValidId, WithAllocated;
    ChosenIsCurrent(cfg, s, q);
    var s1 := Apply(cfg, s, Evaluate(q));
    assert Current(s1) == Current(s);
    PatchFrame(cfg, s1, q, delivered);
  }

  /** A revived entry is on another Pod than the one chosen, because the chosen one is still as listed. */
  lemma RevivedIsElsewhere(cfg: Config, s: State, q: nat, n: string)
    requires Chronicle(s) && AboutToAssign(cfg, s, q)
    requires s.queries[q].phase.version < |s.history| && Revived(cfg, s, s.queries[q], n)
    ensures n != Decide(cfg, s.queries[q].req, s.queries[q].phase.items, s.clock).pod.name
    ensures n in Current(s)
  {
    hide Chronicle, Decide, OrderlyList, InMap, Visible, ValidId;
    ChosenIsCurrent(cfg, s, q);
  }

  /** The store after the write shows the character twice when an entry was revived. */
  lemma RevivedDoubles(cfg: Config, s: State, q: nat, delivered: bool, n: string)
    requires Chronicle(s) && SelectorsAreNotCharacters(cfg) && AboutToAssign(cfg, s, q)
    requires s.queries[q].phase.version < |s.history| && Revived(cfg, s, s.queries[q], n)
    requires Assigns(cfg, s, q, delivered)
    ensures !UniqueIn(cfg, Current(AfterAssigning(cfg, s, q, delivered)), s.clock)
  {
    hide Chronicle, Decide, AboutToAssign, AfterAssigning, Assigns, Lapsed, InMap, Visible, ValidId, WithLabel;
    hide SelectorsAreNotCharacters;
    DecidesToAssign(cfg, s, q);
    var query := s.queries[q];
    ChosenIsCurrent(cfg, s, q);
    AssigningWrites(cfg, s, q, delivered);
    RevivedIsElsewhere(cfg, s, q, n);
    var pod := Decide(cfg, query.req, query.phase.items, s.clock).pod;
    var after := Current(AfterAssigning(cfg, s, q, delivered));
    Lapse.LabelledShows(cfg, after, query.req.mapName, pod, query.req.character, "Allocated", |s.history|, s.clock);
    assert ShowsAt(cfg, after, query.req.mapName, n, query.req.character, s.clock);
  }

  /** And it shows it once when none was. */
  lemma FreshAssignmentIsUnique(cfg: Config, s: State, q: nat, delivered: bool)
    requires Chronicle(s) && SelectorsAreNotCharacters(cfg) && UniqueIn(cfg, Current(s), s.clock)
    requires AboutToAssign(cfg, s, q) && StickyChoice(cfg, s, s.queries[q]) && Assigns(cfg, s, q, delivered)
    ensures UniqueIn(cfg, Current(AfterAssigning(cfg, s, q, delivered)), s.clock)
  {
    hide Chronicle, Decide, AboutToAssign, AfterAssigning, Assigns, InMap, ShowsAt, ValidId, WithAllocated;
    hide SelectorsAreNotCharacters;
    DecidesToAssign(cfg, s, q);
    var query := s.queries[q];
    var c := query.req.character;
    var m := query.req.mapName;
    ChosenIsCurrent(cfg, s, q);
    AssigningWrites(cfg, s, q, delivered);
    var pod := Decide(cfg, query.req, query.phase.items, s.clock).pod;
    AssignmentSpreadsOne(cfg, Current(s), pod, c, m, |s.history|, s.clock);
    OneHolderAfter(cfg, Current(s), Current(AfterAssigning(cfg, s, q, delivered)), m, pod.name, c, s.clock);
  }

  lemma DecidesToAssign(cfg: Config, s: State, q: nat)
    requires AboutToAssign(cfg, s, q)
    ensures q in s.queries && s.queries[q].phase.Deciding?
    ensures Decide(cfg, s.queries[q].req, s.queries[q].phase.items, s.clock).Assign?
  {
    hide Decide, QueryOk, HolderOk, ListStamped;
  }

  lemma OneHolderAfter(cfg: Config, before: Store, after: Store, m: string, name: string, c: string, now: int)
    requires UniqueIn(cfg, before, now)
    requires forall n :: ShowsAt(cfg, before, m, n, c, now) ==> n == name
    requires forall m', n, id :: ShowsAt(cfg, after, m', n, id, now) ==>
               ShowsAt(cfg, before, m', n, id, now) || (m' == m && n == name && id == c)
    ensures UniqueIn(cfg, after, now)
  {
    hide ShowsAt;
  }

  /**
   * The exact condition. In an orderly state whose store is unique, assigning a Pod nobody has written since the
   * list leaves the store unique if and only if no entry of the character has lapsed as listed on a Pod that
   * shows the character now.
   */
  lemma UniqueExactlyWithoutRevival(cfg: Config, s: State, q: nat, delivered: bool)
    requires Inv(cfg, s) && SelectorsAreNotCharacters(cfg) && UniqueIn(cfg, Current(s), s.clock)
    requires AboutToAssign(cfg, s, q)
    ensures Assigns(cfg, s, q, delivered)
    ensures s.queries[q].phase.Deciding? && s.queries[q].phase.version < |s.history|
    ensures var s' := AfterAssigning(cfg, s, q, delivered);
            UniqueIn(cfg, Current(s'), s'.clock) <==> forall n :: !Revived(cfg, s, s.queries[q], n)
  {
    hide Inv, Chronicle, Decide, AfterAssigning, Assigns, UniqueIn, StickyChoice, Revived, OrderlyList, PatchFits;
    hide SelectorsAreNotCharacters;
    InvParts(cfg, s);
    ListIsListed(cfg, s, s.queries[q]);
    AssigningWrites(cfg, s, q, delivered);
    if n :| Revived(cfg, s, s.queries[q], n) {
      RevivedDoubles(cfg, s, q, delivered, n);
    } else {
      FreshListIsSticky(cfg, s, s.queries[q]);
      FreshAssignmentIsUnique(cfg, s, q, delivered);
    }
  }

  /** Every deciding query of a steady, fresh run is in such a state. */
  lemma ReachableListIsOrderly(cfg: Config, s0: State, steps: seq<Step>, q: nat)
    requires Init(s0) && AllFit(cfg, s0) && OneDirector(s0) && UniqueIn(cfg, Current(s0), s0.clock)
    requires SelectorsAreNotCharacters(cfg)
    requires Legal(cfg, s0, steps) && AllSteady(cfg, s0, steps) && AllFresh(cfg, s0, steps)
    requires q in After(cfg, s0, steps).queries && After(cfg, s0, steps).queries[q].phase.Deciding?
    ensures
      var s := After(cfg, s0, steps);
      && Inv(cfg, s) && Known(s, q) && UniqueIn(cfg, Current(s), s.clock) && OrderlyList(cfg, s, s.queries[q])
  {
    hide Init, AllFit, OneDirector, UniqueIn, Legal, AllSteady, AllFresh, AllSticky, SelectorsAreNotCharacters;
    hide Inv, QueryOk, HolderOk, ListStamped, QueriesOk, Known, AllDisciplined;
    var s := After(cfg, s0, steps);
    FreshRunsAreSticky(cfg, s0, steps);
    UniqueAlways(cfg, s0, steps);
    InvAlways(cfg, s0, steps);
    InvParts(cfg, s);
    KnownQuery(cfg, s, q);
    Recall(cfg, s, q);
  }

  /**
   * For runs: after any steady run free of revived entries, letting a query assign an unwritten Pod keeps every
   * character on one Pod if and only if its list has no revived entry either.
   */
  lemma NextAssignmentExactly(cfg: Config, s0: State, steps: seq<Step>, q: nat, delivered: bool)
    requires Init(s0) && AllFit(cfg, s0) && OneDirector(s0) && UniqueIn(cfg, Current(s0), s0.clock)
    requires SelectorsAreNotCharacters(cfg)
    requires Legal(cfg, s0, steps) && AllSteady(cfg, s0, steps) && AllFresh(cfg, s0, steps)
    requires q in After(cfg, s0, steps).queries && After(cfg, s0, steps).queries[q].phase.Deciding?
    requires var s := After(cfg, s0, steps);
             var decision := Decide(cfg, s.queries[q].req, s.queries[q].phase.items, s.clock);
             decision.Assign? && PatchFits(s, decision.pod)
    ensures
      var s := After(cfg, s0, steps);
      var longer := steps + [Evaluate(q)] + [ApplyPatch(q, delivered)];
      && s.queries[q].phase.version < |s.history|
      && Legal(cfg, s0, longer)
      && var s' := After(cfg, s0, longer);
         UniqueIn(cfg, Current(s'), s'.clock) <==> forall n :: !Revived(cfg, s, s.queries[q], n)
  {
    hide Init, AllFit, OneDirector, UniqueIn, Legal, AllSteady, AllFresh, SelectorsAreNotCharacters;
    hide Inv, OrderlyList, Known, Decide, PatchFits, Enabled, Apply, Revived;
    ReachableListIsOrderly(cfg, s0, steps, q);
    UniqueExactlyWithoutRevival(cfg, After(cfg, s0, steps), q, delivered);
    LegalExtends(cfg, s0, steps, Evaluate(q));
    LegalExtends(cfg, s0, steps + [Evaluate(q)], ApplyPatch(q, delivered));
  }
}
