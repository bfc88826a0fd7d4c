/** Why the sticky choice is needed: a listed entry that lapses before evaluation can double a character. */
module Lapse {
  import opened Wrappers
  import opened Pods
  import opened Characters
  import opened Selection
  import opened Protocol
  import opened Invariants
  import opened Capacity
  import opened Uniqueness
  import opened Freshness

  /** The controller's write when a visible character connects again. */
  function Reconnected(cfg: Config, pod: Pod, id: string): Pod {
    WithLabel(cfg, pod, id, "Used")
  }

  lemma LabelKeepsOpen(cfg: Config, pod: Pod, id: string, value: string, version: nat)
    requires Open(cfg, pod) && value != "true"
    ensures Open(cfg, WithLabel(cfg, pod, id, value).(version := version))
  {
  }

  lemma SteadyExtends(cfg: Config, s: State, steps: seq<Step>, step: Step)
    requires Legal(cfg, s, steps) && Enabled(cfg, After(cfg, s, steps), step)
    requires AllSteady(cfg, s, steps)
    requires Disciplined(cfg, After(cfg, s, steps), step) && KeepsMaps(cfg, After(cfg, s, steps), step)
    requires var s' := Apply(cfg, After(cfg, s, steps), step); OccupiedOpen(cfg, Current(s'), s'.clock)
    ensures Legal(cfg, s, steps + [step]) && AllSteady(cfg, s, steps + [step])
    ensures After(cfg, s, steps + [step]) == Apply(cfg, After(cfg, s, steps), step)
  {
    LegalExtends(cfg, s, steps, step);
    hide Enabled, Apply, Disciplined, KeepsMaps, OccupiedOpen;
    assert (steps + [step])[..|steps|] == steps;
  }

  /** The list was just read, it shows the character on `n`, and evaluating it at `t` assigns elsewhere. */
  ghost predicate Lapses(cfg: Config, s: State, q: nat, n: string, t: int) {
    && Known(s, q) && QueryOk(cfg, s, s.queries[q]) && s.queries[q].phase.Deciding?
    && s.queries[q].phase.version == |s.history| - 1 && s.queries[q].phase.since == s.clock <= t
    && ValidId(s.queries[q].req.character)
    && ShowsAt(cfg, Current(s), s.queries[q].req.mapName, n, s.queries[q].req.character, s.clock)
    && var decision := Decide(cfg, s.queries[q].req, s.queries[q].phase.items, t);
       decision.Assign? && decision.pod.name != n
  }

  /** In an orderly state that is a lapse of the listed entry; what the run below adds is its revival. */
  lemma LapsesMeansLapsed(cfg: Config, s: State, q: nat, n: string, t: int)
    requires Chronicle(s) && Lapses(cfg, s, q, n, t) && OrderlyList(cfg, s, s.queries[q])
    ensures Lapsed(cfg, s.(clock := t), s.queries[q], n)
  {
    hide Chronicle, Decide, QueryOk, ShowsAt, ValidId;
    var query := s.queries[q];
    var later := s.(clock := t);
    OrderlyLater(cfg, s, query, t);
    if ShowsAt(cfg, Current(s), query.req.mapName, n, query.req.character, t) {
      StillShownIsChosen(cfg, later, query, n);
    }
    assert Lapsed(cfg, later, query, n);
  }

  lemma OrderlyLater(cfg: Config, s: State, query: Query, t: int)
    requires Chronicle(s) && OrderlyList(cfg, s, query) && query.phase.version == |s.history| - 1 && s.clock <= t
    ensures Chronicle(s.(clock := t)) && OrderlyList(cfg, s.(clock := t), query)
  {
    hide Chronicle, QueryOk, UniqueIn, OccupiedOpen, StampedBy, NoSpread;
    var later := s.(clock := t);
    ChronicleUnchanged(s, later);
    QueryOkExtends(cfg, s, later, query);
    StampedDoesNotSpread(cfg, s.history[query.phase.version], query.phase.since, t);
  }

  /** Reconnecting a visible character changes neither what the Pod shows nor the maps it is in. */
  lemma ReconnectingShowsTheSame(cfg: Config, pod: Pod, id: string, version: nat, now: int)
    requires SelectorsAreNotCharacters(cfg) && ValidId(id) && Visible(cfg, pod, id, now)
    ensures var written := Reconnected(cfg, pod, id).(version := version);
            && VisibleIds(cfg, written, now) == VisibleIds(cfg, pod, now)
            && (NoFutureStamps(cfg, pod, now) ==> NoFutureStamps(cfg, written, now))
            && (forall m :: InMap(cfg, m, written) == InMap(cfg, m, pod))
            && (Open(cfg, pod) ==> Open(cfg, written))
  {
    var written := Reconnected(cfg, pod, id).(version := version);
    LabelAddsOne(cfg, pod, id, "Used", now);
    VersionIsInvisible(cfg, Reconnected(cfg, pod, id), version, now);
    if Open(cfg, pod) {
      LabelKeepsOpen(cfg, pod, id, "Used", version);
    }
    hide Visible, NoFutureStamps, Open;
    assert VisibleIds(cfg, pod, now) + {id} == VisibleIds(cfg, pod, now);
    forall m ensures InMap(cfg, m, written) == InMap(cfg, m, pod) {
      LabelKeepsMap(cfg, pod, id, "Used", m);
      assert written.labels == Reconnected(cfg, pod, id).labels;
    }
  }

  /** Replacing a Pod by one that shows the same, in the same maps, and is as open, keeps occupied Pods open. */
  lemma SameShownKeepsOpen(cfg: Config, store: Store, n: string, written: Pod, now: int)
    requires OccupiedOpen(cfg, store, now) && n in store
    requires VisibleIds(cfg, written, now) == VisibleIds(cfg, store[n], now)
    requires forall m :: InMap(cfg, m, written) == InMap(cfg, m, store[n])
    requires Open(cfg, store[n]) ==> Open(cfg, written)
    ensures OccupiedOpen(cfg, store[n := written], now)
  {
    hide Open, InMap, Visible;
    var after := store[n := written];
    forall m, k, x | ShowsAt(cfg, after, m, k, x, now) ensures Open(cfg, after[k]) {
      if k == n {
        assert x in VisibleIds(cfg, written, now);
      }
      assert ShowsAt(cfg, store, m, k, x, now);
    }
  }

  lemma ReconnectIsSteady(cfg: Config, s: State, n: string, id: string)
    requires Chronicle(s) && AllFit(cfg, s) && SelectorsAreNotCharacters(cfg)
    requires n in Current(s) && ValidId(id) && Visible(cfg, Current(s)[n], id, s.clock)
    ensures
      var step := Outside(n, Some(Reconnected(cfg, Current(s)[n], id)));
      && Enabled(cfg, s, step) && Disciplined(cfg, s, step) && KeepsMaps(cfg, s, step)
      && Apply(cfg, s, step)
         == Write(s, Current(s)[n := Reconnected(cfg, Current(s)[n], id).(version := |s.history|)])
  {
    hide Chronicle, AllFit, NoFutureStamps, Visible, Open, InMap, SelectorsAreNotCharacters, ValidId;
    var pod := Current(s)[n];
    CurrentNames(s);
    CurrentFits(cfg, s, n);
    ReconnectingShowsTheSame(cfg, pod, id, |s.history|, s.clock);
    assert Reconnected(cfg, pod, id).(name := n, version := |s.history|)
           == Reconnected(cfg, pod, id).(version := |s.history|);
  }

  lemma ReconnectStep(cfg: Config, s: State, n: string, id: string)
    requires Chronicle(s) && AllFit(cfg, s) && SelectorsAreNotCharacters(cfg) && OccupiedOpen(cfg, Current(s), s.clock)
    requires n in Current(s) && ValidId(id) && Visible(cfg, Current(s)[n], id, s.clock)
    ensures
      var written := Reconnected(cfg, Current(s)[n], id).(version := |s.history|);
      && OccupiedOpen(cfg, Current(s)[n := written], s.clock)
      && AllFit(cfg, Write(s, Current(s)[n := written]))
  {
    hide Chronicle, AllFit, NoFutureStamps, Visible, Open, InMap, SelectorsAreNotCharacters, OccupiedOpen;
    var pod := Current(s)[n];
    CurrentFits(cfg, s, n);
    ReconnectingShowsTheSame(cfg, pod, id, |s.history|, s.clock);
    var written := Reconnected(cfg, pod, id).(version := |s.history|);
    SameShownKeepsOpen(cfg, Current(s), n, written, s.clock);
    CurrentNames(s);
    AllFitAppends(cfg, s, n, written);
  }

  lemma AllFitAppends(cfg: Config, s: State, n: string, written: Pod)
    requires s.history != [] && AllFit(cfg, s) && Fits(cfg, written, s.clock)
    ensures AllFit(cfg, Write(s, Current(s)[n := written]))
  {
    hide Fits;
    assert s.history[|s.history| - 1] == Current(s);
  }

  lemma TickKeepsOpen(cfg: Config, s: State, t: int)
    requires AllFit(cfg, s) && s.history != [] && s.clock <= t && OccupiedOpen(cfg, Current(s), s.clock)
    ensures OccupiedOpen(cfg, Current(s), t)
  {
    FitImpliesStampsPast(cfg, s);
    TimeDoesNotSpread(cfg, s, |s.history| - 1, t);
    OpenWithoutSpread(cfg, Current(s), s.clock, t);
  }

  lemma OpenWithoutSpread(cfg: Config, store: Store, t: int, t': int)
    requires OccupiedOpen(cfg, store, t) && NoSpread(cfg, store, t, store, t')
    ensures OccupiedOpen(cfg, store, t')
  {
    hide Open, ShowsAt;
    forall m, n, id | ShowsAt(cfg, store, m, n, id, t') ensures n in store && Open(cfg, store[n]) {
      assert ShowsAt(cfg, store, m, n, id, t);
      ShownIsThere(cfg, store, m, n, id, t');
    }
  }

  lemma ShownIsThere(cfg: Config, store: Store, m: string, n: string, id: string, t: int)
    requires ShowsAt(cfg, store, m, n, id, t)
    ensures n in store
  {
  }

  /** Writing the label on an open Pod keeps occupied Pods open. */
  lemma AssigningKeepsOpen(cfg: Config, store: Store, pod: Pod, id: string, version: nat, now: int)
    requires OccupiedOpen(cfg, store, now) && pod.name in store && store[pod.name] == pod && Open(cfg, pod)
    ensures OccupiedOpen(cfg, store[pod.name := WithAllocated(cfg, pod, id).(version := version)], now)
  {
    var after := store[pod.name := WithAllocated(cfg, pod, id).(version := version)];
    LabelKeepsOpen(cfg, pod, id, "Allocated", version);
    hide Open, WithLabel, InMap, Visible;
    forall m, n, x | ShowsAt(cfg, after, m, n, x, now) ensures Open(cfg, after[n]) {
      if n != pod.name {
        assert ShowsAt(cfg, store, m, n, x, now);
      }
    }
  }

  lemma ChosenIsOpen(cfg: Config, s: State, query: Query, t: int)
    requires query.phase.Deciding? && ListedAt(cfg, s, query, query.phase.items, query.phase.version)
    requires Decide(cfg, query.req, query.phase.items, t).Assign?
    ensures
      var pod := Decide(cfg, query.req, query.phase.items, t).pod;
      var store := s.history[query.phase.version];
      pod.name in store && store[pod.name] == pod && Open(cfg, pod) && InMap(cfg, query.req.mapName, pod)
  {
    DecisionIsAboutOptimum(cfg, query.req, query.phase.items, t);
    hide Decide, InMap, PassesFilters;
    assert Decide(cfg, query.req, query.phase.items, t).pod in query.phase.items;
  }

  lemma LabelledShows(cfg: Config, store: Store, m: string, pod: Pod, id: string, value: string, version: nat, now: int)
    requires SelectorsAreNotCharacters(cfg) && ValidId(id) && (value == "Allocated" || value == "Used")
    requires InMap(cfg, m, pod) && pod.name in store
    requires store[pod.name] == WithLabel(cfg, pod, id, value).(version := version)
    ensures ShowsAt(cfg, store, m, pod.name, id, now)
  {
    LabelKeepsMap(cfg, pod, id, value, m);
    LabelAddsOne(cfg, pod, id, value, now);
    VersionIsInvisible(cfg, WithLabel(cfg, pod, id, value), version, now);
    assert WithLabel(cfg, pod, id, value).labels == store[pod.name].labels;
    assert id in VisibleIds(cfg, store[pod.name], now);
  }

  /**
   * Wherever a list evaluated at `t` would abandon `n`, a run that meets every hypothesis but freshness ends with the
   * character on two Pods of the map: the controller sees it reconnect on `n`, time passes to `t`, the stale
   * list is evaluated, and the guarded write to the other, untouched Pod is accepted.
   */
  lemma LapsedEntryDoublesCharacter(cfg: Config, s: State, q: nat, n: string, t: int) returns (steps: seq<Step>)
    requires Chronicle(s) && AllFit(cfg, s) && SelectorsAreNotCharacters(cfg) && OccupiedOpen(cfg, Current(s), s.clock)
    requires Lapses(cfg, s, q, n, t)
    ensures Legal(cfg, s, steps) && AllSteady(cfg, s, steps)
    ensures !UniqueIn(cfg, Current(After(cfg, s, steps)), After(cfg, s, steps).clock)
  {
    hide Chronicle, AllFit, OccupiedOpen, Legal, AllSteady, Open, Decide, WithLabel, QueryOk, ValidId;
    hide SelectorsAreNotCharacters;
    var query := s.queries[q];
    var c := query.req.character;
    var m := query.req.mapName;
    var host := Current(s)[n];
    steps := ToEvaluation(cfg, s, q, n, t);
    var now := After(cfg, s, steps);
    var pod := now.queries[q].phase.pod;
    var store := PatchStep(cfg, s, steps, q);
    steps := steps + [ApplyPatch(q, true)];
    LabelledShows(cfg, store, m, host, c, "Used", |s.history|, t);
    LabelledShows(cfg, store, m, pod, c, "Allocated", |now.history|, t);
  }

  /** The first three steps: reconnect, wait, evaluate the stale list. */
  lemma ToEvaluation(cfg: Config, s: State, q: nat, n: string, t: int) returns (steps: seq<Step>)
    requires Chronicle(s) && AllFit(cfg, s) && SelectorsAreNotCharacters(cfg) && OccupiedOpen(cfg, Current(s), s.clock)
    requires Lapses(cfg, s, q, n, t)
    ensures Legal(cfg, s, steps) && AllSteady(cfg, s, steps)
    ensures
      var query := s.queries[q];
      var now := After(cfg, s, steps);
      var host := Current(s)[n];
      && Known(now, q) && now.queries[q].req == query.req && now.queries[q].phase.Patching? && now.clock == t
      && OccupiedOpen(cfg, Current(now), now.clock)
      && var pod := now.queries[q].phase.pod;
      && pod.name != n && host.name == n
      && Current(now) == Current(s)[n := Reconnected(cfg, host, query.req.character).(version := |s.history|)]
      && pod.name in Current(s) && Current(s)[pod.name] == pod && Open(cfg, pod)
      && InMap(cfg, query.req.mapName, pod) && InMap(cfg, query.req.mapName, host)
  {
    hide Chronicle, AllFit, OccupiedOpen, Legal, AllSteady, Open, InMap, Visible, Decide, WithLabel;
    hide SelectorsAreNotCharacters;
    hide Disciplined, KeepsMaps, ListedAt, ValidId, Enabled, Apply;
    var query := s.queries[q];
    var c := query.req.character;
    var host := Current(s)[n];
    CurrentNames(s);
    ChosenIsOpen(cfg, s, query, t);
    var one := Outside(n, Some(Reconnected(cfg, host, c)));
    ReconnectIsSteady(cfg, s, n, c);
    ReconnectStep(cfg, s, n, c);
    EmptyRun(cfg, s);
    SteadyExtends(cfg, s, [], one);
    steps := [one];
    assert [] + [one] == steps;
    TickKeepsOpen(cfg, Apply(cfg, s, one), t);
    TickStep(cfg, s, steps, t);
    steps := steps + [Tick(t)];
    var s3 := EvaluateStep(cfg, s, steps, q);
    steps := steps + [Evaluate(q)];
  }

  lemma EmptyRun(cfg: Config, s: State)
    requires OccupiedOpen(cfg, Current(s), s.clock)
    ensures Legal(cfg, s, []) && After(cfg, s, []) == s && AllSteady(cfg, s, [])
  {
  }

  lemma TickStep(cfg: Config, s: State, steps: seq<Step>, t: int)
    requires Legal(cfg, s, steps) && AllSteady(cfg, s, steps) && After(cfg, s, steps).clock <= t
    requires OccupiedOpen(cfg, Current(After(cfg, s, steps)), t)
    ensures Legal(cfg, s, steps + [Tick(t)]) && AllSteady(cfg, s, steps + [Tick(t)])
    ensures After(cfg, s, steps + [Tick(t)]) == After(cfg, s, steps).(clock := t)
  {
    hide AllSteady, OccupiedOpen, Legal;
    SteadyExtends(cfg, s, steps, Tick(t));
  }

  lemma EvaluateStep(cfg: Config, s: State, steps: seq<Step>, q: nat) returns (s': State)
    requires Legal(cfg, s, steps) && AllSteady(cfg, s, steps)
    requires Known(After(cfg, s, steps), q) && After(cfg, s, steps).queries[q].phase.Deciding?
    requires OccupiedOpen(cfg, Current(After(cfg, s, steps)), After(cfg, s, steps).clock)
    requires var now := After(cfg, s, steps);
             Decide(cfg, now.queries[q].req, now.queries[q].phase.items, now.clock).Assign?
    ensures Legal(cfg, s, steps + [Evaluate(q)]) && AllSteady(cfg, s, steps + [Evaluate(q)])
    ensures After(cfg, s, steps + [Evaluate(q)]) == s'
    ensures
      var now := After(cfg, s, steps);
      var query := now.queries[q];
      var decision := Decide(cfg, query.req, query.phase.items, now.clock);
      s' == SetPhase(now, q, Patching(query.phase.items, query.phase.version, now.clock, decision.pod, decision.target))
  {
    hide AllSteady, OccupiedOpen, Legal, Decide;
    s' := Apply(cfg, After(cfg, s, steps), Evaluate(q));
    SteadyExtends(cfg, s, steps, Evaluate(q));
  }

  lemma PatchStep(cfg: Config, s: State, steps: seq<Step>, q: nat) returns (store: Store)
    requires Legal(cfg, s, steps) && AllSteady(cfg, s, steps)
    requires Known(After(cfg, s, steps), q) && After(cfg, s, steps).queries[q].phase.Patching?
    requires OccupiedOpen(cfg, Current(After(cfg, s, steps)), After(cfg, s, steps).clock)
    requires var now := After(cfg, s, steps);
             var pod := now.queries[q].phase.pod;
             pod.name in Current(now) && Current(now)[pod.name] == pod && Open(cfg, pod)
    ensures Legal(cfg, s, steps + [ApplyPatch(q, true)]) && AllSteady(cfg, s, steps + [ApplyPatch(q, true)])
    ensures
      var now := After(cfg, s, steps);
      var query := now.queries[q];
      var s' := After(cfg, s, steps + [ApplyPatch(q, true)]);
      && s'.clock == now.clock && Current(s') == store
      && store == Current(now)[query.phase.pod.name :=
                    WithAllocated(cfg, query.phase.pod, query.req.character).(version := |now.history|)]
  {
    hide AllSteady, OccupiedOpen, Legal, Open, WithAllocated;
    var now := After(cfg, s, steps);
    var query := now.queries[q];
    var s' := Apply(cfg, now, ApplyPatch(q, true));
    store := Assigned(cfg, now, query.phase.pod.name, query.req.character);
    assert Current(s') == store;
    AssigningKeepsOpen(cfg, Current(now), query.phase.pod, query.req.character, |now.history|, now.clock);
    SteadyExtends(cfg, s, steps, ApplyPatch(q, true));
  }
}
