/** A run from an idle start, on a concrete configuration, that ends with a character on two Pods. */
module LapsedRun {
  import opened Wrappers
  import opened JsonPath
  import opened Backend
  import opened Pods
  import opened Characters
  import opened Selection
  import opened Demand
  import opened Protocol
  import opened Invariants
  import opened Capacity
  import opened Uniqueness
  import Lapse

  lemma {:induction false} SteadyConcatenates(cfg: Config, s: State, first: seq<Step>, second: seq<Step>)
    requires Legal(cfg, s, first) && AllSteady(cfg, s, first)
    requires Legal(cfg, After(cfg, s, first), second) && AllSteady(cfg, After(cfg, s, first), second)
    ensures Legal(cfg, s, first + second) && AllSteady(cfg, s, first + second)
    ensures After(cfg, s, first + second) == After(cfg, After(cfg, s, first), second)
    decreases |second|
  {
    hide Enabled, Apply, Disciplined, KeepsMaps, OccupiedOpen;
    if second == [] {
      assert first + second == first;
    } else {
      var n := |second| - 1;
      SteadyConcatenates(cfg, s, first, second[..n]);
      Lapse.SteadyExtends(cfg, s, first + second[..n], second[n]);
      assert first + second[..n] + [second[n]] == first + second;
    }
  }

  /**
   * Two open Pods of one map with resolved targets: `near` shows nothing and has the lesser identity, `home`
   * shows exactly the character, disconnected at `t`.
   */
  ghost predicate Scene(cfg: Config, near: Pod, home: Pod, req: Request, t: int) {
    && SelectorsAreNotCharacters(cfg) && 1 <= cfg.maxCharacters && ValidRequest(req) && req.friends == []
    && near.name != home.name && near.version == 0 && home.version == 0
    && Open(cfg, near) && Open(cfg, home) && InMap(cfg, req.mapName, near) && InMap(cfg, req.mapName, home)
    && near.uid.Some? && home.uid.Some? && near.uid != home.uid && UidLeq(near.uid, home.uid)
    && QueryTarget(cfg.mapping, cfg.dataPorts, near.body).Some?
    && NoFutureStamps(cfg, near, t) && NoFutureStamps(cfg, home, t)
    && VisibleIds(cfg, near, t) == {} && VisibleIds(cfg, near, t + RECONNECT) == {}
    && VisibleIds(cfg, home, t) == {req.character} && VisibleIds(cfg, home, t + RECONNECT) == {}
    && !IsUsed(cfg, near, req.character)
  }

  function Idle(near: Pod, home: Pod, t: int): State {
    State(t, [map[near.name := near, home.name := home]],
          map[0 := Director(None, [], EMPTY_BOARD, map[])], map[], map[])
  }

  /** The one query of the run in a given phase, before or after it takes the lock. */
  function Going(near: Pod, home: Pod, req: Request, t: int, locked: bool, phase: Phase): State {
    Idle(near, home, t).(
      directors := map[0 := if locked then Director(Some(0), [0], EMPTY_BOARD, map[])
                            else Director(None, [], EMPTY_BOARD, map[])],
      queries := map[0 := Query(0, "client", req, None, 0, phase)])
  }

  function AfterList(near: Pod, home: Pod, req: Request, t: int): State {
    Going(near, home, req, t, true, Deciding([near, home], 0, t))
  }

  /** Once the entry has lapsed both Pods are empty and the lesser identity wins. */
  lemma LapsedDecision(cfg: Config, near: Pod, home: Pod, req: Request, t: int)
    requires Scene(cfg, near, home, req, t)
    ensures var decision := Decide(cfg, req, [near, home], t + RECONNECT);
            decision.Assign? && decision.pod == near
  {
    var items := [near, home];
    var now := t + RECONNECT;
    hide InMap, PassesFilters, QueryTarget, NoFutureStamps;
    RankedHeadIsOptimum(cfg, req, items, now);
    assert near in items;
    assert !Visible(cfg, near, req.character, now) && !Visible(cfg, home, req.character, now);
    assert Eligible(cfg, req, now, near);
    var best := Ranked(cfg, req, items, now)[0];
    assert RankOf(cfg, req, now, near) == Rank(true, 0, 0, near.uid);
    assert RankOf(cfg, req, now, home) == Rank(true, 0, 0, home.uid);
    if best == home {
      UidLeqLaws(near.uid, home.uid, near.uid);
    }
  }

  lemma SceneListing(cfg: Config, near: Pod, home: Pod, req: Request, t: int)
    requires Scene(cfg, near, home, req, t)
    ensures IsListing(cfg, req.mapName, map[near.name := near, home.name := home], [near, home])
  {
    hide InMap, PassesFilters, QueryTarget, NoFutureStamps, Visible, UidLeq;
    var store := map[near.name := near, home.name := home];
    forall p ensures p in [near, home] <==>
                       p.name in store && store[p.name] == p && InMap(cfg, req.mapName, p) && PassesFilters(cfg, p)
    {
    }
  }

  lemma IdleIsOrderly(cfg: Config, near: Pod, home: Pod, req: Request, t: int)
    requires Scene(cfg, near, home, req, t)
    ensures var s0 := Idle(near, home, t);
            && Init(s0) && OneDirector(s0) && AllFit(cfg, s0)
            && UniqueIn(cfg, Current(s0), s0.clock) && OccupiedOpen(cfg, Current(s0), s0.clock)
  {
    hide InMap, QueryTarget, NoFutureStamps, UidLeq, Visible, PassesFilters, Ready, Draining;
    var s0 := Idle(near, home, t);
    forall m, n, id | ShowsAt(cfg, Current(s0), m, n, id, t) ensures n == home.name {
      assert id in VisibleIds(cfg, Current(s0)[n], t);
    }
    forall r, n | 0 <= r < |s0.history| && n in s0.history[r] ensures Fits(cfg, s0.history[r][n], s0.clock) {
    }
  }

  /** A step that neither writes a Pod nor moves the clock needs no more than being enabled. */
  lemma QuietExtends(cfg: Config, s: State, steps: seq<Step>, step: Step)
    requires Legal(cfg, s, steps) && AllSteady(cfg, s, steps) && Enabled(cfg, After(cfg, s, steps), step)
    requires !step.Outside?
    requires var now := After(cfg, s, steps);
             Apply(cfg, now, step).history == now.history && Apply(cfg, now, step).clock == now.clock
    ensures Legal(cfg, s, steps + [step]) && AllSteady(cfg, s, steps + [step])
    ensures After(cfg, s, steps + [step]) == Apply(cfg, After(cfg, s, steps), step)
  {
    hide Enabled, Apply, Legal, AllSteady, OccupiedOpen;
    OpenNow(cfg, s, steps);
    assert Current(Apply(cfg, After(cfg, s, steps), step)) == Current(After(cfg, s, steps));
    Lapse.SteadyExtends(cfg, s, steps, step);
  }

  lemma Arriving(cfg: Config, near: Pod, home: Pod, req: Request, t: int)
    requires ValidRequest(req)
    ensures var step := Arrive(0, 0, "client", req);
            Enabled(cfg, Idle(near, home, t), step) &&
            Apply(cfg, Idle(near, home, t), step) == Going(near, home, req, t, false, Queued)
  {
    hide ValidRequest;
  }

  lemma Acquiring(cfg: Config, near: Pod, home: Pod, req: Request, t: int)
    ensures var s := Going(near, home, req, t, false, Queued);
            Enabled(cfg, s, Acquire(0)) && Apply(cfg, s, Acquire(0)) == Going(near, home, req, t, true, Listing(false))
  {
    var s := Going(near, home, req, t, false, Queued);
    assert s.directors[0].grants + [0] == [0];
    assert Apply(cfg, s, Acquire(0)).directors == Going(near, home, req, t, true, Listing(false)).directors;
    assert Apply(cfg, s, Acquire(0)).queries == Going(near, home, req, t, true, Listing(false)).queries;
  }

  lemma ListingNow(cfg: Config, near: Pod, home: Pod, req: Request, t: int)
    requires IsListing(cfg, req.mapName, map[near.name := near, home.name := home], [near, home])
    ensures var s := Going(near, home, req, t, true, Listing(false));
            && Enabled(cfg, s, List(0, [near, home]))
            && Apply(cfg, s, List(0, [near, home])) == AfterList(near, home, req, t)
  {
    hide IsListing;
  }

  /** Arrive, take the lock, list. */
  lemma ReachList(cfg: Config, near: Pod, home: Pod, req: Request, t: int) returns (steps: seq<Step>)
    requires Scene(cfg, near, home, req, t)
    ensures Legal(cfg, Idle(near, home, t), steps) && AllSteady(cfg, Idle(near, home, t), steps)
    ensures After(cfg, Idle(near, home, t), steps) == AfterList(near, home, req, t)
  {
    hide OccupiedOpen, IsListing, ValidRequest, AllFit, UniqueIn, OneDirector, Legal, AllSteady, Enabled, Apply;
    var s0 := Idle(near, home, t);
    IdleIsOrderly(cfg, near, home, req, t);
    SceneListing(cfg, near, home, req, t);
    Lapse.EmptyRun(cfg, s0);
    Arriving(cfg, near, home, req, t);
    QuietExtends(cfg, s0, [], Arrive(0, 0, "client", req));
    steps := [] + [Arrive(0, 0, "client", req)];
    Acquiring(cfg, near, home, req, t);
    QuietExtends(cfg, s0, steps, Acquire(0));
    steps := steps + [Acquire(0)];
    ListingNow(cfg, near, home, req, t);
    QuietExtends(cfg, s0, steps, List(0, [near, home]));
    steps := steps + [List(0, [near, home])];
  }

  lemma ListLapses(cfg: Config, near: Pod, home: Pod, req: Request, t: int)
    requires Scene(cfg, near, home, req, t)
    ensures Lapse.Lapses(cfg, AfterList(near, home, req, t), 0, home.name, t + RECONNECT)
  {
    hide Decide, IsListing, InMap, QueryTarget, NoFutureStamps, UidLeq, PassesFilters, ValidRequest, Eligible;
    LapsedDecision(cfg, near, home, req, t);
    SceneListing(cfg, near, home, req, t);
    RequestIdIsValid(req);
    assert req.character in VisibleIds(cfg, home, t);
  }

  lemma RequestIdIsValid(req: Request)
    requires ValidRequest(req)
    ensures ValidId(req.character)
  {
  }

  lemma ListIsChronicle(cfg: Config, near: Pod, home: Pod, req: Request, t: int)
    requires Scene(cfg, near, home, req, t)
    ensures var s := AfterList(near, home, req, t);
            Chronicle(s) && AllFit(cfg, s) && OccupiedOpen(cfg, Current(s), s.clock)
  {
    hide InMap, QueryTarget, NoFutureStamps, UidLeq, Visible, PassesFilters, Ready, Draining, OccupiedOpen;
    IdleIsOrderly(cfg, near, home, req, t);
    var s := AfterList(near, home, req, t);
    assert s.history == Idle(near, home, t).history;
    forall r, n | 0 <= r < |s.history| && n in s.history[r] ensures WrittenAt(s, s.history[r][n], n, r) {
    }
  }

  /**
   * From an idle start that satisfies every hypothesis of the uniqueness theorem, a run that satisfies all of
   * them but the sticky choice ends with the character on two Pods of its map.
   */
  lemma SceneDoublesCharacter(cfg: Config, near: Pod, home: Pod, req: Request, t: int) returns (steps: seq<Step>)
    requires Scene(cfg, near, home, req, t)
    ensures var s0 := Idle(near, home, t);
            && Init(s0) && OneDirector(s0) && AllFit(cfg, s0) && UniqueIn(cfg, Current(s0), s0.clock)
            && Legal(cfg, s0, steps) && AllSteady(cfg, s0, steps)
            && !UniqueIn(cfg, Current(After(cfg, s0, steps)), After(cfg, s0, steps).clock)
  {
    hide Init, Enabled, Apply, AllSteady, Legal, UniqueIn, OccupiedOpen, AllFit, Chronicle, Lapse.Lapses, OneDirector;
    IdleIsOrderly(cfg, near, home, req, t);
    var first := ReachList(cfg, near, home, req, t);
    ListIsChronicle(cfg, near, home, req, t);
    ListLapses(cfg, near, home, req, t);
    var second := Lapse.LapsedEntryDoublesCharacter(cfg, AfterList(near, home, req, t), 0, home.name, t + RECONNECT);
    SteadyConcatenates(cfg, Idle(near, home, t), first, second);
    steps := first + second;
  }

  // ----- one such scene -----

  function Body(): Json {
    Obj(map["ip" := Str("10.0.0.1"), "port" := Num(7777)])
  }

  function RunningStatus(): PodStatus {
    PodStatus(Some("Running"), Some("10.0.0.1"), [Condition("Ready", "True")])
  }

  function PlainConfig(): Config {
    Config("map", 1, "c", "at", map[], None, None,
           Mapping(Some("ip"), None, Some("port"), None, None), [DataPort(7777, Udp, "game")], None,
           Codec((text: string) => Some(map["x" := "now"]), (text: string) => Some(0)))
  }

  function NearPod(): Pod {
    Pod("near", Some("a"), 0, false, map["map" := "m"], None, Some(RunningStatus()), Body())
  }

  function HomePod(): Pod {
    Pod("home", Some("b"), 0, false, map["map" := "m", "c/x" := "Disconnected"], Some(map["at" := "stamps"]),
        Some(RunningStatus()), Body())
  }

  lemma PlainTarget()
    ensures QueryTarget(PlainConfig().mapping, PlainConfig().dataPorts, Body()).Some?
  {
    FieldPath("ip");
    FieldPath("port");
    assert At(Body(), "ip") == Some(Str("10.0.0.1"));
    assert At(Body(), "port") == Some(Num(7777));
    assert Covered(PlainConfig().dataPorts, SinglePort(PlainConfig().dataPorts, 7777));
  }

  lemma FieldPath(name: string)
    requires '.' !in name && '[' !in name
    ensures At(Body(), name) == Field(Body(), name)
  {
    PrintedPathWalks(Body(), [Segment.Name(name)]);
  }

  lemma OnlyX(now: int)
    ensures VisibleIds(PlainConfig(), NearPod(), now) == {}
    ensures VisibleIds(PlainConfig(), HomePod(), now) == if 0 <= now < RECONNECT then {"x"} else {}
    ensures ValidId("x")
    ensures SelectorsAreNotCharacters(PlainConfig())
    ensures forall k :: k in HomePod().labels && HasPrefix(PlainConfig(), k) ==> IdOf(PlainConfig(), k) == "x"
    ensures forall k :: k in NearPod().labels ==> !HasPrefix(PlainConfig(), k)
  {
    var cfg := PlainConfig();
    assert ValidId("x");
    assert !("c/" <= "map") by { assert "map"[0] != "c/"[0]; }
    forall id ensures Key(cfg, id) != "map" {
      assert Key(cfg, id)[0] == 'c';
    }
    forall id | Key(cfg, id) == "c/x" ensures id == "x" {
      assert Key(cfg, id)[2..] == id;
    }
    assert Key(cfg, "x") == "c/x";
    assert Stamp(cfg, HomePod(), "x") == Some(0);
    forall id ensures !Visible(cfg, NearPod(), id, now) {
    }
    forall id ensures Visible(cfg, HomePod(), id, now) <==> id == "x" && 0 <= now < RECONNECT {
    }
  }

  lemma PlainPods()
    ensures var cfg := PlainConfig();
            && Open(cfg, NearPod()) && Open(cfg, HomePod())
            && InMap(cfg, "m", NearPod()) && InMap(cfg, "m", HomePod())
            && UidLeq(NearPod().uid, HomePod().uid)
  {
    assert Condition("Ready", "True") in RunningStatus().conditions;
  }

  lemma PlainStamps()
    ensures NoFutureStamps(PlainConfig(), NearPod(), 0) && NoFutureStamps(PlainConfig(), HomePod(), 0)
    ensures !IsUsed(PlainConfig(), NearPod(), "x")
  {
    hide Visible, ValidId;
    OnlyX(0);
    assert Stamp(PlainConfig(), HomePod(), "x") == Some(0);
    assert Key(PlainConfig(), "x")[0] == 'c';
  }

  /** The conditions of the scene can be met, so the doubled character is a real possibility. */
  lemma PlainScene()
    ensures Scene(PlainConfig(), NearPod(), HomePod(), Request("m", "x", []), 0)
  {
    hide Open, InMap, UidLeq, NoFutureStamps, IsUsed, Visible, QueryTarget, SelectorsAreNotCharacters;
    OnlyX(0);
    OnlyX(RECONNECT);
    PlainTarget();
    PlainPods();
    PlainStamps();
    assert ValidId("m");
  }

  /** That run, on the plain configuration. */
  lemma PlainRunDoublesCharacter() returns (steps: seq<Step>)
    ensures
      var cfg := PlainConfig();
      var s0 := Idle(NearPod(), HomePod(), 0);
      && Init(s0) && OneDirector(s0) && AllFit(cfg, s0) && UniqueIn(cfg, Current(s0), s0.clock)
      && SelectorsAreNotCharacters(cfg) && Legal(cfg, s0, steps) && AllSteady(cfg, s0, steps)
      && !UniqueIn(cfg, Current(After(cfg, s0, steps)), After(cfg, s0, steps).clock)
  {
    hide Init, OneDirector, AllFit, UniqueIn, Legal, AllSteady, Scene;
    PlainScene();
    OnlyX(0);
    steps := SceneDoublesCharacter(PlainConfig(), NearPod(), HomePod(), Request("m", "x", []), 0);
  }
}
