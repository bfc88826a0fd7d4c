/** Pods as the director sees them, its configuration, and the filters applied to a Pod list. */
module Pods {
  import opened Wrappers
  import opened Ordering
  import opened JsonPath
  import opened Backend

  datatype Condition = Condition(kind: string, status: string)

  datatype PodStatus = PodStatus(phase: Option<string>, podIp: Option<string>, conditions: seq<Condition>)

  /**
   * `version` is the resource version: the cluster revision that last wrote the Pod.
   * `body` is the part of the resource that path expressions are evaluated on.
   */
  datatype Pod = Pod(
    name: string,
    uid: Option<string>,
    version: nat,
    deleting: bool,
    labels: map<string, string>,
    annotations: Option<map<string, string>>,
    status: Option<PodStatus>,
    body: Json)

  type Store = map<string, Pod>

  datatype StatusQuery = StatusQuery(path: string, expected: seq<string>)

  datatype DemandConfig = DemandConfig(groups: map<string, string>, bootTimeout: nat)

  /** Text formats the director only reads: the annotation's JSON map and RFC 3339 instants. */
  datatype Codec = Codec(stamps: string -> Option<map<string, string>>, instant: string -> Option<int>)

  datatype Config = Config(
    mapLabel: string,
    maxCharacters: nat,
    characterPrefix: string,
    disconnectAnnotation: string,
    baseSelector: map<string, string>,
    annotationSelector: Option<map<string, string>>,
    statusQuery: Option<StatusQuery>,
    mapping: Mapping,
    dataPorts: seq<DataPort>,
    demand: Option<DemandConfig>,
    codec: Codec)

  const DRAIN_LABEL := "udp-director.io/draining"

  predicate Draining(pod: Pod) {
    DRAIN_LABEL in pod.labels && pod.labels[DRAIN_LABEL] == "true"
  }

  predicate Ready(pod: Pod) {
    && !pod.deleting
    && pod.status.Some?
    && pod.status.value.phase == Some("Running")
    && pod.status.value.podIp.Some?
    && exists c :: c in pod.status.value.conditions && c.kind == "Ready" && c.status == "True"
  }

  predicate MatchesStatus(body: Json, query: StatusQuery) {
    match Eval(body, query.path)
    case Found(Str(s)) => s in query.expected
    case Found(Num(n)) => (if n < 0 then "-" + Decimal(-n) else Decimal(n)) in query.expected
    case Found(Float(text)) => text in query.expected
    case Found(Bool(b)) => (if b then "true" else "false") in query.expected
    case _ => false
  }

  /** Every selector entry is present with its value. */
  predicate Includes(actual: map<string, string>, selector: map<string, string>) {
    forall k :: k in selector ==> k in actual && actual[k] == selector[k]
  }

  /** The label selector of a map: the configured one, with the map label overriding it. */
  function Selector(cfg: Config, mapName: string): map<string, string> {
    cfg.baseSelector[cfg.mapLabel := mapName]
  }

  predicate InMap(cfg: Config, mapName: string, pod: Pod) {
    Includes(pod.labels, Selector(cfg, mapName))
  }

  /** The filters the director applies itself after the server has applied the label selector. */
  predicate PassesFilters(cfg: Config, pod: Pod) {
    && (cfg.statusQuery.Some? ==> MatchesStatus(pod.body, cfg.statusQuery.value))
    && (cfg.annotationSelector.Some? ==>
          pod.annotations.Some? && Includes(pod.annotations.value, cfg.annotationSelector.value))
  }

  /** Pods of the store that a label-selected list or watch covers. */
  function Matching(cfg: Config, mapName: string, store: Store): Store {
    map n | n in store && InMap(cfg, mapName, store[n]) :: store[n]
  }

  /** `items` is a possible answer to a filtered list of the store, in any order. */
  ghost predicate IsListing(cfg: Config, mapName: string, store: Store, items: seq<Pod>) {
    && (forall i, j :: 0 <= i < j < |items| ==> items[i].name != items[j].name)
    && (forall p :: p in items <==>
          p.name in store && store[p.name] == p && InMap(cfg, mapName, p) && PassesFilters(cfg, p))
  }

  /** A listing depends only on the label-matching part of the store. */
  lemma ListingDependsOnMatching(cfg: Config, mapName: string, a: Store, b: Store, items: seq<Pod>)
    requires Matching(cfg, mapName, a) == Matching(cfg, mapName, b)
    requires IsListing(cfg, mapName, a, items)
    ensures IsListing(cfg, mapName, b, items)
  {
    forall p
      ensures p in items <==>
              p.name in b && b[p.name] == p && InMap(cfg, mapName, p) && PassesFilters(cfg, p)
    {
      assert (p.name in a && a[p.name] == p && InMap(cfg, mapName, p)) <==>
             (p.name in Matching(cfg, mapName, a) && Matching(cfg, mapName, a)[p.name] == p);
      assert (p.name in b && b[p.name] == p && InMap(cfg, mapName, p)) <==>
             (p.name in Matching(cfg, mapName, b) && Matching(cfg, mapName, b)[p.name] == p);
    }
  }

  /** Every annotation the selector names is present with its value; without annotations nothing matches. */
  method MatchesAnnotationSelector(annotations: Option<map<string, string>>, selector: map<string, string>)
    returns (matches: bool)
    ensures matches <==> annotations.Some? && Includes(annotations.value, selector)
  {
    if annotations == None {
      return false;
    }
    var keys := selector.Keys;
    while keys != {}
      invariant keys <= selector.Keys
      invariant forall k :: k in selector.Keys - keys ==> k in annotations.value && annotations.value[k] == selector[k]
      decreases keys
    {
      var k :| k in keys;
      if k !in annotations.value || annotations.value[k] != selector[k] {
        return false;
      }
      keys := keys - {k};
    }
    return true;
  }

  /** Client-side filtering of a list answer: the Pods that pass, in the order of the answer. */
  method FilterListing(cfg: Config, answer: seq<Pod>) returns (items: seq<Pod>)
    ensures items == Filter((p: Pod) => PassesFilters(cfg, p), answer)
  {
    ghost var keep := (p: Pod) => PassesFilters(cfg, p);
    items := [];
    for i := 0 to |answer|
      invariant items == Filter(keep, answer[..i])
    {
      FilterGrows(keep, answer, i);
      var passes := cfg.statusQuery.Some? ==> MatchesStatus(answer[i].body, cfg.statusQuery.value);
      if passes && cfg.annotationSelector.Some? {
        passes := MatchesAnnotationSelector(answer[i].annotations, cfg.annotationSelector.value);
      }
      if passes {
        items := items + [answer[i]];
      }
    }
    assert answer[..|answer|] == answer;
  }

  ghost predicate DistinctNames(pods: seq<Pod>) {
    forall i, j :: 0 <= i < j < |pods| ==> pods[i].name != pods[j].name
  }

  lemma {:induction false} FilterKeepsDistinct(keep: Pod -> bool, pods: seq<Pod>)
    requires DistinctNames(pods)
    ensures DistinctNames(Filter(keep, pods))
  {
    if pods != [] {
      FilterKeepsDistinct(keep, pods[1..]);
      FilterMembers(keep, pods[1..]);
      var rest := Filter(keep, pods[1..]);
      forall j | 0 <= j < |rest| ensures rest[j].name != pods[0].name {
        assert rest[j] in pods[1..];
      }
    }
  }

  /** Filtering the server's answer, which holds each label-matching Pod once, gives a listing of the store. */
  lemma FilteredAnswerIsListing(cfg: Config, mapName: string, store: Store, answer: seq<Pod>)
    requires DistinctNames(answer)
    requires forall p :: p in answer <==> p.name in store && store[p.name] == p && InMap(cfg, mapName, p)
    ensures IsListing(cfg, mapName, store, Filter((p: Pod) => PassesFilters(cfg, p), answer))
  {
    hide InMap, PassesFilters;
    var keep := (p: Pod) => PassesFilters(cfg, p);
    FilterKeepsDistinct(keep, answer);
    FilterMembers(keep, answer);
  }

  // ----- the watch -----

  /** `Changed` stands for added, modified and deleted; a failed event is the stream itself breaking. */
  datatype WatchEvent = Bookmark | Changed | ErrorEvent(code: nat) | Broken

  const GONE: nat := 410

  predicate Fails(event: WatchEvent) {
    event.Broken? || (event.ErrorEvent? && event.code != GONE)
  }

  /**
   * Waits until something other than a bookmark arrives. `version` is the list's revision and `refused` the error
   * code of a watch that could not be opened. The wait succeeds, and the Pods are to be listed again, on a
   * change, on an expired revision and on the end of the stream; it fails on any other error.
   */
  method WaitForPodChange(version: string, refused: Option<nat>, events: seq<WatchEvent>) returns (ok: bool)
    ensures version == "" ==> !ok
    ensures version != "" && refused.Some? ==> (ok <==> refused.value == GONE)
    ensures version != "" && refused == None ==>
              (ok <==> forall i :: 0 <= i < |events| && Fails(events[i]) ==>
                  exists j :: 0 <= j < i && !events[j].Bookmark?)
  {
    if version == "" {
      return false;
    }
    if refused.Some? {
      return refused.value == GONE;
    }
    for i := 0 to |events|
      invariant forall j :: 0 <= j < i ==> events[j].Bookmark?
    {
      if events[i].Bookmark? {
        continue;
      }
      return !Fails(events[i]);
    }
    return true;
  }
}
