/** What an evaluation decides, said without the sort key and the branches that compute it. */
module Decisions {
  import opened Wrappers
  import opened Ordering
  import opened JsonPath
  import opened Backend
  import opened Pods
  import opened Characters
  import opened Selection

  // ----- who may be chosen -----

  /** The Pod accepts assignments: alive, running, with an address, ready, and not marked as draining. */
  lemma ReadyAndDraining(pod: Pod)
    ensures Ready(pod) <==>
            && !pod.deleting && pod.status.Some? && pod.status.value.phase == Some("Running")
            && pod.status.value.podIp.Some? && Condition("Ready", "True") in pod.status.value.conditions
    ensures Draining(pod) <==>
            "udp-director.io/draining" in pod.labels && pod.labels["udp-director.io/draining"] == "true"
  {
    if pod.status.Some? {
      var conditions := pod.status.value.conditions;
      if c :| c in conditions && c.kind == "Ready" && c.status == "True" {
        assert c == Condition("Ready", "True");
      }
    }
  }

  /** A character occupies a Pod while it is assigned or connected, and for 120 seconds from its disconnection. */
  lemma VisibleExactly(cfg: Config, pod: Pod, id: string, now: int)
    ensures
      var key := cfg.characterPrefix + "/" + id;
      Visible(cfg, pod, id, now) <==>
      && ValidId(id) && key in pod.labels
      && (pod.labels[key] == "Allocated" || pod.labels[key] == "Used" ||
          (pod.labels[key] == "Disconnected" && Stamp(cfg, pod, id).Some?
           && 0 <= now - Stamp(cfg, pod, id).value < 120 * 1_000_000_000))
  {
  }

  /** The instant of a disconnection is the annotation's entry, when both can be read. */
  lemma StampExactly(cfg: Config, pod: Pod, id: string, at: int)
    ensures
      Stamp(cfg, pod, id) == Some(at) <==>
      && pod.annotations.Some? && cfg.disconnectAnnotation in pod.annotations.value
      && var entries := cfg.codec.stamps(pod.annotations.value[cfg.disconnectAnnotation]);
         entries.Some? && id in entries.value && cfg.codec.instant(entries.value[id]) == Some(at)
  {
  }

  /** The reading of a Pod in terms of its labels: who is on it, in which state, and with which instant. */
  lemma ReadingExactly(cfg: Config, pod: Pod, requested: seq<string>, now: int, chars: seq<Character>, c: Character)
    requires IsReading(cfg, pod, requested, now, chars)
    ensures
      var key := cfg.characterPrefix + "/" + c.id;
      c in chars <==>
      && Visible(cfg, pod, c.id, now) && (requested == [] || c.id in requested)
      && pod.labels[key] == (match c.status case Allocated => "Allocated" case Used => "Used"
                                            case Disconnected => "Disconnected")
      && (c.disconnectedAt.Some? <==> c.status == Disconnected)
      && (c.status == Disconnected ==> c.disconnectedAt == Some(Stamps(cfg, pod)[c.id]))
  {
  }

  lemma EligibleExactly(cfg: Config, req: Request, now: int, pod: Pod)
    ensures Eligible(cfg, req, now, pod) <==>
            && Ready(pod) && !Draining(pod)
            && (req.character in VisibleIds(cfg, pod, now) || |VisibleIds(cfg, pod, now)| < cfg.maxCharacters)
  {
  }

  /** A Pod belongs to a map by its map label and the other labels the selector asks for. */
  lemma InMapExactly(cfg: Config, mapName: string, pod: Pod)
    ensures InMap(cfg, mapName, pod) <==>
            && cfg.mapLabel in pod.labels && pod.labels[cfg.mapLabel] == mapName
            && forall k :: k in cfg.baseSelector && k != cfg.mapLabel ==>
                 k in pod.labels && pod.labels[k] == cfg.baseSelector[k]
  {
    assert cfg.mapLabel in Selector(cfg, mapName);
  }

  /** The text a status value is compared by, if it has one. */
  function TextOf(json: Json): Option<string> {
    match json
    case Str(s) => Some(s)
    case Num(n) => Some(if n < 0 then "-" + Decimal(-n) else Decimal(n))
    case Float(text) => Some(text)
    case Bool(b) => Some(if b then "true" else "false")
    case _ => None
  }

  /** The configured filters: an expected status at the path, and every selected annotation. */
  lemma FiltersExactly(cfg: Config, pod: Pod)
    ensures PassesFilters(cfg, pod) <==>
            && (cfg.statusQuery.Some? ==>
                  var value := Eval(pod.body, cfg.statusQuery.value.path);
                  value.Found? && TextOf(value.json).Some?
                  && TextOf(value.json).value in cfg.statusQuery.value.expected)
            && (cfg.annotationSelector.Some? ==>
                  pod.annotations.Some? && forall k :: k in cfg.annotationSelector.value ==>
                    k in pod.annotations.value && pod.annotations.value[k] == cfg.annotationSelector.value[k])
  {
    hide Eval, Decimal;
  }

  // ----- which of them is chosen -----

  /** The first difference is at `k`, and `a` is the smaller there. */
  ghost predicate SmallerAt(a: string, b: string, k: nat) {
    k < |a| && k < |b| && a[..k] == b[..k] && a[k] < b[k]
  }

  /** `a` is a prefix of `b` or smaller at the first character where they differ. */
  ghost predicate Precedes(a: string, b: string) {
    a <= b || exists k: nat :: SmallerAt(a, b, k)
  }

  lemma SmallerLater(a: string, b: string, k: nat)
    requires a != "" && b != ""
    ensures SmallerAt(a, b, 0) <==> a[0] < b[0]
    ensures SmallerAt(a, b, k + 1) <==> a[0] == b[0] && SmallerAt(a[1..], b[1..], k)
  {
    if k < |a[1..]| && k < |b[1..]| {
      assert a[..k + 1] == [a[0]] + a[1..][..k] && b[..k + 1] == [b[0]] + b[1..][..k];
      assert a[..k + 1] == b[..k + 1] ==> a[..k + 1][0] == b[..k + 1][0] && a[..k + 1][1..] == b[..k + 1][1..];
    }
  }

  lemma {:induction false} StringLeqIsPrecedes(a: string, b: string)
    ensures StringLeq(a, b) <==> Precedes(a, b)
  {
    if a != "" && b != "" {
      hide SmallerAt;
      StringLeqIsPrecedes(a[1..], b[1..]);
      assert a <= b <==> a[0] == b[0] && a[1..] <= b[1..] by {
        assert a == [a[0]] + a[1..] && b == [b[0]] + b[1..];
      }
      SmallerLater(a, b, 0);
      if k: nat :| SmallerAt(a, b, k) {
        SmallerLater(a, b, if k > 0 then k - 1 else 0);
      }
      if k: nat :| SmallerAt(a[1..], b[1..], k) {
        SmallerLater(a, b, k);
      }
    }
  }

  function Friends(cfg: Config, req: Request, now: int, pod: Pod): set<string> {
    set id | id in VisibleIds(cfg, pod, now) && id in req.friends
  }

  /**
   * The Pod chosen, against every other that may be chosen: first the one that already has the character, then the
   * one with more friends, then the one with fewer characters, then the one with the lesser identity.
   */
  ghost predicate Preferred(cfg: Config, req: Request, now: int, h: Pod, p: Pod) {
    var holds := req.character in VisibleIds(cfg, h, now);
    var held := req.character in VisibleIds(cfg, p, now);
    && (held ==> holds)
    && (held == holds ==> |Friends(cfg, req, now, h)| >= |Friends(cfg, req, now, p)|)
    && (held == holds && |Friends(cfg, req, now, h)| == |Friends(cfg, req, now, p)| ==>
          |VisibleIds(cfg, h, now)| <= |VisibleIds(cfg, p, now)|)
    && (held == holds && |Friends(cfg, req, now, h)| == |Friends(cfg, req, now, p)|
        && |VisibleIds(cfg, h, now)| == |VisibleIds(cfg, p, now)| ==>
          h.uid == None || (p.uid.Some? && Precedes(h.uid.value, p.uid.value)))
  }

  lemma RankIsPreference(cfg: Config, req: Request, now: int, h: Pod, p: Pod)
    ensures RankLeq(RankOf(cfg, req, now, h), RankOf(cfg, req, now, p)) <==> Preferred(cfg, req, now, h, p)
  {
    hide Visible, StringLeq, Precedes;
    assert Friends(cfg, req, now, h) == VisibleIds(cfg, h, now) * FriendSet(req);
    assert Friends(cfg, req, now, p) == VisibleIds(cfg, p, now) * FriendSet(req);
    if h.uid.Some? && p.uid.Some? {
      StringLeqIsPrecedes(h.uid.value, p.uid.value);
    }
  }

  /** Some Pod is chosen exactly when one may be, and the chosen one is preferred to all that may. */
  lemma ChosenIsPreferred(cfg: Config, req: Request, items: seq<Pod>, now: int)
    ensures Ranked(cfg, req, items, now) == [] <==> forall p :: p in items ==> !Eligible(cfg, req, now, p)
    ensures Ranked(cfg, req, items, now) != [] ==>
              var h := Ranked(cfg, req, items, now)[0];
              && h in items && Eligible(cfg, req, now, h)
              && forall p :: p in items && Eligible(cfg, req, now, p) ==> Preferred(cfg, req, now, h, p)
  {
    hide Ranked, Eligible, RankOf, RankLeq, Preferred;
    RankedHeadIsOptimum(cfg, req, items, now);
    if Ranked(cfg, req, items, now) != [] {
      var h := Ranked(cfg, req, items, now)[0];
      forall p | p in items && Eligible(cfg, req, now, p) ensures Preferred(cfg, req, now, h, p) {
        RankIsPreference(cfg, req, now, h, p);
      }
    }
  }

  // ----- what is decided about it -----

  /** A Pod of the list that may be chosen and is preferred to every other that may. */
  ghost predicate Best(cfg: Config, req: Request, items: seq<Pod>, now: int, h: Pod) {
    && h in items && Eligible(cfg, req, now, h)
    && forall p :: p in items && Eligible(cfg, req, now, p) ==> Preferred(cfg, req, now, h, p)
  }

  lemma BestIsOptimum(cfg: Config, req: Request, items: seq<Pod>, now: int, h: Pod)
    ensures Best(cfg, req, items, now, h) <==> IsOptimum(cfg, req, items, now, h)
  {
    hide Eligible, RankOf, RankLeq, Preferred;
    forall p ensures RankLeq(RankOf(cfg, req, now, h), RankOf(cfg, req, now, p)) <==> Preferred(cfg, req, now, h, p) {
      RankIsPreference(cfg, req, now, h, p);
    }
  }

  /** The character's label on the Pod says it is connected. */
  predicate Connected(cfg: Config, pod: Pod, id: string) {
    var key := cfg.characterPrefix + "/" + id;
    key in pod.labels && pod.labels[key] == "Used"
  }

  /** The decision about the best Pod, whichever that is when identities repeat. */
  lemma DecidedOnBest(cfg: Config, req: Request, items: seq<Pod>, now: int, h: Pod)
    requires ValidRequest(req) && Ranked(cfg, req, items, now) != [] && h == Ranked(cfg, req, items, now)[0]
    ensures
      var target := QueryTarget(cfg.mapping, cfg.dataPorts, h.body);
      var decision := Decide(cfg, req, items, now);
      && (decision == Refused <==> h.uid == None || target == None)
      && (h.uid.Some? && target.Some? ==>
            decision == if Connected(cfg, h, req.character) then Keep(h, target.value) else Assign(h, target.value))
  {
    hide Ranked, QueryTarget;
  }

  /**
   * With distinct identities, each decision exactly: nothing may be chosen; the best Pod lacks an identity or a
   * backend; the character is connected on the best Pod; or it has to be assigned to it.
   */
  lemma DecisionExactly(cfg: Config, req: Request, items: seq<Pod>, now: int)
    requires ValidRequest(req) && DistinctUids(items)
    ensures
      var decision := Decide(cfg, req, items, now);
      && (decision == Cold <==> forall p :: p in items ==> !Eligible(cfg, req, now, p))
      && (decision == Refused <==>
            exists h :: Best(cfg, req, items, now, h)
                        && (h.uid == None || QueryTarget(cfg.mapping, cfg.dataPorts, h.body) == None))
      && (forall h, target :: decision == Keep(h, target) <==>
            && Best(cfg, req, items, now, h) && h.uid.Some?
            && QueryTarget(cfg.mapping, cfg.dataPorts, h.body) == Some(target) && Connected(cfg, h, req.character))
      && (forall h, target :: decision == Assign(h, target) <==>
            && Best(cfg, req, items, now, h) && h.uid.Some?
            && QueryTarget(cfg.mapping, cfg.dataPorts, h.body) == Some(target) && !Connected(cfg, h, req.character))
  {
    hide Ranked, Eligible, QueryTarget, Best, IsOptimum, Connected, ValidRequest;
    ColdExactly(cfg, req, items, now);
    var ranked := Ranked(cfg, req, items, now);
    forall h ensures Best(cfg, req, items, now, h) <==> ranked != [] && ranked[0] == h {
      BestIsOptimum(cfg, req, items, now, h);
      OptimumIsUnique(cfg, req, items, now, h);
    }
    if ranked != [] {
      DecidedOnBest(cfg, req, items, now, ranked[0]);
      assert Best(cfg, req, items, now, ranked[0]);
    }
  }

  lemma ColdExactly(cfg: Config, req: Request, items: seq<Pod>, now: int)
    ensures Decide(cfg, req, items, now) == Cold <==> Ranked(cfg, req, items, now) == []
    ensures Ranked(cfg, req, items, now) == [] <==> forall p :: p in items ==> !Eligible(cfg, req, now, p)
  {
    hide Eligible, Ranked;
    RankedHeadIsOptimum(cfg, req, items, now);
  }

  // ----- the order of lists -----

  /** Servers of an answer stand in ascending order of identity. */
  lemma ServersAscend(servers: seq<CharacterServer>)
    ensures SortedBy(ServerLeq, servers) <==>
            forall i, j :: 0 <= i < j < |servers| ==> Precedes(servers[i].server, servers[j].server)
  {
    hide StringLeq, Precedes;
    forall a: string, b: string ensures StringLeq(a, b) <==> Precedes(a, b) {
      StringLeqIsPrecedes(a, b);
    }
  }

  /** Characters of a reading stand in ascending order of id, each once. */
  lemma CharactersAscend(chars: seq<Character>)
    ensures StrictlySorted(chars) <==>
            forall i, j :: 0 <= i < j < |chars| ==> Precedes(chars[i].id, chars[j].id) && chars[i].id != chars[j].id
  {
    hide StringLeq, Precedes;
    forall a: string, b: string ensures StringLeq(a, b) <==> Precedes(a, b) {
      StringLeqIsPrecedes(a, b);
    }
  }
}
