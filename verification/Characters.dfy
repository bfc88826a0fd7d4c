/** Character labels on Pods: which characters are visible at an instant, and how a label write changes that. */
module Characters {
  import opened Wrappers
  import opened Ordering
  import opened Pods

  datatype Status = Allocated | Used | Disconnected

  datatype Character = Character(id: string, status: Status, disconnectedAt: Option<string>)

  /** How long a disconnected character stays visible, in nanoseconds: 120 seconds. */
  const RECONNECT: int := 120_000_000_000

  predicate IsAsciiAlphanumeric(c: char) {
    '0' <= c <= '9' || 'A' <= c <= 'Z' || 'a' <= c <= 'z'
  }

  predicate ValidId(id: string) {
    && id != ""
    && |id| <= 63
    && IsAsciiAlphanumeric(id[0])
    && IsAsciiAlphanumeric(id[|id| - 1])
    && forall c :: c in id ==> IsAsciiAlphanumeric(c) || c in "-_."
  }

  function Key(cfg: Config, id: string): string {
    cfg.characterPrefix + "/" + id
  }

  function ParseStatus(value: string): Option<Status> {
    if value == "Allocated" then Some(Allocated)
    else if value == "Used" then Some(Used)
    else if value == "Disconnected" then Some(Disconnected)
    else None
  }

  /** Disconnect instants by character; a missing or malformed annotation reads as empty. */
  function Stamps(cfg: Config, pod: Pod): map<string, string> {
    if pod.annotations == None || cfg.disconnectAnnotation !in pod.annotations.value then map[]
    else
      match cfg.codec.stamps(pod.annotations.value[cfg.disconnectAnnotation])
      case Some(stamps) => stamps
      case None => map[]
  }

  function Stamp(cfg: Config, pod: Pod, id: string): Option<int> {
    if id in Stamps(cfg, pod) then cfg.codec.instant(Stamps(cfg, pod)[id]) else None
  }

  /** What the Pod shows of one character at `now`. */
  function Sighting(cfg: Config, pod: Pod, id: string, now: int): Option<Character> {
    if !ValidId(id) || Key(cfg, id) !in pod.labels then None
    else
      var status := ParseStatus(pod.labels[Key(cfg, id)]);
      if status == None then None
      else if status.value != Disconnected then Some(Character(id, status.value, None))
      else
        match Stamp(cfg, pod, id)
        case None => None
        case Some(at) =>
          if now < at || now >= at + RECONNECT then None
          else Some(Character(id, Disconnected, Some(Stamps(cfg, pod)[id])))
  }

  predicate Visible(cfg: Config, pod: Pod, id: string, now: int) {
    Sighting(cfg, pod, id, now).Some?
  }

  predicate IsUsed(cfg: Config, pod: Pod, id: string) {
    ValidId(id) && Key(cfg, id) in pod.labels && pod.labels[Key(cfg, id)] == "Used"
  }

  predicate HasPrefix(cfg: Config, key: string) {
    cfg.characterPrefix + "/" <= key
  }

  function IdOf(cfg: Config, key: string): string
    requires HasPrefix(cfg, key)
  {
    key[|cfg.characterPrefix| + 1..]
  }

  /** The characters that occupy a Pod at `now`. */
  function VisibleIds(cfg: Config, pod: Pod, now: int): (ids: set<string>)
    ensures forall id :: id in ids <==> Visible(cfg, pod, id, now)
  {
    var ids := set k | k in pod.labels && HasPrefix(cfg, k) && Visible(cfg, pod, IdOf(cfg, k), now) :: IdOf(cfg, k);
    assert forall id :: Visible(cfg, pod, id, now) ==> IdOf(cfg, Key(cfg, id)) == id;
    ids
  }

  // ----- reading a Pod's characters -----

  ghost predicate StrictlySorted(chars: seq<Character>) {
    forall i, j :: 0 <= i < j < |chars| ==> StringLeq(chars[i].id, chars[j].id) && chars[i].id != chars[j].id
  }

  predicate IdLeq(a: Character, b: Character) { StringLeq(a.id, b.id) }

  lemma IdLeqIsTotalPreorder()
    ensures TotalPreorder(IdLeq)
  {
    forall a: Character, b: Character ensures IdLeq(a, b) || IdLeq(b, a) {
      StringLeqTotal(a.id, b.id);
    }
    forall a: Character, b: Character, c: Character | IdLeq(a, b) && IdLeq(b, c) ensures IdLeq(a, c) {
      StringLeqTransitive(a.id, b.id, c.id);
    }
  }

  /** `chars` lists exactly the visible requested characters (all of them when none is named), in increasing order. */
  ghost predicate IsReading(cfg: Config, pod: Pod, requested: seq<string>, now: int, chars: seq<Character>) {
    && StrictlySorted(chars)
    && forall c :: c in chars <==>
         Sighting(cfg, pod, c.id, now) == Some(c) && (requested == [] || c.id in requested)
  }

  /** The label scan: strip the prefix, skip everything that is not a requested visible character, then sort. */
  method CharactersOnPod(cfg: Config, pod: Pod, requested: seq<string>, now: int) returns (result: seq<Character>)
    ensures IsReading(cfg, pod, requested, now, result)
  {
    var found: seq<Character> := [];
    var keys := pod.labels.Keys;
    while keys != {}
      invariant keys <= pod.labels.Keys
      invariant forall i, j :: 0 <= i < j < |found| ==> found[i].id != found[j].id
      invariant forall c :: c in found <==>
                  Key(cfg, c.id) in pod.labels.Keys - keys &&
                  Sighting(cfg, pod, c.id, now) == Some(c) && (requested == [] || c.id in requested)
      decreases keys
    {
      var key :| key in keys;
      keys := keys - {key};
      if !HasPrefix(cfg, key) {
        continue;
      }
      var id := IdOf(cfg, key);
      assert Key(cfg, id) == key;
      if !ValidId(id) || (requested != [] && id !in requested) {
        continue;
      }
      var status := ParseStatus(pod.labels[key]);
      if status == None {
        continue;
      }
      var disconnectedAt: Option<string> := None;
      if status.value == Disconnected {
        if id !in Stamps(cfg, pod) {
          continue;
        }
        var at := cfg.codec.instant(Stamps(cfg, pod)[id]);
        if at == None || now < at.value || now >= at.value + RECONNECT {
          continue;
        }
        disconnectedAt := Some(Stamps(cfg, pod)[id]);
      }
      found := found + [Character(id, status.value, disconnectedAt)];
    }
    result := Sort(IdLeq, found);
    SortedDistinct(found);
  }

  lemma SortedDistinct(found: seq<Character>)
    requires forall i, j :: 0 <= i < j < |found| ==> found[i].id != found[j].id
    ensures StrictlySorted(Sort(IdLeq, found))
    ensures forall c :: c in Sort(IdLeq, found) <==> c in found
  {
    IdLeqIsTotalPreorder();
    SortSorts(IdLeq, found);
    SortPermutes(IdLeq, found);
    SortMembers(IdLeq, found);
    var sorted := Sort(IdLeq, found);
    forall i, j | 0 <= i < j < |sorted| ensures sorted[i].id != sorted[j].id {
      if sorted[i].id == sorted[j].id {
        assert sorted[i] in found && sorted[j] in found;
        TwiceCountsTwice(sorted, i, j);
        DistinctCountsOnce(found, sorted[i]);
      }
    }
  }

  lemma TwiceCountsTwice(s: seq<Character>, i: nat, j: nat)
    requires i < j < |s| && s[i] == s[j]
    ensures multiset(s)[s[i]] >= 2
  {
    assert s == s[..j] + s[j..];
    assert s[i] in s[..j] && s[j] in s[j..];
  }

  lemma {:induction false} DistinctCountsOnce(found: seq<Character>, c: Character)
    requires forall i, j :: 0 <= i < j < |found| ==> found[i].id != found[j].id
    ensures multiset(found)[c] <= 1
  {
    if found != [] {
      assert found == [found[0]] + found[1..];
      DistinctCountsOnce(found[1..], c);
      if found[0] == c && c in found[1..] {
        assert false;
      }
    }
  }

  /** A strictly sorted list is determined by its elements. */
  lemma {:induction false} StrictlySortedUnique(a: seq<Character>, b: seq<Character>)
    requires StrictlySorted(a) && StrictlySorted(b)
    requires forall c :: c in a <==> c in b
    ensures a == b
  {
    assert a != [] ==> a[0] in b;
    assert b != [] ==> b[0] in a;
    if a != [] && b != [] {
      if a[0] != b[0] {
        assert a[0] in b && b[0] in a;
        StringLeqAntisymmetric(a[0].id, b[0].id);
      }
      forall c ensures c in a[1..] <==> c in b[1..] {
        if c in a[1..] { assert c in b && c != b[0]; }
        if c in b[1..] { assert c in a && c != a[0]; }
      }
      StrictlySortedUnique(a[1..], b[1..]);
    }
  }

  /** The list reply's own filter: keep the requested ids, or everything when none is requested. */
  method RetainRequested(chars: seq<Character>, requested: seq<string>) returns (kept: seq<Character>)
    requires StrictlySorted(chars)
    ensures StrictlySorted(kept)
    ensures forall c :: c in kept <==> c in chars && (requested == [] || c.id in requested)
  {
    kept := [];
    for i := 0 to |chars|
      invariant forall c :: c in kept <==> c in chars[..i] && (requested == [] || c.id in requested)
      invariant StrictlySorted(kept)
    {
      assert chars[..i + 1] == chars[..i] + [chars[i]];
      if requested == [] || chars[i].id in requested {
        forall c | c in kept ensures StringLeq(c.id, chars[i].id) && c.id != chars[i].id {
          assert c in chars[..i];
        }
        kept := kept + [chars[i]];
      }
    }
    assert chars[..|chars|] == chars;
  }

  /** Only one list is the reading; and listing everything, then retaining the requested ids, yields that list. */
  lemma RetainedListIsTheReading(cfg: Config, pod: Pod, requested: seq<string>, now: int,
                                 all: seq<Character>, kept: seq<Character>, direct: seq<Character>)
    requires IsReading(cfg, pod, [], now, all) && IsReading(cfg, pod, requested, now, direct)
    requires StrictlySorted(kept)
    requires forall c :: c in kept <==> c in all && (requested == [] || c.id in requested)
    ensures kept == direct
  {
    StrictlySortedUnique(kept, direct);
  }

  /** The list a scan returns has as many entries as the Pod has visible characters. */
  lemma ReadingCountsVisible(cfg: Config, pod: Pod, now: int, chars: seq<Character>)
    requires IsReading(cfg, pod, [], now, chars)
    ensures |chars| == |VisibleIds(cfg, pod, now)|
  {
    forall id ensures id in VisibleIds(cfg, pod, now) <==> exists c :: c in chars && c.id == id {
      if id in VisibleIds(cfg, pod, now) {
        assert Sighting(cfg, pod, id, now).value in chars;
      }
    }
    SortedListCountsIds(chars, VisibleIds(cfg, pod, now));
  }

  lemma {:induction false} SortedListCountsIds(chars: seq<Character>, ids: set<string>)
    requires StrictlySorted(chars)
    requires forall id :: id in ids <==> exists c :: c in chars && c.id == id
    ensures |ids| == |chars|
  {
    if chars == [] {
      assert ids == {};
    } else {
      var rest := ids - {chars[0].id};
      assert chars[0] in chars;
      forall id ensures id in rest <==> exists c :: c in chars[1..] && c.id == id {
        if id in rest {
          var c :| c in chars && c.id == id;
          assert c in chars[1..];
        }
        if c :| c in chars[1..] && c.id == id {
          assert c in chars;
        }
      }
      SortedListCountsIds(chars[1..], rest);
    }
  }

  // ----- visibility over time -----

  /** No disconnected character carries an instant later than `now`. */
  predicate NoFutureStamps(cfg: Config, pod: Pod, now: int) {
    forall k :: k in pod.labels && HasPrefix(cfg, k) && ValidId(IdOf(cfg, k)) && pod.labels[k] == "Disconnected" ==>
      Stamp(cfg, pod, IdOf(cfg, k)).Some? ==> Stamp(cfg, pod, IdOf(cfg, k)).value <= now
  }

  /** Once its instants are past, a Pod only loses visible characters as time goes by. */
  lemma VisibilityOnlyShrinks(cfg: Config, pod: Pod, earlier: int, later: int)
    requires earlier <= later && NoFutureStamps(cfg, pod, earlier)
    ensures NoFutureStamps(cfg, pod, later)
    ensures VisibleIds(cfg, pod, later) <= VisibleIds(cfg, pod, earlier)
  {
    forall id | id in VisibleIds(cfg, pod, later) ensures id in VisibleIds(cfg, pod, earlier) {
      var key := Key(cfg, id);
      assert HasPrefix(cfg, key) && IdOf(cfg, key) == id;
    }
  }

  /**
   * Shrinking needs that hypothesis exactly: it holds for all later instants if and only if no stamp is hidden in
   * the future.
   */
  lemma ShrinksExactlyWithoutFutureStamps(cfg: Config, pod: Pod, now: int)
    ensures NoFutureStamps(cfg, pod, now) <==>
            forall later :: now <= later ==> VisibleIds(cfg, pod, later) <= VisibleIds(cfg, pod, now)
  {
    if NoFutureStamps(cfg, pod, now) {
      forall later | now <= later ensures VisibleIds(cfg, pod, later) <= VisibleIds(cfg, pod, now) {
        VisibilityOnlyShrinks(cfg, pod, now, later);
      }
    } else {
      var k :| k in pod.labels && HasPrefix(cfg, k) && ValidId(IdOf(cfg, k)) && pod.labels[k] == "Disconnected" &&
               Stamp(cfg, pod, IdOf(cfg, k)).Some? && Stamp(cfg, pod, IdOf(cfg, k)).value > now;
      var id := IdOf(cfg, k);
      var at := Stamp(cfg, pod, id).value;
      assert Key(cfg, id) == k;
      assert id in VisibleIds(cfg, pod, at) && id !in VisibleIds(cfg, pod, now);
    }
  }

  // ----- the assignment write -----

  function WithLabel(cfg: Config, pod: Pod, id: string, value: string): Pod {
    pod.(labels := pod.labels[Key(cfg, id) := value])
  }

  /** The merge patch of an assignment (section 2 of RFC 7396): one label set, everything else kept. */
  function WithAllocated(cfg: Config, pod: Pod, id: string): Pod {
    WithLabel(cfg, pod, id, "Allocated")
  }

  /** Labelling a character `Allocated` or `Used` shows exactly that character in addition, at any instant. */
  lemma LabelAddsOne(cfg: Config, pod: Pod, id: string, value: string, now: int)
    requires ValidId(id) && (value == "Allocated" || value == "Used")
    ensures VisibleIds(cfg, WithLabel(cfg, pod, id, value), now) == VisibleIds(cfg, pod, now) + {id}
    ensures NoFutureStamps(cfg, pod, now) ==> NoFutureStamps(cfg, WithLabel(cfg, pod, id, value), now)
  {
    var after := WithLabel(cfg, pod, id, value);
    forall other | other != id ensures Sighting(cfg, after, other, now) == Sighting(cfg, pod, other, now) {
      assert Key(cfg, other)[|cfg.characterPrefix| + 1..] == other;
      assert Key(cfg, id)[|cfg.characterPrefix| + 1..] == id;
    }
    forall k | k in after.labels && HasPrefix(cfg, k) && after.labels[k] == "Disconnected"
      ensures k in pod.labels && pod.labels[k] == "Disconnected"
      ensures Stamp(cfg, after, IdOf(cfg, k)) == Stamp(cfg, pod, IdOf(cfg, k))
    {
    }
  }

  /** Assigning adds exactly that character, whatever the Pod showed before. */
  lemma AllocationAddsOne(cfg: Config, pod: Pod, id: string, now: int)
    requires ValidId(id)
    ensures VisibleIds(cfg, WithAllocated(cfg, pod, id), now) == VisibleIds(cfg, pod, now) + {id}
    ensures NoFutureStamps(cfg, pod, now) ==> NoFutureStamps(cfg, WithAllocated(cfg, pod, id), now)
  {
    LabelAddsOne(cfg, pod, id, "Allocated", now);
  }

  /** No entry of a selector is itself a character label. */
  predicate SelectorsAreNotCharacters(cfg: Config) {
    !HasPrefix(cfg, cfg.mapLabel) && forall k :: k in cfg.baseSelector ==> !HasPrefix(cfg, k)
  }

  lemma LabelKeepsMap(cfg: Config, pod: Pod, id: string, value: string, mapName: string)
    requires SelectorsAreNotCharacters(cfg)
    ensures InMap(cfg, mapName, WithLabel(cfg, pod, id, value)) == InMap(cfg, mapName, pod)
  {
    assert HasPrefix(cfg, Key(cfg, id));
    var after := WithLabel(cfg, pod, id, value);
    forall k | k in Selector(cfg, mapName)
      ensures (k in after.labels && after.labels[k] == Selector(cfg, mapName)[k]) <==>
              (k in pod.labels && pod.labels[k] == Selector(cfg, mapName)[k])
    {
      assert k != Key(cfg, id);
    }
  }
}
