/** What one pass over a Pod list decides: the ranked candidates of an access query, and the list reply. */
module Selection {
  import opened Wrappers
  import opened Ordering
  import opened Backend
  import opened Pods
  import opened Characters

  datatype Request = Request(mapName: string, character: string, friends: seq<string>)

  predicate ValidRequest(req: Request) {
    && ValidId(req.mapName)
    && ValidId(req.character)
    && forall id :: id in req.friends ==> ValidId(id)
  }

  // ----- ranking -----

  /** The sort key; smaller ranks first: holds the character, more friends, fewer characters, lesser uid. */
  datatype Rank = Rank(away: bool, friends: nat, load: nat, uid: Option<string>)

  predicate UidLeq(a: Option<string>, b: Option<string>) {
    a == None || (b.Some? && StringLeq(a.value, b.value))
  }

  predicate RankLeq(a: Rank, b: Rank) {
    if a.away != b.away then !a.away
    else if a.friends != b.friends then a.friends > b.friends
    else if a.load != b.load then a.load < b.load
    else UidLeq(a.uid, b.uid)
  }

  function FriendSet(req: Request): set<string> {
    set id | id in req.friends
  }

  function RankOf(cfg: Config, req: Request, now: int, pod: Pod): Rank {
    Rank(!Visible(cfg, pod, req.character, now),
         |VisibleIds(cfg, pod, now) * FriendSet(req)|,
         |VisibleIds(cfg, pod, now)|,
         pod.uid)
  }

  /** A Pod a query may be sent to. */
  predicate Eligible(cfg: Config, req: Request, now: int, pod: Pod) {
    && Ready(pod)
    && !Draining(pod)
    && (Visible(cfg, pod, req.character, now) || |VisibleIds(cfg, pod, now)| < cfg.maxCharacters)
  }

  function IsEligible(cfg: Config, req: Request, now: int): Pod -> bool {
    (p: Pod) => Eligible(cfg, req, now, p)
  }

  function PodLeq(cfg: Config, req: Request, now: int): (Pod, Pod) -> bool {
    (a: Pod, b: Pod) => RankLeq(RankOf(cfg, req, now, a), RankOf(cfg, req, now, b))
  }

  function Ranked(cfg: Config, req: Request, items: seq<Pod>, now: int): seq<Pod> {
    Sort(PodLeq(cfg, req, now), Filter(IsEligible(cfg, req, now), items))
  }

  lemma UidLeqLaws(a: Option<string>, b: Option<string>, c: Option<string>)
    ensures UidLeq(a, b) || UidLeq(b, a)
    ensures UidLeq(a, b) && UidLeq(b, c) ==> UidLeq(a, c)
    ensures UidLeq(a, b) && UidLeq(b, a) ==> a == b
  {
    if a.Some? && b.Some? {
      StringLeqTotal(a.value, b.value);
      if UidLeq(a, b) && UidLeq(b, a) {
        StringLeqAntisymmetric(a.value, b.value);
      }
      if c.Some? && UidLeq(a, b) && UidLeq(b, c) {
        StringLeqTransitive(a.value, b.value, c.value);
      }
    }
  }

  lemma RankLeqLaws(a: Rank, b: Rank, c: Rank)
    ensures RankLeq(a, b) || RankLeq(b, a)
    ensures RankLeq(a, b) && RankLeq(b, c) ==> RankLeq(a, c)
    ensures RankLeq(a, b) && RankLeq(b, a) ==> a == b
  {
    hide UidLeq;
    UidLeqLaws(a.uid, b.uid, c.uid);
    UidLeqLaws(b.uid, a.uid, c.uid);
  }

  lemma PodLeqIsTotalPreorder(cfg: Config, req: Request, now: int)
    ensures TotalPreorder(PodLeq(cfg, req, now))
  {
    hide RankLeq, RankOf;
    var leq := PodLeq(cfg, req, now);
    forall a: Pod, b: Pod ensures leq(a, b) || leq(b, a) {
      RankLeqLaws(RankOf(cfg, req, now, a), RankOf(cfg, req, now, b), RankOf(cfg, req, now, a));
    }
    forall a: Pod, b: Pod, c: Pod | leq(a, b) && leq(b, c) ensures leq(a, c) {
      RankLeqLaws(RankOf(cfg, req, now, a), RankOf(cfg, req, now, b), RankOf(cfg, req, now, c));
    }
  }

  /** `best` is an eligible Pod of the list that no other eligible Pod outranks. */
  ghost predicate IsOptimum(cfg: Config, req: Request, items: seq<Pod>, now: int, best: Pod) {
    && best in items
    && Eligible(cfg, req, now, best)
    && forall p :: p in items && Eligible(cfg, req, now, p) ==>
         RankLeq(RankOf(cfg, req, now, best), RankOf(cfg, req, now, p))
  }

  lemma RankedHeadIsOptimum(cfg: Config, req: Request, items: seq<Pod>, now: int)
    ensures Ranked(cfg, req, items, now) == [] <==> forall p :: p in items ==> !Eligible(cfg, req, now, p)
    ensures Ranked(cfg, req, items, now) != [] ==> IsOptimum(cfg, req, items, now, Ranked(cfg, req, items, now)[0])
  {
    var eligible := Filter(IsEligible(cfg, req, now), items);
    FilterMembers(IsEligible(cfg, req, now), items);
    PodLeqIsTotalPreorder(cfg, req, now);
    SortMembers(PodLeq(cfg, req, now), eligible);
    if eligible != [] {
      assert eligible[0] in eligible;
      HeadIsLeast(PodLeq(cfg, req, now), eligible);
    }
  }

  ghost predicate DistinctUids(items: seq<Pod>) {
    forall p, q :: p in items && q in items && p.uid == q.uid ==> p == q
  }

  /** With distinct uids there is one optimum, so the head of the ranking is it and nothing else is. */
  lemma OptimumIsUnique(cfg: Config, req: Request, items: seq<Pod>, now: int, best: Pod)
    requires DistinctUids(items)
    ensures IsOptimum(cfg, req, items, now, best) <==>
            Ranked(cfg, req, items, now) != [] && Ranked(cfg, req, items, now)[0] == best
  {
    RankedHeadIsOptimum(cfg, req, items, now);
    if IsOptimum(cfg, req, items, now, best) {
      var head := Ranked(cfg, req, items, now)[0];
      RankLeqLaws(RankOf(cfg, req, now, best), RankOf(cfg, req, now, head), RankOf(cfg, req, now, best));
    }
  }

  /** The choice is the same for every order of the list and for every way of writing the same friends. */
  lemma ChoiceIgnoresOrderAndDuplicates(cfg: Config, req: Request, friends: seq<string>, items: seq<Pod>,
                                        other: seq<Pod>, now: int)
    requires DistinctUids(items)
    requires forall p :: p in items <==> p in other
    requires forall id :: id in req.friends <==> id in friends
    ensures (Ranked(cfg, req, items, now) == []) == (Ranked(cfg, req.(friends := friends), other, now) == [])
    ensures Ranked(cfg, req, items, now) != [] ==>
              Ranked(cfg, req, items, now)[0] == Ranked(cfg, req.(friends := friends), other, now)[0]
  {
    var req' := req.(friends := friends);
    assert FriendSet(req) == FriendSet(req');
    RankedHeadIsOptimum(cfg, req, items, now);
    RankedHeadIsOptimum(cfg, req', other, now);
    if Ranked(cfg, req, items, now) != [] {
      var best := Ranked(cfg, req', other, now)[0];
      assert IsOptimum(cfg, req, items, now, best) by {
        assert forall p :: RankOf(cfg, req, now, p) == RankOf(cfg, req', now, p);
      }
      OptimumIsUnique(cfg, req, items, now, best);
    }
  }

  // ----- candidates, as the query builds them -----

  datatype Candidate = Candidate(pod: Pod, chars: seq<Character>)

  predicate Holds(chars: seq<Character>, id: string) {
    exists c :: c in chars && c.id == id
  }

  function CountIn(chars: seq<Character>, ids: seq<string>): nat {
    |Filter((c: Character) => c.id in ids, chars)|
  }

  function CandidateRank(req: Request, c: Candidate): Rank {
    Rank(!Holds(c.chars, req.character), CountIn(c.chars, req.friends), |c.chars|, c.pod.uid)
  }

  function CandidateLeq(req: Request): (Candidate, Candidate) -> bool {
    (a: Candidate, b: Candidate) => RankLeq(CandidateRank(req, a), CandidateRank(req, b))
  }

  function PodOf(c: Candidate): Pod { c.pod }

  ghost predicate Faithful(cfg: Config, now: int, c: Candidate) {
    IsReading(cfg, c.pod, [], now, c.chars)
  }

  lemma HoldsIsVisible(cfg: Config, now: int, c: Candidate, id: string)
    requires Faithful(cfg, now, c)
    ensures Holds(c.chars, id) <==> Visible(cfg, c.pod, id, now)
  {
    if Visible(cfg, c.pod, id, now) {
      assert Sighting(cfg, c.pod, id, now).value in c.chars;
    }
  }

  lemma {:induction false} FilterKeepsSorted(chars: seq<Character>, keep: Character -> bool)
    requires StrictlySorted(chars)
    ensures StrictlySorted(Filter(keep, chars))
  {
    if chars != [] {
      FilterKeepsSorted(chars[1..], keep);
      var rest := Filter(keep, chars[1..]);
      FilterMembers(keep, chars[1..]);
      forall j | 0 <= j < |rest| ensures StringLeq(chars[0].id, rest[j].id) && chars[0].id != rest[j].id {
        assert rest[j] in chars[1..];
      }
    }
  }

  /** Counting entries of the sorted list is counting characters of the Pod. */
  lemma CandidateRankIsPodRank(cfg: Config, req: Request, now: int, c: Candidate)
    requires Faithful(cfg, now, c)
    ensures CandidateRank(req, c) == RankOf(cfg, req, now, c.pod)
  {
    HoldsIsVisible(cfg, now, c, req.character);
    ReadingCountsVisible(cfg, c.pod, now, c.chars);
    var keep := (ch: Character) => ch.id in req.friends;
    var kept := Filter(keep, c.chars);
    FilterKeepsSorted(c.chars, keep);
    FilterMembers(keep, c.chars);
    var both := VisibleIds(cfg, c.pod, now) * FriendSet(req);
    forall id ensures id in both <==> exists ch :: ch in kept && ch.id == id {
      if id in both {
        assert Sighting(cfg, c.pod, id, now).value in c.chars;
        assert Sighting(cfg, c.pod, id, now).value in kept;
      }
    }
    SortedListCountsIds(kept, both);
  }

  lemma OrdersAgree(cfg: Config, req: Request, now: int, a: Candidate, b: Candidate)
    requires Faithful(cfg, now, a) && Faithful(cfg, now, b)
    ensures CandidateLeq(req)(a, b) == PodLeq(cfg, req, now)(PodOf(a), PodOf(b))
  {
    CandidateRankIsPodRank(cfg, req, now, a);
    CandidateRankIsPodRank(cfg, req, now, b);
  }

  ghost predicate AllFaithful(cfg: Config, now: int, candidates: seq<Candidate>) {
    forall i :: 0 <= i < |candidates| ==> Faithful(cfg, now, candidates[i])
  }

  lemma FaithfulSubset(cfg: Config, now: int, all: seq<Candidate>, part: seq<Candidate>)
    requires AllFaithful(cfg, now, all) && forall c :: c in part ==> c in all
    ensures AllFaithful(cfg, now, part)
  {
    forall i | 0 <= i < |part| ensures Faithful(cfg, now, part[i]) {
      assert part[i] in all;
      var j :| 0 <= j < |all| && all[j] == part[i];
    }
  }

  /** Read the characters of every ready Pod of the list. */
  method ReadCandidates(cfg: Config, items: seq<Pod>, now: int) returns (read: seq<Candidate>)
    ensures AllFaithful(cfg, now, read)
    ensures Map(PodOf, read) == Filter(Ready, items)
  {
    read := [];
    for i := 0 to |items|
      invariant AllFaithful(cfg, now, read)
      invariant Map(PodOf, read) == Filter(Ready, items[..i])
    {
      FilterGrows(Ready, items, i);
      if Ready(items[i]) {
        var chars := CharactersOnPod(cfg, items[i], [], now);
        var c := Candidate(items[i], chars);
        MapGrows(PodOf, read, c);
        read := read + [c];
      }
    }
    assert items[..|items|] == items;
  }

  lemma HasRoomIsEligible(cfg: Config, req: Request, now: int, c: Candidate)
    requires Faithful(cfg, now, c) && Ready(c.pod)
    ensures Eligible(cfg, req, now, c.pod) <==>
            (Holds(c.chars, req.character) || |c.chars| < cfg.maxCharacters) && !Draining(c.pod)
  {
    HoldsIsVisible(cfg, now, c, req.character);
    ReadingCountsVisible(cfg, c.pod, now, c.chars);
  }

  /** Keep the candidates holding the character or with room, then drop the draining ones. */
  method RetainCandidates(cfg: Config, req: Request, now: int, read: seq<Candidate>) returns (kept: seq<Candidate>)
    requires AllFaithful(cfg, now, read)
    requires forall c :: c in read ==> Ready(c.pod)
    ensures forall c :: c in kept ==> c in read
    ensures Map(PodOf, kept) == Filter(IsEligible(cfg, req, now), Map(PodOf, read))
  {
    kept := [];
    ghost var keep := IsEligible(cfg, req, now);
    ghost var pods := Map(PodOf, read);
    for i := 0 to |read|
      invariant forall c :: c in kept ==> c in read
      invariant Map(PodOf, kept) == Filter(keep, pods[..i])
    {
      var c := read[i];
      FilterGrows(keep, pods, i);
      assert Ready(c.pod) by { assert c in read; }
      HasRoomIsEligible(cfg, req, now, c);
      if Holds(c.chars, req.character) || |c.chars| < cfg.maxCharacters {
        if !Draining(c.pod) {
          MapGrows(PodOf, kept, c);
          kept := kept + [c];
        }
      }
    }
    assert pods[..|read|] == pods;
  }

  /** Read, retain, sort in place: the candidates are the ranked eligible Pods, each with its characters. */
  method SelectCandidates(cfg: Config, req: Request, items: seq<Pod>, now: int) returns (candidates: seq<Candidate>)
    ensures AllFaithful(cfg, now, candidates)
    ensures Map(PodOf, candidates) == Ranked(cfg, req, items, now)
  {
    var read := ReadCandidates(cfg, items, now);
    FilterMembers(Ready, items);
    forall c | c in read ensures Ready(c.pod) {
      var i :| 0 <= i < |read| && read[i] == c;
      assert Map(PodOf, read)[i] in Filter(Ready, items);
    }
    var kept := RetainCandidates(cfg, req, now, read);
    FaithfulSubset(cfg, now, read, kept);
    FilterTwice(cfg, req, now, items);
    forall a, b | a in kept && b in kept
      ensures CandidateLeq(req)(a, b) == PodLeq(cfg, req, now)(PodOf(a), PodOf(b))
    {
      OrdersAgree(cfg, req, now, a, b);
    }
    SortProjects(CandidateLeq(req), PodLeq(cfg, req, now), PodOf, kept);
    SortMembers(CandidateLeq(req), kept);
    candidates := Sort(CandidateLeq(req), kept);
    FaithfulSubset(cfg, now, read, candidates);
  }

  lemma {:induction false} FilterTwice(cfg: Config, req: Request, now: int, items: seq<Pod>)
    ensures Filter(IsEligible(cfg, req, now), Filter(Ready, items))
            == Filter(IsEligible(cfg, req, now), items)
  {
    if items != [] {
      FilterTwice(cfg, req, now, items[1..]);
    }
  }

  // ----- the decision -----

  /**
   * `Cold`: no candidate. `Refused`: the chosen Pod lacks an identity or a backend port.
   * `Keep`: the character is already connected there. `Assign`: its label has to be written.
   */
  datatype Decision =
    | Cold
    | Refused
    | Keep(pod: Pod, target: Target)
    | Assign(pod: Pod, target: Target)

  function Decide(cfg: Config, req: Request, items: seq<Pod>, now: int): Decision {
    var ranked := Ranked(cfg, req, items, now);
    if ranked == [] then Cold
    else
      var pod := ranked[0];
      match QueryTarget(cfg.mapping, cfg.dataPorts, pod.body)
      case None => Refused
      case Some(target) =>
        if pod.uid == None then Refused
        else if IsUsed(cfg, pod, req.character) then Keep(pod, target)
        else Assign(pod, target)
  }

  /** A decision other than `Cold` is about an optimum of the list; `Cold` means nothing in it was eligible. */
  lemma DecisionIsAboutOptimum(cfg: Config, req: Request, items: seq<Pod>, now: int)
    ensures
      match Decide(cfg, req, items, now)
      case Cold => forall p :: p in items ==> !Eligible(cfg, req, now, p)
      case Refused => exists p :: IsOptimum(cfg, req, items, now, p)
      case Keep(pod, target) =>
        && IsOptimum(cfg, req, items, now, pod) && IsUsed(cfg, pod, req.character)
        && QueryTarget(cfg.mapping, cfg.dataPorts, pod.body) == Some(target) && pod.uid.Some?
      case Assign(pod, target) =>
        && IsOptimum(cfg, req, items, now, pod) && !IsUsed(cfg, pod, req.character)
        && QueryTarget(cfg.mapping, cfg.dataPorts, pod.body) == Some(target) && pod.uid.Some?
  {
    RankedHeadIsOptimum(cfg, req, items, now);
    if Ranked(cfg, req, items, now) != [] {
      assert IsOptimum(cfg, req, items, now, Ranked(cfg, req, items, now)[0]);
    }
  }

  lemma UsedIsRead(cfg: Config, now: int, c: Candidate, id: string)
    requires Faithful(cfg, now, c)
    ensures IsUsed(cfg, c.pod, id) <==> exists ch :: ch in c.chars && ch.id == id && ch.status == Used
  {
    assert IsUsed(cfg, c.pod, id) ==> Sighting(cfg, c.pod, id, now) == Some(Character(id, Used, None));
  }

  method Evaluate(cfg: Config, req: Request, items: seq<Pod>, now: int) returns (decision: Decision)
    requires ValidRequest(req)
    ensures decision == Decide(cfg, req, items, now)
  {
    hide Ranked, QueryTarget, IsUsed, Faithful;
    var candidates := SelectCandidates(cfg, req, items, now);
    if candidates == [] {
      return Cold;
    }
    var best := candidates[0];
    assert Map(PodOf, candidates)[0] == best.pod;
    var target := BuildQueryTarget(cfg.mapping, cfg.dataPorts, best.pod.body);
    if target == None || best.pod.uid == None {
      return Refused;
    }
    UsedIsRead(cfg, now, best, req.character);
    if exists c :: c in best.chars && c.id == req.character && c.status == Used {
      return Keep(best.pod, target.value);
    }
    return Assign(best.pod, target.value);
  }

  // ----- the list reply -----

  datatype CharacterServer = CharacterServer(server: string, characters: seq<Character>)

  predicate ServerLeq(a: CharacterServer, b: CharacterServer) { StringLeq(a.server, b.server) }

  lemma ServerLeqIsTotalPreorder()
    ensures TotalPreorder(ServerLeq)
  {
    forall a: CharacterServer, b: CharacterServer ensures ServerLeq(a, b) || ServerLeq(b, a) {
      StringLeqTotal(a.server, b.server);
    }
    forall a: CharacterServer, b: CharacterServer, c: CharacterServer | ServerLeq(a, b) && ServerLeq(b, c)
      ensures ServerLeq(a, c)
    {
      StringLeqTransitive(a.server, b.server, c.server);
    }
  }

  /** A ready Pod with something to show. */
  predicate Occupied(cfg: Config, ids: seq<string>, now: int, pod: Pod) {
    && Ready(pod)
    && exists id :: id in VisibleIds(cfg, pod, now) && (ids == [] || id in ids)
  }

  function IsOccupied(cfg: Config, ids: seq<string>, now: int): Pod -> bool {
    (p: Pod) => Occupied(cfg, ids, now, p)
  }

  /** One server per occupied Pod of the list, in its order, each with its own reading. */
  ghost predicate Answers(cfg: Config, items: seq<Pod>, ids: seq<string>, now: int, servers: seq<CharacterServer>) {
    var occupied := Filter(IsOccupied(cfg, ids, now), items);
    && |servers| == |occupied|
    && forall i :: 0 <= i < |servers| ==>
         && occupied[i].uid == Some(servers[i].server)
         && IsReading(cfg, occupied[i], ids, now, servers[i].characters)
  }

  lemma ReadingIsEmptyExactly(cfg: Config, pod: Pod, ids: seq<string>, now: int, chars: seq<Character>)
    requires IsReading(cfg, pod, ids, now, chars) && Ready(pod)
    ensures chars != [] <==> Occupied(cfg, ids, now, pod)
  {
    if chars != [] {
      assert chars[0] in chars;
      assert chars[0].id in VisibleIds(cfg, pod, now);
    }
    if Occupied(cfg, ids, now, pod) {
      var id :| id in VisibleIds(cfg, pod, now) && (ids == [] || id in ids);
      assert Sighting(cfg, pod, id, now).value in chars;
    }
  }

  lemma AnswersGrow(cfg: Config, items: seq<Pod>, i: nat, ids: seq<string>, now: int,
                    servers: seq<CharacterServer>, more: CharacterServer)
    requires i < |items| && Answers(cfg, items[..i], ids, now, servers)
    ensures !Occupied(cfg, ids, now, items[i]) ==> Answers(cfg, items[..i + 1], ids, now, servers)
    ensures Occupied(cfg, ids, now, items[i]) && items[i].uid == Some(more.server)
            && IsReading(cfg, items[i], ids, now, more.characters) ==>
              Answers(cfg, items[..i + 1], ids, now, servers + [more])
  {
    hide Occupied, IsReading;
    FilterGrows(IsOccupied(cfg, ids, now), items, i);
  }

  /** Each occupied Pod's reading is determined, so there is only one such list. */
  lemma AnswersAreUnique(cfg: Config, items: seq<Pod>, ids: seq<string>, now: int,
                         a: seq<CharacterServer>, b: seq<CharacterServer>)
    requires Answers(cfg, items, ids, now, a) && Answers(cfg, items, ids, now, b)
    ensures a == b
  {
    hide IsOccupied;
    var occupied := Filter(IsOccupied(cfg, ids, now), items);
    forall i | 0 <= i < |a| ensures a[i] == b[i] {
      StrictlySortedUnique(a[i].characters, b[i].characters);
    }
  }

  /**
   * The lookup: one server per occupied Pod, in the list's order and then stably sorted by identity, each with its
   * own reading. It fails exactly when an occupied Pod has no identity.
   */
  method ListCharacters(cfg: Config, items: seq<Pod>, ids: seq<string>, now: int)
    returns (servers: Option<seq<CharacterServer>>, ghost found: seq<CharacterServer>)
    ensures servers == None <==> exists p :: p in items && Occupied(cfg, ids, now, p) && p.uid == None
    ensures servers.Some? ==> Answers(cfg, items, ids, now, found) && servers.value == Sort(ServerLeq, found)
    ensures servers.Some? ==> SortedBy(ServerLeq, servers.value)
  {
    hide Occupied, IsReading, Answers, Sort;
    var list: seq<CharacterServer> := [];
    NoAnswers(cfg, items, ids, now);
    for i := 0 to |items|
      invariant forall j :: 0 <= j < i && Occupied(cfg, ids, now, items[j]) ==> items[j].uid.Some?
      invariant Answers(cfg, items[..i], ids, now, list)
    {
      var pod := items[i];
      AnswersGrow(cfg, items, i, ids, now, list, CharacterServer("", []));
      NotReadyIsNotOccupied(cfg, ids, now, pod);
      if Ready(pod) {
        var all := CharactersOnPod(cfg, pod, [], now);
        var kept := RetainRequested(all, ids);
        RetainingReads(cfg, pod, ids, now, all, kept);
        ReadingIsEmptyExactly(cfg, pod, ids, now, kept);
        if kept != [] {
          if pod.uid == None {
            return None, [];
          }
          AnswersGrow(cfg, items, i, ids, now, list, CharacterServer(pod.uid.value, kept));
          list := list + [CharacterServer(pod.uid.value, kept)];
        }
      }
    }
    assert items[..|items|] == items;
    ServerLeqIsTotalPreorder();
    SortSorts(ServerLeq, list);
    return Some(Sort(ServerLeq, list)), list;
  }

  lemma NoAnswers(cfg: Config, items: seq<Pod>, ids: seq<string>, now: int)
    ensures Answers(cfg, items[..0], ids, now, [])
  {
  }

  lemma NotReadyIsNotOccupied(cfg: Config, ids: seq<string>, now: int, pod: Pod)
    ensures Occupied(cfg, ids, now, pod) ==> Ready(pod)
  {
  }

  lemma RetainingReads(cfg: Config, pod: Pod, ids: seq<string>, now: int, all: seq<Character>, kept: seq<Character>)
    requires IsReading(cfg, pod, [], now, all) && StrictlySorted(kept)
    requires forall c :: c in kept <==> c in all && (ids == [] || c.id in ids)
    ensures IsReading(cfg, pod, ids, now, kept)
  {
  }
}
