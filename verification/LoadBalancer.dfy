/** Choosing a backend for the default route, and what the session counts can reach over whole runs. */
module LoadBalancer {
  import opened Wrappers
  import opened Ordering
  import opened JsonPath
  import opened Backend

  datatype Resource = Resource(labels: map<string, string>, body: Json)

  datatype Strategy = LeastSessions | LabelArithmetic(currentLabel: string, maxLabel: string, overlap: int)

  // ----- signed 64-bit arithmetic -----

  const I64_LIMIT: int := 0x8000_0000_0000_0000

  predicate InI64(x: int) { -I64_LIMIT <= x < I64_LIMIT }

  /** The two's-complement value of the low 64 bits. */
  function Wrap(x: int): (r: int)
    ensures InI64(r)
    ensures InI64(x) ==> r == x
  {
    (x + I64_LIMIT) % (2 * I64_LIMIT) - I64_LIMIT
  }

  /** `str::parse::<i64>`: an optional sign, then digits, in range. */
  function ParseI64(s: string): (r: Option<int>)
    ensures r.Some? ==> InI64(r.value)
  {
    var signed := |s| > 1 && (s[0] == '+' || s[0] == '-');
    var digits := if signed then s[1..] else s;
    if digits == "" || exists c :: c in digits && !IsDigit(c) then None
    else
      var value: int := if signed && s[0] == '-' then -(DigitsValue(digits) as int) else DigitsValue(digits);
      if InI64(value) then Some(value) else None
  }

  // ----- what a resource is worth -----

  /** Lower is better, the first component deciding before the second. */
  datatype Score = Score(first: int, second: int)

  predicate ScoreLeq(a: Score, b: Score) {
    a.first < b.first || (a.first == b.first && a.second <= b.second)
  }

  /** Where the address of a resource is found. */
  datatype Where = Where(path: string, kind: Option<string>)

  function CountOf(counts: map<string, nat>, address: string): nat {
    if address in counts then counts[address] else 0
  }

  function LoadOf(at: Where, counts: map<string, nat>, resource: Resource): Option<nat> {
    match AddressOf(resource.body, at.path, at.kind)
    case None => None
    case Some(address) => Some(CountOf(counts, address))
  }

  /** The current and maximum users its labels state; a missing current count is zero. */
  function Stated(strategy: Strategy, resource: Resource): Option<(int, int)>
    requires strategy.LabelArithmetic?
  {
    var current := if strategy.currentLabel in resource.labels
                   then ParseI64(resource.labels[strategy.currentLabel]) else Some(0);
    var max := if strategy.maxLabel in resource.labels then ParseI64(resource.labels[strategy.maxLabel]) else None;
    if current.Some? && max.Some? then Some((current.value, max.value)) else None
  }

  /** Capacity left over after the stated users, the sessions counted here and the overlap, in 64-bit arithmetic. */
  function Available(current: int, max: int, sessions: nat, overlap: int): int {
    Wrap(Wrap(Wrap(max - current) - Wrap(sessions)) - overlap)
  }

  function ScoreOf(strategy: Strategy, at: Where, counts: map<string, nat>, resource: Resource): Option<Score> {
    match LoadOf(at, counts, resource)
    case None => None
    case Some(sessions) =>
      match strategy
      case LeastSessions => Some(Score(sessions, 0))
      case LabelArithmetic(_, _, overlap) =>
        match Stated(strategy, resource)
        case None => None
        case Some((current, max)) =>
          var available := Available(current, max, sessions, overlap);
          if available > 0 then Some(Score(-available, current)) else None
  }

  /** Resource `i` is a candidate, none is better, and none before it is as good. */
  ghost predicate IsBest(strategy: Strategy, at: Where, counts: map<string, nat>, resources: seq<Resource>, i: nat) {
    && i < |resources|
    && ScoreOf(strategy, at, counts, resources[i]).Some?
    && forall j :: 0 <= j < |resources| && ScoreOf(strategy, at, counts, resources[j]).Some? ==>
         var mine := ScoreOf(strategy, at, counts, resources[i]).value;
         var other := ScoreOf(strategy, at, counts, resources[j]).value;
         ScoreLeq(mine, other) && (j < i ==> !ScoreLeq(other, mine))
  }

  ghost predicate NoneUsable(strategy: Strategy, at: Where, counts: map<string, nat>, resources: seq<Resource>) {
    forall j :: 0 <= j < |resources| ==> ScoreOf(strategy, at, counts, resources[j]) == None
  }

  // ----- selection by collecting and sorting -----

  datatype Candidate = Candidate(resource: Resource, address: string, score: Score, position: nat)

  predicate CandidateLeq(a: Candidate, b: Candidate) { ScoreLeq(a.score, b.score) }

  /** The candidates of the first `n` resources, in order and none left out. */
  ghost predicate Collected(strategy: Strategy, at: Where, counts: map<string, nat>, resources: seq<Resource>, n: nat,
                            candidates: seq<Candidate>)
  {
    && n <= |resources|
    && (forall k :: 0 <= k < |candidates| ==>
          && candidates[k].position < n && candidates[k].resource == resources[candidates[k].position]
          && ScoreOf(strategy, at, counts, candidates[k].resource) == Some(candidates[k].score))
    && (forall k, l :: 0 <= k < l < |candidates| ==> candidates[k].position < candidates[l].position)
    && (forall j :: 0 <= j < n && ScoreOf(strategy, at, counts, resources[j]).Some? ==>
          exists k :: 0 <= k < |candidates| && candidates[k].position == j)
  }

  lemma NoneCollected(strategy: Strategy, at: Where, counts: map<string, nat>, resources: seq<Resource>)
    ensures Collected(strategy, at, counts, resources, 0, [])
  {
  }

  lemma CollectedGrows(strategy: Strategy, at: Where, counts: map<string, nat>, resources: seq<Resource>, n: nat,
                       candidates: seq<Candidate>, c: Candidate)
    requires Collected(strategy, at, counts, resources, n, candidates) && n < |resources|
    ensures ScoreOf(strategy, at, counts, resources[n]) == None ==>
              Collected(strategy, at, counts, resources, n + 1, candidates)
    ensures c.position == n && c.resource == resources[n]
            && ScoreOf(strategy, at, counts, resources[n]) == Some(c.score) ==>
              Collected(strategy, at, counts, resources, n + 1, candidates + [c])
  {
    hide ScoreOf;
    forall j | 0 <= j < n && ScoreOf(strategy, at, counts, resources[j]).Some?
      ensures exists k :: 0 <= k < |candidates + [c]| && (candidates + [c])[k].position == j
    {
      var k :| 0 <= k < |candidates| && candidates[k].position == j;
      assert (candidates + [c])[k].position == j;
    }
    assert (candidates + [c])[|candidates|].position == c.position;
  }

  /** The head of the stably sorted candidates is the best resource; without candidates none is usable. */
  lemma SortedHeadIsBest(strategy: Strategy, at: Where, counts: map<string, nat>, resources: seq<Resource>,
                         candidates: seq<Candidate>)
    requires Collected(strategy, at, counts, resources, |resources|, candidates)
    ensures candidates == [] ==> NoneUsable(strategy, at, counts, resources)
    ensures candidates != [] ==>
              && Sort(CandidateLeq, candidates) != []
              && IsBest(strategy, at, counts, resources, Sort(CandidateLeq, candidates)[0].position)
              && resources[Sort(CandidateLeq, candidates)[0].position] == Sort(CandidateLeq, candidates)[0].resource
  {
    hide ScoreOf, Sort;
    if candidates != [] {
      assert TotalPreorder(CandidateLeq);
      var k := HeadIsFirstLeast(CandidateLeq, candidates);
      var i := candidates[k].position;
      forall j | 0 <= j < |resources| && ScoreOf(strategy, at, counts, resources[j]).Some?
        ensures
          var mine := ScoreOf(strategy, at, counts, resources[i]).value;
          var other := ScoreOf(strategy, at, counts, resources[j]).value;
          ScoreLeq(mine, other) && (j < i ==> !ScoreLeq(other, mine))
      {
        var l :| 0 <= l < |candidates| && candidates[l].position == j;
        assert CandidateLeq(candidates[k], candidates[l]);
      }
    }
  }

  /** There is at most one best resource, so the selection is a function of the list and the counts. */
  lemma BestIsUnique(strategy: Strategy, at: Where, counts: map<string, nat>, resources: seq<Resource>, i: nat, j: nat)
    requires IsBest(strategy, at, counts, resources, i) && IsBest(strategy, at, counts, resources, j)
    ensures i == j
  {
    hide ScoreOf;
  }

  // ----- the same, said without scores -----

  /** Sessions counted at the address of a resource, if it has one. */
  ghost predicate Counted(at: Where, counts: map<string, nat>, resource: Resource, sessions: int) {
    exists address :: AddressOf(resource.body, at.path, at.kind) == Some(address)
                      && sessions == (if address in counts then counts[address] else 0)
  }

  /** Least sessions: every other resource with an address has more, or as many and stands later. */
  lemma FewestSessionsFirst(at: Where, counts: map<string, nat>, resources: seq<Resource>, i: nat, mine: int)
    requires i < |resources| && Counted(at, counts, resources[i], mine)
    ensures IsBest(LeastSessions, at, counts, resources, i) <==>
            forall j, other :: 0 <= j < |resources| && Counted(at, counts, resources[j], other) ==>
              mine < other || (mine == other && i <= j)
  {
    hide AddressOf;
    forall j | 0 <= j < |resources|
      ensures forall other :: Counted(at, counts, resources[j], other) <==>
                ScoreOf(LeastSessions, at, counts, resources[j]) == Some(Score(other, 0))
    {
    }
    assert ScoreOf(LeastSessions, at, counts, resources[i]) == Some(Score(mine, 0));
    if IsBest(LeastSessions, at, counts, resources, i) {
      forall j, other | 0 <= j < |resources| && Counted(at, counts, resources[j], other)
        ensures mine < other || (mine == other && i <= j)
      {
        assert ScoreOf(LeastSessions, at, counts, resources[j]) == Some(Score(other, 0));
      }
    } else {
      var j :| 0 <= j < |resources| && ScoreOf(LeastSessions, at, counts, resources[j]).Some?
               && !(ScoreLeq(Score(mine, 0), ScoreOf(LeastSessions, at, counts, resources[j]).value)
                    && (j < i ==> !ScoreLeq(ScoreOf(LeastSessions, at, counts, resources[j]).value, Score(mine, 0))));
      var other := ScoreOf(LeastSessions, at, counts, resources[j]).value.first;
      assert Counted(at, counts, resources[j], other);
    }
  }

  /** What the labels state: the parsed current users, zero when the label is missing, and the parsed maximum. */
  lemma StatedExactly(strategy: Strategy, resource: Resource, current: int, max: int)
    requires strategy.LabelArithmetic?
    ensures Stated(strategy, resource) == Some((current, max)) <==>
            && (if strategy.currentLabel in resource.labels
                then ParseI64(resource.labels[strategy.currentLabel]) == Some(current) else current == 0)
            && strategy.maxLabel in resource.labels && ParseI64(resource.labels[strategy.maxLabel]) == Some(max)
  {
  }

  /** A resource with room, the room being the wrapped difference, and its stated users. */
  ghost predicate Offers(strategy: Strategy, at: Where, counts: map<string, nat>, resource: Resource,
                         room: int, current: int)
    requires strategy.LabelArithmetic?
  {
    exists sessions: nat, max ::
      && Counted(at, counts, resource, sessions) && Stated(strategy, resource) == Some((current, max))
      && room == Wrap(max - current - sessions - strategy.overlap) && room > 0
  }

  lemma OffersIsScore(strategy: Strategy, at: Where, counts: map<string, nat>, resource: Resource, room: int,
                      current: int)
    requires strategy.LabelArithmetic?
    ensures Offers(strategy, at, counts, resource, room, current) <==>
            ScoreOf(strategy, at, counts, resource) == Some(Score(-room, current))
  {
    hide AddressOf, Wrap, ParseI64, Available;
    forall current: int, max: int, sessions: nat
      ensures Available(current, max, sessions, strategy.overlap) == Wrap(max - current - sessions - strategy.overlap)
    {
      AvailableWrapsOnce(current, max, sessions, strategy.overlap);
    }
    if ScoreOf(strategy, at, counts, resource) == Some(Score(-room, current)) {
      var sessions := LoadOf(at, counts, resource).value;
      assert Counted(at, counts, resource, sessions);
    }
  }

  /** Label arithmetic: every other resource with room has less, or as much and more users, or stands later. */
  lemma MostRoomFirst(strategy: Strategy, at: Where, counts: map<string, nat>, resources: seq<Resource>, i: nat,
                      room: int, current: int)
    requires strategy.LabelArithmetic? && i < |resources|
    requires Offers(strategy, at, counts, resources[i], room, current)
    ensures IsBest(strategy, at, counts, resources, i) <==>
            forall j, room', current' ::
              0 <= j < |resources| && Offers(strategy, at, counts, resources[j], room', current') ==>
                room' < room || (room' == room && (current' > current || (current' == current && i <= j)))
  {
    hide ScoreOf, Offers;
    forall j, room', current' | 0 <= j < |resources|
      ensures Offers(strategy, at, counts, resources[j], room', current') <==>
              ScoreOf(strategy, at, counts, resources[j]) == Some(Score(-room', current'))
    {
      OffersIsScore(strategy, at, counts, resources[j], room', current');
    }
    if !IsBest(strategy, at, counts, resources, i) {
      var j :| 0 <= j < |resources| && ScoreOf(strategy, at, counts, resources[j]).Some?
               && !(ScoreLeq(Score(-room, current), ScoreOf(strategy, at, counts, resources[j]).value)
                    && (j < i ==> !ScoreLeq(ScoreOf(strategy, at, counts, resources[j]).value, Score(-room, current))));
      var other := ScoreOf(strategy, at, counts, resources[j]).value;
      assert Offers(strategy, at, counts, resources[j], -other.first, other.second);
    }
  }

  /** A selection of either kind starts from a resource that has an address, or room by its labels. */
  lemma UsableExactlyWhenOffered(strategy: Strategy, at: Where, counts: map<string, nat>, resource: Resource)
    ensures ScoreOf(strategy, at, counts, resource).Some? <==>
            if strategy.LeastSessions? then exists sessions: nat :: Counted(at, counts, resource, sessions)
            else exists room, current :: Offers(strategy, at, counts, resource, room, current)
  {
    if strategy.LeastSessions? {
      if ScoreOf(strategy, at, counts, resource).Some? {
        assert Counted(at, counts, resource, LoadOf(at, counts, resource).value);
      }
    } else {
      hide ScoreOf, Offers;
      forall room, current
        ensures Offers(strategy, at, counts, resource, room, current) <==>
                ScoreOf(strategy, at, counts, resource) == Some(Score(-room, current))
      {
        OffersIsScore(strategy, at, counts, resource, room, current);
      }
      if ScoreOf(strategy, at, counts, resource).Some? {
        var score := ScoreOf(strategy, at, counts, resource).value;
        assert Offers(strategy, at, counts, resource, -score.first, score.second);
      }
    }
  }

  /** Digits parse to their number, within 64 bits. */
  lemma DigitsParse(n: int)
    requires 0 <= n
    ensures ParseI64(Decimal(n)) == if n < I64_LIMIT then Some(n) else None
  {
    assert IsDigit(Decimal(n)[0]);
  }

  /** A sign is allowed, and the negative range reaches one further. */
  lemma SignedDigitsParse(n: int)
    requires 0 <= n
    ensures ParseI64("+" + Decimal(n)) == if n < I64_LIMIT then Some(n) else None
    ensures ParseI64("-" + Decimal(n)) == if n <= I64_LIMIT then Some(-n) else None
  {
    assert ("+" + Decimal(n))[1..] == Decimal(n) && ("-" + Decimal(n))[1..] == Decimal(n);
  }

  /** Nothing else is a number: an empty text, a bare sign, or any other character after the first. */
  lemma OtherTextDoesNotParse(text: string)
    ensures ParseI64("") == None && ParseI64("+") == None && ParseI64("-") == None
    ensures (exists i :: 0 < i < |text| && !IsDigit(text[i])) ==> ParseI64(text) == None
    ensures text != "" && text[0] != '+' && text[0] != '-' && !IsDigit(text[0]) ==> ParseI64(text) == None
  {
    if i :| 0 < i < |text| && !IsDigit(text[i]) {
      assert text[i] in text && text[1..][i - 1] == text[i] && text[i] in text[1..];
    }
  }

  /** Wrapping keeps the residue modulo 2^64 and lands in the range; only one number does. */
  lemma WrapExactly(x: int, r: int)
    ensures r == Wrap(x) <==> InI64(r) && (r - x) % (2 * I64_LIMIT) == 0
  {
  }

  function Incremented(counts: map<string, nat>, address: string): map<string, nat> {
    counts[address := CountOf(counts, address) + 1]
  }

  function Decremented(counts: map<string, nat>, address: string): map<string, nat> {
    if CountOf(counts, address) > 0 then counts[address := CountOf(counts, address) - 1] else counts
  }

  /** Counting adds one session at that address and releasing takes one away, not below zero; no other count changes. */
  lemma CountsMove(counts: map<string, nat>, address: string, other: string)
    ensures CountOf(Incremented(counts, address), other)
            == CountOf(counts, other) + (if other == address then 1 else 0)
    ensures CountOf(Decremented(counts, address), other)
            == if other == address && CountOf(counts, other) > 0 then CountOf(counts, other) - 1
               else CountOf(counts, other)
    ensures CountOf(counts, other) == if other in counts then counts[other] else 0
  {
  }

  class LoadBalancer {
    const strategy: Strategy
    var counts: map<string, nat>

    constructor (strategy: Strategy)
      ensures this.strategy == strategy && counts == map[]
    {
      this.strategy, counts := strategy, map[];
    }

    method SelectBackend(resources: seq<Resource>, at: Where) returns (selected: Option<Resource>, position: nat)
      ensures selected == None <==> NoneUsable(strategy, at, counts, resources)
      ensures selected.Some? ==>
                IsBest(strategy, at, counts, resources, position) && resources[position] == selected.value
    {
      if resources == [] {
        return None, 0;
      }
      match strategy {
        case LeastSessions => selected, position := SelectLeastSessions(resources, at);
        case LabelArithmetic(currentLabel, maxLabel, overlap) =>
          selected, position := SelectLabelArithmetic(resources, at, currentLabel, maxLabel, overlap);
      }
    }

    method SelectLeastSessions(resources: seq<Resource>, at: Where) returns (selected: Option<Resource>, position: nat)
      ensures selected == None <==> NoneUsable(LeastSessions, at, counts, resources)
      ensures selected.Some? ==>
                IsBest(LeastSessions, at, counts, resources, position) && resources[position] == selected.value
    {
      var backends: seq<Candidate> := [];
      for i := 0 to |resources|
        invariant Collected(LeastSessions, at, counts, resources, i, backends)
      {
        var address, _ := ExtractAddress(resources[i].body, at.path, at.kind);
        if address == None {
          CollectedGrows(LeastSessions, at, counts, resources, i, backends,
                         Candidate(resources[i], "", Score(0, 0), i));
          continue;
        }
        var sessions := if address.value in counts then counts[address.value] else 0;
        var backend := Candidate(resources[i], address.value, Score(sessions, 0), i);
        CollectedGrows(LeastSessions, at, counts, resources, i, backends, backend);
        backends := backends + [backend];
      }
      hide ScoreOf, Sort, IsBest, NoneUsable;
      SortedHeadIsBest(LeastSessions, at, counts, resources, backends);
      if backends == [] {
        return None, 0;
      }
      var first := Sort(CandidateLeq, backends)[0];
      BestIsUsable(LeastSessions, at, counts, resources, first.position);
      return Some(first.resource), first.position;
    }

    method SelectLabelArithmetic(resources: seq<Resource>, at: Where, currentLabel: string, maxLabel: string,
                                 overlap: int)
      returns (selected: Option<Resource>, position: nat)
      ensures var strategy := LabelArithmetic(currentLabel, maxLabel, overlap);
              && (selected == None <==> NoneUsable(strategy, at, counts, resources))
              && (selected.Some? ==>
                    IsBest(strategy, at, counts, resources, position) && resources[position] == selected.value)
    {
      hide Wrap, ParseI64, AddressOf, Sort, IsBest, NoneUsable, Collected;
      ghost var strategy := LabelArithmetic(currentLabel, maxLabel, overlap);
      NoneCollected(strategy, at, counts, resources);
      var candidates: seq<Candidate> := [];
      for i := 0 to |resources|
        invariant Collected(strategy, at, counts, resources, i, candidates)
      {
        CollectedGrows(strategy, at, counts, resources, i, candidates, Candidate(resources[i], "", Score(0, 0), i));
        var resource := resources[i];
        var address, _ := ExtractAddress(resource.body, at.path, at.kind);
        if address == None {
          continue;
        }
        var current := 0;
        if currentLabel in resource.labels {
          var parsed := ParseI64(resource.labels[currentLabel]);
          if parsed == None {
            continue;
          }
          current := parsed.value;
        }
        if maxLabel !in resource.labels {
          continue;
        }
        var max := ParseI64(resource.labels[maxLabel]);
        if max == None {
          continue;
        }
        var sessions := if address.value in counts then counts[address.value] else 0;
        var available := Wrap(Wrap(Wrap(max.value - current) - Wrap(sessions)) - overlap);
        if available > 0 {
          var candidate := Candidate(resource, address.value, Score(-available, current), i);
          CollectedGrows(strategy, at, counts, resources, i, candidates, candidate);
          candidates := candidates + [candidate];
        }
      }
      SortedHeadIsBest(strategy, at, counts, resources, candidates);
      if candidates == [] {
        return None, 0;
      }
      var first := Sort(CandidateLeq, candidates)[0];
      BestIsUsable(strategy, at, counts, resources, first.position);
      return Some(first.resource), first.position;
    }

    method IncrementSession(address: string)
      modifies this`counts
      ensures counts == Incremented(old(counts), address)
    {
      if address !in counts {
        counts := counts[address := 0];
      }
      counts := counts[address := counts[address] + 1];
    }

    method DecrementSession(address: string)
      modifies this`counts
      ensures counts == Decremented(old(counts), address)
    {
      if address in counts {
        if counts[address] > 0 {
          counts := counts[address := counts[address] - 1];
        }
      }
    }
  }

  lemma BestIsUsable(strategy: Strategy, at: Where, counts: map<string, nat>, resources: seq<Resource>, i: nat)
    requires IsBest(strategy, at, counts, resources, i)
    ensures i < |resources| && !NoneUsable(strategy, at, counts, resources)
  {
  }

  // ----- overflow -----

  /** Wrapping at every subtraction is wrapping once at the end. */
  lemma AvailableWrapsOnce(current: int, max: int, sessions: nat, overlap: int)
    ensures Available(current, max, sessions, overlap) == Wrap(max - current - sessions - overlap)
  {
    WrapDiffers(max - current);
    WrapDiffers(sessions);
    var x := Wrap(max - current) - Wrap(sessions);
    WrapDiffers(x);
    var i := (Wrap(max - current) - (max - current)) / (2 * I64_LIMIT);
    var j := (Wrap(sessions) - sessions) / (2 * I64_LIMIT);
    var k := (Wrap(x) - x) / (2 * I64_LIMIT);
    WrapShifts(max - current - sessions - overlap, i - j + k);
  }

  lemma WrapDiffers(x: int)
    ensures (Wrap(x) - x) % (2 * I64_LIMIT) == 0
  {
  }

  lemma WrapShifts(x: int, k: int)
    ensures Wrap(x + k * (2 * I64_LIMIT)) == Wrap(x)
  {
  }

  /** A wrapped value is positive exactly when its residue lies in the lower half of the range. */
  lemma WrapIsPositive(x: int)
    ensures Wrap(x) > 0 <==> 0 < x % (2 * I64_LIMIT) < I64_LIMIT
  {
  }

  /**
   * The capacity test gives the arithmetic answer exactly when the residue of the true difference modulo 2^64 lies
   * in (0, 2^63) just in case the difference is positive. For differences below 2^64 in magnitude that is to
   * fit in 64 bits.
   */
  lemma CapacityTestIsExact(current: int, max: int, sessions: nat, overlap: int)
    ensures
      var d := max - current - sessions - overlap;
      && ((Available(current, max, sessions, overlap) > 0 <==> d > 0)
          <==> (0 < d % (2 * I64_LIMIT) < I64_LIMIT <==> d > 0))
      && (-2 * I64_LIMIT < d < 2 * I64_LIMIT ==>
            ((Available(current, max, sessions, overlap) > 0 <==> d > 0) <==> InI64(d)))
  {
    hide Wrap, Available;
    var d := max - current - sessions - overlap;
    AvailableWrapsOnce(current, max, sessions, overlap);
    WrapIsPositive(d);
    if -2 * I64_LIMIT < d < 2 * I64_LIMIT {
      ResidueWithinOneWrap(d);
    }
  }

  lemma ResidueWithinOneWrap(d: int)
    requires -2 * I64_LIMIT < d < 2 * I64_LIMIT
    ensures d % (2 * I64_LIMIT) == if d < 0 then d + 2 * I64_LIMIT else d
  {
  }

  // ----- a full backend that is selected -----

  /** A maximum of zero and as many users as a label can state: digits only, as label values may be. */
  predicate StatesOverfull(strategy: Strategy, resource: Resource)
    requires strategy.LabelArithmetic?
  {
    && strategy.currentLabel in resource.labels && resource.labels[strategy.currentLabel] == Decimal(I64_LIMIT - 1)
    && strategy.maxLabel in resource.labels && resource.labels[strategy.maxLabel] == Decimal(0)
  }

  lemma OverfullScore(strategy: Strategy, at: Where, resource: Resource)
    requires strategy.LabelArithmetic? && strategy.overlap == 2 && StatesOverfull(strategy, resource)
    requires AddressOf(resource.body, at.path, at.kind).Some?
    ensures Stated(strategy, resource) == Some((I64_LIMIT - 1, 0))
    ensures ScoreOf(strategy, at, map[], resource) == Some(Score(1 - I64_LIMIT, I64_LIMIT - 1))
  {
    hide ParseI64, Decimal, AddressOf, Wrap, Available;
    DigitsParse(I64_LIMIT - 1);
    DigitsParse(0);
    AvailableWrapsOnce(I64_LIMIT - 1, 0, 0, 2);
    WrapShifts(-I64_LIMIT - 1, 1);
    InRangeStays(I64_LIMIT - 1);
  }

  lemma InRangeStays(x: int)
    requires InI64(x)
    ensures Wrap(x) == x
  {
  }

  /**
   * With no sessions and an overlap of two, a backend whose labels say it is 2^63 - 1 users over its maximum is the
   * selected one, ahead of any list of backends whose labels are not at the limit of the range.
   */
  lemma FullBackendIsSelected(strategy: Strategy, at: Where, full: Resource, others: seq<Resource>)
    requires strategy.LabelArithmetic? && strategy.overlap == 2 && StatesOverfull(strategy, full)
    requires AddressOf(full.body, at.path, at.kind).Some?
    requires forall r :: r in others && Stated(strategy, r).Some? ==>
               0 <= Stated(strategy, r).value.0 < I64_LIMIT - 1 && 0 <= Stated(strategy, r).value.1 < I64_LIMIT
    ensures Stated(strategy, full) == Some((I64_LIMIT - 1, 0))
    ensures IsBest(strategy, at, map[], [full] + others, 0)
  {
    hide StatesOverfull, Stated, AddressOf, Available, Wrap, ParseI64, Decimal;
    OverfullScore(strategy, at, full);
    forall j | 0 < j < |[full] + others| && ScoreOf(strategy, at, map[], ([full] + others)[j]).Some?
      ensures ScoreLeq(Score(1 - I64_LIMIT, I64_LIMIT - 1), ScoreOf(strategy, at, map[], ([full] + others)[j]).value)
    {
      var r := others[j - 1];
      assert r in others;
      HealthyScore(strategy, at, r);
    }
  }

  lemma HealthyScore(strategy: Strategy, at: Where, r: Resource)
    requires strategy.LabelArithmetic? && strategy.overlap == 2 && ScoreOf(strategy, at, map[], r).Some?
    requires Stated(strategy, r).Some? ==>
               0 <= Stated(strategy, r).value.0 < I64_LIMIT - 1 && 0 <= Stated(strategy, r).value.1 < I64_LIMIT
    ensures ScoreOf(strategy, at, map[], r).value.first > 1 - I64_LIMIT
  {
    hide AddressOf, ParseI64, Available, Wrap;
    var (current, max) := Stated(strategy, r).value;
    AvailableInRange(current, max, 0, 2);
  }

  // ----- runs -----

  /** `pending` holds the addresses selected but not yet counted: selecting and counting are separate steps. */
  datatype Load = Load(counts: map<string, nat>, pending: multiset<string>)

  datatype Move = Select(i: nat) | CountIt(address: string) | Release(address: string)

  /** A fixed list of backends under one strategy, with at most `width` selections awaiting their count. */
  datatype Setup = Setup(strategy: Strategy, at: Where, resources: seq<Resource>, width: nat)

  function AddressAt(setup: Setup, i: nat): Option<string> {
    if i < |setup.resources| then AddressOf(setup.resources[i].body, setup.at.path, setup.at.kind) else None
  }

  ghost predicate Allowed(setup: Setup, load: Load, move: Move) {
    match move
    case Select(i) =>
      && IsBest(setup.strategy, setup.at, load.counts, setup.resources, i) && AddressAt(setup, i).Some?
      && |load.pending| < setup.width
    case CountIt(address) => address in load.pending
    case Release(_) => true
  }

  ghost function Moved(setup: Setup, load: Load, move: Move): Load
    requires Allowed(setup, load, move)
  {
    match move
    case Select(i) => load.(pending := load.pending + multiset{AddressAt(setup, i).value})
    case CountIt(address) =>
      Load(Incremented(load.counts, address), load.pending - multiset{address})
    case Release(address) => load.(counts := Decremented(load.counts, address))
  }

  ghost predicate Valid(setup: Setup, moves: seq<Move>)
    decreases |moves|, 0
  {
    moves == [] ||
    (var n := |moves| - 1; Valid(setup, moves[..n]) && Allowed(setup, Final(setup, moves[..n]), moves[n]))
  }

  /** The load after a valid run from no sessions. */
  ghost function Final(setup: Setup, moves: seq<Move>): Load
    requires Valid(setup, moves)
    decreases |moves|, 1
  {
    if moves == [] then Load(map[], multiset{})
    else var n := |moves| - 1; Moved(setup, Final(setup, moves[..n]), moves[n])
  }

  function Outstanding(load: Load, address: string): nat {
    CountOf(load.counts, address) + load.pending[address]
  }

  /** What labels and overlap leave for sessions. */
  function Room(setup: Setup, i: nat): Option<int>
    requires setup.strategy.LabelArithmetic?
  {
    if i < |setup.resources| && Stated(setup.strategy, setup.resources[i]).Some? then
      var (current, max) := Stated(setup.strategy, setup.resources[i]).value;
      Some(max - current - setup.strategy.overlap)
    else None
  }

  /** Distinct addresses, and rooms and pending selections that 64-bit arithmetic can hold. */
  ghost predicate SafeOperands(setup: Setup)
    requires setup.strategy.LabelArithmetic?
  {
    && setup.width <= I64_LIMIT
    && (forall i: nat, j: nat :: AddressAt(setup, i).Some? && AddressAt(setup, i) == AddressAt(setup, j) ==> i == j)
    && (forall i: nat :: Room(setup, i).Some? ==> InI64(Room(setup, i).value))
  }

  ghost predicate FitsRoom(setup: Setup, load: Load, i: nat)
    requires setup.strategy.LabelArithmetic?
  {
    AddressAt(setup, i).Some? && Outstanding(load, AddressAt(setup, i).value) > 0 ==>
      && Room(setup, i).Some? && Room(setup, i).value > 0
      && Outstanding(load, AddressAt(setup, i).value) <= Room(setup, i).value + setup.width - 1
  }

  ghost predicate AllFitRoom(setup: Setup, load: Load)
    requires setup.strategy.LabelArithmetic?
  {
    |load.pending| <= setup.width && forall i: nat :: FitsRoom(setup, load, i)
  }

  /** In safe loads a backend is a candidate exactly when its room is not used up by the counted sessions. */
  lemma UsableExactly(setup: Setup, load: Load, i: nat)
    requires setup.strategy.LabelArithmetic? && SafeOperands(setup) && AllFitRoom(setup, load) && i < |setup.resources|
    ensures ScoreOf(setup.strategy, setup.at, load.counts, setup.resources[i]).Some? <==>
            AddressAt(setup, i).Some? && Room(setup, i).Some? &&
            CountOf(load.counts, AddressAt(setup, i).value) < Room(setup, i).value
  {
    hide Wrap, AddressOf, ParseI64, Available;
    if AddressAt(setup, i).Some? && Room(setup, i).Some? {
      assert FitsRoom(setup, load, i);
      var (current, max) := Stated(setup.strategy, setup.resources[i]).value;
      var sessions := CountOf(load.counts, AddressAt(setup, i).value);
      AvailableInRange(current, max, sessions, setup.strategy.overlap);
    }
  }

  lemma AvailableInRange(current: int, max: int, sessions: nat, overlap: int)
    requires InI64(max - current - sessions - overlap)
    ensures Available(current, max, sessions, overlap) == max - current - sessions - overlap
  {
    AvailableWrapsOnce(current, max, sessions, overlap);
  }

  lemma MoveFits(setup: Setup, load: Load, move: Move, j: nat)
    requires setup.strategy.LabelArithmetic? && SafeOperands(setup) && AllFitRoom(setup, load)
    requires Allowed(setup, load, move)
    ensures FitsRoom(setup, Moved(setup, load, move), j)
  {
    hide Room, AddressAt, ScoreOf;
    assert FitsRoom(setup, load, j);
    if move.Select? {
      UsableExactly(setup, load, move.i);
      PendingBound(load.pending, AddressAt(setup, move.i).value);
    }
  }

  lemma PendingBound(pending: multiset<string>, address: string)
    ensures pending[address] <= |pending|
  {
    var others := pending[address := 0];
    assert pending == others + multiset{}[address := pending[address]];
  }

  lemma {:induction false} FitsAlways(setup: Setup, moves: seq<Move>)
    requires setup.strategy.LabelArithmetic? && SafeOperands(setup) && Valid(setup, moves)
    ensures AllFitRoom(setup, Final(setup, moves))
    decreases |moves|
  {
    hide IsBest, AddressAt, Room, FitsRoom;
    if moves == [] {
      forall i: nat ensures FitsRoom(setup, Final(setup, moves), i) {
        NothingFits(setup, i);
      }
    } else {
      var n := |moves| - 1;
      FitsAlways(setup, moves[..n]);
      forall j: nat ensures FitsRoom(setup, Final(setup, moves), j) {
        MoveFits(setup, Final(setup, moves[..n]), moves[n], j);
      }
    }
  }

  lemma NothingFits(setup: Setup, i: nat)
    requires setup.strategy.LabelArithmetic?
    ensures FitsRoom(setup, Load(map[], multiset{}), i)
  {
  }

  /**
   * With at most `width` selections in flight, a backend's sessions never exceed max - current - overlap by more
   * than `width - 1`, and are zero when that is not positive; selecting strictly before counting (width 1) keeps
   * them within it. Selection fails exactly when no labelled backend has room left.
   */
  lemma SessionsStayWithinRoom(setup: Setup, moves: seq<Move>)
    requires setup.strategy.LabelArithmetic? && SafeOperands(setup) && Valid(setup, moves)
    ensures
      var counts := Final(setup, moves).counts;
      && (forall i: nat :: AddressAt(setup, i).Some? && Room(setup, i).Some? ==>
            var room := Room(setup, i).value;
            CountOf(counts, AddressAt(setup, i).value)
            <= (if room > 0 && setup.width > 0 then room + setup.width - 1 else 0))
      && (NoneUsable(setup.strategy, setup.at, counts, setup.resources) <==>
            forall i: nat :: AddressAt(setup, i).Some? && Room(setup, i).Some? ==>
              CountOf(counts, AddressAt(setup, i).value) >= Room(setup, i).value)
  {
    hide Room, AddressAt, ScoreOf, SafeOperands;
    var load := Final(setup, moves);
    FitsAlways(setup, moves);
    if setup.width == 0 {
      NoWidthNoSessions(setup, moves);
    }
    forall i: nat | AddressAt(setup, i).Some?
      ensures FitsRoom(setup, load, i)
      ensures i < |setup.resources|
      ensures ScoreOf(setup.strategy, setup.at, load.counts, setup.resources[i]).Some? <==>
                Room(setup, i).Some? && CountOf(load.counts, AddressAt(setup, i).value) < Room(setup, i).value
    {
      AddressedIsListed(setup, i);
      UsableExactly(setup, load, i);
    }
    forall i: nat | i < |setup.resources| && ScoreOf(setup.strategy, setup.at, load.counts, setup.resources[i]).Some?
      ensures AddressAt(setup, i).Some?
    {
      UsableExactly(setup, load, i);
    }
  }

  lemma AddressedIsListed(setup: Setup, i: nat)
    requires AddressAt(setup, i).Some?
    ensures i < |setup.resources|
  {
  }

  lemma {:induction false} NoWidthNoSessions(setup: Setup, moves: seq<Move>)
    requires Valid(setup, moves) && setup.width == 0
    ensures Final(setup, moves) == Load(map[], multiset{})
    decreases |moves|
  {
    hide IsBest, AddressAt;
    if moves != [] {
      NoWidthNoSessions(setup, moves[..|moves| - 1]);
    }
  }

  ghost predicate Balanced(setup: Setup, load: Load) {
    && |load.pending| <= setup.width
    && forall i: nat, j: nat :: AddressAt(setup, i).Some? && AddressAt(setup, j).Some? ==>
         Outstanding(load, AddressAt(setup, i).value) <= CountOf(load.counts, AddressAt(setup, j).value) + setup.width
  }

  lemma MoveBalances(setup: Setup, load: Load, move: Move)
    requires setup.strategy == LeastSessions && Balanced(setup, load) && Allowed(setup, load, move) && !move.Release?
    ensures Balanced(setup, Moved(setup, load, move))
  {
    var load' := Moved(setup, load, move);
    forall i: nat, j: nat | AddressAt(setup, i).Some? && AddressAt(setup, j).Some?
      ensures Outstanding(load', AddressAt(setup, i).value)
              <= CountOf(load'.counts, AddressAt(setup, j).value) + setup.width
    {
      hide AddressOf;
      if move.Select? && AddressAt(setup, i) == AddressAt(setup, move.i) {
        PendingBound(load'.pending, AddressAt(setup, i).value);
        assert ScoreOf(setup.strategy, setup.at, load.counts, setup.resources[j]).Some?;
      }
    }
  }

  /**
   * Under least sessions, without releases, the counts of any two backends of the list differ by at most the
   * number of selections in flight: by at most one when each is counted before the next.
   */
  lemma {:induction false} CountsStayBalanced(setup: Setup, moves: seq<Move>)
    requires setup.strategy == LeastSessions && Valid(setup, moves)
    requires forall i :: 0 <= i < |moves| ==> !moves[i].Release?
    ensures Balanced(setup, Final(setup, moves))
    decreases |moves|
  {
    hide IsBest, AddressAt;
    if moves != [] {
      var n := |moves| - 1;
      CountsStayBalanced(setup, moves[..n]);
      MoveBalances(setup, Final(setup, moves[..n]), moves[n]);
    }
  }
}
