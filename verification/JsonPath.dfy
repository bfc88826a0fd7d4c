/** The small path language used to read addresses, ports and status fields out of a resource. */
module JsonPath {
  import opened Wrappers

  /** A JSON value. A number is either a whole one or kept as the text it prints to. */
  datatype Json =
    | Null
    | Bool(b: bool)
    | Num(n: int)
    | Float(text: string)
    | Str(s: string)
    | Arr(items: seq<Json>)
    | Obj(fields: map<string, Json>)

  /** `Panic` is the out-of-range slice taken when a path part ends with its opening bracket. */
  datatype Lookup = Found(json: Json) | Missing | Panic

  const USIZE_LIMIT: nat := 0x1_0000_0000_0000_0000

  function Field(json: Json, name: string): Option<Json> {
    if json.Obj? && name in json.fields then Some(json.fields[name]) else None
  }

  function Element(json: Json, index: nat): Option<Json> {
    if json.Arr? && index < |json.items| then Some(json.items[index]) else None
  }

  // ----- text helpers -----

  /** Position of the first `c`, or the length when there is none. */
  function IndexOf(s: string, c: char): (i: nat)
    ensures i <= |s|
    ensures i < |s| ==> s[i] == c
    ensures c !in s[..i]
  {
    if s == "" then 0
    else if s[0] == c then 0
    else
      var i := 1 + IndexOf(s[1..], c);
      assert s[..i] == [s[0]] + s[1..][..i - 1];
      i
  }

  function Split(s: string): (parts: seq<string>)
    ensures parts != []
  {
    var dot := IndexOf(s, '.');
    if dot == |s| then [s] else [s[..dot]] + Split(s[dot + 1..])
  }

  predicate IsDigit(c: char) { '0' <= c <= '9' }

  function DigitsValue(s: string): nat
    requires forall c :: c in s ==> IsDigit(c)
  {
    if s == "" then 0
    else
      assert IsDigit(s[|s| - 1]);
      DigitsValue(s[..|s| - 1]) * 10 + (s[|s| - 1] as int - '0' as int)
  }

  /** `str::parse::<usize>`: an optional plus sign, then digits, below 2^64. */
  function ParseUsize(s: string): Option<nat> {
    var body := if |s| > 1 && s[0] == '+' then s[1..] else s;
    if body == "" || exists c :: c in body && !IsDigit(c) then None
    else if DigitsValue(body) < USIZE_LIMIT then Some(DigitsValue(body))
    else None
  }

  function Decimal(n: nat): (s: string)
    ensures s != "" && forall c :: c in s ==> IsDigit(c)
    ensures DigitsValue(s) == n
  {
    var digit := [(n % 10 + '0' as int) as char];
    if n < 10 then
      assert digit[..0] == "";
      digit
    else
      var s := Decimal(n / 10) + digit;
      assert s[..|s| - 1] == Decimal(n / 10);
      s
  }

  // ----- evaluation -----

  function EvalPart(json: Json, part: string): Lookup {
    var bracket := IndexOf(part, '[');
    if bracket == |part| then
      FromOption(Field(json, part))
    else if bracket + 1 > |part| - 1 then
      Panic
    else
      match Field(json, part[..bracket])
      case None => Missing
      case Some(list) =>
        match ParseUsize(part[bracket + 1..|part| - 1])
        case None => Missing
        case Some(index) => FromOption(Element(list, index))
  }

  function FromOption(o: Option<Json>): Lookup {
    match o case Some(j) => Found(j) case None => Missing
  }

  function EvalParts(json: Json, parts: seq<string>): Lookup {
    if parts == [] then Found(json)
    else
      match EvalPart(json, parts[0])
      case Found(next) => EvalParts(next, parts[1..])
      case failed => failed
  }

  function Eval(json: Json, path: string): Lookup {
    EvalParts(json, Split(path))
  }

  /** Walks the parts of a path from left to right. */
  method ExtractJsonPath(json: Json, path: string) returns (r: Lookup)
    ensures r == Eval(json, path)
  {
    hide ParseUsize, IndexOf, Split;
    var parts := Split(path);
    var current := json;
    for i := 0 to |parts|
      invariant EvalParts(json, parts) == EvalParts(current, parts[i..])
    {
      var part := parts[i];
      var bracket := IndexOf(part, '[');
      if bracket < |part| {
        if bracket + 1 > |part| - 1 {
          return Panic;
        }
        var fieldName := part[..bracket];
        var indexText := part[bracket + 1..|part| - 1];
        var list := Field(current, fieldName);
        if list == None {
          return Missing;
        }
        var index := ParseUsize(indexText);
        if index == None {
          return Missing;
        }
        var element := Element(list.value, index.value);
        if element == None {
          return Missing;
        }
        current := element.value;
      } else {
        var value := Field(current, part);
        if value == None {
          return Missing;
        }
        current := value.value;
      }
    }
    return Found(current);
  }

  // ----- abstract paths -----

  datatype Segment = Name(name: string) | Item(name: string, index: nat)

  predicate WellFormed(segment: Segment) {
    '.' !in segment.name && '[' !in segment.name &&
    (segment.Item? ==> segment.index < USIZE_LIMIT)
  }

  function PrintSegment(segment: Segment): string {
    match segment
    case Name(name) => name
    case Item(name, index) => name + "[" + Decimal(index) + "]"
  }

  function Print(segments: seq<Segment>): string
    requires segments != []
  {
    if |segments| == 1 then PrintSegment(segments[0])
    else PrintSegment(segments[0]) + "." + Print(segments[1..])
  }

  function Step(json: Json, segment: Segment): Option<Json> {
    match segment
    case Name(name) => Field(json, name)
    case Item(name, index) =>
      match Field(json, name)
      case None => None
      case Some(list) => Element(list, index)
  }

  function Walk(json: Json, segments: seq<Segment>): Option<Json> {
    if segments == [] then Some(json)
    else
      match Step(json, segments[0])
      case None => None
      case Some(next) => Walk(next, segments[1..])
  }

  // ----- laws -----

  lemma {:induction false} IndexOfIs(s: string, c: char, i: nat)
    requires i <= |s| && c !in s[..i] && (i < |s| ==> s[i] == c)
    ensures IndexOf(s, c) == i
  {
    if i > 0 {
      assert s[..i][0] == s[0];
      assert s[1..][..i - 1] == s[..i][1..];
      IndexOfIs(s[1..], c, i - 1);
    }
  }

  lemma {:induction false} SplitJoins(p: string, q: string)
    ensures Split(p + "." + q) == Split(p) + Split(q)
    decreases |p|
  {
    var whole := p + "." + q;
    var dot := IndexOf(p, '.');
    assert whole[..dot] == p[..dot];
    IndexOfIs(whole, '.', dot);
    if dot == |p| {
      assert p[..dot] == p && whole[dot + 1..] == q;
    } else {
      assert whole[dot + 1..] == p[dot + 1..] + "." + q;
      SplitJoins(p[dot + 1..], q);
    }
  }

  lemma SplitSingle(part: string)
    requires '.' !in part
    ensures Split(part) == [part]
  {
    assert part[..|part|] == part;
    IndexOfIs(part, '.', |part|);
  }

  lemma {:induction false} EvalPartsAppend(json: Json, a: seq<string>, b: seq<string>)
    ensures EvalParts(json, a + b) ==
            (match EvalParts(json, a) case Found(mid) => EvalParts(mid, b) case failed => failed)
  {
    if a == [] {
      assert a + b == b;
    } else {
      assert (a + b)[0] == a[0] && (a + b)[1..] == a[1..] + b;
      match EvalPart(json, a[0])
      case Found(next) => EvalPartsAppend(next, a[1..], b);
      case _ =>
    }
  }

  /** Evaluating `p.q` is evaluating `q` on the result of `p`, for every pair of texts. */
  lemma PathsCompose(json: Json, p: string, q: string)
    ensures Eval(json, p + "." + q) ==
            (match Eval(json, p) case Found(mid) => Eval(mid, q) case failed => failed)
  {
    SplitJoins(p, q);
    EvalPartsAppend(json, Split(p), Split(q));
  }

  lemma ItemParts(name: string, index: nat)
    requires '[' !in name && '.' !in name
    ensures
      var part := name + "[" + Decimal(index) + "]";
      && '.' !in part
      && IndexOf(part, '[') == |name| < |part| - 2
      && part[..|name|] == name && part[|name| + 1..|part| - 1] == Decimal(index)
  {
    var part := name + "[" + Decimal(index) + "]";
    assert part[..|name|] == name;
    IndexOfIs(part, '[', |name|);
  }

  lemma ParseDecimal(index: nat)
    requires index < USIZE_LIMIT
    ensures ParseUsize(Decimal(index)) == Some(index)
  {
    assert IsDigit(Decimal(index)[0]);
  }

  lemma SegmentEvaluates(json: Json, segment: Segment)
    requires WellFormed(segment)
    ensures '.' !in PrintSegment(segment)
    ensures EvalPart(json, PrintSegment(segment)) == FromOption(Step(json, segment))
  {
    hide ParseUsize, IndexOf, Decimal;
    match segment
    case Name(name) =>
      assert name[..|name|] == name;
      IndexOfIs(name, '[', |name|);
    case Item(name, index) =>
      ItemParts(name, index);
      ParseDecimal(index);
  }

  /** The printed form of an abstract path evaluates to what walking its segments finds. */
  lemma {:induction false} PrintedPathWalks(json: Json, segments: seq<Segment>)
    requires segments != [] && forall s :: s in segments ==> WellFormed(s)
    ensures Eval(json, Print(segments)) == FromOption(Walk(json, segments))
  {
    var first := segments[0];
    SegmentEvaluates(json, first);
    SplitSingle(PrintSegment(first));
    assert EvalParts(json, [PrintSegment(first)]) == EvalPart(json, PrintSegment(first));
    if |segments| == 1 {
      assert segments[1..] == [];
    } else {
      PathsCompose(json, PrintSegment(first), Print(segments[1..]));
      match Step(json, first)
      case None =>
      case Some(next) => PrintedPathWalks(next, segments[1..]);
    }
  }

  /** Part `i` is reached and its first bracket is its last character. */
  ghost predicate BreaksAt(json: Json, parts: seq<string>, i: nat) {
    i < |parts| && EvalParts(json, parts[..i]).Found? && parts[i] != "" && IndexOf(parts[i], '[') == |parts[i]| - 1
  }

  lemma BreaksLater(json: Json, parts: seq<string>, i: nat)
    requires parts != [] && EvalPart(json, parts[0]).Found?
    ensures BreaksAt(json, parts, i + 1) <==> BreaksAt(EvalPart(json, parts[0]).json, parts[1..], i)
  {
    hide IndexOf, EvalPart;
    if i + 1 < |parts| {
      assert parts[..i + 1][1..] == parts[1..][..i];
    }
  }

  /** Evaluation panics exactly when the walk reaches a part whose first bracket is its last character. */
  lemma {:induction false} PanicsExactly(json: Json, parts: seq<string>)
    ensures EvalParts(json, parts) == Panic <==> exists i: nat :: BreaksAt(json, parts, i)
  {
    if parts != [] {
      assert parts[..0] == [];
      assert BreaksAt(json, parts, 0) <==> EvalPart(json, parts[0]) == Panic;
      match EvalPart(json, parts[0])
      case Found(next) =>
        hide BreaksAt, IndexOf;
        PanicsExactly(next, parts[1..]);
        forall i: nat ensures BreaksAt(json, parts, i + 1) <==> BreaksAt(next, parts[1..], i) {
          BreaksLater(json, parts, i);
        }
        if i: nat :| BreaksAt(json, parts, i) {
          assert i > 0 && BreaksAt(next, parts[1..], i - 1);
        }
      case _ =>
        forall i: nat | i > 0 && i < |parts| ensures !EvalParts(json, parts[..i]).Found? {
          assert parts[..i][0] == parts[0];
        }
    }
  }

  /** The shortest such path: it panics whatever it is evaluated on. */
  lemma BareBracketPanics(json: Json)
    ensures Eval(json, "a[") == Panic
  {
    SplitSingle("a[");
    IndexOfIs("a[", '[', 1);
  }

  /** Digits count in tens. */
  lemma DigitsAreDecimal(s: string, digit: char)
    requires (forall c :: c in s ==> IsDigit(c)) && '0' <= digit <= '9'
    ensures forall c :: c in s + [digit] ==> IsDigit(c)
    ensures DigitsValue("") == 0 && DigitsValue(s + [digit]) == 10 * DigitsValue(s) + (digit as int - '0' as int)
  {
    assert (s + [digit])[..|s|] == s;
  }

  /** A plain name reads the field of that name of an object, and finds nothing in anything else. */
  lemma NameReadsField(json: Json, name: string)
    requires '.' !in name && '[' !in name
    ensures Eval(json, name) == if json.Obj? && name in json.fields then Found(json.fields[name]) else Missing
  {
    PrintedPathWalks(json, [Segment.Name(name)]);
  }

  /** A name with an index reads that element of the array in that field, counting from zero. */
  lemma IndexReadsElement(json: Json, name: string, index: nat)
    requires '.' !in name && '[' !in name && index < USIZE_LIMIT
    ensures Eval(json, name + "[" + Decimal(index) + "]") ==
            if json.Obj? && name in json.fields && json.fields[name].Arr? && index < |json.fields[name].items|
            then Found(json.fields[name].items[index]) else Missing
  {
    PrintedPathWalks(json, [Segment.Item(name, index)]);
  }
}
