/** Aggregate capacity signals: concurrent cold queries of one group share a flight, and a flight posts once. */
module Demand {
  import opened Wrappers

  datatype DemandError = UnknownGroup | Maintenance | Unavailable | Timeout | Cancelled

  datatype Flight = Flight(group: string, deadline: int, posted: bool, outcome: Option<Result<(), DemandError>>)

  /**
   * Every flight a director ever created, the table of the latest flight per group, and two counters:
   * requests posted per group, and how often a group went from no live holder to one.
   */
  datatype Board = Board(
    flights: seq<Flight>,
    table: map<string, nat>,
    posts: map<string, nat>,
    rises: map<string, nat>)

  const EMPTY_BOARD := Board([], map[], map[], map[])

  datatype PostOutcome = Response(code: nat) | TransportError | DeadlinePassed

  function Interpret(outcome: PostOutcome): Result<(), DemandError> {
    match outcome
    case Response(code) =>
      if code == 202 then Success(())
      else if code == 404 then Failure(UnknownGroup)
      else if code == 503 then Failure(Maintenance)
      else Failure(Unavailable)
    case TransportError => Failure(Unavailable)
    case DeadlinePassed => Failure(Timeout)
  }

  function Count(counters: map<string, nat>, group: string): nat {
    if group in counters then counters[group] else 0
  }

  predicate GroupLive(board: Board, live: set<nat>, group: string) {
    exists f :: f in live && f < |board.flights| && board.flights[f].group == group
  }

  /** Entries whose flight still has a holder. */
  function Usable(table: map<string, nat>, live: set<nat>): map<string, nat> {
    map g | g in table && table[g] in live :: table[g]
  }

  /** Drop the table entries nobody holds, join the group's flight if one is left, otherwise start one. */
  function JoinOrStart(board: Board, live: set<nat>, group: string, deadline: int): (Board, nat) {
    var table := Usable(board.table, live);
    var rises := if GroupLive(board, live, group) then board.rises
                 else board.rises[group := Count(board.rises, group) + 1];
    if group in table then
      (board.(table := table, rises := rises), table[group])
    else
      var id := |board.flights|;
      (board.(flights := board.flights + [Flight(group, deadline, false, None)],
              table := table[group := id],
              rises := rises),
       id)
  }

  /** First poll of the shared request. */
  function Post(board: Board, f: nat): Board
    requires f < |board.flights|
  {
    var flight := board.flights[f];
    board.(flights := board.flights[f := flight.(posted := true)],
           posts := board.posts[flight.group := Count(board.posts, flight.group) + 1])
  }

  function Answer(board: Board, f: nat, outcome: PostOutcome): Board
    requires f < |board.flights|
  {
    board.(flights := board.flights[f := board.flights[f].(outcome := Some(Interpret(outcome)))])
  }

  function Created(flights: seq<Flight>, group: string): nat {
    if flights == [] then 0
    else Created(flights[..|flights| - 1], group) + (if flights[|flights| - 1].group == group then 1 else 0)
  }

  function Posted(flights: seq<Flight>, group: string): nat {
    if flights == [] then 0
    else Posted(flights[..|flights| - 1], group) +
         (if flights[|flights| - 1].group == group && flights[|flights| - 1].posted then 1 else 0)
  }

  /** Each live flight is the one its group's table entry names. */
  ghost predicate Coherent(board: Board, live: set<nat>) {
    && (forall g :: g in board.table ==>
          board.table[g] < |board.flights| && board.flights[board.table[g]].group == g)
    && (forall f :: f in live ==>
          && f < |board.flights|
          && board.flights[f].group in board.table
          && board.table[board.flights[f].group] == f)
  }

  ghost predicate Counted(board: Board) {
    forall g :: Count(board.rises, g) == Created(board.flights, g) && Count(board.posts, g) == Posted(board.flights, g)
  }

  ghost predicate BoardOk(board: Board, live: set<nat>) {
    Coherent(board, live) && Counted(board)
  }

  lemma {:induction false} PostedAtMostCreated(flights: seq<Flight>, group: string)
    ensures Posted(flights, group) <= Created(flights, group)
  {
    if flights != [] {
      PostedAtMostCreated(flights[..|flights| - 1], group);
    }
  }

  lemma {:induction false} CountsAfterUpdate(flights: seq<Flight>, f: nat, flight: Flight, group: string)
    requires f < |flights| && flight.group == flights[f].group
    ensures Created(flights[f := flight], group) == Created(flights, group)
    ensures Posted(flights[f := flight], group) + (if flights[f].group == group && flights[f].posted then 1 else 0)
            == Posted(flights, group) + (if flight.group == group && flight.posted then 1 else 0)
  {
    var n := |flights| - 1;
    if f == n {
      assert flights[f := flight][..n] == flights[..n];
    } else {
      assert flights[f := flight][..n] == flights[..n][f := flight];
      CountsAfterUpdate(flights[..n], f, flight, group);
    }
  }

  lemma StartCounted(board: Board, group: string, deadline: int)
    requires Counted(board)
    ensures Counted(board.(flights := board.flights + [Flight(group, deadline, false, None)],
                           rises := board.rises[group := Count(board.rises, group) + 1]))
  {
    var flights := board.flights + [Flight(group, deadline, false, None)];
    var rises := board.rises[group := Count(board.rises, group) + 1];
    assert flights[..|board.flights|] == board.flights;
    forall g ensures Count(rises, g) == Created(flights, g) && Count(board.posts, g) == Posted(flights, g) {
      assert Count(board.rises, g) == Created(board.flights, g) && Count(board.posts, g) == Posted(board.flights, g);
    }
  }

  /** A signal joins the live flight of its group when there is one; otherwise it starts exactly one. */
  lemma SignalKeepsBoard(board: Board, live: set<nat>, group: string, deadline: int)
    requires BoardOk(board, live)
    ensures
      var (after, f) := JoinOrStart(board, live, group, deadline);
      && BoardOk(after, live + {f})
      && f < |after.flights| && after.flights[f].group == group
      && (f in live <==> GroupLive(board, live, group))
      && board.flights <= after.flights
      && (f !in live ==> after.flights[f] == Flight(group, deadline, false, None))
  {
    hide Counted, Created, Posted, Count;
    var (after, f) := JoinOrStart(board, live, group, deadline);
    if GroupLive(board, live, group) {
      assert group in board.table && board.table[group] in live;
      SameCounted(board, after);
    } else {
      StartCounted(board, group, deadline);
      SameCounted(board.(flights := board.flights + [Flight(group, deadline, false, None)],
                         rises := board.rises[group := Count(board.rises, group) + 1]), after);
    }
  }

  lemma SameCounted(a: Board, b: Board)
    requires Counted(a) && a.flights == b.flights && a.rises == b.rises && a.posts == b.posts
    ensures Counted(b)
  {
  }

  lemma PostKeepsBoard(board: Board, live: set<nat>, f: nat)
    requires BoardOk(board, live) && f < |board.flights| && !board.flights[f].posted
    ensures BoardOk(Post(board, f), live)
  {
    forall g
      ensures Count(Post(board, f).posts, g) == Posted(Post(board, f).flights, g)
      ensures Count(board.rises, g) == Created(Post(board, f).flights, g)
    {
      CountsAfterUpdate(board.flights, f, board.flights[f].(posted := true), g);
    }
  }

  lemma AnswerKeepsBoard(board: Board, live: set<nat>, f: nat, outcome: PostOutcome)
    requires BoardOk(board, live) && f < |board.flights|
    ensures BoardOk(Answer(board, f, outcome), live)
  {
    forall g
      ensures Count(board.posts, g) == Posted(Answer(board, f, outcome).flights, g)
      ensures Count(board.rises, g) == Created(Answer(board, f, outcome).flights, g)
    {
      CountsAfterUpdate(board.flights, f, board.flights[f].(outcome := Some(Interpret(outcome))), g);
    }
  }

  /** The same entries, read off the reference counts. */
  function Retain(table: map<string, nat>, strong: seq<nat>): (retained: map<string, nat>)
    ensures retained == Usable(table, LiveOf(strong))
  {
    map g | g in table && table[g] < |strong| && strong[table[g]] > 0 :: table[g]
  }

  function LiveOf(strong: seq<nat>): (live: set<nat>)
    ensures forall f: nat :: f in live <==> f < |strong| && strong[f] > 0
  {
    set f: nat | f < |strong| && strong[f] > 0
  }

  lemma LiveAfterUpgrade(strong: seq<nat>, f: nat)
    ensures f < |strong| ==> LiveOf(strong[f := strong[f] + 1]) == LiveOf(strong) + {f}
    ensures f == |strong| ==> LiveOf(strong + [1]) == LiveOf(strong) + {f}
  {
  }

  /**
   * The shared signal table of one director. `arcs` are the flights ever allocated and `strong` their
   * reference counts; the table only holds weak references, so an entry is usable while its count is positive.
   */
  class CapacityDemand {
    var table: map<string, nat>
    var arcs: seq<Flight>
    var strong: seq<nat>
    ghost var posts: map<string, nat>
    ghost var rises: map<string, nat>

    ghost function Value(): Board
      reads this
    {
      Board(arcs, table, posts, rises)
    }

    ghost function Live(): set<nat>
      reads this
    {
      LiveOf(strong)
    }

    ghost predicate Valid()
      reads this
    {
      |strong| == |arcs| && BoardOk(Value(), Live())
    }

    constructor ()
      ensures Valid() && Value() == EMPTY_BOARD && Live() == {}
    {
      table, arcs, strong := map[], [], [];
      posts, rises := map[], map[];
    }

    /** Retain, look up and upgrade, or insert: afterwards the caller holds one more reference. */
    method Signal(group: string, now: int, bootTimeout: nat) returns (f: nat)
      requires Valid()
      modifies this
      ensures Valid()
      ensures (Value(), f) == JoinOrStart(old(Value()), old(Live()), group, now + bootTimeout)
      ensures Live() == old(Live()) + {f}
      ensures f < |strong| && strong[f] == (if f < |old(strong)| then old(strong[f]) else 0) + 1
      ensures forall g :: 0 <= g < |old(strong)| && g != f ==> strong[g] == old(strong[g])
    {
      hide Coherent, Counted;
      ghost var live := Live();
      ghost var after := JoinOrStart(Value(), live, group, now + bootTimeout);
      assert BoardOk(after.0, live + {after.1}) && (after.1 in live || after.1 == |arcs|) by {
        SignalKeepsBoard(Value(), live, group, now + bootTimeout);
      }
      rises := after.0.rises;
      table := Retain(table, strong);
      if group in table {
        f := table[group];
        strong := strong[f := strong[f] + 1];
      } else {
        f := |arcs|;
        arcs := arcs + [Flight(group, now + bootTimeout, false, None)];
        strong := strong + [1];
        table := table[group := f];
      }
      assert (Value(), f) == after;
      LiveAfterUpgrade(old(strong), f);
    }

    /** A holder ends: one reference less. */
    method Release(f: nat)
      requires Valid() && f in Live()
      modifies this`strong
      ensures Valid()
      ensures Value() == old(Value()) && Live() <= old(Live())
      ensures strong == old(strong)[f := old(strong[f]) - 1]
    {
      strong := strong[f := strong[f] - 1];
    }

    /** Polling the shared request: only the first poll of a flight sends anything. */
    method Poll(f: nat) returns (sends: bool)
      requires Valid() && f in Live()
      modifies this`arcs, this`posts
      ensures Valid()
      ensures sends == !old(arcs[f].posted)
      ensures Value() == if sends then Post(old(Value()), f) else old(Value())
      ensures Live() == old(Live())
    {
      sends := !arcs[f].posted;
      if sends {
        PostKeepsBoard(Value(), Live(), f);
        posts := posts[arcs[f].group := Count(posts, arcs[f].group) + 1];
        arcs := arcs[f := arcs[f].(posted := true)];
      }
    }
  }
}
