/**
 * The assignment protocol as a transition system: directors, their in-flight access queries, the versioned
 * Pod store with its watch history, the demand flights, the proxy's routes, a draining controller and a clock.
 * Every suspension point of a query is a separate step, so all interleavings are runs of this system.
 */
module Protocol {
  import opened Wrappers
  import opened Backend
  import opened Pods
  import opened Characters
  import opened Selection
  import opened Demand

  datatype Reply =
    | Joined(server: string, ports: map<string, Port>)
    | NoServer
    | InvalidId
    | NoRoute
    | StartupFailed(error: DemandError)

  /**
   * Where a query is suspended. `items` and `version` are its last Pod list and that list's revision,
   * `since` is the instant of that list and `at` the instant the query evaluated it.
   */
  datatype Phase =
    | Queued
    | Listing(cold: bool)
    | Deciding(items: seq<Pod>, version: nat, since: int)
    | Signalled(items: seq<Pod>, version: nat, at: int)
    | Watching(items: seq<Pod>, version: nat, at: int)
    | Requeued
    | Patching(items: seq<Pod>, version: nat, at: int, pod: Pod, target: Target)
    | Answered(delivered: bool, pod: Pod, target: Target, written: nat)
    | Done(reply: Reply)

  /** `granted` is the revision at which the query last obtained the lock. */
  datatype Query = Query(
    director: nat,
    client: string,
    req: Request,
    flight: Option<nat>,
    granted: nat,
    phase: Phase)

  /** A route, the revision it was installed at, and the query that did so; none when the proxy chose the default. */
  datatype Entry = Entry(origin: Option<nat>, target: Target, installed: nat)

  /**
   * `holder` owns the assignment lock. `grants` lists, in lock order, the queries whose time under the lock
   * ended in a decision, followed by the present holder.
   */
  datatype Director = Director(holder: Option<nat>, grants: seq<nat>, board: Board, sessions: map<string, Entry>)

  /** A controller removing a Pod: it has marked the Pod, or has re-read it empty at a version. */
  datatype Drain = Marked(name: string) | Confirmed(name: string, version: nat)

  /** `history[r]` is the Pod store at cluster revision `r`; the last one is current. */
  datatype State = State(
    clock: int,
    history: seq<Store>,
    directors: map<nat, Director>,
    queries: map<nat, Query>,
    drains: map<nat, Drain>)

  datatype Step =
    | Tick(to: int)
    | Outside(name: string, pod: Option<Pod>)
    | Reroute(d: nat, client: string, target: Option<Target>)
    | Arrive(q: nat, d: nat, client: string, req: Request)
    | Acquire(q: nat)
    | List(q: nat, items: seq<Pod>)
    | Evaluate(q: nat)
    | ApplyPatch(q: nat, delivered: bool)
    | RejectPatch(q: nat)
    | Install(q: nat)
    | NetworkError(q: nat)
    | PostDemand(d: nat, f: nat)
    | AnswerDemand(d: nat, f: nat, outcome: PostOutcome)
    | SeeAnswer(q: nat)
    | WatchReturns(q: nat, expired: bool)
    | TimesOut(q: nat)
    | Disconnects(q: nat)
    | MarkDrain(i: nat, name: string)
    | ConfirmDrain(i: nat)
    | DeleteDrained(i: nat)

  // ----- reading a state -----

  function Current(s: State): Store {
    if s.history == [] then map[] else s.history[|s.history| - 1]
  }

  /** The current cluster revision. */
  function Revision(s: State): nat {
    if s.history == [] then 0 else |s.history| - 1
  }

  predicate HoldsLock(phase: Phase) {
    phase.Listing? || phase.Deciding? || phase.Patching? || phase.Answered?
  }

  /** Suspended in the cold wait, where the deadline and the client's disconnection are raced. */
  predicate InColdWait(phase: Phase) {
    phase.Signalled? || phase.Watching? || phase.Requeued? || phase == Listing(true)
  }

  function LiveFlights(s: State, d: nat): (live: set<nat>)
    ensures forall f :: f in live <==>
              exists q :: q in s.queries && s.queries[q].director == d && s.queries[q].flight == Some(f)
  {
    set q | q in s.queries && s.queries[q].director == d && s.queries[q].flight.Some? :: s.queries[q].flight.value
  }

  function GroupOf(demand: DemandConfig, mapName: string): string {
    if mapName in demand.groups then demand.groups[mapName] else mapName
  }

  /** The public answer of a successful query: listener ports by name, later entries winning. */
  function PublicPorts(dataPorts: seq<DataPort>): map<string, Port> {
    if dataPorts == [] then map[]
    else
      var last := dataPorts[|dataPorts| - 1];
      PublicPorts(dataPorts[..|dataPorts| - 1])[last.name := last.port]
  }

  function JoinedAt(cfg: Config, pod: Pod): Reply {
    Joined(if pod.uid.Some? then pod.uid.value else "", PublicPorts(cfg.dataPorts))
  }

  /** The watch has something to deliver: a later revision changed a Pod its selector covers. */
  ghost predicate Deliverable(cfg: Config, s: State, mapName: string, version: nat) {
    exists r :: version <= r < |s.history| - 1 &&
                Matching(cfg, mapName, s.history[r]) != Matching(cfg, mapName, s.history[r + 1])
  }

  // ----- changing a state -----

  function Write(s: State, store: Store): State {
    s.(history := s.history + [store])
  }

  function SetPhase(s: State, q: nat, phase: Phase): State
    requires q in s.queries
  {
    s.(queries := s.queries[q := s.queries[q].(phase := phase)])
  }

  function SetDirector(s: State, d: nat, director: Director): State {
    s.(directors := s.directors[d := director])
  }

  /** Give the lock back; a section that decided nothing leaves no mark in the lock order. */
  function Unlock(director: Director, decided: bool): Director {
    director.(holder := None,
              grants := if decided || director.grants == [] then director.grants
                        else director.grants[..|director.grants| - 1])
  }

  /** A query ends: its flight reference and, when it holds it, the lock are dropped. */
  function Finish(s: State, q: nat, reply: Reply, decided: bool): State
    requires q in s.queries && s.queries[q].director in s.directors
  {
    var query := s.queries[q];
    var s' := s.(queries := s.queries[q := query.(phase := Done(reply), flight := None)]);
    if HoldsLock(query.phase)
    then SetDirector(s', query.director, Unlock(s.directors[query.director], decided))
    else s'
  }

  function InstallRoute(s: State, q: nat, target: Target): State
    requires q in s.queries && s.queries[q].director in s.directors
  {
    var query := s.queries[q];
    var director := s.directors[query.director];
    SetDirector(s, query.director,
                director.(sessions := director.sessions[query.client := Entry(Some(q), target, Revision(s))]))
  }

  // ----- steps -----

  predicate Known(s: State, q: nat) {
    q in s.queries && s.queries[q].director in s.directors
  }

  ghost predicate PatchFits(s: State, pod: Pod) {
    pod.name in Current(s) && Current(s)[pod.name].version == pod.version
  }

  ghost predicate Enabled(cfg: Config, s: State, step: Step) {
    match step
    case Tick(to) => s.clock <= to
    case Outside(name, pod) => pod.Some? || name in Current(s)
    case Reroute(d, client, target) => d in s.directors
    case Arrive(q, d, client, req) => q !in s.queries && d in s.directors
    case Acquire(q) =>
      && Known(s, q)
      && (s.queries[q].phase.Queued? || s.queries[q].phase.Requeued?)
      && s.directors[s.queries[q].director].holder == None
    case List(q, items) =>
      && Known(s, q) && s.queries[q].phase.Listing?
      && IsListing(cfg, s.queries[q].req.mapName, Current(s), items)
    case Evaluate(q) => Known(s, q) && s.queries[q].phase.Deciding?
    case ApplyPatch(q, delivered) =>
      Known(s, q) && s.queries[q].phase.Patching? && PatchFits(s, s.queries[q].phase.pod)
    case RejectPatch(q) =>
      Known(s, q) && s.queries[q].phase.Patching? && !PatchFits(s, s.queries[q].phase.pod)
    case Install(q) =>
      Known(s, q) && s.queries[q].phase.Answered? && s.queries[q].phase.delivered
    case NetworkError(q) =>
      && Known(s, q)
      && (s.queries[q].phase.Listing? || s.queries[q].phase.Patching? || s.queries[q].phase.Watching? ||
          (s.queries[q].phase.Answered? && !s.queries[q].phase.delivered))
    case PostDemand(d, f) =>
      && d in s.directors && f < |s.directors[d].board.flights| && !s.directors[d].board.flights[f].posted
      && exists q :: q in s.queries && s.queries[q].director == d && s.queries[q].flight == Some(f) &&
                     s.queries[q].phase.Signalled?
    case AnswerDemand(d, f, outcome) =>
      && d in s.directors && f < |s.directors[d].board.flights|
      && s.directors[d].board.flights[f].posted && s.directors[d].board.flights[f].outcome == None
      && (outcome.DeadlinePassed? ==> s.directors[d].board.flights[f].deadline <= s.clock)
    case SeeAnswer(q) =>
      && Known(s, q) && s.queries[q].phase.Signalled? && s.queries[q].flight.Some?
      && s.queries[q].flight.value < |s.directors[s.queries[q].director].board.flights|
      && s.directors[s.queries[q].director].board.flights[s.queries[q].flight.value].outcome.Some?
    case WatchReturns(q, expired) =>
      && Known(s, q) && s.queries[q].phase.Watching?
      && (expired || Deliverable(cfg, s, s.queries[q].req.mapName, s.queries[q].phase.version))
    case TimesOut(q) =>
      && Known(s, q) && InColdWait(s.queries[q].phase) && s.queries[q].flight.Some?
      && s.queries[q].flight.value < |s.directors[s.queries[q].director].board.flights|
      && s.directors[s.queries[q].director].board.flights[s.queries[q].flight.value].deadline <= s.clock
    case Disconnects(q) => Known(s, q) && InColdWait(s.queries[q].phase)
    case MarkDrain(i, name) => i !in s.drains && name in Current(s)
    case ConfirmDrain(i) =>
      && i in s.drains && s.drains[i].Marked? && s.drains[i].name in Current(s)
      && Draining(Current(s)[s.drains[i].name])
      && VisibleIds(cfg, Current(s)[s.drains[i].name], s.clock) == {}
    case DeleteDrained(i) =>
      && i in s.drains && s.drains[i].Confirmed? && s.drains[i].name in Current(s)
      && Current(s)[s.drains[i].name].version == s.drains[i].version
  }

  /** A cold query drops the lock, then joins or starts the flight of its group. */
  function GoCold(s: State, q: nat, demand: DemandConfig): State
    requires q in s.queries && s.queries[q].director in s.directors && s.queries[q].phase.Deciding?
  {
    var query := s.queries[q];
    var director := Unlock(s.directors[query.director], false);
    var (board, f) :=
      if query.flight.Some? then (director.board, query.flight.value)
      else JoinOrStart(director.board, LiveFlights(s, query.director), GroupOf(demand, query.req.mapName),
                       s.clock + demand.bootTimeout);
    s.(queries := s.queries[q := query.(flight := Some(f),
                                        phase := Signalled(query.phase.items, query.phase.version, s.clock))],
       directors := s.directors[query.director := director.(board := board)])
  }

  ghost function ApplyEvaluate(cfg: Config, s: State, q: nat): State
    requires Enabled(cfg, s, Evaluate(q))
  {
    var query := s.queries[q];
    match Decide(cfg, query.req, query.phase.items, s.clock)
    case Cold => if cfg.demand == None then Finish(s, q, NoServer, true) else GoCold(s, q, cfg.demand.value)
    case Refused => Finish(s, q, NoRoute, true)
    case Keep(pod, target) => Finish(InstallRoute(s, q, target), q, JoinedAt(cfg, pod), true)
    case Assign(pod, target) =>
      SetPhase(s, q, Patching(query.phase.items, query.phase.version, s.clock, pod, target))
  }

  /** The store after an assignment of `character` to the Pod called `name`, at the next revision. */
  function Assigned(cfg: Config, s: State, name: string, character: string): Store
    requires name in Current(s)
  {
    Current(s)[name := WithAllocated(cfg, Current(s)[name], character).(version := |s.history|)]
  }

  ghost function Apply(cfg: Config, s: State, step: Step): State
    requires Enabled(cfg, s, step)
  {
    match step
    case Tick(to) => s.(clock := to)
    case Outside(name, pod) =>
      if pod == None then Write(s, Current(s) - {name})
      else Write(s, Current(s)[name := pod.value.(name := name, version := |s.history|)])
    case Reroute(d, client, target) =>
      var director := s.directors[d];
      SetDirector(s, d, director.(sessions :=
        if target == None then director.sessions - {client}
        else director.sessions[client := Entry(None, target.value, Revision(s))]))
    case Arrive(q, d, client, req) =>
      var phase := if ValidRequest(req) then Queued else Done(InvalidId);
      s.(queries := s.queries[q := Query(d, client, req, None, 0, phase)])
    case Acquire(q) =>
      var query := s.queries[q];
      var director := s.directors[query.director];
      var listing := query.(phase := Listing(query.phase.Requeued?), granted := Revision(s));
      SetDirector(s.(queries := s.queries[q := listing]), query.director,
                  director.(holder := Some(q), grants := director.grants + [q]))
    case List(q, items) => SetPhase(s, q, Deciding(items, Revision(s), s.clock))
    case Evaluate(q) => ApplyEvaluate(cfg, s, q)
    case ApplyPatch(q, delivered) =>
      var phase := s.queries[q].phase;
      Write(SetPhase(s, q, Answered(delivered, phase.pod, phase.target, |s.history|)),
            Assigned(cfg, s, phase.pod.name, s.queries[q].req.character))
    case RejectPatch(q) => Finish(s, q, NoRoute, false)
    case Install(q) =>
      var phase := s.queries[q].phase;
      Finish(InstallRoute(s, q, phase.target), q, JoinedAt(cfg, phase.pod), true)
    case NetworkError(q) => Finish(s, q, NoRoute, s.queries[q].phase.Answered?)
    case PostDemand(d, f) => SetDirector(s, d, s.directors[d].(board := Post(s.directors[d].board, f)))
    case AnswerDemand(d, f, outcome) =>
      SetDirector(s, d, s.directors[d].(board := Answer(s.directors[d].board, f, outcome)))
    case SeeAnswer(q) =>
      var query := s.queries[q];
      (match s.directors[query.director].board.flights[query.flight.value].outcome.value
       case Success(_) => SetPhase(s, q, Watching(query.phase.items, query.phase.version, query.phase.at))
       case Failure(error) => Finish(s, q, StartupFailed(error), false))
    case WatchReturns(q, expired) => SetPhase(s, q, Requeued)
    case TimesOut(q) => Finish(s, q, StartupFailed(Timeout), false)
    case Disconnects(q) => Finish(s, q, StartupFailed(Cancelled), false)
    case MarkDrain(i, name) =>
      var pod := Current(s)[name];
      Write(s, Current(s)[name := pod.(labels := pod.labels[DRAIN_LABEL := "true"], version := |s.history|)])
        .(drains := s.drains[i := Marked(name)])
    case ConfirmDrain(i) =>
      s.(drains := s.drains[i := Confirmed(s.drains[i].name, Current(s)[s.drains[i].name].version)])
    case DeleteDrained(i) =>
      Write(s, Current(s) - {s.drains[i].name}).(drains := s.drains - {i})
  }

  // ----- runs -----

  /** Nothing in flight: every Pod was written at revision 0 and no route comes from a query. */
  ghost predicate Init(s: State) {
    && |s.history| == 1
    && (forall n :: n in s.history[0] ==> s.history[0][n].name == n && s.history[0][n].version == 0)
    && s.queries == map[]
    && s.drains == map[]
    && (forall d :: d in s.directors ==>
          && s.directors[d].holder == None && s.directors[d].grants == [] && s.directors[d].board == EMPTY_BOARD
          && forall client :: client in s.directors[d].sessions ==> s.directors[d].sessions[client].origin == None)
  }

  ghost predicate Legal(cfg: Config, s: State, steps: seq<Step>)
    decreases |steps|, 0
  {
    steps == [] ||
    (var n := |steps| - 1;
     Legal(cfg, s, steps[..n]) && Enabled(cfg, After(cfg, s, steps[..n]), steps[n]))
  }

  /** The state a legal run ends in. */
  ghost function After(cfg: Config, s: State, steps: seq<Step>): State
    requires Legal(cfg, s, steps)
    decreases |steps|, 1
  {
    if steps == [] then s
    else
      var n := |steps| - 1;
      Apply(cfg, After(cfg, s, steps[..n]), steps[n])
  }

  /** A legal run extended by an enabled step. */
  lemma LegalExtends(cfg: Config, s: State, steps: seq<Step>, step: Step)
    requires Legal(cfg, s, steps) && Enabled(cfg, After(cfg, s, steps), step)
    ensures Legal(cfg, s, steps + [step])
    ensures After(cfg, s, steps + [step]) == Apply(cfg, After(cfg, s, steps), step)
  {
    hide Enabled, Apply;
    assert (steps + [step])[..|steps|] == steps;
  }
}
