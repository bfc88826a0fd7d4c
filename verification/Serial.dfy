/** Within one director the assignments of a concurrent run are those of a serial run in lock order. */
module Serial {
  import opened Wrappers
  import opened Backend
  import opened Pods
  import opened Characters
  import opened Selection
  import opened Demand
  import opened Protocol
  import opened Invariants
  import Uniqueness

  // ----- the serial system -----

  datatype Route = Route(origin: Option<nat>, target: Target)

  /** Pods, routes and answers of a director that serves one query after the other; `served` is their order. */
  datatype Serial = Serial(
    history: seq<Store>,
    routes: map<string, Route>,
    replies: map<nat, Reply>,
    served: seq<nat>,
    decidedAt: int)

  /**
   * `Serve` is a whole assignment in one step: list, decide at `now`, write, answer. `delivered` tells whether the
   * answer to the write arrived. `GiveUp` ends a query that was never served. The others are not the director's.
   */
  datatype SerialStep =
    | Serve(q: nat, client: string, req: Request, items: seq<Pod>, now: int, delivered: bool)
    | GiveUp(q: nat, reply: Reply)
    | World(store: Store)
    | SetRoute(client: string, target: Option<Target>)

  function Latest(a: Serial): Store {
    if a.history == [] then map[] else a.history[|a.history| - 1]
  }

  ghost predicate SerialEnabled(cfg: Config, a: Serial, step: SerialStep) {
    match step
    case Serve(q, client, req, items, now, delivered) =>
      && q !in a.replies && ValidRequest(req) && a.decidedAt <= now
      && IsListing(cfg, req.mapName, Latest(a), items)
      && (Decide(cfg, req, items, now).Cold? ==> cfg.demand == None)
    case GiveUp(q, reply) => q !in a.replies && !reply.Joined? && !reply.NoServer?
    case World(store) => true
    case SetRoute(client, target) => true
  }

  function Answered(a: Serial, q: nat, reply: Reply, now: int): Serial {
    a.(replies := a.replies[q := reply], served := a.served + [q], decidedAt := now)
  }

  ghost function SerialApply(cfg: Config, a: Serial, step: SerialStep): Serial
    requires SerialEnabled(cfg, a, step)
  {
    match step
    case Serve(q, client, req, items, now, delivered) =>
      (match Decide(cfg, req, items, now)
       case Cold => Answered(a, q, NoServer, now)
       case Refused => Answered(a, q, NoRoute, now)
       case Keep(pod, target) =>
         Answered(a, q, JoinedAt(cfg, pod), now).(routes := a.routes[client := Route(Some(q), target)])
       case Assign(pod, target) =>
         var written := a.(history := a.history + [Latest(a)[pod.name :=
                             WithAllocated(cfg, pod, req.character).(version := |a.history|)]]);
         if delivered
         then Answered(written, q, JoinedAt(cfg, pod), now).(routes := a.routes[client := Route(Some(q), target)])
         else Answered(written, q, NoRoute, now))
    case GiveUp(q, reply) => a.(replies := a.replies[q := reply])
    case World(store) => a.(history := a.history + [store])
    case SetRoute(client, target) =>
      a.(routes := if target == None then a.routes - {client} else a.routes[client := Route(None, target.value)])
  }

  ghost predicate SerialLegal(cfg: Config, a: Serial, steps: seq<SerialStep>)
    decreases |steps|, 0
  {
    steps == [] ||
    (var n := |steps| - 1;
     SerialLegal(cfg, a, steps[..n]) && SerialEnabled(cfg, SerialAfter(cfg, a, steps[..n]), steps[n]))
  }

  ghost function SerialAfter(cfg: Config, a: Serial, steps: seq<SerialStep>): Serial
    requires SerialLegal(cfg, a, steps)
    decreases |steps|, 1
  {
    if steps == [] then a
    else
      var n := |steps| - 1;
      SerialApply(cfg, SerialAfter(cfg, a, steps[..n]), steps[n])
  }

  // ----- what a concurrent state stands for -----

  /** The holder whose write was answered but whose route is not yet installed. */
  predicate Installing(s: State, d: nat)
    requires d in s.directors
  {
    && s.directors[d].holder.Some? && s.directors[d].holder.value in s.queries
    && var phase := s.queries[s.directors[d].holder.value].phase; phase.Answered? && phase.delivered
  }

  /** A holder that has not decided anything yet. */
  predicate Undecided(s: State, d: nat)
    requires d in s.directors
  {
    && s.directors[d].holder.Some? && s.directors[d].holder.value in s.queries
    && !s.queries[s.directors[d].holder.value].phase.Answered?
  }

  function RouteOf(entry: Entry): Route {
    Route(entry.origin, entry.target)
  }

  /** The routes, a pending install counted as done. */
  function Routes(s: State, d: nat): map<string, Route>
    requires d in s.directors
  {
    var installed := map c | c in s.directors[d].sessions :: RouteOf(s.directors[d].sessions[c]);
    if Installing(s, d) then
      var h := s.directors[d].holder.value;
      installed[s.queries[h].client := Route(Some(h), s.queries[h].phase.target)]
    else installed
  }

  predicate Replied(phase: Phase) { phase.Done? || phase.Answered? }

  function ReplyOf(cfg: Config, phase: Phase): Reply
    requires Replied(phase)
  {
    if phase.Done? then phase.reply
    else if phase.delivered then JoinedAt(cfg, phase.pod)
    else NoRoute
  }

  function Replies(cfg: Config, s: State, d: nat): map<nat, Reply> {
    map q | q in s.queries && s.queries[q].director == d && Replied(s.queries[q].phase)
      :: ReplyOf(cfg, s.queries[q].phase)
  }

  /** The lock order of the queries served so far. */
  function Served(s: State, d: nat): seq<nat>
    requires d in s.directors
  {
    var grants := s.directors[d].grants;
    if Undecided(s, d) && grants != [] then grants[..|grants| - 1] else grants
  }

  function Meaning(cfg: Config, s: State, d: nat, decidedAt: int): Serial
    requires d in s.directors
  {
    Serial(s.history, Routes(s, d), Replies(cfg, s, d), Served(s, d), decidedAt)
  }

  ghost predicate Linked(cfg: Config, s: State, d: nat, a: Serial)
    requires d in s.directors
  {
    && a == Meaning(cfg, s, d, a.decidedAt)
    && a.decidedAt <= s.clock
    && forall q :: q in s.queries && s.queries[q].director == d && s.queries[q].phase.Patching? ==>
         a.decidedAt <= s.queries[q].phase.at
  }

  /** The serial step a concurrent one stands for: the moment it takes effect, if it is one. */
  ghost function Linear(cfg: Config, d: nat, s: State, step: Step): Option<SerialStep>
    requires d in s.directors && Enabled(cfg, s, step)
  {
    match step
    case Outside(_, _) => Some(World(Current(Apply(cfg, s, step))))
    case MarkDrain(_, _) => Some(World(Current(Apply(cfg, s, step))))
    case DeleteDrained(_) => Some(World(Current(Apply(cfg, s, step))))
    case Reroute(e, client, target) =>
      if e != d || (Installing(s, d) && s.queries[s.directors[d].holder.value].client == client) then None
      else Some(SetRoute(client, target))
    case Arrive(q, e, _, req) => if e == d && !ValidRequest(req) then Some(GiveUp(q, InvalidId)) else None
    case Evaluate(q) =>
      var query := s.queries[q];
      var decision := Decide(cfg, query.req, query.phase.items, s.clock);
      if query.director != d || decision.Assign? || (decision.Cold? && cfg.demand.Some?) then None
      else Some(Serve(q, query.client, query.req, query.phase.items, s.clock, false))
    case ApplyPatch(q, delivered) =>
      var query := s.queries[q];
      if query.director == d then Some(Serve(q, query.client, query.req, query.phase.items, query.phase.at, delivered))
      else Some(World(Current(Apply(cfg, s, step))))
    case RejectPatch(q) => if s.queries[q].director == d then Some(GiveUp(q, NoRoute)) else None
    case NetworkError(q) =>
      if s.queries[q].director != d || s.queries[q].phase.Answered? then None else Some(GiveUp(q, NoRoute))
    case SeeAnswer(q) =>
      var query := s.queries[q];
      var outcome := s.directors[query.director].board.flights[query.flight.value].outcome.value;
      if query.director != d || outcome.Success? then None else Some(GiveUp(q, StartupFailed(outcome.error)))
    case TimesOut(q) => if s.queries[q].director == d then Some(GiveUp(q, StartupFailed(Timeout))) else None
    case Disconnects(q) => if s.queries[q].director == d then Some(GiveUp(q, StartupFailed(Cancelled))) else None
    case _ => None
  }

  // ----- the hypothesis -----

  /** Between its list and its write, nobody else changes a Pod that a holder of the director listed. */
  ghost predicate QuietStep(cfg: Config, d: nat, s: State, step: Step)
    requires Enabled(cfg, s, step)
  {
    forall q :: q in s.queries && s.queries[q].director == d && Actor(step) != Some(q) &&
                (s.queries[q].phase.Deciding? || s.queries[q].phase.Patching?) ==>
      Matching(cfg, s.queries[q].req.mapName, Current(Apply(cfg, s, step))) ==
      Matching(cfg, s.queries[q].req.mapName, Current(s))
  }

  ghost predicate AllQuiet(cfg: Config, d: nat, s0: State, steps: seq<Step>)
    requires Legal(cfg, s0, steps)
    decreases |steps|
  {
    steps == [] ||
    (var n := |steps| - 1;
     AllQuiet(cfg, d, s0, steps[..n]) && QuietStep(cfg, d, After(cfg, s0, steps[..n]), steps[n]))
  }

  // ----- the list of a holder stays current -----

  ghost predicate ListIsCurrent(cfg: Config, s: State, query: Query) {
    && (query.phase.Deciding? ==> IsListing(cfg, query.req.mapName, Current(s), query.phase.items))
    && (query.phase.Patching? ==> IsListing(cfg, query.req.mapName, Current(s), query.phase.items))
  }

  ghost predicate ListsCurrent(cfg: Config, s: State, d: nat) {
    forall q :: q in s.queries && s.queries[q].director == d ==> ListIsCurrent(cfg, s, s.queries[q])
  }

  lemma OthersListCurrent(cfg: Config, s: State, s': State, query: Query)
    requires ListIsCurrent(cfg, s, query)
    requires query.phase.Deciding? || query.phase.Patching? ==>
               Matching(cfg, query.req.mapName, Current(s')) == Matching(cfg, query.req.mapName, Current(s))
    ensures ListIsCurrent(cfg, s', query)
  {
    hide IsListing, Matching;
    if query.phase.Deciding? || query.phase.Patching? {
      ListingDependsOnMatching(cfg, query.req.mapName, Current(s), Current(s'), query.phase.items);
    }
  }

  lemma EvaluateListCurrent(cfg: Config, s: State, q: nat)
    requires Enabled(cfg, s, Evaluate(q)) && ListIsCurrent(cfg, s, s.queries[q])
    ensures var s' := ApplyEvaluate(cfg, s, q); q in s'.queries && ListIsCurrent(cfg, s', s'.queries[q])
  {
    hide Decide, IsListing, JoinOrStart, Unlock;
    EvaluateFrame(cfg, s, q);
  }

  lemma ListListCurrent(cfg: Config, s: State, q: nat, items: seq<Pod>)
    requires Enabled(cfg, s, List(q, items))
    ensures var s' := Apply(cfg, s, List(q, items)); q in s'.queries && ListIsCurrent(cfg, s', s'.queries[q])
  {
    hide IsListing;
  }

  lemma ListsKept(cfg: Config, d: nat, s: State, step: Step)
    requires ListsCurrent(cfg, s, d) && Enabled(cfg, s, step) && QuietStep(cfg, d, s, step)
    ensures ListsCurrent(cfg, Apply(cfg, s, step), d)
  {
    hide Apply, Enabled, ListIsCurrent, Matching, ApplyEvaluate;
    var s' := Apply(cfg, s, step);
    StepFrame(cfg, s, step);
    forall q | q in s'.queries && s'.queries[q].director == d ensures ListIsCurrent(cfg, s', s'.queries[q]) {
      if Some(q) != Actor(step) {
        OthersListCurrent(cfg, s, s', s.queries[q]);
      } else {
        ActorListCurrent(cfg, d, s, step, q);
      }
    }
  }

  lemma ActorListCurrent(cfg: Config, d: nat, s: State, step: Step, q: nat)
    requires ListsCurrent(cfg, s, d) && Enabled(cfg, s, step) && Actor(step) == Some(q)
    requires q in Apply(cfg, s, step).queries && Apply(cfg, s, step).queries[q].director == d
    ensures ListIsCurrent(cfg, Apply(cfg, s, step), Apply(cfg, s, step).queries[q])
  {
    hide Apply, Enabled, IsListing, ApplyEvaluate;
    if step.List? {
      ListListCurrent(cfg, s, q, step.items);
    } else if step.Evaluate? {
      SameDirector(cfg, s, q);
      EvaluateListCurrent(cfg, s, q);
    } else {
      Uniqueness.OnlyListDecides(cfg, s, step, q);
    }
  }

  lemma SameDirector(cfg: Config, s: State, q: nat)
    requires Enabled(cfg, s, Evaluate(q))
    ensures q in s.queries && Apply(cfg, s, Evaluate(q)) == ApplyEvaluate(cfg, s, q)
    ensures q in ApplyEvaluate(cfg, s, q).queries
    ensures ApplyEvaluate(cfg, s, q).queries[q].director == s.queries[q].director
  {
    hide Decide, JoinOrStart, Unlock;
  }

  /** A pending patch whose list is current fits the store. */
  lemma CurrentListFits(cfg: Config, s: State, q: nat)
    requires q in s.queries && QueryOk(cfg, s, s.queries[q]) && s.queries[q].phase.Patching?
    requires ListIsCurrent(cfg, s, s.queries[q])
    ensures PatchFits(s, s.queries[q].phase.pod)
    ensures Current(s)[s.queries[q].phase.pod.name] == s.queries[q].phase.pod
  {
    hide QueryOk, Decide, InMap, PassesFilters, Eligible, IsUsed;
    PatchMeaning(cfg, s, s.queries[q]);
    assert s.queries[q].phase.pod in s.queries[q].phase.items;
  }

  // ----- the meaning of each kind of step -----

  ghost predicate Simulated(cfg: Config, d: nat, s: State, step: Step, a: Serial)
    requires d in s.directors && Enabled(cfg, s, step)
  {
    var s' := Apply(cfg, s, step);
    && d in s'.directors
    && match Linear(cfg, d, s, step)
       case None => Linked(cfg, s', d, a)
       case Some(t) => SerialEnabled(cfg, a, t) && Linked(cfg, s', d, SerialApply(cfg, a, t))
  }

  /** Nothing a director's meaning is made of differs, but perhaps the history. */
  ghost predicate SameView(s: State, s': State, d: nat) {
    && d in s.directors && d in s'.directors
    && s'.directors[d].holder == s.directors[d].holder && s'.directors[d].grants == s.directors[d].grants
    && s'.directors[d].sessions == s.directors[d].sessions
    && s.clock <= s'.clock
    && (forall q :: q in s'.queries && s'.queries[q].director == d ==> q in s.queries && s'.queries[q] == s.queries[q])
    && (forall q :: q in s.queries && s.queries[q].director == d ==> q in s'.queries && s'.queries[q] == s.queries[q])
  }

  ghost predicate HolderIsOwn(s: State, d: nat)
    requires d in s.directors
  {
    s.directors[d].holder.Some? ==>
      && s.directors[d].holder.value in s.queries && s.queries[s.directors[d].holder.value].director == d
      && HoldsLock(s.queries[s.directors[d].holder.value].phase)
      && s.directors[d].grants != []
      && s.directors[d].grants[|s.directors[d].grants| - 1] == s.directors[d].holder.value
  }

  lemma HolderOf(s: State, d: nat)
    requires LocksOk(s) && d in s.directors
    ensures HolderIsOwn(s, d)
    ensures forall q :: q in s.queries && s.queries[q].director == d && HoldsLock(s.queries[q].phase) ==>
              s.directors[d].holder == Some(q)
  {
    assert LockOk(s, d);
  }

  lemma SameMeaning(cfg: Config, s: State, s': State, d: nat, a: Serial)
    requires SameView(s, s', d) && HolderIsOwn(s, d) && Linked(cfg, s, d, a)
    ensures Linked(cfg, s', d, a.(history := s'.history))
  {
    hide JoinedAt;
    assert Installing(s', d) == Installing(s, d);
    assert Routes(s', d) == Routes(s, d);
    assert Replies(cfg, s', d) == Replies(cfg, s, d);
  }

  /** A query of the director moves on without being answered, its hold on the lock unchanged. */
  ghost predicate MovesOn(s: State, s': State, d: nat, q: nat) {
    && d in s.directors && d in s'.directors
    && s'.history == s.history && s.clock <= s'.clock
    && s'.directors[d].holder == s.directors[d].holder && s'.directors[d].grants == s.directors[d].grants
    && s'.directors[d].sessions == s.directors[d].sessions
    && q in s'.queries && !Replied(s'.queries[q].phase)
    && (q in s.queries ==> !Replied(s.queries[q].phase))
    && s'.queries == s.queries[q := s'.queries[q]]
    && (q in s.queries ==> s.queries[q].director == s'.queries[q].director)
  }

  lemma MovingOnMeans(cfg: Config, s: State, s': State, d: nat, q: nat, a: Serial)
    requires MovesOn(s, s', d, q) && HolderIsOwn(s, d) && Linked(cfg, s, d, a)
    requires s'.queries[q].phase.Patching? ==> a.decidedAt <= s'.queries[q].phase.at
    ensures Linked(cfg, s', d, a)
  {
    hide JoinedAt;
    assert Routes(s', d) == Routes(s, d);
    assert Replies(cfg, s', d) == Replies(cfg, s, d);
  }

  lemma FinishRoutes(s: State, q: nat, reply: Reply, decided: bool)
    requires LocksOk(s) && Known(s, q) && !Replied(s.queries[q].phase)
    ensures
      var d := s.queries[q].director;
      var s' := Finish(s, q, reply, decided);
      && d in s'.directors
      && Routes(s', d) == Routes(s, d)
      && Served(s', d) == (if decided && HoldsLock(s.queries[q].phase) then Served(s, d) + [q] else Served(s, d))
  {
    hide LocksOk;
    HolderOf(s, s.queries[q].director);
  }

  lemma FinishReplies(cfg: Config, s: State, q: nat, reply: Reply, decided: bool)
    requires Known(s, q)
    ensures
      var d := s.queries[q].director;
      Replies(cfg, Finish(s, q, reply, decided), d) == Replies(cfg, s, d)[q := reply]
  {
    hide JoinedAt, Unlock;
  }

  /** What ending an unanswered query means: one more answer, and one more served when it decided. */
  lemma FinishMeans(cfg: Config, s: State, q: nat, reply: Reply, decided: bool)
    requires LocksOk(s) && Known(s, q) && !Replied(s.queries[q].phase)
    ensures
      var d := s.queries[q].director;
      var s' := Finish(s, q, reply, decided);
      && d in s'.directors
      && Routes(s', d) == Routes(s, d)
      && Replies(cfg, s', d) == Replies(cfg, s, d)[q := reply]
      && Served(s', d) == (if decided && HoldsLock(s.queries[q].phase) then Served(s, d) + [q] else Served(s, d))
      && OnlyQuery(s, s', q) && q in s'.queries && s'.queries[q].phase.Done?
  {
    hide LocksOk, Routes, Replies, Served, Unlock;
    FinishRoutes(s, q, reply, decided);
    FinishReplies(cfg, s, q, reply, decided);
    FinishFrame(s, q, reply, decided);
  }

  /** An ended query leaves no pending patch behind it other than those there were. */
  lemma FinishLinks(cfg: Config, s: State, q: nat, reply: Reply, decided: bool, a: Serial, a': Serial)
    requires LocksOk(s) && Known(s, q) && !Replied(s.queries[q].phase)
    requires Linked(cfg, s, s.queries[q].director, a)
    requires a'.decidedAt == a.decidedAt || (HoldsLock(s.queries[q].phase) && a'.decidedAt <= s.clock)
    requires a' == a.(replies := a.replies[q := reply], decidedAt := a'.decidedAt,
                      served := if decided && HoldsLock(s.queries[q].phase) then a.served + [q] else a.served)
    ensures var s' := Finish(s, q, reply, decided);
            s.queries[q].director in s'.directors && Linked(cfg, s', s.queries[q].director, a')
  {
    hide Finish, Routes, Replies, Served;
    FinishMeans(cfg, s, q, reply, decided);
    HolderOf(s, s.queries[q].director);
  }

  lemma UnansweredIsNew(cfg: Config, s: State, d: nat, q: nat, a: Serial)
    requires d in s.directors && Linked(cfg, s, d, a) && (q in s.queries ==> !Replied(s.queries[q].phase))
    ensures q !in a.replies
  {
  }

  // ----- steps that are not the director's -----

  lemma ActorDirector(cfg: Config, s: State, step: Step, q: nat)
    requires Enabled(cfg, s, step) && Actor(step) == Some(q)
    ensures var s' := Apply(cfg, s, step);
            && q in s'.queries
            && (q in s.queries ==> s'.queries[q].director == s.queries[q].director)
            && (step.Arrive? ==> q !in s.queries && s'.queries[q].director == step.d)
            && (q !in s.queries ==> step.Arrive?)
  {
    hide IsListing, Deliverable, Decide, JoinOrStart, Unlock, Assigned, ValidRequest, JoinedAt;
  }

  /** The director a query's step belongs to. */
  function OwnerOf(s: State, step: Step, q: nat): nat {
    if q in s.queries then s.queries[q].director else if step.Arrive? then step.d else 0
  }

  lemma OtherDirectorFrame(cfg: Config, s: State, step: Step, q: nat, d: nat)
    requires Enabled(cfg, s, step) && Actor(step) == Some(q) && OwnerOf(s, step, q) != d && d in s.directors
    ensures var s' := Apply(cfg, s, step); d in s'.directors && s'.directors[d] == s.directors[d]
  {
    hide IsListing, Deliverable, Decide, JoinOrStart, Unlock, Assigned, ValidRequest, JoinedAt, LiveFlights;
  }

  lemma OtherDirectorsView(cfg: Config, d: nat, s: State, step: Step, q: nat)
    requires d in s.directors && Enabled(cfg, s, step) && Actor(step) == Some(q) && OwnerOf(s, step, q) != d
    ensures SameView(s, Apply(cfg, s, step), d)
  {
    hide Apply, Enabled;
    StepFrame(cfg, s, step);
    ActorDirector(cfg, s, step, q);
    OtherDirectorFrame(cfg, s, step, q, d);
  }

  lemma OtherDirectorsStep(cfg: Config, d: nat, s: State, step: Step, q: nat, a: Serial)
    requires Inv(cfg, s) && d in s.directors && Linked(cfg, s, d, a) && Enabled(cfg, s, step)
    requires Actor(step) == Some(q) && OwnerOf(s, step, q) != d
    ensures Simulated(cfg, d, s, step, a)
  {
    hide Inv, Apply, Enabled, Linked, Linear, SerialApply, SerialEnabled, HolderIsOwn;
    Uniqueness.InvParts(cfg, s);
    OtherDirectorsView(cfg, d, s, step, q);
    HolderOf(s, d);
    SameMeaning(cfg, s, Apply(cfg, s, step), d, a);
    OthersAreWorld(cfg, d, s, step, q, a);
  }

  /** In the serial system another director's write is one of the world's, and its other steps are nothing. */
  lemma OthersAreWorld(cfg: Config, d: nat, s: State, step: Step, q: nat, a: Serial)
    requires Inv(cfg, s) && d in s.directors && Linked(cfg, s, d, a) && Enabled(cfg, s, step)
    requires Actor(step) == Some(q) && OwnerOf(s, step, q) != d
    ensures var s' := Apply(cfg, s, step);
            match Linear(cfg, d, s, step)
            case None => a.(history := s'.history) == a
            case Some(t) => SerialEnabled(cfg, a, t) && SerialApply(cfg, a, t) == a.(history := s'.history)
  {
    hide Inv, Apply, Decide, IsListing, ValidRequest, Deliverable;
    var s' := Apply(cfg, s, step);
    HistoryFrame(cfg, s, step);
    if step.ApplyPatch? {
      PatchFrame(cfg, s, q, step.delivered);
      assert s'.history == s.history + [Current(s')];
    } else {
      ActorFrame(cfg, s, step, q);
    }
  }

  lemma BystanderView(cfg: Config, d: nat, s: State, step: Step)
    requires d in s.directors && Enabled(cfg, s, step) && Actor(step) == None && !step.Reroute?
    ensures SameView(s, Apply(cfg, s, step), d)
  {
    hide Visible, Draining, Post, Answer;
  }

  lemma BystanderIsWorld(cfg: Config, d: nat, s: State, step: Step, a: Serial)
    requires s.history != [] && d in s.directors && a.history == s.history
    requires Enabled(cfg, s, step) && Actor(step) == None && !step.Reroute?
    ensures var s' := Apply(cfg, s, step);
            match Linear(cfg, d, s, step)
            case None => a.(history := s'.history) == a
            case Some(t) => SerialEnabled(cfg, a, t) && SerialApply(cfg, a, t) == a.(history := s'.history)
  {
    hide Visible, Draining, Post, Answer;
  }

  lemma BystanderStep(cfg: Config, d: nat, s: State, step: Step, a: Serial)
    requires Inv(cfg, s) && d in s.directors && Linked(cfg, s, d, a) && Enabled(cfg, s, step) && Actor(step) == None
    requires !step.Reroute?
    ensures Simulated(cfg, d, s, step, a)
  {
    hide Inv, Linked, Enabled, Apply, Linear, SerialApply, SerialEnabled;
    Uniqueness.InvParts(cfg, s);
    HolderOf(s, d);
    LinkedHistory(cfg, s, d, a);
    BystanderView(cfg, d, s, step);
    SameMeaning(cfg, s, Apply(cfg, s, step), d, a);
    BystanderIsWorld(cfg, d, s, step, a);
  }

  lemma LinkedHistory(cfg: Config, s: State, d: nat, a: Serial)
    requires d in s.directors && Linked(cfg, s, d, a)
    ensures a.history == s.history && a.(history := s.history) == a
  {
  }

  lemma RerouteRoutes(cfg: Config, d: nat, s: State, e: nat, client: string, target: Option<Target>)
    requires d in s.directors && Enabled(cfg, s, Reroute(e, client, target))
    ensures
      var s' := Apply(cfg, s, Reroute(e, client, target));
      && d in s'.directors
      && Routes(s', d) ==
         if e != d || (Installing(s, d) && s.queries[s.directors[d].holder.value].client == client) then Routes(s, d)
         else if target == None then Routes(s, d) - {client}
         else Routes(s, d)[client := Route(None, target.value)]
  {
  }

  lemma RerouteStep(cfg: Config, d: nat, s: State, e: nat, client: string, target: Option<Target>, a: Serial)
    requires d in s.directors && Linked(cfg, s, d, a) && Enabled(cfg, s, Reroute(e, client, target))
    ensures Simulated(cfg, d, s, Reroute(e, client, target), a)
  {
    hide JoinedAt, ReplyOf, Routes;
    RerouteRoutes(cfg, d, s, e, client, target);
    var s' := Apply(cfg, s, Reroute(e, client, target));
    assert Replies(cfg, s', d) == Replies(cfg, s, d);
  }

  // ----- the director's own steps -----

  lemma OwnMove(cfg: Config, d: nat, s: State, step: Step, q: nat, a: Serial)
    requires LocksOk(s) && d in s.directors && Linked(cfg, s, d, a) && Enabled(cfg, s, step)
    requires Actor(step) == Some(q) && OwnerOf(s, step, q) == d
    requires step.List? || step.WatchReturns? || (step.Arrive? && ValidRequest(step.req))
    ensures Linear(cfg, d, s, step) == None && Simulated(cfg, d, s, step, a)
  {
    hide LocksOk, Linked, IsListing, Deliverable, ValidRequest;
    HolderOf(s, d);
    MovingOnMeans(cfg, s, Apply(cfg, s, step), d, q, a);
  }

  lemma OwnAcquire(cfg: Config, d: nat, s: State, q: nat, a: Serial)
    requires LocksOk(s) && d in s.directors && Linked(cfg, s, d, a) && Enabled(cfg, s, Acquire(q))
    requires s.queries[q].director == d
    ensures Simulated(cfg, d, s, Acquire(q), a)
  {
    hide LocksOk, JoinedAt;
    var s' := Apply(cfg, s, Acquire(q));
    assert Routes(s', d) == Routes(s, d);
    assert Replies(cfg, s', d) == Replies(cfg, s, d);
    assert s.directors[d].grants + [q] == s'.directors[d].grants;
  }

  lemma OwnSeeAnswer(cfg: Config, d: nat, s: State, q: nat, a: Serial)
    requires LocksOk(s) && d in s.directors && Linked(cfg, s, d, a) && Enabled(cfg, s, SeeAnswer(q))
    requires s.queries[q].director == d
    ensures Simulated(cfg, d, s, SeeAnswer(q), a)
  {
    hide LocksOk, Linked, Finish;
    HolderOf(s, d);
    UnansweredIsNew(cfg, s, d, q, a);
    match s.directors[d].board.flights[s.queries[q].flight.value].outcome.value
    case Success(_) => MovingOnMeans(cfg, s, Apply(cfg, s, SeeAnswer(q)), d, q, a);
    case Failure(error) =>
      var reply := StartupFailed(error);
      FinishLinks(cfg, s, q, reply, false, a, a.(replies := a.replies[q := reply]));
  }

  /** How a step ends an unserved query of the director. */
  function EndReply(step: Step): Reply {
    match step
    case TimesOut(_) => StartupFailed(Timeout)
    case Disconnects(_) => StartupFailed(Cancelled)
    case _ => NoRoute
  }

  lemma EndingIsFinish(cfg: Config, d: nat, s: State, step: Step, q: nat)
    requires Enabled(cfg, s, step) && Ends(step) && Actor(step) == Some(q)
    requires d in s.directors && s.queries[q].director == d && !s.queries[q].phase.Answered?
    ensures Known(s, q) && !Replied(s.queries[q].phase)
    ensures Apply(cfg, s, step) == Finish(s, q, EndReply(step), false)
    ensures Linear(cfg, d, s, step) == Some(GiveUp(q, EndReply(step)))
  {
    hide Finish;
  }

  lemma OwnEnd(cfg: Config, d: nat, s: State, step: Step, q: nat, a: Serial)
    requires LocksOk(s) && d in s.directors && Linked(cfg, s, d, a) && Enabled(cfg, s, step)
    requires Ends(step) && Actor(step) == Some(q) && s.queries[q].director == d && !s.queries[q].phase.Answered?
    ensures Simulated(cfg, d, s, step, a)
  {
    hide LocksOk, Linked, Finish, Apply, Enabled, Linear;
    EndingIsFinish(cfg, d, s, step, q);
    UnansweredIsNew(cfg, s, d, q, a);
    FinishLinks(cfg, s, q, EndReply(step), false, a, a.(replies := a.replies[q := EndReply(step)]));
  }

  /** A query refused on arrival touches nothing but the answers. */
  lemma InvalidMeans(cfg: Config, d: nat, s: State, s': State, q: nat, query: Query)
    requires d in s.directors && HolderIsOwn(s, d) && q !in s.queries && query.director == d
    requires query.phase == Done(InvalidId) && s' == s.(queries := s.queries[q := query])
    ensures Routes(s', d) == Routes(s, d) && Served(s', d) == Served(s, d)
    ensures Replies(cfg, s', d) == Replies(cfg, s, d)[q := InvalidId]
  {
    hide JoinedAt;
  }

  lemma OwnInvalid(cfg: Config, d: nat, s: State, q: nat, client: string, req: Request, a: Serial)
    requires LocksOk(s) && d in s.directors && Linked(cfg, s, d, a) && Enabled(cfg, s, Arrive(q, d, client, req))
    requires !ValidRequest(req)
    ensures Simulated(cfg, d, s, Arrive(q, d, client, req), a)
  {
    hide LocksOk, HolderIsOwn, ValidRequest, Routes, Replies, Served;
    HolderOf(s, d);
    UnansweredIsNew(cfg, s, d, q, a);
    var s' := Apply(cfg, s, Arrive(q, d, client, req));
    InvalidMeans(cfg, d, s, s', q, s'.queries[q]);
  }

  /** The answer to a write was lost: the query already counts as served, without a route. */
  lemma OwnLostAnswer(cfg: Config, d: nat, s: State, q: nat, a: Serial)
    requires LocksOk(s) && d in s.directors && Linked(cfg, s, d, a) && Enabled(cfg, s, NetworkError(q))
    requires s.queries[q].director == d && s.queries[q].phase.Answered?
    ensures Simulated(cfg, d, s, NetworkError(q), a)
  {
    hide LocksOk, JoinedAt;
    HolderOf(s, d);
    var s' := Apply(cfg, s, NetworkError(q));
    assert Routes(s', d) == Routes(s, d);
    assert Replies(cfg, s', d) == Replies(cfg, s, d);
  }

  /** Installing the pending route changes neither the meaning of the routes nor the answers. */
  lemma InstallMeans(cfg: Config, s: State, q: nat)
    requires LocksOk(s) && Known(s, q) && s.queries[q].phase.Answered? && s.queries[q].phase.delivered
    ensures
      var d := s.queries[q].director;
      var s' := Finish(InstallRoute(s, q, s.queries[q].phase.target), q, JoinedAt(cfg, s.queries[q].phase.pod), true);
      d in s'.directors && Routes(s', d) == Routes(s, d) && Served(s', d) == Served(s, d)
  {
    hide LocksOk, JoinedAt;
    HolderOf(s, s.queries[q].director);
  }

  lemma OwnInstall(cfg: Config, d: nat, s: State, q: nat, a: Serial)
    requires LocksOk(s) && d in s.directors && Linked(cfg, s, d, a) && Enabled(cfg, s, Install(q))
    requires s.queries[q].director == d
    ensures Simulated(cfg, d, s, Install(q), a)
  {
    hide LocksOk, JoinedAt, Routes, Served;
    InstallMeans(cfg, s, q);
    assert Replies(cfg, Apply(cfg, s, Install(q)), d) == Replies(cfg, s, d);
  }

  lemma OwnCold(cfg: Config, d: nat, s: State, q: nat, demand: DemandConfig, a: Serial)
    requires LocksOk(s) && d in s.directors && Linked(cfg, s, d, a)
    requires Known(s, q) && s.queries[q].director == d && s.queries[q].phase.Deciding?
    ensures d in GoCold(s, q, demand).directors && Linked(cfg, GoCold(s, q, demand), d, a)
  {
    hide LocksOk, JoinedAt, JoinOrStart, LiveFlights;
    HolderOf(s, d);
    var s' := GoCold(s, q, demand);
    assert Routes(s', d) == Routes(s, d);
    assert Replies(cfg, s', d) == Replies(cfg, s, d);
  }

  lemma OwnKeep(cfg: Config, d: nat, s: State, q: nat, target: Target, reply: Reply, a: Serial)
    requires LocksOk(s) && d in s.directors && Linked(cfg, s, d, a)
    requires Known(s, q) && s.queries[q].director == d && s.queries[q].phase.Deciding?
    ensures
      var s' := Finish(InstallRoute(s, q, target), q, reply, true);
      && d in s'.directors
      && Linked(cfg, s', d, Answered(a, q, reply, s.clock).(
                  routes := a.routes[s.queries[q].client := Route(Some(q), target)]))
  {
    hide LocksOk, Finish, JoinedAt;
    var s1 := InstallRoute(s, q, target);
    HolderOf(s, d);
    SameLocks(s, s1);
    assert Routes(s1, d) == Routes(s, d)[s.queries[q].client := Route(Some(q), target)];
    assert Replies(cfg, s1, d) == Replies(cfg, s, d);
    var a1 := a.(routes := a.routes[s.queries[q].client := Route(Some(q), target)]);
    FinishLinks(cfg, s1, q, reply, true, a1, Answered(a1, q, reply, s.clock));
  }

  lemma OwnEvaluate(cfg: Config, d: nat, s: State, q: nat, a: Serial)
    requires QueriesOk(cfg, s) && LocksOk(s) && d in s.directors && Linked(cfg, s, d, a) && Enabled(cfg, s, Evaluate(q))
    requires s.queries[q].director == d && ListIsCurrent(cfg, s, s.queries[q])
    ensures Simulated(cfg, d, s, Evaluate(q), a)
  {
    hide QueriesOk, QueryOk, LocksOk, Linked, Decide, Finish, InstallRoute, JoinedAt, IsListing, GoCold, ValidRequest;
    var query := s.queries[q];
    HolderOf(s, d);
    UnansweredIsNew(cfg, s, d, q, a);
    LinkedParts(cfg, s, d, a);
    DeciderIsValid(cfg, s, q);
    match Decide(cfg, query.req, query.phase.items, s.clock)
    case Cold =>
      if cfg.demand == None {
        FinishLinks(cfg, s, q, NoServer, true, a, Answered(a, q, NoServer, s.clock));
      } else {
        OwnCold(cfg, d, s, q, cfg.demand.value, a);
      }
    case Refused => FinishLinks(cfg, s, q, NoRoute, true, a, Answered(a, q, NoRoute, s.clock));
    case Keep(pod, target) => OwnKeep(cfg, d, s, q, target, JoinedAt(cfg, pod), a);
    case Assign(pod, target) => MovingOnMeans(cfg, s, ApplyEvaluate(cfg, s, q), d, q, a);
  }

  lemma LinkedParts(cfg: Config, s: State, d: nat, a: Serial)
    requires d in s.directors && Linked(cfg, s, d, a)
    ensures a.history == s.history && a.decidedAt <= s.clock && Latest(a) == Current(s)
    ensures forall q :: q in s.queries && s.queries[q].director == d && s.queries[q].phase.Patching? ==>
              a.decidedAt <= s.queries[q].phase.at
  {
  }

  lemma DeciderIsValid(cfg: Config, s: State, q: nat)
    requires QueriesOk(cfg, s) && q in s.queries && !s.queries[q].phase.Done?
    ensures ValidRequest(s.queries[q].req)
  {
    Recall(cfg, s, q);
  }

  /** The accepted write is the moment an assignment takes effect: label, route and answer at once. */
  lemma OwnPatch(cfg: Config, d: nat, s: State, q: nat, delivered: bool, a: Serial)
    requires QueriesOk(cfg, s) && LocksOk(s) && d in s.directors && Linked(cfg, s, d, a)
    requires Enabled(cfg, s, ApplyPatch(q, delivered))
    requires s.queries[q].director == d && ListIsCurrent(cfg, s, s.queries[q])
    ensures Simulated(cfg, d, s, ApplyPatch(q, delivered), a)
  {
    hide QueriesOk, QueryOk, LocksOk, Linked, Decide, JoinedAt, IsListing, WithAllocated, ValidRequest, Apply;
    var query := s.queries[q];
    HolderOf(s, d);
    UnansweredIsNew(cfg, s, d, q, a);
    LinkedParts(cfg, s, d, a);
    DeciderIsValid(cfg, s, q);
    Recall(cfg, s, q);
    PatchDecision(cfg, s, query);
    CurrentListFits(cfg, s, q);
    PatchFrame(cfg, s, q, delivered);
    PatchLinks(cfg, s, Apply(cfg, s, ApplyPatch(q, delivered)), q, delivered, a);
  }

  lemma PatchDecision(cfg: Config, s: State, query: Query)
    requires QueryOk(cfg, s, query) && query.phase.Patching?
    ensures Decide(cfg, query.req, query.phase.items, query.phase.at) == Assign(query.phase.pod, query.phase.target)
    ensures query.phase.at <= s.clock
  {
    hide Decide, ListedAt, ValidRequest;
  }

  lemma PatchLinks(cfg: Config, s: State, s': State, q: nat, delivered: bool, a: Serial)
    requires LocksOk(s) && Known(s, q) && s.queries[q].phase.Patching? && s.queries[q].phase.at <= s.clock
    requires Linked(cfg, s, s.queries[q].director, a)
    requires s' == s.(history := s'.history, queries := s'.queries)
    requires q in s'.queries && s'.queries == s.queries[q := s.queries[q].(phase := s'.queries[q].phase)]
    requires var phase := s.queries[q].phase;
             s'.queries[q].phase == Protocol.Phase.Answered(delivered, phase.pod, phase.target, |s.history|)
    ensures
      var query := s.queries[q];
      var reply := if delivered then JoinedAt(cfg, query.phase.pod) else NoRoute;
      && query.director in s'.directors
      && Linked(cfg, s', query.director, Answered(a, q, reply, query.phase.at).(
                  history := s'.history,
                  routes := if delivered then a.routes[query.client := Route(Some(q), query.phase.target)]
                            else a.routes))
  {
    hide LocksOk, JoinedAt;
    var query := s.queries[q];
    var d := query.director;
    HolderOf(s, d);
    assert Routes(s', d) == if delivered then Routes(s, d)[query.client := Route(Some(q), query.phase.target)]
                            else Routes(s, d);
    var reply := if delivered then JoinedAt(cfg, query.phase.pod) else NoRoute;
    assert Replies(cfg, s', d) == Replies(cfg, s, d)[q := reply];
    assert Served(s', d) == Served(s, d) + [q];
  }

  // ----- whole runs -----

  lemma OwnStep(cfg: Config, d: nat, s: State, step: Step, q: nat, a: Serial)
    requires Inv(cfg, s) && ListsCurrent(cfg, s, d) && d in s.directors && Linked(cfg, s, d, a)
    requires Enabled(cfg, s, step) && Actor(step) == Some(q) && OwnerOf(s, step, q) == d
    ensures Simulated(cfg, d, s, step, a)
  {
    hide Inv, QueriesOk, LocksOk, ListsCurrent, Linked, Simulated, Apply, Enabled, Linear, ListIsCurrent, ValidRequest;
    Uniqueness.InvParts(cfg, s);
    OwnedIsCurrent(cfg, d, s, step, q);
    if step.Arrive? && !ValidRequest(step.req) {
      OwnInvalid(cfg, d, s, q, step.client, step.req, a);
    } else if step.Acquire? {
      OwnAcquire(cfg, d, s, q, a);
    } else if step.Evaluate? {
      OwnEvaluate(cfg, d, s, q, a);
    } else if step.ApplyPatch? {
      OwnPatch(cfg, d, s, q, step.delivered, a);
    } else if step.Install? {
      OwnInstall(cfg, d, s, q, a);
    } else if step.SeeAnswer? {
      OwnSeeAnswer(cfg, d, s, q, a);
    } else if Ends(step) {
      EndsUnanswered(cfg, s, step, q);
      if s.queries[q].phase.Answered? {
        OwnLostAnswer(cfg, d, s, q, a);
      } else {
        OwnEnd(cfg, d, s, step, q, a);
      }
    } else {
      OwnMove(cfg, d, s, step, q, a);
    }
  }

  lemma OwnedIsCurrent(cfg: Config, d: nat, s: State, step: Step, q: nat)
    requires ListsCurrent(cfg, s, d) && Enabled(cfg, s, step) && Actor(step) == Some(q) && OwnerOf(s, step, q) == d
    ensures step.Arrive? <==> q !in s.queries
    ensures step.Arrive? ==> step.d == d
    ensures q in s.queries ==> s.queries[q].director == d && ListIsCurrent(cfg, s, s.queries[q])
  {
    hide IsListing, Deliverable, ListIsCurrent;
  }

  lemma EndsUnanswered(cfg: Config, s: State, step: Step, q: nat)
    requires Enabled(cfg, s, step) && Ends(step) && Actor(step) == Some(q)
    ensures q in s.queries && (s.queries[q].phase.Answered? ==> step.NetworkError?)
  {
  }

  /** Every concurrent step is nothing or one serial step. */
  lemma StepSimulated(cfg: Config, d: nat, s: State, step: Step, a: Serial)
    requires Inv(cfg, s) && ListsCurrent(cfg, s, d) && d in s.directors && Linked(cfg, s, d, a) && Enabled(cfg, s, step)
    ensures Simulated(cfg, d, s, step, a)
  {
    hide Inv, ListsCurrent, Linked, Simulated, Apply, Enabled;
    if step.Reroute? {
      RerouteStep(cfg, d, s, step.d, step.client, step.target, a);
    } else if Actor(step) == None {
      BystanderStep(cfg, d, s, step, a);
    } else if OwnerOf(s, step, Actor(step).value) == d {
      OwnStep(cfg, d, s, step, Actor(step).value, a);
    } else {
      OtherDirectorsStep(cfg, d, s, step, Actor(step).value, a);
    }
  }

  /** The serial run: each concurrent step replaced by what it stands for, in the same order. */
  ghost function Linearised(cfg: Config, d: nat, s0: State, steps: seq<Step>): seq<SerialStep>
    requires Legal(cfg, s0, steps)
    decreases |steps|
  {
    if steps == [] then []
    else
      var n := |steps| - 1;
      var s := After(cfg, s0, steps[..n]);
      var before := Linearised(cfg, d, s0, steps[..n]);
      if d !in s.directors || Linear(cfg, d, s, steps[n]) == None then before
      else before + [Linear(cfg, d, s, steps[n]).value]
  }

  lemma SerialExtends(cfg: Config, a: Serial, steps: seq<SerialStep>, step: SerialStep)
    requires SerialLegal(cfg, a, steps) && SerialEnabled(cfg, SerialAfter(cfg, a, steps), step)
    ensures SerialLegal(cfg, a, steps + [step])
    ensures SerialAfter(cfg, a, steps + [step]) == SerialApply(cfg, SerialAfter(cfg, a, steps), step)
  {
    hide SerialEnabled, SerialApply;
    assert (steps + [step])[..|steps|] == steps;
  }

  lemma InitLinked(cfg: Config, d: nat, s0: State)
    requires Init(s0) && d in s0.directors
    ensures Linked(cfg, s0, d, Meaning(cfg, s0, d, s0.clock)) && ListsCurrent(cfg, s0, d)
    ensures Replies(cfg, s0, d) == map[] && Served(s0, d) == []
  {
  }

  lemma {:induction false} SerialAlways(cfg: Config, d: nat, s0: State, steps: seq<Step>)
    requires Init(s0) && d in s0.directors && Legal(cfg, s0, steps) && AllQuiet(cfg, d, s0, steps)
    ensures d in After(cfg, s0, steps).directors && ListsCurrent(cfg, After(cfg, s0, steps), d)
    ensures SerialLegal(cfg, Meaning(cfg, s0, d, s0.clock), Linearised(cfg, d, s0, steps))
    ensures Linked(cfg, After(cfg, s0, steps), d,
                   SerialAfter(cfg, Meaning(cfg, s0, d, s0.clock), Linearised(cfg, d, s0, steps)))
    decreases |steps|
  {
    hide Init, Apply, Enabled, Linked, ListsCurrent, Inv, QuietStep, Linear, Meaning, SerialEnabled, SerialApply;
    if steps == [] {
      InitLinked(cfg, d, s0);
    } else {
      var n := |steps| - 1;
      var s := After(cfg, s0, steps[..n]);
      SerialAlways(cfg, d, s0, steps[..n]);
      InvAlways(cfg, s0, steps[..n]);
      ListsKept(cfg, d, s, steps[n]);
      var a0 := Meaning(cfg, s0, d, s0.clock);
      var trace := Linearised(cfg, d, s0, steps[..n]);
      StepSimulated(cfg, d, s, steps[n], SerialAfter(cfg, a0, trace));
      if Linear(cfg, d, s, steps[n]).Some? {
        SerialExtends(cfg, a0, trace, Linear(cfg, d, s, steps[n]).value);
      }
    }
  }

  /**
   * Serialisation. While nobody else changes a Pod between a holder's list and its write, every concurrent run of
   * a director, cold waiters included, gives the Pods, routes and answers of a run of whole assignments one at a
   * time, each deciding on a list of the Pods as they then are, at times that never go back, in lock order. A holder
   * that has not decided yet is not in that run; one whose write is answered is, with its route, and with the
   * reply it is about to give. Without a holder both sides are the same in every respect.
   */
  lemma RunsAreSerial(cfg: Config, d: nat, s0: State, steps: seq<Step>)
    requires Init(s0) && d in s0.directors && Legal(cfg, s0, steps) && AllQuiet(cfg, d, s0, steps)
    ensures
      var s := After(cfg, s0, steps);
      var a0 := Serial(s0.history, Routes(s0, d), map[], [], s0.clock);
      && d in s.directors
      && SerialLegal(cfg, a0, Linearised(cfg, d, s0, steps))
      && var a := SerialAfter(cfg, a0, Linearised(cfg, d, s0, steps));
      && a == Meaning(cfg, s, d, a.decidedAt)
      && (forall q :: q in s.queries && s.queries[q].director == d && s.queries[q].phase.Done? ==>
            q in a.replies && a.replies[q] == s.queries[q].phase.reply)
      && (forall q :: q in a.replies ==>
            && q in s.queries && s.queries[q].director == d
            && (s.queries[q].phase.Done? || s.directors[d].holder == Some(q)))
      && (s.directors[d].holder == None ==>
            && a.served == s.directors[d].grants
            && a.routes == (map c | c in s.directors[d].sessions :: RouteOf(s.directors[d].sessions[c])))
  {
    hide Init, Apply, Enabled, Inv, QuietStep, Linear, SerialEnabled, SerialApply, ListsCurrent, AllQuiet, Legal;
    SerialAlways(cfg, d, s0, steps);
    InitLinked(cfg, d, s0);
    InvAlways(cfg, s0, steps);
    AnsweredHolds(cfg, After(cfg, s0, steps), d);
  }

  lemma AnsweredHolds(cfg: Config, s: State, d: nat)
    requires Inv(cfg, s) && d in s.directors
    ensures forall q :: q in s.queries && s.queries[q].director == d && s.queries[q].phase.Answered? ==>
              s.directors[d].holder == Some(q)
  {
    assert LockOk(s, d);
  }

  /** Under the same hypothesis no write of the director is ever refused by its version guard. */
  lemma NoPatchConflicts(cfg: Config, d: nat, s0: State, steps: seq<Step>, q: nat)
    requires Init(s0) && d in s0.directors && Legal(cfg, s0, steps) && AllQuiet(cfg, d, s0, steps)
    requires q in After(cfg, s0, steps).queries && After(cfg, s0, steps).queries[q].director == d
    ensures !Enabled(cfg, After(cfg, s0, steps), RejectPatch(q))
    ensures After(cfg, s0, steps).queries[q].phase.Patching? ==>
              Enabled(cfg, After(cfg, s0, steps), ApplyPatch(q, true))
  {
    hide *;
    SerialAlways(cfg, d, s0, steps);
    InvAlways(cfg, s0, steps);
    FittingPatch(cfg, d, After(cfg, s0, steps), q);
  }

  lemma GuardDecides(cfg: Config, s: State, q: nat)
    requires Known(s, q)
    ensures Enabled(cfg, s, RejectPatch(q)) <==> s.queries[q].phase.Patching? && !PatchFits(s, s.queries[q].phase.pod)
    ensures Enabled(cfg, s, ApplyPatch(q, true)) <==>
              s.queries[q].phase.Patching? && PatchFits(s, s.queries[q].phase.pod)
  {
  }

  lemma FittingPatch(cfg: Config, d: nat, s: State, q: nat)
    requires Inv(cfg, s) && ListsCurrent(cfg, s, d) && q in s.queries && s.queries[q].director == d
    ensures !Enabled(cfg, s, RejectPatch(q))
    ensures s.queries[q].phase.Patching? ==> Enabled(cfg, s, ApplyPatch(q, true))
  {
    hide Inv, QueriesOk, ListIsCurrent, QueryOk, Enabled, PatchFits;
    Uniqueness.InvParts(cfg, s);
    Uniqueness.KnownQuery(cfg, s, q);
    Recall(cfg, s, q);
    GuardDecides(cfg, s, q);
    if s.queries[q].phase.Patching? {
      CurrentListFits(cfg, s, q);
    }
  }
}
