/** A route that a query installed was backed by an assignment, seen or written while that query held the lock. */
module Backing {
  import opened Wrappers
  import opened Backend
  import opened Pods
  import opened Characters
  import opened Selection
  import opened Demand
  import opened Protocol
  import opened Invariants

  /** The Pod carries the character as assigned or connected. */
  predicate Hosts(cfg: Config, pod: Pod, id: string) {
    Key(cfg, id) in pod.labels && (pod.labels[Key(cfg, id)] == "Allocated" || pod.labels[Key(cfg, id)] == "Used")
  }

  /** At revision `r`, not before the grant, a Pod with that target hosted the character. */
  ghost predicate HostedAt(cfg: Config, s: State, query: Query, target: Target, r: nat) {
    && query.granted <= r < |s.history|
    && exists n :: n in s.history[r] && Hosts(cfg, s.history[r][n], query.req.character)
                   && QueryTarget(cfg.mapping, cfg.dataPorts, s.history[r][n].body) == Some(target)
  }

  /** The entry's query succeeded, and the Pod behind its target hosted the character between grant and install. */
  ghost predicate EntryBacked(cfg: Config, s: State, d: nat, client: string, entry: Entry) {
    entry.origin.Some? ==>
      && entry.origin.value in s.queries
      && var query := s.queries[entry.origin.value];
      && query.director == d && query.client == client && query.phase.Done? && query.phase.reply.Joined?
      && exists r: nat :: r <= entry.installed && HostedAt(cfg, s, query, entry.target, r)
  }

  ghost predicate RoutesBacked(cfg: Config, s: State) {
    forall d, client :: d in s.directors && client in s.directors[d].sessions ==>
      EntryBacked(cfg, s, d, client, s.directors[d].sessions[client])
  }

  lemma HostedAtExtends(cfg: Config, s: State, s': State, query: Query, target: Target, r: nat)
    requires HostedAt(cfg, s, query, target, r) && Extends(s, s')
    ensures HostedAt(cfg, s', query, target, r)
  {
    assert s'.history[r] == s.history[r];
  }

  lemma EntryStaysBacked(cfg: Config, s: State, s': State, d: nat, client: string, entry: Entry)
    requires EntryBacked(cfg, s, d, client, entry) && Extends(s, s')
    requires forall q :: q in s.queries && s.queries[q].phase.Done? ==> q in s'.queries && s'.queries[q] == s.queries[q]
    ensures EntryBacked(cfg, s', d, client, entry)
  {
    hide HostedAt;
    if entry.origin.Some? {
      var query := s.queries[entry.origin.value];
      var r: nat :| r <= entry.installed && HostedAt(cfg, s, query, entry.target, r);
      HostedAtExtends(cfg, s, s', query, entry.target, r);
    }
  }

  /** A finished query takes no more steps. */
  lemma DoneIsFinal(cfg: Config, s: State, step: Step, q: nat)
    requires Enabled(cfg, s, step) && q in s.queries && s.queries[q].phase.Done?
    ensures var s' := Apply(cfg, s, step); q in s'.queries && s'.queries[q] == s.queries[q]
  {
    hide Apply;
    StepFrame(cfg, s, step);
    if Actor(step) == Some(q) {
      ActorIsUnfinished(cfg, s, step, q);
    }
  }

  lemma ActorIsUnfinished(cfg: Config, s: State, step: Step, q: nat)
    requires Enabled(cfg, s, step) && Actor(step) == Some(q) && q in s.queries
    ensures !s.queries[q].phase.Done?
  {
    hide IsListing, Deliverable;
  }

  /** The two ways a query installs a route. */
  predicate Installs(cfg: Config, s: State, step: Step) {
    step.Install? || step.Evaluate?
  }

  /** Only a successful query or the proxy changes routes, and a query changes the entry of its own client only. */
  lemma SessionsFrame(cfg: Config, s: State, step: Step)
    requires Enabled(cfg, s, step)
    ensures var s' := Apply(cfg, s, step);
            forall d, client :: d in s'.directors && client in s'.directors[d].sessions ==>
              || (d in s.directors && client in s.directors[d].sessions
                  && s'.directors[d].sessions[client] == s.directors[d].sessions[client])
              || s'.directors[d].sessions[client].origin == None
              || InstalledBy(cfg, s, step, s', d, client)
  {
    hide Enabled, InstalledBy, ApplyEvaluate;
    if step.Install? {
      InstallSessions(cfg, s, step.q);
    } else if step.Evaluate? {
      EvaluateSessions(cfg, s, step.q);
    } else {
      OtherSessions(cfg, s, step);
    }
  }

  ghost predicate InstalledBy(cfg: Config, s: State, step: Step, s': State, d: nat, client: string) {
    && Installs(cfg, s, step) && Actor(step).Some? && Actor(step).value in s.queries && Actor(step).value in s'.queries
    && d in s'.directors && client in s'.directors[d].sessions
    && var q := Actor(step).value;
       var target := s'.directors[d].sessions[client].target;
    && s.queries[q].director == d && s.queries[q].client == client
    && s'.directors[d].sessions[client] == Entry(Some(q), target, Revision(s))
    && s'.queries[q].phase.Done? && s'.queries[q].phase.reply.Joined?
    && s'.queries[q] == s.queries[q].(phase := s'.queries[q].phase, flight := None)
    && (step.Install? ==> s.queries[q].phase.Answered? && target == s.queries[q].phase.target)
    && (step.Evaluate? ==>
          && s.queries[q].phase.Deciding?
          && var decision := Decide(cfg, s.queries[q].req, s.queries[q].phase.items, s.clock);
          decision.Keep? && decision.target == target)
  }

  lemma InstallSessions(cfg: Config, s: State, q: nat)
    requires Enabled(cfg, s, Install(q))
    ensures var s' := Apply(cfg, s, Install(q));
            forall d, client :: d in s'.directors && client in s'.directors[d].sessions ==>
              || (d in s.directors && client in s.directors[d].sessions
                  && s'.directors[d].sessions[client] == s.directors[d].sessions[client])
              || InstalledBy(cfg, s, Install(q), s', d, client)
  {
    hide Decide;
  }

  lemma EvaluateSessions(cfg: Config, s: State, q: nat)
    requires Enabled(cfg, s, Evaluate(q))
    ensures var s' := ApplyEvaluate(cfg, s, q);
            forall d, client :: d in s'.directors && client in s'.directors[d].sessions ==>
              || (d in s.directors && client in s.directors[d].sessions
                  && s'.directors[d].sessions[client] == s.directors[d].sessions[client])
              || InstalledBy(cfg, s, Evaluate(q), s', d, client)
  {
    hide Decide;
    var query := s.queries[q];
    match Decide(cfg, query.req, query.phase.items, s.clock)
    case Keep(pod, target) =>
    case _ =>
  }

  ghost predicate SameSessions(s: State, s': State) {
    && s'.directors.Keys == s.directors.Keys
    && forall d :: d in s.directors ==> s'.directors[d].sessions == s.directors[d].sessions
  }

  lemma FinishSessions(s: State, q: nat, reply: Reply, decided: bool)
    requires Known(s, q)
    ensures SameSessions(s, Finish(s, q, reply, decided))
  {
  }

  lemma EndSessions(cfg: Config, s: State, step: Step, q: nat)
    requires Enabled(cfg, s, step) && Ends(step) && Actor(step) == Some(q)
    ensures SameSessions(s, Apply(cfg, s, step))
  {
    hide Finish, SameSessions;
    FinishSessions(s, q, NoRoute, s.queries[q].phase.Answered?);
    FinishSessions(s, q, NoRoute, false);
    FinishSessions(s, q, StartupFailed(Timeout), false);
    FinishSessions(s, q, StartupFailed(Cancelled), false);
  }

  lemma SeeAnswerSessions(cfg: Config, s: State, q: nat)
    requires Enabled(cfg, s, SeeAnswer(q))
    ensures SameSessions(s, Apply(cfg, s, SeeAnswer(q)))
  {
    hide Finish;
    var query := s.queries[q];
    match s.directors[query.director].board.flights[query.flight.value].outcome.value
    case Success(_) =>
    case Failure(error) => FinishSessions(s, q, StartupFailed(error), false);
  }

  lemma MoveSessions(cfg: Config, s: State, step: Step)
    requires Enabled(cfg, s, step)
    requires step.Arrive? || step.Acquire? || step.List? || step.WatchReturns?
    ensures SameSessions(s, Apply(cfg, s, step))
  {
    hide IsListing, Deliverable, ValidRequest;
  }

  /** A query's steps other than those two leave the routes alone. */
  lemma ActorSessions(cfg: Config, s: State, step: Step)
    requires Enabled(cfg, s, step) && Actor(step).Some? && !step.Install? && !step.Evaluate?
    ensures SameSessions(s, Apply(cfg, s, step))
  {
    hide Enabled, Apply;
    if Ends(step) {
      EndSessions(cfg, s, step, Actor(step).value);
    } else if step.SeeAnswer? {
      SeeAnswerSessions(cfg, s, step.q);
    } else if step.ApplyPatch? {
      PatchFrame(cfg, s, step.q, step.delivered);
    } else {
      MoveSessions(cfg, s, step);
    }
  }

  lemma OtherSessions(cfg: Config, s: State, step: Step)
    requires Enabled(cfg, s, step) && !step.Install? && !step.Evaluate?
    ensures var s' := Apply(cfg, s, step);
            forall d, client :: d in s'.directors && client in s'.directors[d].sessions ==>
              || (d in s.directors && client in s.directors[d].sessions
                  && s'.directors[d].sessions[client] == s.directors[d].sessions[client])
              || s'.directors[d].sessions[client].origin == None
  {
    hide Enabled, Apply;
    if Actor(step).Some? {
      ActorSessions(cfg, s, step);
    } else {
      BystanderSessions(cfg, s, step);
    }
  }

  lemma BystanderSessions(cfg: Config, s: State, step: Step)
    requires Enabled(cfg, s, step) && Actor(step) == None
    ensures var s' := Apply(cfg, s, step);
            forall d, client :: d in s'.directors && client in s'.directors[d].sessions ==>
              || (d in s.directors && client in s.directors[d].sessions
                  && s'.directors[d].sessions[client] == s.directors[d].sessions[client])
              || s'.directors[d].sessions[client].origin == None
  {
    hide Visible, Draining, Post, Answer;
  }

  /** The evidence for a new entry: the write just answered, or the connected character in the list. */
  lemma NewEntryBacked(cfg: Config, s: State, step: Step, d: nat, client: string)
    requires Chronicle(s) && QueriesOk(cfg, s) && Enabled(cfg, s, step)
    requires var s' := Apply(cfg, s, step); InstalledBy(cfg, s, step, s', d, client)
    ensures var s' := Apply(cfg, s, step); EntryBacked(cfg, s', d, client, s'.directors[d].sessions[client])
  {
    hide Chronicle, QueriesOk, QueryOk, Apply, Enabled, HostedAt, Decide;
    var s' := Apply(cfg, s, step);
    var q := Actor(step).value;
    var target := s'.directors[d].sessions[client].target;
    StepFrame(cfg, s, step);
    CurrentNames(s);
    Recall(cfg, s, q);
    var r: nat;
    if step.Install? {
      r := s.queries[q].phase.written;
      WriteHosts(cfg, s, s.queries[q]);
    } else {
      r := s.queries[q].phase.version;
      ListHosts(cfg, s, s.queries[q]);
    }
    HostedAtExtends(cfg, s, s', s.queries[q], target, r);
    SameHostedAt(cfg, s', s.queries[q], s'.queries[q], target, r);
    assert r <= Revision(s) && HostedAt(cfg, s', s'.queries[q], target, r);
  }

  lemma SameHostedAt(cfg: Config, s: State, query: Query, query': Query, target: Target, r: nat)
    requires HostedAt(cfg, s, query, target, r) && query'.granted == query.granted && query'.req == query.req
    ensures HostedAt(cfg, s, query', target, r)
  {
  }

  lemma WriteHosts(cfg: Config, s: State, query: Query)
    requires QueryOk(cfg, s, query) && query.phase.Answered?
    ensures query.phase.written < |s.history| && HostedAt(cfg, s, query, query.phase.target, query.phase.written)
  {
    hide QueryTarget;
    var written := s.history[query.phase.written][query.phase.pod.name];
    assert written.body == query.phase.pod.body && Hosts(cfg, written, query.req.character);
  }

  lemma ListHosts(cfg: Config, s: State, query: Query)
    requires QueryOk(cfg, s, query) && query.phase.Deciding?
    requires Decide(cfg, query.req, query.phase.items, s.clock).Keep?
    ensures query.phase.version < |s.history|
    ensures HostedAt(cfg, s, query, Decide(cfg, query.req, query.phase.items, s.clock).target, query.phase.version)
  {
    hide QueryTarget, Decide, Eligible, InMap, PassesFilters, ValidRequest;
    DecisionIsAboutOptimum(cfg, query.req, query.phase.items, s.clock);
    var pod := Decide(cfg, query.req, query.phase.items, s.clock).pod;
    assert pod in query.phase.items;
    assert pod.name in s.history[query.phase.version];
  }

  lemma RoutesBackedKept(cfg: Config, s: State, step: Step)
    requires Chronicle(s) && QueriesOk(cfg, s) && RoutesBacked(cfg, s) && Enabled(cfg, s, step)
    ensures RoutesBacked(cfg, Apply(cfg, s, step))
  {
    hide Chronicle, QueriesOk, Apply, Enabled, EntryBacked, InstalledBy;
    var s' := Apply(cfg, s, step);
    StepFrame(cfg, s, step);
    SessionsFrame(cfg, s, step);
    forall q | q in s.queries && s.queries[q].phase.Done? ensures q in s'.queries && s'.queries[q] == s.queries[q] {
      DoneIsFinal(cfg, s, step, q);
    }
    forall d, client | d in s'.directors && client in s'.directors[d].sessions
      ensures EntryBacked(cfg, s', d, client, s'.directors[d].sessions[client])
    {
      var entry := s'.directors[d].sessions[client];
      if entry.origin == None {
        DefaultIsBacked(cfg, s', d, client, entry);
      } else if InstalledBy(cfg, s, step, s', d, client) {
        NewEntryBacked(cfg, s, step, d, client);
      } else {
        EntryStaysBacked(cfg, s, s', d, client, entry);
      }
    }
  }

  lemma DefaultIsBacked(cfg: Config, s: State, d: nat, client: string, entry: Entry)
    requires entry.origin == None
    ensures EntryBacked(cfg, s, d, client, entry)
  {
  }

  lemma {:induction false} BackedAlways(cfg: Config, s0: State, steps: seq<Step>)
    requires Init(s0) && Legal(cfg, s0, steps)
    ensures RoutesBacked(cfg, After(cfg, s0, steps))
    decreases |steps|
  {
    hide Apply, Enabled, EntryBacked, Inv;
    if steps == [] {
      forall d, client | d in s0.directors && client in s0.directors[d].sessions
        ensures EntryBacked(cfg, s0, d, client, s0.directors[d].sessions[client])
      {
        DefaultIsBacked(cfg, s0, d, client, s0.directors[d].sessions[client]);
      }
    } else {
      var n := |steps| - 1;
      var s := After(cfg, s0, steps[..n]);
      BackedAlways(cfg, s0, steps[..n]);
      InvAlways(cfg, s0, steps[..n]);
      InvGives(cfg, s);
      RoutesBackedKept(cfg, s, steps[n]);
    }
  }

  lemma InvGives(cfg: Config, s: State)
    requires Inv(cfg, s)
    ensures Chronicle(s) && QueriesOk(cfg, s)
  {
  }

  /**
   * Every route a query installed, in every reachable state: the query was answered with success, and at some
   * revision between its grant of the lock and the install, a Pod with that very target carried the query's
   * character as `Allocated` or `Used`.
   */
  lemma QueryRoutesAreBacked(cfg: Config, s0: State, steps: seq<Step>, d: nat, client: string)
    requires Init(s0) && Legal(cfg, s0, steps)
    requires var s := After(cfg, s0, steps);
             d in s.directors && client in s.directors[d].sessions && s.directors[d].sessions[client].origin.Some?
    ensures
      var s := After(cfg, s0, steps);
      var entry := s.directors[d].sessions[client];
      && entry.origin.value in s.queries
      && var query := s.queries[entry.origin.value];
      && query.director == d && query.client == client && query.phase.Done? && query.phase.reply.Joined?
      && exists r: nat, n ::
           && query.granted <= r <= entry.installed && r < |s.history| && n in s.history[r]
           && Hosts(cfg, s.history[r][n], query.req.character)
           && QueryTarget(cfg.mapping, cfg.dataPorts, s.history[r][n].body) == Some(entry.target)
  {
    hide Apply, Enabled, Init, Legal, QueryTarget, Hosts;
    BackedAlways(cfg, s0, steps);
    var s := After(cfg, s0, steps);
    assert EntryBacked(cfg, s, d, client, s.directors[d].sessions[client]);
  }

  /** A query that ends in an error, a timeout or a cancellation changes no route of any client, and owns none. */
  lemma FailedQueriesLeaveRoutes(cfg: Config, s0: State, steps: seq<Step>, step: Step)
    requires Init(s0) && Legal(cfg, s0, steps) && Enabled(cfg, After(cfg, s0, steps), step)
    requires Actor(step).Some?
    requires var s' := Apply(cfg, After(cfg, s0, steps), step);
             && Actor(step).value in s'.queries
             && !(s'.queries[Actor(step).value].phase.Done? && s'.queries[Actor(step).value].phase.reply.Joined?)
    ensures
      var s := After(cfg, s0, steps);
      var s' := Apply(cfg, s, step);
      && (forall d :: d in s.directors ==> d in s'.directors && s'.directors[d].sessions == s.directors[d].sessions)
      && (forall d, client :: d in s'.directors && client in s'.directors[d].sessions ==>
            s'.directors[d].sessions[client].origin != Actor(step))
  {
    hide Legal, Init, Apply, Enabled, EntryBacked;
    var s := After(cfg, s0, steps);
    BackedAlways(cfg, s0, steps);
    InvAlways(cfg, s0, steps);
    InvGives(cfg, s);
    UnsuccessfulKeepsSessions(cfg, s, step);
    RoutesBackedKept(cfg, s, step);
    var s' := Apply(cfg, s, step);
    forall d, client | d in s'.directors && client in s'.directors[d].sessions
      ensures s'.directors[d].sessions[client].origin != Actor(step)
    {
      OwnerJoined(cfg, s', d, client);
    }
  }

  lemma OwnerJoined(cfg: Config, s: State, d: nat, client: string)
    requires RoutesBacked(cfg, s) && d in s.directors && client in s.directors[d].sessions
    ensures var origin := s.directors[d].sessions[client].origin;
            origin.Some? ==> origin.value in s.queries && s.queries[origin.value].phase.Done?
                             && s.queries[origin.value].phase.reply.Joined?
  {
    assert EntryBacked(cfg, s, d, client, s.directors[d].sessions[client]);
  }

  lemma UnsuccessfulKeepsSessions(cfg: Config, s: State, step: Step)
    requires Enabled(cfg, s, step) && Actor(step).Some?
    requires var s' := Apply(cfg, s, step);
             && Actor(step).value in s'.queries
             && !(s'.queries[Actor(step).value].phase.Done? && s'.queries[Actor(step).value].phase.reply.Joined?)
    ensures SameSessions(s, Apply(cfg, s, step))
  {
    hide Enabled, Apply, ApplyEvaluate, SameSessions;
    if step.Evaluate? {
      EvaluateKeepsSessions(cfg, s, step.q);
    } else if step.Install? {
      InstallJoins(cfg, s, step.q);
    } else {
      ActorSessions(cfg, s, step);
    }
  }

  lemma InstallJoins(cfg: Config, s: State, q: nat)
    requires Enabled(cfg, s, Install(q))
    ensures var s' := Apply(cfg, s, Install(q));
            q in s'.queries && s'.queries[q].phase.Done? && s'.queries[q].phase.reply.Joined?
  {
  }

  lemma EvaluateKeepsSessions(cfg: Config, s: State, q: nat)
    requires Enabled(cfg, s, Evaluate(q))
    requires var s' := Apply(cfg, s, Evaluate(q));
             && q in s'.queries && !(s'.queries[q].phase.Done? && s'.queries[q].phase.reply.Joined?)
    ensures SameSessions(s, Apply(cfg, s, Evaluate(q)))
  {
    hide Decide, JoinOrStart;
    var query := s.queries[q];
    match Decide(cfg, query.req, query.phase.items, s.clock)
    case Keep(pod, target) =>
    case _ =>
  }
}
