# UDP director: character assignment, routes and sessions

The director answers access queries: it picks a game-server Pod for a character, records the assignment as one
Pod label under the Pod's resource version, and installs a forwarding route for the client. Several director
processes, a draining controller, an occupancy controller and the clock act on the same Pods at the same time.
This project models that protocol and the code that feeds it, and proves what it keeps.

Four parts:

- **Assignment protocol** (`Protocol`, `Invariants`, `Guards`, `Capacity`, `Uniqueness`, `Freshness`, `Lapse`,
  `LapsedRun`, `Revival`, `Overtaking`, `Serial`, `Backing`, `Answers`). A transition system over any number of directors, queries, Pods and controller steps.
  Every suspension point of a query is a step of its own, so all interleavings are runs. The Pod store keeps its
  whole history: revision `r` is an index into it, and a Pod's resource version is the revision that wrote it.
  The answer to an accepted write may be lost (`delivered`), any network call may fail, and a cold wait may end by
  its deadline or by the client's disconnection at any of its suspension points.
- **Cold start** (`Demand`, `Coalescing`, `Startup`, `Wakeup`, and the waking-up part of `Guards`). Shared demand flights with weak
  references, as a class and as the boards of the transition system.
- **Sessions and sockets** (`SocketTable`, `Sessions`, `Traffic`). Classes for sockets, sessions, the manager and the proxy,
  each method tied to a function on a table value; runs of that table, at method and at guard granularity.
- **Parts that feed them** (`Pods`, `Characters`, `Selection`, `Decisions`, `Backend`, `JsonPath`, `Ordering`, `LoadBalancer`,
  `RequestReader`).

## Findings

- **A character can end up on two Pods.** Uniqueness within one director is not unconditional. A query lists Pods
  while the character is `Disconnected` on Pod B, the entry lapses before the list is evaluated, and meanwhile the
  controller sees the character connect again on B. The query then assigns Pod A, whose version is unchanged, so
  the guarded write is accepted. The exact condition, for whole runs and any number of directors, is
  `Overtaking.RunIsUniqueExactly`: every state of a steady run has each character on at most one Pod of a map if and
  only if at no accepted write a Pod shows the character that the writer's list did not show at its decision. With one
  director such a Pod is one whose listed entry had lapsed and was connected again (`Overtaking.OvertakenMeansRevived`),
  and `Freshness.CharacterIsOnOnePod` is uniqueness for runs in which no evaluated list has such a revived entry; an
  entry that merely expires does no harm. `Lapse.LapsedEntryDoublesCharacter` proves that wherever evaluating a fresh
  list later would leave a Pod that shows the character, a run that meets all the other hypotheses ends with the
  character on two Pods, and `LapsedRun.PlainRunDoublesCharacter` gives such a run from an idle start with a concrete
  configuration.
- **A socket can outlive its session.** `upsert_multi_port` stops the old session's sockets under one guard and
  replaces it under another. `SocketTable.UpsertOwnedExactly`: whatever other tasks complete in between,
  the upsert ends with ownership intact exactly when no socket of its address opened in between is still live.
  `SocketTable.OrphanedSocket` is the four-step run that leaves a live socket in no session. `clear_all` has
  the same gap between its stop pass and dropping the sessions: `SocketTable.ClearOwnedExactly`, `OrphanedByClear`.
- **Label arithmetic wraps.** `LoadBalancer.CapacityTestIsExact`: for all operands, the 64-bit capacity
  test agrees with arithmetic exactly when the residue of the true difference modulo 2^64 lies in (0, 2^63) just in
  case the difference is positive; below 2^64 in magnitude that is to fit in 64 bits.
  `LoadBalancer.FullBackendIsSelected`: with an overlap of two, a maximum of 0 and 9223372036854775807 users, a full
  backend is the selected one.
- **A bracket at the end of a path part panics.** `JsonPath.PanicsExactly` says when; the path `a[` does
  on every resource (`JsonPath.BareBracketPanics`).
- **Clean-up notifies nobody.** The clean-up task runs on a manager clone made before the callback can be set
  (src/session.rs:252-264). `Sessions.StartWithCallback` and `Sessions.ManagerHandle.CleanupPass`: the task's handle
  never has one, so its passes notify nobody.
- **Trailing bytes after a request may or may not be seen.** `RequestReader.SameForEveryChunking`: what a stream
  yields is independent of how it is cut exactly when the bytes that can share a read with the document's last
  byte are white space within the size limit.

## Assumptions of the theorems

- One nondecreasing clock; a list is a fresh read of one revision; a watch from a revision delivers when a later
  revision changes the label-matching Pods.
- `Guards.HonestStamps`: outside writers never stamp a disconnection in the future. It is needed by the drain,
  capacity and uniqueness theorems; `Characters.ShrinksExactlyWithoutFutureStamps` shows that it must be.
- `Capacity.Disciplined`: outside writers show no character on a Pod that was not visible there.
- `Uniqueness.KeepsMaps`, `OccupiedOpen`: outside writers do not move an occupied Pod into another map, and occupied
  Pods stay ready, undrained and within the configured filters. A steady run is one that meets this and the two above.
- `Freshness.AllFresh`: no evaluated list has a revived entry, one that has lapsed as listed while its Pod shows the
  character now. Only `CharacterIsOnOnePod` assumes it; `Overtaking.RunIsUniqueExactly` assumes nothing of the kind.
- `Characters.SelectorsAreNotCharacters`: no configured selector key is a character label.
- `Serial.QuietStep`: between a holder's list and its write, nobody else changes a Pod of the holder's map.
- `DirectorWrites`, `NoLostWakeup`, `OneFlightPerGroup` and `QueryRoutesAreBacked` need none of these.

## Model

| member | source | states |
|---|---|---|
| Guards.DirectorWrites | src/k8s_client.rs:47-64 | every write a director ever makes changes one label of the Pod its query chose to `Allocated`, and at that moment the Pod is ready, not draining and the label is not `Used` |
| Guards.DrainedPodIsEmpty | Docs/API-Docs/QueryAPI.md:188-195 | a controller that marks, re-reads empty and deletes under the version it re-read never deletes a Pod showing a character, in any interleaving |
| Guards.NoLostWakeup | src/query_server.rs:279-295 | while a cold query waits and its watch has nothing to deliver, its list is still current and nothing current was eligible when it was evaluated |
| Guards.DeliveryStaysPending | src/k8s_client.rs:177-209 | a change the watch has to deliver stays deliverable whatever anyone does next |
| Capacity.CapacitySafety | src/query_server.rs:252-255 | from Pods within the limit, no run of directors, disciplined writers and time shows more characters on a Pod than allowed |
| Overtaking.RunIsUniqueExactly | src/query_server.rs:218-342 | any number of directors: every state of a steady run has each character on at most one Pod of a map if and only if no accepted write was overtaken by a Pod that shows the character and by the writer's list did not |
| Overtaking.WriteKeepsUniqueExactly | src/query_server.rs:332-339 | the same for one accepted write in an orderly state |
| Overtaking.OvertakenMeansRevived | src/query_server.rs:218-268 | with one director only a listed entry that lapsed before the decision and was revived can overtake a write |
| Freshness.CharacterIsOnOnePod | src/query_server.rs:218-268 | one director, no evaluated list with a revived entry: each character is visible on at most one Pod of a map in every reachable state |
| Freshness.ShownElsewhereIsRevived | src/query_server.rs:227-268 | a Pod other than the one assigned that shows the character at the decision is one whose listed entry was revived |
| Freshness.FreshRunsAreSticky | src/query_server.rs:256-268 | so without revived entries every assignment goes to the Pod that shows the character, if there is one |
| Uniqueness.StickyRunsAreUnique | src/query_server.rs:218-226 | and that is enough for uniqueness |
| Revival.UniqueExactlyWithoutRevival | src/query_server.rs:227-339 | one director, evaluating and writing at once: the store stays unique if and only if the list has no revived entry |
| Revival.NextAssignmentExactly | src/query_server.rs:227-339 | the same after any steady run free of revived entries |
| Lapse.LapsesMeansLapsed | src/query_server.rs:227-268 | the situation of the next row is a lapse of the listed entry |
| Uniqueness.PatchSpreadsOne | src/k8s_client.rs:55-62 | an accepted write shows one character more, on one Pod, in the query's map only |
| Lapse.LapsedEntryDoublesCharacter | src/query_server.rs:227-268 | where a list, evaluated later, would leave a Pod that shows the character, a run meeting all other hypotheses ends with the character on two Pods |
| LapsedRun.SceneDoublesCharacter | src/query_server.rs:218-342 | such a run exists from an idle start for every scene of two open Pods with a lapsing entry |
| LapsedRun.PlainRunDoublesCharacter | src/query_server.rs:218-342 | and on one concrete configuration |
| Serial.RunsAreSerial | src/query_server.rs:218-348 | under quiet, every concurrent run gives the Pods, routes and answers of whole assignments one at a time, in lock order; a holder still under way counts from its accepted write on |
| Serial.StepSimulated | src/query_server.rs:272-342 | every concurrent step is nothing or exactly one serial step, cold waiting included |
| Serial.NoPatchConflicts | src/k8s_client.rs:54-62 | under quiet no write of the director is refused by its version guard |
| Serial.CurrentListFits | src/query_server.rs:338-339 | a pending write whose list is current meets the very Pod it listed |
| Backing.QueryRoutesAreBacked | src/query_server.rs:332-347 | every query-installed route has a revision between lock grant and install at which a Pod with that target carried the character as `Allocated` or `Used` |
| Backing.FailedQueriesLeaveRoutes | src/query_server.rs:142-169 | a query that does not end in success changes no client's route and owns none |
| Answers.SuccessNamesTheServer | src/query_server.rs:327-347 | in every run a successful answer names the identity of a Pod that, between the lock grant and the answer, hosted the character and had the very target just installed for the client |
| Answers.SuccessNamesThePorts | src/query_server.rs:317-347 | its ports are exactly the data ports' names, each with the listener of the last data port so named |
| Answers.EveryAnswerHasAReason | src/query_server.rs:142-348 | every answer of every run was given by the step that stands for it: timeout only past the flight's deadline, no server only without demand and with nothing to choose, no route only after a changed Pod, a failed call or an unusable Pod |
| Answers.RefusedExactlyForInvalidIds | src/query_server.rs:185-191 | a query is refused for its ids exactly when its map, character or a friend is not a valid id |
| Decisions.DecisionExactly | src/query_server.rs:251-348 | each decision if and only if: nothing may be chosen; the best Pod lacks identity or backend; the character is connected on it; or it has to be assigned |
| Decisions.DecidedOnBest | src/query_server.rs:297-339 | the same about the chosen Pod when identities repeat |
| Decisions.ChosenIsPreferred | src/query_server.rs:256-268 | against every Pod that may be chosen, the chosen one has the character, then more friends, then fewer characters, then the lesser identity by first differing character |
| Decisions.EligibleExactly | src/query_server.rs:251-255 | a Pod may be chosen when it is ready, not draining, and has the character or room |
| Decisions.ReadyAndDraining | src/k8s_client.rs:17-77 | ready and draining in terms of the Pod's fields |
| Decisions.VisibleExactly | src/characters.rs:58-86 | a character is on a Pod while allocated or used, and for 120 seconds from its disconnection |
| Decisions.ReadingExactly | src/characters.rs:43-94 | a reading in terms of labels: who, in which state, with which instant |
| Decisions.StampExactly | src/characters.rs:50-56 | the instant is the annotation's entry when both can be read |
| Decisions.InMapExactly | src/query_server.rs:203-204 | a Pod belongs to a map by its map label and the other selected labels |
| Decisions.FiltersExactly | src/k8s_client.rs:212-264 | the status and annotation filters in terms of the Pod's contents |
| Decisions.ServersAscend | src/query_server.rs:248-249 | the servers of a list answer stand in ascending order of identity |
| Decisions.CharactersAscend | src/characters.rs:92 | the characters of a reading stand in ascending order of id, each once |
| Invariants.InvAlways | src/query_server.rs:218-340 | in every reachable state versions identify contents, suspended queries remember true lists, and the lock is held by exactly the query whose phase says so |
| Invariants.AcceptedPatchSeesListedPod | src/k8s_client.rs:47-64 | an accepted guarded write finds the very content the query listed |
| Coalescing.OneFlightPerGroup | src/demand.rs:39-60 | waiters of one group share one flight, the one in the table; posts per group never exceed the times it became held |
| Coalescing.RiseMeansUnheldToHeld | src/query_server.rs:279-283 | the counter grows at exactly the steps that take a group from no live holder to one |
| Startup.FlightsAreExplained | src/demand.rs:39-86 | every flight of every run was started by a query that found nothing, for its map's group, with the boot time from then as deadline; an answered one was posted and reports acceptance only for 202, unknown group only for 404, maintenance only for 503 |
| Startup.WatchesAreAccepted | src/query_server.rs:281-286 | a cold query watches only once the demand for its group was accepted |
| Wakeup.ColdQueryGetsToWatch | src/query_server.rs:272-286 | the first cold query of a group lets go of the lock, can have its demand posted and, once accepted, watches from the revision of its list |
| Wakeup.WakeupReconsiders | src/query_server.rs:284-296 | from a delivered change it can return, lock and list the Pods as they are, and is not cold when one of them may be chosen |
| Demand.SignalKeepsBoard | src/demand.rs:39-60 | a signal joins the group's live flight when there is one and otherwise starts exactly one |
| Demand.PostKeepsBoard | src/demand.rs:63-86 | posting a flight that was not yet posted keeps each group's counter equal to its posted flights |
| Demand.PostedAtMostCreated | src/demand.rs:47-56 | posts of a group are at most the flights created for it |
| Demand.CapacityDemand.Signal | src/demand.rs:39-60 | retain, upgrade or insert yields the specified table, one more reference to the flight, and no other reference changed |
| Demand.CapacityDemand.Release | src/demand.rs:41 | dropping a reference leaves the table itself as it was |
| Demand.CapacityDemand.Poll | src/demand.rs:50-55 | only the first poll of a flight sends a request |
| Selection.RankedHeadIsOptimum | src/query_server.rs:252-268 | the head of the ranking is an eligible Pod no other eligible one outranks, and there is none exactly when nothing is eligible |
| Selection.OptimumIsUnique | src/query_server.rs:256-268 | with distinct identities the optimum is the head and only the head |
| Selection.ChoiceIgnoresOrderAndDuplicates | src/query_server.rs:256-268 | the choice is the same for every order of the list and every spelling of the same friends |
| Selection.CandidateRankIsPodRank | src/query_server.rs:256-268 | the computed sort key counts visible characters and visible friends as sets |
| Selection.SelectCandidates | src/query_server.rs:227-268 | reading, retaining and sorting in place yields the ranked eligible Pods, each with its exact characters |
| Selection.DecisionIsAboutOptimum | src/query_server.rs:268-340 | cold means nothing eligible; every other decision is about an optimum, keeps a `Used` character and assigns any other |
| Selection.Evaluate | src/query_server.rs:227-340 | the imperative evaluation computes that decision |
| Selection.ListCharacters | src/query_server.rs:228-250 | one server per ready Pod with something to show, in the list's order and then stably sorted by identity, each with its own reading; fails exactly when one of them has no identity |
| Selection.AnswersAreUnique | src/query_server.rs:237-250 | that list before sorting is determined by Pods, ids and time |
| Characters.CharactersOnPod | src/characters.rs:43-94 | returns the strictly sorted list of exactly the visible requested characters |
| Characters.RetainedListIsTheReading | src/query_server.rs:233-241 | listing all and then retaining equals passing the requested ids |
| Characters.StrictlySortedUnique | src/characters.rs:92 | the reading is determined by its members |
| Characters.ReadingCountsVisible | src/characters.rs:43-94 | the reading is as long as the visible set is large |
| Characters.VisibilityOnlyShrinks | src/characters.rs:66-85 | once stamps are past, a Pod only loses visible characters as time goes by |
| Characters.ShrinksExactlyWithoutFutureStamps | src/characters.rs:79 | what a Pod shows only shrinks from now on if and only if none of its stamps lies in the future |
| Characters.LabelAddsOne | src/k8s_client.rs:54-62 | writing a label as assigned or connected adds that character to the visible ones and changes no other |
| Characters.LabelKeepsMap | src/query_server.rs:203-204 | a character label never moves a Pod into or out of a map |
| Pods.ListingDependsOnMatching | src/k8s_client.rs:101-174 | a filtered list depends only on the label-matching Pods |
| Pods.FilterListing | src/k8s_client.rs:156-170 | client-side filtering keeps the Pods passing status and annotation filters, in the order of the answer |
| Pods.FilteredAnswerIsListing | src/k8s_client.rs:101-174 | so what the server's answer leaves is a listing of the store |
| Pods.MatchesAnnotationSelector | src/k8s_client.rs:242-264 | true exactly when every selector annotation is present with its value |
| Pods.WaitForPodChange | src/k8s_client.rs:177-209 | with a list revision, the wait succeeds exactly when no failing event comes before the first one that is not a bookmark; a refused watch succeeds only with code 410 |
| Backend.ExtractAddress | src/k8s_client.rs:298-346 | the address found is the one specified; it panics exactly when the path does |
| Backend.FirstAddressIsFirst | src/k8s_client.rs:298-346 | in a typed list that is the first entry of the kind, and none exactly when there is none |
| Backend.AddressExactly | src/k8s_client.rs:298-346 | the address is the text at the path, or that of the first entry of the type with a textual address |
| Backend.ExtractPort | src/k8s_client.rs:349-426 | the port found is the one specified; it panics exactly when a path is used and panics |
| Backend.NamedPortIsFirst | src/k8s_client.rs:349-426 | a named port is the first match among the status ports, and only failing that the first among the container ports |
| Backend.PortAtPathExactly | src/k8s_client.rs:349-426 | without a name the port is the whole number below 65536 at the path |
| Backend.PortNumberExactly | src/k8s_client.rs:349-426 | a number is a port exactly when it is whole and below 65536 |
| Backend.NamedPortInStatus | src/k8s_client.rs:349-426 | a named port of the status is the first entry's number for the name |
| Backend.NamedPortInContainer | src/k8s_client.rs:349-426 | otherwise it is the first number for the name, container by container |
| Backend.ExtractPorts | src/k8s_client.rs:429-447 | the named ports specified, stopping at the first that does not resolve; panics exactly when that one does |
| Backend.PortsOfIs | src/k8s_client.rs:429-447 | there are ports exactly when every mapping resolves, and each name has the port of its last mapping |
| Backend.BuildQueryTarget | src/query_server.rs:297-324 | the access query's target: every data port covered, at least one, or nothing |
| Backend.BuildDefaultTarget | src/proxy.rs:447-501 | the default endpoint's target: the data ports that resolve |
| Backend.RoutesForCovers | src/proxy.rs:477-486 | a route table has exactly the listeners of data ports whose name resolves |
| Backend.QueryTargetExactly | src/query_server.rs:297-325 | the query's target in terms of address, data ports and backend ports, and when there is none |
| Backend.DefaultTargetExactly | src/proxy.rs:447-501 | the default route's target in the same terms |
| Backend.BuildersAgree | src/proxy.rs:464-500 | whenever the query path succeeds, the default path builds the same target |
| Backend.EveryDataPortResolves | src/query_server.rs:318-324 | with distinct data ports each resolves to its own named backend port |
| JsonPath.ExtractJsonPath | src/k8s_client.rs:268-294 | the walking loop computes the evaluation of the split path |
| JsonPath.NameReadsField | src/k8s_client.rs:287-290 | a plain name reads the field of that name |
| JsonPath.IndexReadsElement | src/k8s_client.rs:274-287 | a name with an index reads that element, counting from zero |
| JsonPath.PathsCompose | src/k8s_client.rs:268-294 | evaluating `p.q` is evaluating `q` on the result of `p`, for all texts |
| JsonPath.PrintedPathWalks | src/k8s_client.rs:268-294 | evaluating the printed form of an abstract path equals walking its segments |
| JsonPath.PanicsExactly | src/k8s_client.rs:274-277 | evaluation panics exactly when it reaches a part whose first bracket is its last character |
| JsonPath.BareBracketPanics | src/k8s_client.rs:274-277 | the path `a[` panics on every resource |
| SocketTable.OwnedAlways | src/session.rs:154-193 | with whole operations atomic, the live sockets of every reachable table are exactly those held by sessions |
| SocketTable.OwnershipMeans | src/session.rs:122-126 | so each live socket is in exactly one slot of one session, and live sockets are one-to-one with client address and proxy port |
| SocketTable.FlowIsolation | src/proxy.rs:581-608 | over every run at guard granularity, one socket carries packets of one client and proxy port to one backend, and replies go to that client through that port's listener |
| SocketTable.MigrationStartsAfresh | src/session.rs:322-345 | after a route change the client leaves by a socket no packet used before, to the new backend, and its old sockets are down |
| SocketTable.ReplaceOwnedExactly | src/session.rs:333-337 | replacing a session keeps ownership exactly when the replaced one holds no socket |
| SocketTable.UpsertOwnedExactly | src/session.rs:331-337 | over every run of whole operations between the two guards, the upsert keeps ownership exactly when no socket of its address opened in between is still live |
| SocketTable.OrphanedSocket | src/session.rs:331-337 | a four-step run that ends with a live socket in no session |
| SocketTable.ClearOwnedExactly | src/session.rs:372-380 | dropping all sessions at the end of a clearing keeps ownership exactly when no socket is live at that moment |
| SocketTable.OrphanedByClear | src/session.rs:372-380 | a run in which a clearing leaves a live socket in no session |
| SocketTable.EvictOwned | src/session.rs:405-418 | removing sessions and stopping their sockets keeps ownership |
| Traffic.LaterPacketsGoTheSameWay | src/session.rs:154-181 | over runs: once a packet left by a socket to a backend, every later one of that client and proxy port does too, opening nothing, until the session is replaced, stopped or removed |
| Traffic.PacketsFollowTheRoute | src/proxy.rs:581-608 | over runs: after a route change a packet is handed on exactly when the route serves its port and there is a socket for it, to the route's address and mapped port |
| Traffic.ActiveSessionStays | src/session.rs:225-232 | over runs: after activity at an instant, sweeps up to the timeout later leave the session with its route and sockets |
| Traffic.IdleSessionEnds | src/session.rs:387-418 | over runs: without activity since an instant, a sweep later than the timeout removes the session and stops its sockets |
| Traffic.ClearingLeavesNothing | src/session.rs:372-384 | clearing leaves no session and no live socket |
| Traffic.ResolveExactly | src/session.rs:196-222 | the backend address is the route's address with the mapped port |
| Traffic.LookupExactly | src/session.rs:281-303 | the session found is that of the exact socket, else that of the address |
| Traffic.DottedIsIpv4 | src/session.rs:214-221 | four dotted numbers are an address exactly when each is at most 255 |
| Sessions.SessionSocket.ReceiveOnce | src/session.rs:59-112 | a stopped socket or a receive error ends its task; otherwise a reply goes to the captured client through the captured listener |
| Sessions.Session.GetOrCreateUdpSocket | src/session.rs:154-181 | returns the slot's socket unchanged, or opens one for that client and route, or fails leaving everything as it was |
| Sessions.Session.ShutdownSockets | src/session.rs:184-193 | stops every socket of the session and forgets them |
| Sessions.Session.GetTargetAddr | src/session.rs:196-222 | the backend address of a proxy port and protocol, if mapped and an IPv4 address |
| Sessions.SessionManager.FindKey | src/session.rs:281-303 | exact socket first, then the client's address |
| Sessions.SessionManager.UpsertMultiPort | src/session.rs:322-345 | the table afterwards is the specified one: old sockets down, fresh session in place, ownership kept |
| Sessions.SessionManager.TouchByAddr | src/session.rs:355-364 | only the found session's activity changes |
| Sessions.SessionManager.RoutePacket | src/proxy.rs:581-597 | backend and socket come from one session; a socket is made exactly when none exists and one can be bound |
| Sessions.SessionManager.SweepOnce | src/session.rs:387-418 | removes exactly the sessions idle for longer than the timeout, stops their sockets, and notifies once for each when there is a callback |
| Sessions.ManagerHandle.CleanupPass | src/session.rs:387-425 | a pass sweeps the shared table and notifies only with a callback on its own handle, which it never changes |
| Sessions.NewManager | src/session.rs:251-265 | the clean-up task keeps a clone of the new handle on the same table, without a callback |
| Sessions.StartWithCallback | src/main.rs:64-75 | setting the callback afterwards leaves the task's handle without one |
| Sessions.SessionManager.ClearAll | src/session.rs:372-384 | every socket stopped, no session left |
| Sessions.DataProxy.EstablishDefaultSession | src/proxy.rs:298-377 | cached default if it serves the port, else the queried one; only an empty cache is filled; success counts one session |
| Sessions.DefaultRouteServes | src/proxy.rs:309-356 | a default route serves the port asked for, there is one exactly when the cache or the query has it, and an empty cache is filled with what the query answered |
| Sessions.DataProxy.HandleUdpDataPacket | src/proxy.rs:254-295 | existing route, touched only when the packet is sent, or default route without touch; failures change only what they say |
| LoadBalancer.LoadBalancer.SelectBackend | src/load_balancer.rs:83-110 | selects the best candidate of the configured strategy, nothing exactly when there is none |
| LoadBalancer.LoadBalancer.SelectLeastSessions | src/load_balancer.rs:113-168 | the first resource with the fewest sessions among those with an address |
| LoadBalancer.LoadBalancer.SelectLabelArithmetic | src/load_balancer.rs:171-304 | the first resource with most available capacity, then least current load, among those with some |
| LoadBalancer.LoadBalancer.IncrementSession | src/load_balancer.rs:307-317 | one session more at that address |
| LoadBalancer.LoadBalancer.DecrementSession | src/load_balancer.rs:320-330 | one less, never below zero |
| LoadBalancer.SortedHeadIsBest | src/load_balancer.rs:285-291 | the head of the stably sorted candidates is the best resource |
| LoadBalancer.BestIsUnique | src/load_balancer.rs:153-155 | the selection is determined by the list and the counts |
| LoadBalancer.FewestSessionsFirst | src/load_balancer.rs:153-155 | the selection has fewest sessions, the first among equals |
| LoadBalancer.MostRoomFirst | src/load_balancer.rs:285-291 | the selection has most room, then fewest stated users, the first among equals |
| LoadBalancer.UsableExactlyWhenOffered | src/load_balancer.rs:252-273 | a resource is a candidate exactly when it has an address and, by labels, room |
| LoadBalancer.StatedExactly | src/load_balancer.rs:211-250 | what the labels state: parsed users, zero when missing, and the parsed maximum |
| LoadBalancer.SignedDigitsParse | src/load_balancer.rs:212-233 | a label is a number with an optional sign within 64 bits |
| LoadBalancer.OtherTextDoesNotParse | src/load_balancer.rs:212-233 | and any other text is none |
| LoadBalancer.WrapExactly | src/load_balancer.rs:257 | wrapping keeps the residue modulo 2^64 within the signed range |
| LoadBalancer.CountsMove | src/load_balancer.rs:307-330 | counting adds one at its address, releasing takes one away there and not below zero, and nothing else changes |
| LoadBalancer.SessionsStayWithinRoom | src/load_balancer.rs:252-273 | with at most `width` selections awaiting their count, sessions exceed max - current - overlap by at most `width - 1`; selection fails exactly when no backend has room |
| LoadBalancer.CountsStayBalanced | src/load_balancer.rs:113-168 | under least sessions without releases, counts differ by at most the selections in flight |
| LoadBalancer.CapacityTestIsExact | src/load_balancer.rs:252-265 | for all operands, when the wrapped capacity test gives the arithmetic answer; within one wrap, exactly when the difference fits 64 bits |
| LoadBalancer.FullBackendIsSelected | src/load_balancer.rs:252-291 | digits-only labels with which a full backend is selected ahead of every ordinary one |
| RequestReader.ReadRequest | src/query_server.rs:479-502 | the loop computes the specified outcome; the buffer never exceeds 65536 + 4096 bytes |
| RequestReader.FirstDecisionCounts | src/query_server.rs:483-501 | the first read that exceeds the limit or completes a parse decides the outcome, and otherwise the end of the stream |
| RequestReader.SameForEveryChunking | src/query_server.rs:479-502 | exactly when every way of cutting a stream into reads yields the same request |
| RequestReader.UndecidedStream | src/query_server.rs:483-495 | a stream the parser never decides on is too long, incomplete or no request |
| Ordering.HeadIsFirstLeast | src/load_balancer.rs:153-155 | a stable sort puts the first of the least elements at the head |

## Left out

- Backend.BuildQueryTarget: a mapping without an address path goes to the service-based lookup in the source; here it
  gives no target. The unused single-port extractors of the proxy are not modelled either.
- Backend.BuildQueryTarget, BuildDefaultTarget and status filters take a path that panics as one that finds nothing; the
  readers under them (ExtractAddress, ExtractPort, ExtractPorts) report the panic.
- Sessions.Session.GetTargetAddr: a route address must be dotted IPv4 to resolve; bracketed IPv6 text, which the
  source's parser accepts, is not modelled.
- Guards.NoLostWakeup: is about Pod contents. A lapsed entry frees capacity without a Pod event, so a blocked query is
  woken only by a Pod change, the watch's own expiry or its deadline.
- SocketTable.OwnedAlways: takes `upsert_multi_port`, `clear_all` and the sweep as single steps. UpsertOwnedExactly and
  ClearOwnedExactly say when a socket is lost inside the first two.
- Sessions.DataProxy.EstablishDefaultSession: takes reading the cache, the query and filling the cache as one step; in
  the source two first packets that both miss overwrite each other's cache entry.
- Sessions.SessionManager.SweepOnce: takes the two phases as one step; in the source a collected key is removed even if
  the session was touched or replaced since.
- Transport, tasks, JSON, RFC 3339 and YAML text: queries see parsed values, the annotation and its instants are
  read through functions of the configuration, the request parser is a parameter.
- Paths into a resource's metadata: `body` stands for the whole JSON document and is not tied to the labels and
  annotations of the same Pod, so a status path that reads a label is not affected by writing it.
- Writes that change nothing: a patch that sets a label to the value it has makes a new revision here, while an API
  server leaves the version of an unchanged object alone. No theorem depends on it.
- Text is treated as single-byte characters: byte offsets inside multi-byte characters are not modelled.
- Pods without a name or resource version: the API server always sets them.
- Configuration checks, metrics, logging and the resource monitor.
- Progress: no fairness of the lock or the watch is assumed, and none is proved.
- A default route replacing a query's: the proxy looks for a session and installs the default in separate steps, so it
  may; the protocol lets the proxy change any route at any time.
- The proxy's and the clean-up callback's balancers are different objects, so counts are not tied to live sessions;
  the balancer's bounds are about its own counts and are not lifted to the proxy, whose default cache reuses an address
  without selecting again.
- TCP forwarding, which uses the same lookup and default route.
- Overflow in the balancer is modelled as wrapping, as in a release build; a debug build panics instead.
- Counts above 64 bits and reference counts above machine width.
- `process_access` is one method in the source; here its one-pass evaluation is the method `Selection.Evaluate` and its
  suspension points are steps of `Protocol`, which decide by the function that method computes.
- Documentation and code: the query documentation promises that watch expiry leads to a fresh list; the model also
  lets a watch end at any time, as the code does.
