/**
 * The session table as a value: routes by client, the upstream sockets they own, and the runs of packets,
 * replies, route changes and clean-ups over it. `S` stands for socket identities.
 */
module SocketTable {
  import opened Wrappers
  import opened JsonPath
  import opened Backend

  datatype Address = Address(ip: string, port: Port)

  datatype SessionKey = LegacyIp(ip: string) | ExactSocket(address: Address)

  /** What a socket was created for: the client it answers, the proxy port and its listener, and the route. */
  datatype Origin = Origin(client: Address, proxyPort: Port, listener: nat, target: Target)

  /** A session's sockets are keyed by proxy port and client source port. */
  datatype Entry<+S> = Entry(target: Target, lastActivity: int, sockets: map<(Port, Port), S>)

  /** `created` remembers every socket ever created and `down` those told to stop. */
  datatype Table<!S(==)> = Table(sessions: map<SessionKey, Entry<S>>, created: map<S, Origin>, down: set<S>)

  predicate Octet(text: string) {
    && 1 <= |text| <= 3
    && (forall c :: c in text ==> IsDigit(c))
    && (text[0] == '0' ==> |text| == 1)
    && DigitsValue(text) <= 255
  }

  predicate IsIpv4(text: string) {
    var octets := Split(text);
    |octets| == 4 && forall i :: 0 <= i < 4 ==> Octet(octets[i])
  }

  /** The backend address a route gives a proxy port. */
  function Resolve(target: Target, proxyPort: Port, protocol: Protocol): Option<Address> {
    if (proxyPort, protocol) in target.ports && IsIpv4(target.address)
    then Some(Address(target.address, target.ports[(proxyPort, protocol)]))
    else None
  }

  /** Two-level lookup: the exact socket first, then the client's address. */
  function KeyFor<S(==)>(t: Table<S>, client: Address): Option<SessionKey> {
    if ExactSocket(client) in t.sessions then Some(ExactSocket(client))
    else if LegacyIp(client.ip) in t.sessions then Some(LegacyIp(client.ip))
    else None
  }

  // ----- the pieces of the operations, each under one guard -----

  /** Resolve the backend and get or create the socket; `made` is the socket a successful creation yields. */
  function Route<S(==)>(t: Table<S>, client: Address, proxyPort: Port, listener: nat, made: Option<S>)
    : (Table<S>, Option<(S, Address)>)
  {
    match KeyFor(t, client)
    case None => (t, None)
    case Some(key) =>
      var entry := t.sessions[key];
      match Resolve(entry.target, proxyPort, Udp)
      case None => (t, None)
      case Some(to) =>
        var slot := (proxyPort, client.port);
        if slot in entry.sockets then (t, Some((entry.sockets[slot], to)))
        else if made == None then (t, None)
        else
          (t.(sessions := t.sessions[key := entry.(sockets := entry.sockets[slot := made.value])],
              created := t.created[made.value := Origin(client, proxyPort, listener, entry.target)]),
           Some((made.value, to)))
  }

  /** A packet for which a session and backend exist but no socket yet. */
  predicate NeedsSocket<S(==)>(t: Table<S>, client: Address, proxyPort: Port) {
    && KeyFor(t, client).Some?
    && var entry := t.sessions[KeyFor(t, client).value];
       Resolve(entry.target, proxyPort, Udp).Some? && (proxyPort, client.port) !in entry.sockets
  }

  function Touch<S(==)>(t: Table<S>, client: Address, now: int): Table<S> {
    match KeyFor(t, client)
    case None => t
    case Some(key) => t.(sessions := t.sessions[key := t.sessions[key].(lastActivity := now)])
  }

  /** Stop the sockets of one session and forget them. */
  function ShutEntry<S(==)>(t: Table<S>, key: SessionKey): Table<S> {
    if key in t.sessions
    then t.(sessions := t.sessions[key := t.sessions[key].(sockets := map[])],
            down := t.down + t.sessions[key].sockets.Values)
    else t
  }

  function Replace<S(==)>(t: Table<S>, ip: string, target: Target, now: int): Table<S> {
    t.(sessions := t.sessions[LegacyIp(ip) := Entry(target, now, map[])])
  }

  function Remove<S(==)>(t: Table<S>, keys: set<SessionKey>): Table<S> {
    t.(sessions := t.sessions - keys)
  }

  // ----- the operations -----

  function Upsert<S(==)>(t: Table<S>, client: Address, target: Target, now: int): Table<S> {
    Replace(ShutEntry(t, LegacyIp(client.ip)), client.ip, target, now)
  }

  function Held<S(==)>(t: Table<S>, keys: set<SessionKey>): set<S> {
    set k, slot | k in t.sessions && k in keys && slot in t.sessions[k].sockets :: t.sessions[k].sockets[slot]
  }

  /** Remove sessions and stop their sockets. */
  function Evict<S(==)>(t: Table<S>, keys: set<SessionKey>): Table<S> {
    Remove(t, keys).(down := t.down + Held(t, keys))
  }

  function Expired<S(==)>(t: Table<S>, now: int, timeout: nat): (keys: set<SessionKey>)
    ensures forall k :: k in keys <==> k in t.sessions && now - t.sessions[k].lastActivity > timeout
  {
    set k | k in t.sessions && now - t.sessions[k].lastActivity > timeout
  }

  function Sweep<S(==)>(t: Table<S>, now: int, timeout: nat): Table<S> {
    Evict(t, Expired(t, now, timeout))
  }

  function Clear<S(==)>(t: Table<S>): Table<S> {
    Evict(t, t.sessions.Keys)
  }

  lemma EvictNone<S>(t: Table<S>)
    ensures Evict(t, {}) == t
  {
    assert t.sessions - {} == t.sessions;
  }

  lemma HeldMore<S>(t: Table<S>, keys: set<SessionKey>, key: SessionKey)
    requires key in t.sessions
    ensures Held(t, keys + {key}) == Held(t, keys) + t.sessions[key].sockets.Values
  {
    forall s | s in t.sessions[key].sockets.Values ensures s in Held(t, keys + {key}) {
      var slot :| slot in t.sessions[key].sockets && t.sessions[key].sockets[slot] == s;
      assert key in keys + {key};
    }
  }

  lemma EvictOne<S>(t: Table<S>, key: SessionKey)
    requires key in t.sessions
    ensures Evict(t, {key}) == t.(sessions := t.sessions - {key}, down := t.down + t.sessions[key].sockets.Values)
  {
    HeldMore(t, {}, key);
    assert {} + {key} == {key};
  }

  /** The table once the sockets of some sessions are stopped. */
  ghost function ShutKeys<S>(t: Table<S>, keys: set<SessionKey>): Table<S> {
    t.(sessions := map k | k in t.sessions :: if k in keys then t.sessions[k].(sockets := map[]) else t.sessions[k],
       down := t.down + Held(t, keys))
  }

  lemma ShutKeysNone<S>(t: Table<S>)
    ensures ShutKeys(t, {}) == t
  {
  }

  lemma ShutMore<S>(t: Table<S>, keys: set<SessionKey>, key: SessionKey)
    requires key in t.sessions && key !in keys
    ensures ShutEntry(ShutKeys(t, keys), key) == ShutKeys(t, keys + {key})
  {
    HeldMore(t, keys, key);
  }

  lemma EvictSpares<S>(t: Table<S>, keys: set<SessionKey>, key: SessionKey)
    requires key in t.sessions && key !in keys
    ensures key in Evict(t, keys).sessions && Evict(t, keys).sessions[key] == t.sessions[key]
  {
  }

  function KeysOf(keys: seq<SessionKey>): set<SessionKey> {
    set i | 0 <= i < |keys| :: keys[i]
  }

  lemma KeysOfNone(keys: seq<SessionKey>)
    ensures KeysOf(keys[..0]) == {}
  {
  }

  lemma KeysOfGrows(keys: seq<SessionKey>, i: nat)
    requires i < |keys|
    ensures KeysOf(keys[..i + 1]) == KeysOf(keys[..i]) + {keys[i]}
    ensures (forall j, k :: 0 <= j < k < |keys| ==> keys[j] != keys[k]) ==> keys[i] !in KeysOf(keys[..i])
  {
    assert keys[..i + 1] == keys[..i] + [keys[i]];
    assert KeysOf(keys[..i + 1]) <= KeysOf(keys[..i]) + {keys[i]};
    forall k | k in KeysOf(keys[..i]) + {keys[i]} ensures k in KeysOf(keys[..i + 1]) {
      assert k in keys[..i + 1];
    }
  }

  lemma KeysOfMembers(keys: seq<SessionKey>)
    ensures forall k :: k in KeysOf(keys) <==> k in keys
  {
  }

  /** Evicting session by session is evicting them all. */
  lemma EvictMore<S>(t: Table<S>, keys: set<SessionKey>, key: SessionKey)
    requires key in t.sessions && key !in keys
    ensures Evict(Evict(t, keys), {key}) == Evict(t, keys + {key})
  {
    HeldMore(t, keys, key);
    var t' := Evict(t, keys);
    assert t'.sessions[key] == t.sessions[key];
    HeldMore(t', {}, key);
    assert {} + {key} == {key};
    assert t'.sessions - {key} == t.sessions - (keys + {key});
  }

  // ----- what holds of a table -----

  ghost predicate EntryOk<S>(t: Table<S>, listener: Port -> nat, key: SessionKey) {
    key in t.sessions ==>
      && key.LegacyIp?
      && forall slot :: slot in t.sessions[key].sockets ==>
           var s := t.sessions[key].sockets[slot];
           s in t.created &&
           t.created[s] == Origin(Address(key.ip, slot.1), slot.0, listener(slot.0), t.sessions[key].target)
  }

  /** Sessions are keyed by address only; each socket sits where its origin says, on the route it was created for. */
  ghost predicate Consistent<S>(t: Table<S>, listener: Port -> nat) {
    forall key :: key in t.sessions ==> EntryOk(t, listener, key)
  }

  predicate Live<S(==)>(t: Table<S>, s: S) {
    s in t.created && s !in t.down
  }

  /** The slot of the table a socket's origin assigns to it holds the socket. */
  predicate InPlace<S(==)>(t: Table<S>, s: S)
    requires s in t.created
  {
    var o := t.created[s];
    && LegacyIp(o.client.ip) in t.sessions
    && (o.proxyPort, o.client.port) in t.sessions[LegacyIp(o.client.ip)].sockets
    && t.sessions[LegacyIp(o.client.ip)].sockets[(o.proxyPort, o.client.port)] == s
  }

  /** The live sockets are exactly those held by sessions. */
  ghost predicate Owned<S>(t: Table<S>, listener: Port -> nat) {
    && Consistent(t, listener)
    && (forall s :: s in t.created ==> (Live(t, s) <==> InPlace(t, s)))
  }

  /** Where a socket is found is where its origin says. */
  lemma FoundInPlace<S>(t: Table<S>, listener: Port -> nat, key: SessionKey, slot: (Port, Port))
    requires Consistent(t, listener) && key in t.sessions && slot in t.sessions[key].sockets
    ensures var s := t.sessions[key].sockets[slot];
            s in t.created && InPlace(t, s) && key == LegacyIp(t.created[s].client.ip)
            && slot == (t.created[s].proxyPort, t.created[s].client.port)
  {
    assert EntryOk(t, listener, key);
  }

  /**
   * Ownership spelled out: every live socket is in exactly one slot of exactly one session, every socket in a
   * slot is live, and live sockets are one-to-one with pairs of client address and proxy port.
   */
  lemma OwnershipMeans<S>(t: Table<S>, listener: Port -> nat)
    requires Owned(t, listener)
    ensures forall s :: s in t.created ==>
              (Live(t, s) <==> exists k, slot :: k in t.sessions && slot in t.sessions[k].sockets &&
                                                 t.sessions[k].sockets[slot] == s)
    ensures forall k, slot, k', slot' ::
              (k in t.sessions && slot in t.sessions[k].sockets && k' in t.sessions && slot' in t.sessions[k'].sockets
               && t.sessions[k].sockets[slot] == t.sessions[k'].sockets[slot']) ==> k == k' && slot == slot'
    ensures forall s, s' :: (s in t.created && s' in t.created && Live(t, s) && Live(t, s')
                               && t.created[s].client == t.created[s'].client
                               && t.created[s].proxyPort == t.created[s'].proxyPort) ==> s == s'
  {
    forall k, slot | k in t.sessions && slot in t.sessions[k].sockets
      ensures var s := t.sessions[k].sockets[slot];
              s in t.created && InPlace(t, s) && k == LegacyIp(t.created[s].client.ip)
              && slot == (t.created[s].proxyPort, t.created[s].client.port)
    {
      FoundInPlace(t, listener, k, slot);
    }
  }

  // ----- every operation keeps ownership -----

  lemma RouteConsistent<S>(t: Table<S>, listener: Port -> nat, client: Address, proxyPort: Port, made: Option<S>)
    requires Consistent(t, listener) && (made.Some? ==> made.value !in t.created)
    ensures Consistent(Route(t, client, proxyPort, listener(proxyPort), made).0, listener)
  {
    hide Resolve;
    var t' := Route(t, client, proxyPort, listener(proxyPort), made).0;
    forall key | key in t'.sessions ensures EntryOk(t', listener, key) {
      assert EntryOk(t, listener, key);
      assert forall k :: k in t.sessions ==> EntryOk(t, listener, k);
    }
  }

  lemma RouteOwned<S>(t: Table<S>, listener: Port -> nat, client: Address, proxyPort: Port, made: Option<S>)
    requires Owned(t, listener) && (made.Some? ==> made.value !in t.created && made.value !in t.down)
    ensures Owned(Route(t, client, proxyPort, listener(proxyPort), made).0, listener)
  {
    hide Resolve, EntryOk;
    var t' := Route(t, client, proxyPort, listener(proxyPort), made).0;
    RouteConsistent(t, listener, client, proxyPort, made);
    if t' != t {
      KeyIsLegacy(t, listener, client);
      forall s | s in t'.created ensures Live(t', s) <==> InPlace(t', s) {
        if s in t.created {
          assert Live(t, s) <==> InPlace(t, s);
        }
      }
    }
  }

  lemma KeyIsLegacy<S>(t: Table<S>, listener: Port -> nat, client: Address)
    requires Consistent(t, listener)
    ensures KeyFor(t, client) == if LegacyIp(client.ip) in t.sessions then Some(LegacyIp(client.ip)) else None
  {
    assert ExactSocket(client) in t.sessions ==> EntryOk(t, listener, ExactSocket(client));
  }

  lemma TouchOwned<S>(t: Table<S>, listener: Port -> nat, client: Address, now: int)
    requires Consistent(t, listener)
    ensures Consistent(Touch(t, client, now), listener)
    ensures Owned(t, listener) ==> Owned(Touch(t, client, now), listener)
  {
    var t' := Touch(t, client, now);
    forall key | key in t'.sessions ensures EntryOk(t', listener, key) {
      assert EntryOk(t, listener, key);
    }
    if Owned(t, listener) {
      forall s | s in t'.created ensures Live(t', s) <==> InPlace(t', s) {
        assert Live(t, s) <==> InPlace(t, s);
      }
    }
  }

  lemma ShutEntryOwned<S>(t: Table<S>, listener: Port -> nat, key: SessionKey)
    requires Consistent(t, listener)
    ensures Consistent(ShutEntry(t, key), listener)
    ensures Owned(t, listener) ==> Owned(ShutEntry(t, key), listener)
  {
    var t' := ShutEntry(t, key);
    forall k | k in t'.sessions ensures EntryOk(t', listener, k) {
      assert EntryOk(t, listener, k);
    }
    if Owned(t, listener) {
      forall s | s in t'.created ensures Live(t', s) <==> InPlace(t', s) {
        StopsItsSockets(t, listener, key, s);
      }
    }
  }

  lemma StopsItsSockets<S>(t: Table<S>, listener: Port -> nat, key: SessionKey, s: S)
    requires Owned(t, listener) && s in t.created
    ensures Live(ShutEntry(t, key), s) <==> InPlace(ShutEntry(t, key), s)
  {
    assert Live(t, s) <==> InPlace(t, s);
    if key in t.sessions && s in t.sessions[key].sockets.Values {
      var slot :| slot in t.sessions[key].sockets && t.sessions[key].sockets[slot] == s;
      FoundInPlace(t, listener, key, slot);
    }
  }

  /**
   * Replacing a session keeps ownership exactly when the session replaced holds no socket at that moment.
   * A socket created between an upsert's two guards would be left live and in no session.
   */
  lemma ReplaceOwnedExactly<S>(t: Table<S>, listener: Port -> nat, ip: string, target: Target, now: int)
    requires Owned(t, listener)
    ensures Owned(Replace(t, ip, target, now), listener) <==>
            (LegacyIp(ip) in t.sessions ==> t.sessions[LegacyIp(ip)].sockets == map[])
  {
    var t' := Replace(t, ip, target, now);
    var key := LegacyIp(ip);
    forall k | k in t'.sessions ensures EntryOk(t', listener, k) {
      assert EntryOk(t, listener, k);
    }
    if key in t.sessions && t.sessions[key].sockets != map[] {
      var slot :| slot in t.sessions[key].sockets;
      FoundInPlace(t, listener, key, slot);
      var s := t.sessions[key].sockets[slot];
      assert Live(t', s) && !InPlace(t', s);
    } else {
      forall s | s in t'.created ensures Live(t', s) <==> InPlace(t', s) {
        assert Live(t, s) <==> InPlace(t, s);
      }
    }
  }

  lemma UpsertOwned<S>(t: Table<S>, listener: Port -> nat, client: Address, target: Target, now: int)
    requires Owned(t, listener)
    ensures Owned(Upsert(t, client, target, now), listener)
  {
    hide Owned;
    ShutEntryOwned(t, listener, LegacyIp(client.ip)) by { OwnedIsConsistent(t, listener); }
    ReplaceOwnedExactly(ShutEntry(t, LegacyIp(client.ip)), listener, client.ip, target, now);
  }

  lemma OwnedIsConsistent<S>(t: Table<S>, listener: Port -> nat)
    requires Owned(t, listener)
    ensures Consistent(t, listener)
  {
  }

  lemma RemoveConsistent<S>(t: Table<S>, listener: Port -> nat, keys: set<SessionKey>, down: set<S>)
    requires Consistent(t, listener)
    ensures Consistent(Remove(t, keys).(down := down), listener)
  {
    var t' := Remove(t, keys).(down := down);
    forall k | k in t'.sessions ensures EntryOk(t', listener, k) {
      assert EntryOk(t, listener, k);
    }
  }

  lemma EvictOwned<S>(t: Table<S>, listener: Port -> nat, keys: set<SessionKey>)
    requires Owned(t, listener)
    ensures Owned(Evict(t, keys), listener)
  {
    var t' := Evict(t, keys);
    RemoveConsistent(t, listener, keys, t'.down);
    forall s | s in t'.created ensures Live(t', s) <==> InPlace(t', s) {
      assert Live(t, s) <==> InPlace(t, s);
      if s in Held(t, keys) {
        var k, slot :| k in keys && k in t.sessions && slot in t.sessions[k].sockets &&
                       t.sessions[k].sockets[slot] == s;
        FoundInPlace(t, listener, k, slot);
      }
    }
  }

  // ----- runs -----

  /** A packet on its way: who sent it to which proxy port, the socket it leaves by and the backend. */
  datatype Flow<+S> = Flow(from: Address, proxyPort: Port, socket: S, to: Address)

  /** A backend reply handed to a client through a listener. */
  datatype Delivery<+S> = Delivery(socket: S, listener: nat, client: Address)

  /** `handed` are the packets whose guard has been released, `sent` those that have left. */
  datatype World<!S(==)> = World(table: Table<S>, handed: seq<Flow<S>>, sent: seq<Flow<S>>, delivered: seq<Delivery<S>>)

  /** `ShutPart`, `ReplacePart`, `RemovePart` and `StopPart` are the pieces other tasks can see of the operations. */
  datatype Step<+S> =
    | Packet(client: Address, proxyPort: Port, made: Option<S>)
    | Send(i: nat)
    | Reply(socket: S)
    | TouchSession(client: Address, now: int)
    | UpsertRoute(client: Address, target: Target, now: int)
    | SweepOnce(now: int, timeout: nat)
    | ClearAll
    | ShutPart(key: SessionKey)
    | ReplacePart(ip: string, target: Target, now: int)
    | RemovePart(key: SessionKey)
    | StopPart(socket: S)

  predicate Whole<S(==)>(step: Step<S>) {
    !step.ShutPart? && !step.ReplacePart? && !step.RemovePart? && !step.StopPart?
  }

  predicate Possible<S(==)>(w: World<S>, step: Step<S>) {
    match step
    case Packet(_, _, made) => made.Some? ==> made.value !in w.table.created && made.value !in w.table.down
    case Send(i) => i < |w.handed|
    case Reply(s) => s in w.table.created
    case _ => true
  }

  function Next<S(==)>(w: World<S>, listener: Port -> nat, step: Step<S>): World<S>
    requires Possible(w, step)
  {
    match step
    case Packet(client, proxyPort, made) =>
      var (table, route) := Route(w.table, client, proxyPort, listener(proxyPort), made);
      w.(table := table,
         handed := match route
                   case None => w.handed
                   case Some((s, to)) => w.handed + [Flow(client, proxyPort, s, to)])
    case Send(i) => w.(sent := w.sent + [w.handed[i]])
    case Reply(s) =>
      w.(delivered := w.delivered + [Delivery(s, w.table.created[s].listener, w.table.created[s].client)])
    case TouchSession(client, now) => w.(table := Touch(w.table, client, now))
    case UpsertRoute(client, target, now) => w.(table := Upsert(w.table, client, target, now))
    case SweepOnce(now, timeout) => w.(table := Sweep(w.table, now, timeout))
    case ClearAll => w.(table := Clear(w.table))
    case ShutPart(key) => w.(table := ShutEntry(w.table, key))
    case ReplacePart(ip, target, now) => w.(table := Replace(w.table, ip, target, now))
    case RemovePart(key) => w.(table := Remove(w.table, {key}))
    case StopPart(s) => w.(table := w.table.(down := w.table.down + {s}))
  }

  ghost predicate Runs<S>(listener: Port -> nat, steps: seq<Step<S>>, w: World<S>)
    decreases |steps|, 0
  {
    steps == [] ||
    (var n := |steps| - 1;
     Runs(listener, steps[..n], w) && Possible(End(listener, steps[..n], w), steps[n]))
  }

  /** The world a run ends in. */
  ghost function End<S>(listener: Port -> nat, steps: seq<Step<S>>, w: World<S>): World<S>
    requires Runs(listener, steps, w)
    decreases |steps|, 1
  {
    if steps == [] then w
    else
      var n := |steps| - 1;
      Next(End(listener, steps[..n], w), listener, steps[n])
  }

  function Empty<S(==)>(): World<S> {
    World(Table(map[], map[], {}), [], [], [])
  }

  ghost predicate FlowOk<S>(t: Table<S>, flow: Flow<S>) {
    && flow.socket in t.created
    && t.created[flow.socket].client == flow.from && t.created[flow.socket].proxyPort == flow.proxyPort
    && Resolve(t.created[flow.socket].target, flow.proxyPort, Udp) == Some(flow.to)
  }

  ghost predicate DeliveryOk<S>(t: Table<S>, listener: Port -> nat, d: Delivery<S>) {
    && d.socket in t.created
    && d.client == t.created[d.socket].client && d.listener == listener(t.created[d.socket].proxyPort)
  }

  ghost predicate OriginsOk<S>(t: Table<S>, listener: Port -> nat) {
    forall s :: s in t.created ==> t.created[s].listener == listener(t.created[s].proxyPort)
  }

  ghost predicate WorldOk<S>(w: World<S>, listener: Port -> nat) {
    && Consistent(w.table, listener) && OriginsOk(w.table, listener)
    && (forall f :: f in w.handed + w.sent ==> FlowOk(w.table, f))
    && (forall d :: d in w.delivered ==> DeliveryOk(w.table, listener, d))
  }

  /** What a guard hands out fits the origin of the socket, whether the socket is old or new. */
  lemma HandedFlowOk<S>(t: Table<S>, listener: Port -> nat, client: Address, proxyPort: Port, made: Option<S>)
    requires Consistent(t, listener) && (made.Some? ==> made.value !in t.created)
    ensures var (t', route) := Route(t, client, proxyPort, listener(proxyPort), made);
            route.Some? ==> FlowOk(t', Flow(client, proxyPort, route.value.0, route.value.1))
  {
    hide Resolve;
    KeyIsLegacy(t, listener, client);
    if LegacyIp(client.ip) in t.sessions {
      assert EntryOk(t, listener, LegacyIp(client.ip));
    }
  }

  lemma OriginsGrow<S>(w: World<S>, listener: Port -> nat, step: Step<S>)
    requires Possible(w, step)
    ensures forall s :: s in w.table.created ==>
              s in Next(w, listener, step).table.created &&
              Next(w, listener, step).table.created[s] == w.table.created[s]
  {
    hide Resolve, KeyFor;
  }

  lemma ListenersKept<S>(w: World<S>, listener: Port -> nat, step: Step<S>)
    requires Possible(w, step) && OriginsOk(w.table, listener)
    ensures OriginsOk(Next(w, listener, step).table, listener)
  {
    hide Resolve, KeyFor;
  }

  lemma StepConsistent<S>(w: World<S>, listener: Port -> nat, step: Step<S>)
    requires Possible(w, step) && Consistent(w.table, listener)
    ensures Consistent(Next(w, listener, step).table, listener)
  {
    hide Consistent, Route, Touch;
    var t := w.table;
    match step {
      case Packet(client, proxyPort, made) => RouteConsistent(t, listener, client, proxyPort, made);
      case TouchSession(client, now) => TouchOwned(t, listener, client, now);
      case UpsertRoute(client, target, now) =>
        ShutEntryOwned(t, listener, LegacyIp(client.ip));
        ReplaceConsistent(ShutEntry(t, LegacyIp(client.ip)), listener, client.ip, target, now);
      case SweepOnce(now, timeout) =>
        RemoveConsistent(t, listener, Expired(t, now, timeout), Sweep(t, now, timeout).down);
      case ClearAll => RemoveConsistent(t, listener, t.sessions.Keys, Clear(t).down);
      case ShutPart(key) => ShutEntryOwned(t, listener, key);
      case ReplacePart(ip, target, now) => ReplaceConsistent(t, listener, ip, target, now);
      case RemovePart(key) => RemoveConsistent(t, listener, {key}, t.down);
      case StopPart(s) => RemoveConsistent(t, listener, {}, t.down + {s});
        assert t.sessions - {} == t.sessions;
      case _ =>
    }
  }

  lemma ReplaceConsistent<S>(t: Table<S>, listener: Port -> nat, ip: string, target: Target, now: int)
    requires Consistent(t, listener)
    ensures Consistent(Replace(t, ip, target, now), listener)
  {
    var t' := Replace(t, ip, target, now);
    forall k | k in t'.sessions ensures EntryOk(t', listener, k) {
      assert EntryOk(t, listener, k);
    }
  }

  lemma WorldKept<S>(w: World<S>, listener: Port -> nat, step: Step<S>)
    requires Possible(w, step) && WorldOk(w, listener)
    ensures WorldOk(Next(w, listener, step), listener)
  {
    hide Consistent, Resolve;
    var w' := Next(w, listener, step);
    StepConsistent(w, listener, step);
    OriginsGrow(w, listener, step);
    ListenersKept(w, listener, step);
    if step.Packet? {
      HandedFlowOk(w.table, listener, step.client, step.proxyPort, step.made);
    }
    forall f | f in w'.handed + w'.sent ensures FlowOk(w'.table, f) {
      if f in w.handed + w.sent {
        assert FlowOk(w.table, f);
      }
    }
    forall d | d in w'.delivered ensures DeliveryOk(w'.table, listener, d) {
      if d in w.delivered {
        assert DeliveryOk(w.table, listener, d);
      }
    }
  }

  lemma {:induction false} WorldAlways<S>(listener: Port -> nat, steps: seq<Step<S>>)
    requires Runs(listener, steps, Empty<S>())
    ensures WorldOk(End(listener, steps, Empty()), listener)
    decreases |steps|
  {
    hide WorldOk, Next, Possible;
    if steps == [] {
      EmptyOk<S>(listener);
    } else {
      var n := |steps| - 1;
      WorldAlways(listener, steps[..n]);
      WorldKept(End(listener, steps[..n], Empty()), listener, steps[n]);
    }
  }

  lemma EmptyOk<S>(listener: Port -> nat)
    ensures WorldOk(Empty<S>(), listener) && Owned(Empty<S>().table, listener)
  {
  }

  /**
   * Over every run, including those in which other tasks act between the guards of one operation: all packets
   * leaving by one socket come from one client and proxy port and go to one backend, and every reply on that
   * socket goes to that client through that proxy port's listener.
   */
  lemma FlowIsolation<S>(listener: Port -> nat, steps: seq<Step<S>>)
    requires Runs(listener, steps, Empty<S>())
    ensures
      var w := End(listener, steps, Empty());
      && (forall f, g :: f in w.sent && g in w.sent && f.socket == g.socket ==> f == g)
      && (forall f, d :: f in w.sent && d in w.delivered && f.socket == d.socket ==>
            d.client == f.from && d.listener == listener(f.proxyPort))
  {
    hide Consistent, Resolve;
    WorldAlways(listener, steps);
    var w := End(listener, steps, Empty());
    forall f | f in w.sent ensures FlowOk(w.table, f) {
      assert f in w.handed + w.sent;
    }
  }

  lemma OwnedKept<S>(w: World<S>, listener: Port -> nat, step: Step<S>)
    requires Possible(w, step) && (Whole(step) || step.ShutPart?) && Owned(w.table, listener)
    ensures Owned(Next(w, listener, step).table, listener)
  {
    hide Owned, Route, Touch, Upsert, Evict;
    var t := w.table;
    OwnedIsConsistent(t, listener);
    match step {
      case Packet(client, proxyPort, made) => RouteOwned(t, listener, client, proxyPort, made);
      case TouchSession(client, now) => TouchOwned(t, listener, client, now);
      case UpsertRoute(client, target, now) => UpsertOwned(t, listener, client, target, now);
      case SweepOnce(now, timeout) => EvictOwned(t, listener, Expired(t, now, timeout));
      case ClearAll => EvictOwned(t, listener, t.sessions.Keys);
      case ShutPart(key) => ShutEntryOwned(t, listener, key);
      case _ =>
    }
  }

  /** Ownership is kept from any owned table on, and stopped sockets stay stopped. */
  lemma {:induction false} OwnedAlong<S>(listener: Port -> nat, steps: seq<Step<S>>, w: World<S>)
    requires Runs(listener, steps, w) && Owned(w.table, listener)
    requires forall i :: 0 <= i < |steps| ==> Whole(steps[i]) || steps[i].ShutPart?
    ensures Owned(End(listener, steps, w).table, listener)
    ensures w.table.down <= End(listener, steps, w).table.down
    decreases |steps|
  {
    hide Owned, Next, Possible, Whole;
    if steps != [] {
      var n := |steps| - 1;
      OwnedAlong(listener, steps[..n], w);
      OwnedKept(End(listener, steps[..n], w), listener, steps[n]);
      DownGrows(End(listener, steps[..n], w), listener, steps[n]);
    }
  }

  lemma DownGrows<S>(w: World<S>, listener: Port -> nat, step: Step<S>)
    requires Possible(w, step)
    ensures w.table.down <= Next(w, listener, step).table.down
  {
    hide Resolve, KeyFor, Held;
  }

  /** With every operation atomic, the live sockets are exactly those held by sessions in every reachable table. */
  lemma OwnedAlways<S>(listener: Port -> nat, steps: seq<Step<S>>)
    requires Runs(listener, steps, Empty<S>()) && forall i :: 0 <= i < |steps| ==> Whole(steps[i])
    ensures Owned(End(listener, steps, Empty()).table, listener)
  {
    hide Owned, Runs, Whole;
    EmptyOk<S>(listener);
    OwnedAlong(listener, steps, Empty());
  }

  /**
   * Migration: after a route change every client behind that address leaves by a socket that no packet ever
   * used before, to the new backend; all its former sockets are down.
   */
  lemma MigrationStartsAfresh<S>(listener: Port -> nat, steps: seq<Step<S>>, moved: Address, target: Target, now: int,
                                 client: Address, proxyPort: Port, made: Option<S>)
    requires Runs(listener, steps, Empty<S>()) && client.ip == moved.ip
    requires var w := End(listener, steps, Empty());
             made.Some? ==> made.value !in w.table.created && made.value !in w.table.down
    ensures
      var w := End(listener, steps, Empty());
      var (t', route) := Route(Upsert(w.table, moved, target, now), client, proxyPort, listener(proxyPort), made);
      && (route.Some? <==> made.Some? && Resolve(target, proxyPort, Udp).Some?)
      && (route.Some? ==>
            && Resolve(target, proxyPort, Udp) == Some(route.value.1)
            && forall f :: f in w.handed + w.sent ==> f.socket != route.value.0)
      && ((forall i :: 0 <= i < |steps| ==> Whole(steps[i])) ==>
            forall s :: s in w.table.created && w.table.created[s].client.ip == moved.ip ==> s in t'.down)
  {
    hide Resolve, Runs;
    var w := End(listener, steps, Empty());
    WorldAlways(listener, steps);
    var t := Upsert(w.table, moved, target, now);
    KeyAfterUpsert(w.table, listener, moved, target, now, client);
    forall f | f in w.handed + w.sent ensures f.socket in w.table.created {
      assert FlowOk(w.table, f);
    }
    if forall i :: 0 <= i < |steps| ==> Whole(steps[i]) {
      OwnedAlways(listener, steps);
      UpsertStopsAll(w.table, listener, moved, target, now);
    }
  }

  lemma KeyAfterUpsert<S>(t: Table<S>, listener: Port -> nat, moved: Address, target: Target, now: int, client: Address)
    requires Consistent(t, listener) && client.ip == moved.ip
    ensures var t' := Upsert(t, moved, target, now);
            && KeyFor(t', client) == Some(LegacyIp(moved.ip))
            && t'.sessions[LegacyIp(moved.ip)] == Entry(target, now, map[])
  {
    KeyIsLegacy(t, listener, client);
    assert ExactSocket(client) in t.sessions ==> EntryOk(t, listener, ExactSocket(client));
  }

  lemma UpsertStopsAll<S>(t: Table<S>, listener: Port -> nat, moved: Address, target: Target, now: int)
    requires Owned(t, listener)
    ensures forall s :: s in t.created && t.created[s].client.ip == moved.ip ==> s in Upsert(t, moved, target, now).down
  {
    forall s | s in t.created && t.created[s].client.ip == moved.ip ensures s in Upsert(t, moved, target, now).down {
      assert Live(t, s) <==> InPlace(t, s);
    }
  }

  // ----- between the two guards of an upsert -----

  /** A live socket of the address that the earlier table did not know. */
  predicate OpenedSince<S(==)>(before: Table<S>, after: Table<S>, ip: string, s: S) {
    s in after.created && s !in before.created && after.created[s].client.ip == ip && s !in after.down
  }

  lemma ShutLeavesNoneLive<S>(t: Table<S>, listener: Port -> nat, ip: string)
    requires Owned(t, listener)
    ensures var t' := ShutEntry(t, LegacyIp(ip));
            && Owned(t', listener) && t'.created == t.created
            && forall s :: s in t.created && t.created[s].client.ip == ip ==> s in t'.down
  {
    ShutEntryOwned(t, listener, LegacyIp(ip));
    forall s | s in t.created && t.created[s].client.ip == ip ensures s in ShutEntry(t, LegacyIp(ip)).down {
      assert Live(t, s) <==> InPlace(t, s);
    }
  }

  /**
   * Whatever whole operations other tasks complete between the guards of an upsert, the upsert ends with
   * ownership intact exactly when no socket of its address that was opened in between is still live.
   */
  lemma UpsertOwnedExactly<S>(listener: Port -> nat, w: World<S>, between: seq<Step<S>>, ip: string, target: Target,
                              now: int)
    requires Owned(w.table, listener)
    requires var shut := w.(table := ShutEntry(w.table, LegacyIp(ip)));
             && Runs(listener, between, shut)
             && forall i :: 0 <= i < |between| ==> Whole(between[i]) || between[i].ShutPart?
    ensures
      var end := End(listener, between, w.(table := ShutEntry(w.table, LegacyIp(ip)))).table;
      Owned(Replace(end, ip, target, now), listener) <==>
      forall s :: s in end.created ==> !OpenedSince(w.table, end, ip, s)
  {
    hide Owned, Consistent, InPlace, Runs, Whole;
    var shut := w.(table := ShutEntry(w.table, LegacyIp(ip)));
    ShutLeavesNoneLive(w.table, listener, ip);
    OwnedAlong(listener, between, shut);
    var end := End(listener, between, shut).table;
    ReplaceOwnedExactly(end, listener, ip, target, now);
    OriginsStay(listener, between, shut);
    EmptyExactly(end, listener, ip);
  }

  lemma {:induction false} OriginsStay<S>(listener: Port -> nat, steps: seq<Step<S>>, w: World<S>)
    requires Runs(listener, steps, w)
    ensures forall s :: s in w.table.created ==>
              s in End(listener, steps, w).table.created &&
              End(listener, steps, w).table.created[s] == w.table.created[s]
    decreases |steps|
  {
    hide Next, Possible;
    if steps != [] {
      var n := |steps| - 1;
      OriginsStay(listener, steps[..n], w);
      OriginsGrow(End(listener, steps[..n], w), listener, steps[n]);
    }
  }

  /** A session holds no socket exactly when no live socket belongs to its address. */
  lemma EmptyExactly<S>(t: Table<S>, listener: Port -> nat, ip: string)
    requires Owned(t, listener)
    ensures (LegacyIp(ip) in t.sessions ==> t.sessions[LegacyIp(ip)].sockets == map[]) <==>
            forall s :: s in t.created && t.created[s].client.ip == ip ==> s in t.down
  {
    forall s | s in t.created ensures Live(t, s) <==> InPlace(t, s) {
    }
    if LegacyIp(ip) in t.sessions && t.sessions[LegacyIp(ip)].sockets != map[] {
      var slot :| slot in t.sessions[LegacyIp(ip)].sockets;
      FoundInPlace(t, listener, LegacyIp(ip), slot);
    }
  }

  /**
   * Dropping all sessions, the last part of clearing, ends with ownership intact exactly when no socket is live at
   * that moment, whatever the stop pass and other tasks did before it.
   */
  lemma ClearOwnedExactly<S>(listener: Port -> nat, w: World<S>, before: seq<Step<S>>)
    requires Owned(w.table, listener) && Runs(listener, before, w)
    requires forall i :: 0 <= i < |before| ==> Whole(before[i]) || before[i].ShutPart?
    ensures var t := End(listener, before, w).table;
            Owned(Remove(t, t.sessions.Keys), listener) <==> forall s :: s in t.created ==> s in t.down
  {
    hide Owned, Consistent, InPlace, Runs, Whole;
    OwnedAlong(listener, before, w);
    RemoveAllExactly(End(listener, before, w).table, listener);
  }

  lemma RemoveAllExactly<S>(t: Table<S>, listener: Port -> nat)
    requires Owned(t, listener)
    ensures Owned(Remove(t, t.sessions.Keys), listener) <==> forall s :: s in t.created ==> s in t.down
  {
    var t' := Remove(t, t.sessions.Keys);
    assert t'.sessions == map[];
    assert forall s :: s in t'.created ==> !InPlace(t', s);
  }

  /** The run: a route, the first half of its replacement, a packet that opens a socket, the second half. */
  function OrphanSteps<S>(client: Address, proxyPort: Port, target: Target, s: S): seq<Step<S>> {
    [UpsertRoute(client, target, 0), ShutPart(LegacyIp(client.ip)), Packet(client, proxyPort, Some(s)),
     ReplacePart(client.ip, target, 0)]
  }

  lemma RunExtends<S>(listener: Port -> nat, steps: seq<Step<S>>, w: World<S>, step: Step<S>)
    requires Runs(listener, steps, w) && Possible(End(listener, steps, w), step)
    ensures Runs(listener, steps + [step], w)
    ensures End(listener, steps + [step], w) == Next(End(listener, steps, w), listener, step)
  {
    hide Next, Possible;
    assert (steps + [step])[..|steps|] == steps;
  }

  /** What the first three steps of that run leave. */
  lemma OrphanBeforeReplace<S>(listener: Port -> nat, client: Address, proxyPort: Port, target: Target, s: S)
    requires Resolve(target, proxyPort, Udp).Some?
    ensures
      var steps := OrphanSteps(client, proxyPort, target, s)[..3];
      && Runs(listener, steps, Empty<S>())
      && End(listener, steps, Empty()).table.created
         == map[s := Origin(client, proxyPort, listener(proxyPort), target)]
      && End(listener, steps, Empty()).table.down == {}
  {
    hide Resolve, Runs, End;
    var key := LegacyIp(client.ip);
    var none: seq<Step<S>> := [];
    NoSteps(listener, Empty<S>());
    RunExtends(listener, none, Empty(), UpsertRoute(client, target, 0));
    var one := none + [UpsertRoute(client, target, 0)];
    assert End(listener, one, Empty()).table.sessions == map[key := Entry(target, 0, map[])];
    RunExtends(listener, one, Empty(), ShutPart(key));
    var two := one + [ShutPart(key)];
    assert End(listener, two, Empty()).table.sessions == map[key := Entry(target, 0, map[])];
    RunExtends(listener, two, Empty(), Packet(client, proxyPort, Some(s)));
    assert OrphanSteps(client, proxyPort, target, s)[..3] == two + [Packet(client, proxyPort, Some(s))];
  }

  lemma NoSteps<S>(listener: Port -> nat, w: World<S>)
    ensures Runs(listener, [], w) && End(listener, [], w) == w
  {
  }

  /** After it the socket is live and in no session. */
  lemma OrphanedSocket<S>(listener: Port -> nat, client: Address, proxyPort: Port, target: Target, s: S)
    requires Resolve(target, proxyPort, Udp).Some?
    ensures
      var steps := OrphanSteps(client, proxyPort, target, s);
      && Runs(listener, steps, Empty<S>())
      && var t := End(listener, steps, Empty()).table;
      && s in t.created && Live(t, s) && !InPlace(t, s) && !Owned(t, listener)
  {
    hide Resolve, Owned, Runs, End;
    OrphanBeforeReplace(listener, client, proxyPort, target, s);
    var three := OrphanSteps(client, proxyPort, target, s)[..3];
    RunExtends(listener, three, Empty(), ReplacePart(client.ip, target, 0));
    assert OrphanSteps(client, proxyPort, target, s) == three + [ReplacePart(client.ip, target, 0)];
    LiveButLost(End(listener, OrphanSteps(client, proxyPort, target, s), Empty()).table, listener, s);
  }

  /** The same packet between the two parts of a clearing: the session is dropped and the socket stays live. */
  lemma OrphanedByClear<S>(listener: Port -> nat, client: Address, proxyPort: Port, target: Target, s: S)
    requires Resolve(target, proxyPort, Udp).Some?
    ensures
      var steps := OrphanSteps(client, proxyPort, target, s)[..3] + [RemovePart(LegacyIp(client.ip))];
      && Runs(listener, steps, Empty<S>())
      && var t := End(listener, steps, Empty()).table;
      && s in t.created && Live(t, s) && !InPlace(t, s) && !Owned(t, listener)
  {
    hide Resolve, Owned, Runs, End;
    OrphanBeforeReplace(listener, client, proxyPort, target, s);
    var three := OrphanSteps(client, proxyPort, target, s)[..3];
    RunExtends(listener, three, Empty(), RemovePart(LegacyIp(client.ip)));
    LiveButLost(End(listener, three + [RemovePart(LegacyIp(client.ip))], Empty()).table, listener, s);
  }

  lemma LiveButLost<S>(t: Table<S>, listener: Port -> nat, s: S)
    requires s in t.created && Live(t, s) && !InPlace(t, s)
    ensures !Owned(t, listener)
  {
  }

  lemma OnesSplit()
    ensures Split("1.1.1.1") == ["1", "1", "1", "1"]
  {
    hide Split;
    SplitSingle("1");
    assert "1" + "." + "1" == "1.1" && "1" + "." + "1.1" == "1.1.1" && "1" + "." + "1.1.1" == "1.1.1.1";
    SplitJoins("1", "1");
    SplitJoins("1", "1.1");
    SplitJoins("1", "1.1.1");
  }

  lemma OneIsOctet()
    ensures Octet("1")
  {
    assert "1"[..0] == "";
    assert DigitsValue("") == 0;
  }

  /** A route that resolves, so that the run above exists. */
  lemma SomeRouteResolves()
    ensures Resolve(Target("1.1.1.1", map[(7777, Udp) := 9000]), 7777, Udp) == Some(Address("1.1.1.1", 9000))
  {
    hide Split, Octet;
    OnesSplit();
    OneIsOctet();
  }
}
