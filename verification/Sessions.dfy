/** Sessions and their upstream sockets as mutable objects; each method is tied to the table it stands for. */
module Sessions {
  import opened Wrappers
  import opened Backend
  import opened SocketTable
  import Balancing = LoadBalancer

  datatype Received = Replied | Silent | Failed

  /** A dedicated upstream socket with what its receive task captured. `target` is the route it was opened on. */
  class SessionSocket {
    const client: Address
    const proxyPort: Port
    const listener: nat
    ghost const target: Target
    var shutdown: bool

    constructor (client: Address, proxyPort: Port, listener: nat, ghost target: Target)
      ensures this.client == client && this.proxyPort == proxyPort && this.listener == listener && this.target == target
      ensures !shutdown
    {
      this.client, this.proxyPort, this.listener, this.target := client, proxyPort, listener, target;
      shutdown := false;
    }

    ghost function Created(): Origin {
      Origin(client, proxyPort, listener, target)
    }

    method Shutdown()
      modifies this
      ensures shutdown
    {
      shutdown := true;
    }

    /**
     * One turn of the receive task: a stopped socket or a receive error ends it, a second of silence does nothing,
     * and a reply goes to the captured client through the captured listener.
     */
    method ReceiveOnce(received: Received) returns (ended: bool, forwarded: Option<(nat, Address)>)
      ensures ended <==> shutdown || received == Failed
      ensures forwarded == if shutdown || received != Replied then None
                           else Some((Created().listener, Created().client))
    {
      if shutdown {
        return true, None;
      }
      match received {
        case Replied => return false, Some((listener, client));
        case Failed => return true, None;
        case Silent => return false, None;
      }
    }
  }

  class Session {
    const target: Target
    var lastActivity: int
    var sockets: map<(Port, Port), SessionSocket>

    constructor (target: Target, now: int)
      ensures this.target == target && lastActivity == now && sockets == map[]
    {
      this.target := target;
      lastActivity := now;
      sockets := map[];
    }

    ghost function Value(): Entry<SessionSocket>
      reads this
    {
      Entry(target, lastActivity, sockets)
    }

    method GetTargetAddr(proxyPort: Port, protocol: Protocol) returns (to: Option<Address>)
      ensures to == Resolve(target, proxyPort, protocol)
    {
      if (proxyPort, protocol) !in target.ports || !IsIpv4(target.address) {
        return None;
      }
      return Some(Address(target.address, target.ports[(proxyPort, protocol)]));
    }

    /** `canBind` tells whether the system grants a new socket. */
    method GetOrCreateUdpSocket(proxyPort: Port, client: Address, listener: nat, canBind: bool)
      returns (socket: Option<SessionSocket>)
      modifies this`sockets
      ensures (proxyPort, client.port) in old(sockets) ==>
                socket == Some(old(sockets)[(proxyPort, client.port)]) && sockets == old(sockets)
      ensures (proxyPort, client.port) !in old(sockets) && !canBind ==> socket == None && sockets == old(sockets)
      ensures (proxyPort, client.port) !in old(sockets) && canBind ==>
                && socket.Some? && fresh(socket.value) && !socket.value.shutdown
                && socket.value.Created() == Origin(client, proxyPort, listener, target)
                && sockets == old(sockets)[(proxyPort, client.port) := socket.value]
    {
      var key := (proxyPort, client.port);
      if key in sockets {
        return Some(sockets[key]);
      }
      if !canBind {
        return None;
      }
      var made := new SessionSocket(client, proxyPort, listener, target);
      sockets := sockets[key := made];
      return Some(made);
    }

    method ShutdownSockets()
      modifies this`sockets, sockets.Values
      ensures sockets == map[]
      ensures forall s :: s in old(sockets).Values ==> s.shutdown
    {
      var keys := sockets.Keys;
      while keys != {}
        invariant sockets == old(sockets) && keys <= sockets.Keys
        invariant forall k :: k in sockets && k !in keys ==> sockets[k].shutdown
        decreases keys
      {
        var k :| k in keys;
        sockets[k].Shutdown();
        keys := keys - {k};
      }
      sockets := map[];
    }

    method Touch(now: int)
      modifies this`lastActivity
      ensures lastActivity == now
    {
      lastActivity := now;
    }
  }

  class SessionManager {
    const timeout: nat
    ghost const listenerOf: Port -> nat
    var sessions: map<SessionKey, Session>
    ghost var created: set<SessionSocket>

    constructor (timeout: nat, ghost listenerOf: Port -> nat)
      ensures Valid() && Value() == Empty<SessionSocket>().table
      ensures this.timeout == timeout && this.listenerOf == listenerOf && fresh(Repr() - {this})
    {
      this.timeout, this.listenerOf := timeout, listenerOf;
      sessions, created := map[], {};
    }

    /** Everything the manager's methods may change. */
    ghost function Repr(): set<object>
      reads this
    {
      {this} + sessions.Values + created
    }

    ghost function Value(): Table<SessionSocket>
      reads this, sessions.Values, created
    {
      Table(map k | k in sessions :: sessions[k].Value(),
            map s | s in created :: s.Created(),
            set s | s in created && s.shutdown)
    }

    ghost predicate Valid()
      reads this, sessions.Values, created
    {
      Separate() && Owned(Value(), listenerOf)
    }

    /** No session object serves two keys. */
    ghost predicate Separate()
      reads this
    {
      forall k, k' :: k in sessions && k' in sessions && sessions[k] == sessions[k'] ==> k == k'
    }

    /** Sockets found in sessions are among those created. */
    lemma SocketsAreCreated(k: SessionKey)
      requires Valid() && k in sessions
      ensures sessions[k].sockets.Values <= created
    {
      forall s | s in sessions[k].sockets.Values ensures s in created {
        var slot :| slot in sessions[k].sockets && sessions[k].sockets[slot] == s;
        FoundInPlace(Value(), listenerOf, k, slot);
      }
    }

    /** Two-level lookup. */
    method FindKey(client: Address) returns (key: Option<SessionKey>)
      ensures key == KeyFor(Value(), client)
    {
      if ExactSocket(client) in sessions {
        return Some(ExactSocket(client));
      }
      if LegacyIp(client.ip) in sessions {
        return Some(LegacyIp(client.ip));
      }
      return None;
    }

    /** Of these sessions only the one at `key` changed: it forgot its sockets. */
    twostate predicate OnlyShut(all: map<SessionKey, Session>, key: SessionKey)
      reads all.Values
    {
      forall k :: k in all ==>
        && all[k].lastActivity == old(all[k].lastActivity)
        && all[k].sockets == if k == key then map[] else old(all[k].sockets)
    }

    /** Of all sockets only these were stopped. */
    twostate predicate OnlyStopped(all: set<SessionSocket>, stopped: set<SessionSocket>)
      reads all
    {
      forall s :: s in all ==> (s.shutdown <==> old(s.shutdown) || s in stopped)
    }

    twostate lemma ShutSessionsAre(key: SessionKey)
      requires key in old(sessions) && sessions == old(sessions) && OnlyShut(old(sessions), key)
      ensures Value().sessions == old(Value()).sessions[key := old(Value()).sessions[key].(sockets := map[])]
    {
      hide OnlyStopped;
    }

    twostate lemma RemovedSessionsAre(key: SessionKey)
      requires key in old(sessions) && sessions == old(sessions) - {key} && OnlyShut(old(sessions), key)
      ensures Value().sessions == old(Value()).sessions - {key}
    {
      hide OnlyStopped;
    }

    twostate lemma StoppedSocketsAre(stopped: set<SessionSocket>)
      requires created == old(created) && OnlyStopped(old(created), stopped) && stopped <= created
      ensures Value().created == old(Value()).created
      ensures Value().down == old(Value()).down + stopped
    {
      hide OnlyShut;
    }

    lemma EntryAt(key: SessionKey)
      requires key in sessions
      ensures key in Value().sessions && Value().sessions[key] == sessions[key].Value()
    {
    }

    /** Stop the sockets of one session object and forget them. */
    method ShutObject(key: SessionKey, session: Session, ghost all: map<SessionKey, Session>)
      requires key in all && session == all[key]
      requires forall k, k' :: k in all && k' in all && all[k] == all[k'] ==> k == k'
      modifies session, session.sockets.Values
      ensures OnlyShut(all, key) && OnlyStopped(created, old(session.sockets).Values)
    {
      session.ShutdownSockets();
    }

    /** Under one session's guard: stop its sockets and forget them. */
    method ShutPresent(key: SessionKey)
      requires Separate() && key in sessions && sessions[key].sockets.Values <= created
      modifies sessions[key], created
      ensures Value() == old(Value()).(
                sessions := old(Value()).sessions[key := old(Value()).sessions[key].(sockets := map[])],
                down := old(Value()).down + old(Value()).sessions[key].sockets.Values)
    {
      hide Value, OnlyShut, OnlyStopped;
      EntryAt(key);
      ghost var stopped := sessions[key].sockets.Values;
      ShutObject(key, sessions[key], sessions);
      ShutSessionsAre(key);
      StoppedSocketsAre(stopped);
    }

    method ShutSession(key: SessionKey)
      requires Valid()
      modifies Repr()
      ensures Value() == ShutEntry(old(Value()), key) && Valid() && Repr() == old(Repr())
    {
      hide Owned, Consistent, InPlace, Live;
      ghost var before := Value();
      OwnedIsConsistent(before, listenerOf);
      ShutEntryOwned(before, listenerOf, key);
      if key in sessions {
        SocketsAreCreated(key);
        ShutPresent(key);
      }
    }

    /** Under one guard: put a fresh session in place of one that holds no socket. */
    method InsertSession(ip: string, target: Target, now: int)
      requires Valid() && (LegacyIp(ip) in sessions ==> sessions[LegacyIp(ip)].sockets == map[])
      modifies this
      ensures Valid() && fresh(Repr() - old(Repr())) && created == old(created)
      ensures Value() == Replace(old(Value()), ip, target, now)
    {
      hide Owned, Consistent, InPlace, Live;
      ghost var before := Value();
      ReplaceOwnedExactly(before, listenerOf, ip, target, now);
      var session := new Session(target, now);
      sessions := sessions[LegacyIp(ip) := session];
      assert Value() == Replace(before, ip, target, now);
    }

    /** The client's address gets a new route; the sockets of the old one are stopped. */
    method UpsertMultiPort(client: Address, target: Target, now: int)
      requires Valid()
      modifies Repr()
      ensures Valid() && fresh(Repr() - old(Repr()))
      ensures Value() == Upsert(old(Value()), client, target, now)
    {
      hide Owned, Consistent, InPlace, Live;
      ShutSession(LegacyIp(client.ip));
      assert LegacyIp(client.ip) in sessions ==>
               Value().sessions[LegacyIp(client.ip)] == sessions[LegacyIp(client.ip)].Value();
      hide *;
      InsertSession(client.ip, target, now);
    }

    method TouchByAddr(client: Address, now: int)
      requires Valid()
      modifies Repr()
      ensures Valid() && Repr() == old(Repr())
      ensures Value() == Touch(old(Value()), client, now)
    {
      ghost var before := Value();
      TouchOwned(before, listenerOf, client, now);
      var key := FindKey(client);
      if key.Some? {
        sessions[key.value].Touch(now);
      }
      assert Value() == Touch(before, client, now);
    }

    /** The client's socket in one session, opened on first use. */
    method SocketIn(key: SessionKey, client: Address, proxyPort: Port, listener: nat, canBind: bool)
      returns (socket: Option<SessionSocket>, ghost made: Option<SessionSocket>)
      requires Separate() && key in sessions
      modifies sessions[key], this
      ensures sessions == old(sessions) && Separate()
      ensures var slot := (proxyPort, client.port);
              var entry := old(sessions[key].Value());
              if slot in entry.sockets then
                && socket == Some(entry.sockets[slot]) && made == None
                && Value() == old(Value()) && created == old(created)
              else if !canBind then
                socket == None && made == None && Value() == old(Value()) && created == old(created)
              else
                && socket.Some? && made == socket && fresh(socket.value) && created == old(created) + {socket.value}
                && Value() == old(Value()).(
                     sessions := old(Value()).sessions[key := entry.(sockets := entry.sockets[slot := socket.value])],
                     created := old(Value()).created[socket.value := Origin(client, proxyPort, listener, entry.target)])
    {
      ghost var before := Value();
      ghost var known := (proxyPort, client.port) in sessions[key].sockets;
      made := None;
      socket := sessions[key].GetOrCreateUdpSocket(proxyPort, client, listener, canBind);
      if !known && socket.Some? {
        made := socket;
        created := created + {socket.value};
        assert Value().created == before.created[socket.value := socket.value.Created()];
        assert Value().down == before.down;
      } else {
        assert Value() == before;
      }
    }

    /** The guarded part of forwarding a packet: backend and socket are read from one session. */
    method RoutePacket(client: Address, proxyPort: Port, listener: nat, canBind: bool)
      returns (route: Option<(SessionSocket, Address)>, ghost made: Option<SessionSocket>)
      requires Valid() && listener == listenerOf(proxyPort)
      modifies Repr()
      ensures Valid() && fresh(Repr() - old(Repr()))
      ensures made.Some? <==> canBind && NeedsSocket(old(Value()), client, proxyPort)
      ensures made.Some? ==> fresh(made.value)
      ensures (Value(), route) == SocketTable.Route(old(Value()), client, proxyPort, listener, made)
    {
      hide Owned, Consistent, InPlace, Live, Resolve;
      ghost var before := Value();
      made := None;
      var key := FindKey(client);
      if key == None {
        return None, None;
      }
      assert before.sessions[key.value] == sessions[key.value].Value();
      var to := sessions[key.value].GetTargetAddr(proxyPort, Udp);
      if to == None {
        return None, None;
      }
      var socket: Option<SessionSocket>;
      socket, made := SocketIn(key.value, client, proxyPort, listener, canBind);
      if socket == None {
        return None, None;
      }
      RouteOwned(before, listenerOf, client, proxyPort, made);
      return Some((socket.value, to.value)), made;
    }

    /** Remove one session, notify, then stop its sockets. `address` is what the clean-up callback is told. */
    method RemoveAndShut(key: SessionKey) returns (address: string)
      requires Valid() && key in Value().sessions
      modifies Repr()
      ensures Valid() && Repr() <= old(Repr())
      ensures Value() == Evict(old(Value()), {key}) && address == old(Value()).sessions[key].target.address
    {
      hide Owned, Consistent, InPlace, Live, Evict, Held, Value;
      EvictOwned(Value(), listenerOf, {key});
      EvictOne(Value(), key);
      EntryKeys();
      EntryAt(key);
      SocketsAreCreated(key);
      var session := sessions[key];
      ghost var stopped := session.sockets.Values;
      sessions := sessions - {key};
      address := session.target.address;
      ShutObject(key, session, old(sessions));
      RemovedSessionsAre(key);
      StoppedSocketsAre(stopped);
    }

    lemma EntryKeys()
      ensures Value().sessions.Keys == sessions.Keys
    {
    }

    /** First pass of a sweep: the keys of sessions idle for longer than the timeout. */
    method CollectExpired(now: int) returns (expired: seq<SessionKey>)
      ensures forall i, j :: 0 <= i < j < |expired| ==> expired[i] != expired[j]
      ensures forall k :: k in expired <==> k in Expired(Value(), now, timeout)
    {
      expired := [];
      var keys := sessions.Keys;
      while keys != {}
        invariant keys <= sessions.Keys
        invariant forall i, j :: 0 <= i < j < |expired| ==> expired[i] != expired[j]
        invariant forall k :: k in expired <==>
                    k in sessions && k !in keys && now - sessions[k].lastActivity > timeout
        decreases keys
      {
        var k :| k in keys;
        keys := keys - {k};
        if now - sessions[k].lastActivity > timeout {
          expired := expired + [k];
        }
      }
    }

    /** The removal part of a sweep. */
    method RemoveAll(keys: seq<SessionKey>, callback: bool) returns (notified: seq<string>)
      requires Valid()
      requires forall i, j :: 0 <= i < j < |keys| ==> keys[i] != keys[j]
      requires forall i :: 0 <= i < |keys| ==> keys[i] in Value().sessions
      modifies Repr()
      ensures Valid() && Repr() <= old(Repr())
      ensures Value() == Evict(old(Value()), KeysOf(keys))
      ensures |notified| == if callback then |keys| else 0
      ensures forall i :: 0 <= i < |notified| ==> notified[i] == old(Value()).sessions[keys[i]].target.address
    {
      hide *;
      ghost var before := Value();
      notified := [];
      EvictNone(before);
      KeysOfNone(keys);
      for i := 0 to |keys|
        invariant Valid() && Repr() <= old(Repr())
        invariant Value() == Evict(before, KeysOf(keys[..i]))
        invariant |notified| == if callback then i else 0
        invariant forall j :: 0 <= j < |notified| ==> notified[j] == before.sessions[keys[j]].target.address
      {
        KeysOfGrows(keys, i);
        EvictSpares(before, KeysOf(keys[..i]), keys[i]);
        var address := RemoveAndShut(keys[i]);
        if callback {
          notified := notified + [address];
        }
        EvictMore(before, KeysOf(keys[..i]), keys[i]);
      }
      assert keys[..|keys|] == keys;
    }

    /**
     * One pass of the clean-up task. `callback` tells whether the manager it runs on has a clean-up callback and
     * `notified` are the route addresses passed to it. The task runs on a clone made before one can be set.
     */
    method SweepOnce(now: int, callback: bool) returns (expired: seq<SessionKey>, notified: seq<string>)
      requires Valid()
      modifies Repr()
      ensures Valid() && Repr() <= old(Repr())
      ensures Value() == Sweep(old(Value()), now, timeout)
      ensures forall i, j :: 0 <= i < j < |expired| ==> expired[i] != expired[j]
      ensures forall k :: k in expired <==> k in Expired(old(Value()), now, timeout)
      ensures |notified| == if callback then |expired| else 0
      ensures forall i :: 0 <= i < |notified| ==>
                expired[i] in Expired(old(Value()), now, timeout) &&
                notified[i] == old(Value()).sessions[expired[i]].target.address
    {
      hide Owned, Consistent, InPlace, Live, Evict;
      expired := CollectExpired(now);
      KeysOfMembers(expired);
      assert KeysOf(expired) == Expired(Value(), now, timeout);
      assert forall i :: 0 <= i < |expired| ==> expired[i] in expired;
      notified := RemoveAll(expired, callback);
    }

    /** Stop the sockets of every session. */
    method ShutAll()
      requires Valid()
      modifies Repr()
      ensures Valid() && Repr() == old(Repr())
      ensures Value() == ShutKeys(old(Value()), old(Value()).sessions.Keys)
    {
      hide *;
      ghost var before := Value();
      ShutKeysNone(before);
      var keys := Keys();
      ghost var done: set<SessionKey> := {};
      while keys != {}
        invariant keys <= before.sessions.Keys && done == before.sessions.Keys - keys
        invariant Valid() && Repr() == old(Repr())
        invariant Value() == ShutKeys(before, done)
        decreases keys
      {
        var k :| k in keys;
        ShutSession(k);
        ShutMore(before, done, k);
        keys := keys - {k};
        done := done + {k};
      }
      assert done == before.sessions.Keys;
    }

    method Keys() returns (keys: set<SessionKey>)
      ensures keys == Value().sessions.Keys
    {
      keys := sessions.Keys;
    }

    /** Stop the sockets of every session, then drop all sessions. */
    method ClearAll()
      requires Valid()
      modifies Repr()
      ensures Valid() && Repr() <= old(Repr())
      ensures Value() == Clear(old(Value()))
    {
      hide Owned, Consistent, InPlace, Live, Held;
      ghost var before := Value();
      EvictOwned(before, listenerOf, before.sessions.Keys);
      ShutAll();
      sessions := map[];
      assert before.sessions - before.sessions.Keys == map[];
      assert Value() == Clear(before);
    }
  }

  /**
   * A handle on the shared session table. The table is shared by all clones of a handle; whether a clean-up
   * callback is set belongs to the handle.
   */
  class ManagerHandle {
    const shared: SessionManager
    var callback: bool

    constructor (shared: SessionManager, callback: bool)
      ensures this.shared == shared && this.callback == callback
    {
      this.shared, this.callback := shared, callback;
    }

    method Clone() returns (clone: ManagerHandle)
      ensures fresh(clone) && clone.shared == shared && clone.callback == callback
    {
      clone := new ManagerHandle(shared, callback);
    }

    method SetCleanupCallback()
      modifies this`callback
      ensures callback
    {
      callback := true;
    }

    /** One pass of the clean-up loop on this handle. */
    method CleanupPass(now: int) returns (expired: seq<SessionKey>, notified: seq<string>)
      requires shared.Valid() && this !in shared.Repr()
      modifies shared.Repr()
      ensures shared.Valid() && shared.Repr() <= old(shared.Repr()) && callback == old(callback)
      ensures shared.Value() == Sweep(old(shared.Value()), now, shared.timeout)
      ensures forall k :: k in expired <==> k in Expired(old(shared.Value()), now, shared.timeout)
      ensures |notified| == if callback then |expired| else 0
    {
      expired, notified := shared.SweepOnce(now, callback);
    }
  }

  /** A new manager: the caller's handle and the clone its clean-up task keeps, neither with a callback. */
  method NewManager(timeout: nat, ghost listenerOf: Port -> nat)
    returns (manager: ManagerHandle, cleaner: ManagerHandle)
    ensures fresh(manager) && fresh(cleaner) && manager != cleaner && manager.shared == cleaner.shared
    ensures fresh(manager.shared) && !manager.callback && !cleaner.callback
    ensures manager.shared.Valid() && manager.shared.Value() == Empty<SessionSocket>().table
    ensures manager !in manager.shared.Repr() && cleaner !in manager.shared.Repr()
  {
    var shared := new SessionManager(timeout, listenerOf);
    manager := new ManagerHandle(shared, false);
    cleaner := manager.Clone();
  }

  /**
   * The program's wiring: a manager is made, which starts its clean-up task, and then the callback is set. The
   * task's handle never gets it.
   */
  method StartWithCallback(timeout: nat, ghost listenerOf: Port -> nat)
    returns (manager: ManagerHandle, cleaner: ManagerHandle)
    ensures manager.shared == cleaner.shared && manager.callback && !cleaner.callback
    ensures manager.shared.Valid() && cleaner !in manager.shared.Repr()
  {
    manager, cleaner := NewManager(timeout, listenerOf);
    manager.SetCleanupCallback();
  }

  /**
   * The route for a client without a session: the cached default when it serves the port, otherwise what a query
   * of the cluster answers. Only a query made with an empty cache fills it, even when its answer lacks the port.
   */
  function DefaultRoute(cache: Option<Target>, queried: Option<Target>, proxyPort: Port, protocol: Protocol)
    : (Option<Target>, Option<Target>)
  {
    if cache.Some? && (proxyPort, protocol) in cache.value.ports then (cache, cache)
    else
      (if cache.Some? then cache else queried,
       if queried.Some? && (proxyPort, protocol) in queried.value.ports then queried else None)
  }

  /** The default route serves the port asked for; a filled cache stays, and serves whatever it can. */
  lemma DefaultRouteServes(cache: Option<Target>, queried: Option<Target>, proxyPort: Port, protocol: Protocol)
    ensures
      var (cached, target) := DefaultRoute(cache, queried, proxyPort, protocol);
      && (target.Some? <==> (cache.Some? && (proxyPort, protocol) in cache.value.ports) ||
                            (queried.Some? && (proxyPort, protocol) in queried.value.ports))
      && (target.Some? ==> (proxyPort, protocol) in target.value.ports && (target == cache || target == queried))
      && cached == (if cache.Some? then cache else queried)
      && (target.Some? && target != cache ==> target == queried)
      && (cache.Some? && (proxyPort, protocol) in cache.value.ports ==> target == cache)
  {
  }

  class DataProxy {
    const manager: SessionManager
    const balancer: Balancing.LoadBalancer
    var cache: Option<Target>

    constructor (manager: SessionManager, balancer: Balancing.LoadBalancer)
      ensures this.manager == manager && this.balancer == balancer && cache == None
    {
      this.manager, this.balancer, cache := manager, balancer, None;
    }

    ghost predicate Valid()
      reads this, manager, manager.sessions.Values, manager.created
    {
      this !in manager.Repr() && balancer !in manager.Repr() && manager.Valid()
    }

    /** On success the backend's session count grows by one; on failure only an empty cache may change. */
    method EstablishDefaultSession(client: Address, proxyPort: Port, protocol: Protocol, queried: Option<Target>,
                                   now: int)
      returns (established: bool)
      requires Valid()
      modifies this, balancer`counts, manager.Repr()
      ensures Valid() && fresh(manager.Repr() - old(manager.Repr()))
      ensures var (cached, target) := DefaultRoute(old(cache), queried, proxyPort, protocol);
              && cache == cached && established == target.Some?
              && manager.Value() == (if established then Upsert(old(manager.Value()), client, target.value, now)
                                     else old(manager.Value()))
              && balancer.counts == (if established
                                     then Balancing.Incremented(old(balancer.counts), target.value.address)
                                     else old(balancer.counts))
    {
      hide Upsert, Balancing.Incremented;
      var target: Target;
      if cache.Some? && (proxyPort, protocol) in cache.value.ports {
        target := cache.value;
      } else {
        if queried == None {
          return false;
        }
        if cache == None {
          cache := queried;
        }
        if (proxyPort, protocol) !in queried.value.ports {
          return false;
        }
        target := queried.value;
      }
      manager.UpsertMultiPort(client, target, now);
      balancer.IncrementSession(target.address);
      return true;
    }

    /**
     * A UDP packet: along the client's route when there is one, otherwise along the default route. `route` is the
     * socket it leaves by and the backend; `sendable` tells whether the system takes the packet. Only a packet
     * that is sent along an existing route counts as activity.
     */
    method HandleUdpDataPacket(client: Address, proxyPort: Port, listener: nat, canBind: bool, sendable: bool,
                               queried: Option<Target>, now: int)
      returns (route: Option<(SessionSocket, Address)>, sent: bool, ghost made: Option<SessionSocket>)
      requires Valid() && listener == manager.listenerOf(proxyPort)
      modifies this, balancer`counts, manager.Repr()
      ensures Valid() && fresh(manager.Repr() - old(manager.Repr()))
      ensures made.Some? ==> canBind && fresh(made.value)
      ensures sent <==> route.Some? && sendable
      ensures KeyFor(old(manager.Value()), client).Some? ==>
                var (t, found) := SocketTable.Route(old(manager.Value()), client, proxyPort, listener, made);
                && cache == old(cache) && route == found && balancer.counts == old(balancer.counts)
                && manager.Value() == if sent then SocketTable.Touch(t, client, now) else t
      ensures KeyFor(old(manager.Value()), client) == None ==>
                var (cached, target) := DefaultRoute(old(cache), queried, proxyPort, Udp);
                && cache == cached
                && (if target == None then
                      && manager.Value() == old(manager.Value()) && route == None
                      && balancer.counts == old(balancer.counts)
                    else
                      && balancer.counts == Balancing.Incremented(old(balancer.counts), target.value.address)
                      && (manager.Value(), route) == SocketTable.Route(
                           Upsert(old(manager.Value()), client, target.value, now), client, proxyPort, listener, made))
    {
      hide Upsert, SocketTable.Route, KeyFor, DefaultRoute, SocketTable.Touch, Balancing.Incremented;
      made := None;
      var key := manager.FindKey(client);
      if key.Some? {
        route, made := manager.RoutePacket(client, proxyPort, listener, canBind);
        sent := route.Some? && sendable;
        if sent {
          manager.TouchByAddr(client, now);
        }
      } else {
        var established := EstablishDefaultSession(client, proxyPort, Udp, queried, now);
        if !established {
          return None, false, None;
        }
        route, made := manager.RoutePacket(client, proxyPort, listener, canBind);
        sent := route.Some? && sendable;
      }
    }
  }
}
