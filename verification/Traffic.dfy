/** What a client's packets experience over whole runs: the same socket and backend, while its session lives. */
module Traffic {
  import opened Wrappers
  import opened JsonPath
  import opened Backend
  import opened SocketTable

  // ----- addresses -----

  /** The text of an octet is the number itself, without a leading zero, up to 255. */
  lemma OctetExactly(n: nat)
    ensures Octet(Decimal(n)) <==> n <= 255
  {
    DecimalLength(n);
    DecimalStart(n);
  }

  lemma {:induction false} DecimalLength(n: nat)
    ensures n < 10 <==> |Decimal(n)| == 1
    ensures n < 1000 <==> |Decimal(n)| <= 3
  {
    if n >= 10 {
      DecimalDigits(n / 10);
    }
  }

  lemma DecimalDigits(n: nat)
    ensures n < 10 <==> |Decimal(n)| == 1
    ensures n < 100 <==> |Decimal(n)| <= 2
  {
    if n >= 10 {
      assert |Decimal(n / 10)| >= 1;
      assert n / 10 < 10 <==> |Decimal(n / 10)| == 1;
    }
  }

  lemma {:induction false} DecimalStart(n: nat)
    ensures Decimal(n)[0] == '0' <==> n == 0
  {
    if n >= 10 {
      DecimalStart(n / 10);
    }
  }

  function Dotted(a: nat, b: nat, c: nat, d: nat): string {
    Decimal(a) + "." + (Decimal(b) + "." + (Decimal(c) + "." + Decimal(d)))
  }

  /** Four numbers with dots between them are an address exactly when each is at most 255. */
  lemma DottedIsIpv4(a: nat, b: nat, c: nat, d: nat)
    ensures IsIpv4(Dotted(a, b, c, d)) <==> a <= 255 && b <= 255 && c <= 255 && d <= 255
  {
    hide Octet, Split, Decimal;
    NoDot(a);
    NoDot(b);
    NoDot(c);
    NoDot(d);
    SplitSingle(Decimal(a));
    SplitSingle(Decimal(b));
    SplitSingle(Decimal(c));
    SplitSingle(Decimal(d));
    SplitJoins(Decimal(c), Decimal(d));
    SplitJoins(Decimal(b), Decimal(c) + "." + Decimal(d));
    SplitJoins(Decimal(a), Decimal(b) + "." + (Decimal(c) + "." + Decimal(d)));
    var octets := Split(Dotted(a, b, c, d));
    assert octets == [Decimal(a), Decimal(b), Decimal(c), Decimal(d)];
    assert octets[0] == Decimal(a) && octets[1] == Decimal(b) && octets[2] == Decimal(c) && octets[3] == Decimal(d);
    OctetExactly(a);
    OctetExactly(b);
    OctetExactly(c);
    OctetExactly(d);
  }

  lemma NoDot(n: nat)
    ensures '.' !in Decimal(n)
  {
    assert forall c :: c in Decimal(n) ==> IsDigit(c);
  }

  /** The backend address of a proxy port: the route's address and the port it maps to, when both are usable. */
  lemma ResolveExactly(target: Target, proxyPort: Port, protocol: Protocol, to: Address)
    ensures Resolve(target, proxyPort, protocol) == Some(to) <==>
            && IsIpv4(target.address) && to.ip == target.address
            && (proxyPort, protocol) in target.ports && to.port == target.ports[(proxyPort, protocol)]
  {
    hide IsIpv4;
  }

  /** A client's session is the one of its exact socket, and failing that the one of its address. */
  lemma LookupExactly<S>(t: Table<S>, client: Address)
    ensures KeyFor(t, client) == Some(ExactSocket(client)) <==> ExactSocket(client) in t.sessions
    ensures KeyFor(t, client) == Some(LegacyIp(client.ip)) <==>
            ExactSocket(client) !in t.sessions && LegacyIp(client.ip) in t.sessions
    ensures KeyFor(t, client) == None <==> ExactSocket(client) !in t.sessions && LegacyIp(client.ip) !in t.sessions
  {
  }

  // ----- what leaves a client's session alone -----

  /** The step neither replaces, stops nor removes the session of this address. */
  ghost predicate Spares<S>(w: World<S>, ip: string, step: Step<S>) {
    match step
    case UpsertRoute(client, _, _) => client.ip != ip
    case SweepOnce(now, timeout) =>
      LegacyIp(ip) in w.table.sessions ==> now - w.table.sessions[LegacyIp(ip)].lastActivity <= timeout
    case ClearAll => false
    case ShutPart(key) => key != LegacyIp(ip)
    case ReplacePart(other, _, _) => other != ip
    case RemovePart(key) => key != LegacyIp(ip)
    case _ => true
  }

  ghost predicate AllSpare<S>(listener: Port -> nat, steps: seq<Step<S>>, w: World<S>, ip: string)
    requires Runs(listener, steps, w)
    decreases |steps|
  {
    steps == [] ||
    (var n := |steps| - 1;
     AllSpare(listener, steps[..n], w, ip) && Spares(End(listener, steps[..n], w), ip, steps[n]))
  }

  /** The session is there still, on the same route, with the sockets it had, and perhaps more. */
  ghost predicate Continues<S>(t: Table<S>, t': Table<S>, ip: string)
    requires LegacyIp(ip) in t.sessions
  {
    && LegacyIp(ip) in t'.sessions
    && t'.sessions[LegacyIp(ip)].target == t.sessions[LegacyIp(ip)].target
    && forall slot :: slot in t.sessions[LegacyIp(ip)].sockets ==>
         && slot in t'.sessions[LegacyIp(ip)].sockets
         && t'.sessions[LegacyIp(ip)].sockets[slot] == t.sessions[LegacyIp(ip)].sockets[slot]
  }

  lemma SparedContinues<S>(w: World<S>, listener: Port -> nat, ip: string, step: Step<S>)
    requires Possible(w, step) && Spares(w, ip, step) && LegacyIp(ip) in w.table.sessions
    ensures Continues(w.table, Next(w, listener, step).table, ip)
  {
    hide Resolve, Held;
  }

  lemma {:induction false} SparedRunContinues<S>(listener: Port -> nat, steps: seq<Step<S>>, w: World<S>, ip: string)
    requires Runs(listener, steps, w) && AllSpare(listener, steps, w, ip) && LegacyIp(ip) in w.table.sessions
    ensures Continues(w.table, End(listener, steps, w).table, ip)
    decreases |steps|
  {
    hide Next, Possible, Spares;
    if steps != [] {
      var n := |steps| - 1;
      SparedRunContinues(listener, steps[..n], w, ip);
      SparedContinues(End(listener, steps[..n], w), listener, ip, steps[n]);
    }
  }

  lemma {:induction false} ConsistentAlong<S>(listener: Port -> nat, steps: seq<Step<S>>, w: World<S>)
    requires Runs(listener, steps, w) && Consistent(w.table, listener)
    ensures Consistent(End(listener, steps, w).table, listener)
    decreases |steps|
  {
    hide Next, Possible, Consistent;
    if steps != [] {
      var n := |steps| - 1;
      ConsistentAlong(listener, steps[..n], w);
      StepConsistent(End(listener, steps[..n], w), listener, steps[n]);
    }
  }

  // ----- repeated packets -----

  /** The packet was handed on, by this socket to this backend. */
  ghost predicate Hands<S>(w: World<S>, w': World<S>, client: Address, proxyPort: Port, s: S, to: Address) {
    w'.handed == w.handed + [Flow(client, proxyPort, s, to)]
  }

  /** What handing a packet on takes: a session, and a socket in its slot afterwards. */
  lemma HandedFromSlot<S>(w: World<S>, listener: Port -> nat, client: Address, proxyPort: Port, made: Option<S>,
                          s: S, to: Address)
    requires Consistent(w.table, listener) && Possible(w, Packet(client, proxyPort, made))
    requires Hands(w, Next(w, listener, Packet(client, proxyPort, made)), client, proxyPort, s, to)
    ensures
      var t' := Next(w, listener, Packet(client, proxyPort, made)).table;
      && LegacyIp(client.ip) in t'.sessions
      && var entry := t'.sessions[LegacyIp(client.ip)];
      && (proxyPort, client.port) in entry.sockets && entry.sockets[(proxyPort, client.port)] == s
      && (proxyPort, Udp) in entry.target.ports
      && to == Address(entry.target.address, entry.target.ports[(proxyPort, Udp)]) && IsIpv4(entry.target.address)
  {
    hide IsIpv4;
    KeyIsLegacy(w.table, listener, client);
    assert |w.handed + [Flow(client, proxyPort, s, to)]| == |w.handed| + 1;
    assert (w.handed + [Flow(client, proxyPort, s, to)])[|w.handed|] == Flow(client, proxyPort, s, to);
  }

  /** A socket in the slot of a session with a usable route takes every packet, and nothing is opened for it. */
  lemma SlotHands<S>(w: World<S>, listener: Port -> nat, client: Address, proxyPort: Port, made: Option<S>)
    requires Consistent(w.table, listener) && Possible(w, Packet(client, proxyPort, made))
    requires LegacyIp(client.ip) in w.table.sessions
    requires var entry := w.table.sessions[LegacyIp(client.ip)];
             && (proxyPort, client.port) in entry.sockets
             && (proxyPort, Udp) in entry.target.ports && IsIpv4(entry.target.address)
    ensures
      var entry := w.table.sessions[LegacyIp(client.ip)];
      var w' := Next(w, listener, Packet(client, proxyPort, made));
      && w'.table == w.table
      && Hands(w, w', client, proxyPort, entry.sockets[(proxyPort, client.port)],
               Address(entry.target.address, entry.target.ports[(proxyPort, Udp)]))
  {
    hide IsIpv4;
    KeyIsLegacy(w.table, listener, client);
  }

  /**
   * Once a packet was handed on by a socket to a backend, every later packet of that client and proxy port is handed
   * on by that socket to that backend, and nothing is opened for it, as long as the client's session is not
   * replaced, stopped or removed, whatever else happens in between.
   */
  lemma LaterPacketsGoTheSameWay<S>(listener: Port -> nat, w: World<S>, client: Address, proxyPort: Port,
                                    first: Option<S>, s: S, to: Address, steps: seq<Step<S>>, made: Option<S>)
    requires Consistent(w.table, listener) && Possible(w, Packet(client, proxyPort, first))
    requires var w1 := Next(w, listener, Packet(client, proxyPort, first));
             && Hands(w, w1, client, proxyPort, s, to)
             && Runs(listener, steps, w1) && AllSpare(listener, steps, w1, client.ip)
             && Possible(End(listener, steps, w1), Packet(client, proxyPort, made))
    ensures
      var w2 := End(listener, steps, Next(w, listener, Packet(client, proxyPort, first)));
      var w3 := Next(w2, listener, Packet(client, proxyPort, made));
      Hands(w2, w3, client, proxyPort, s, to) && w3.table == w2.table
  {
    hide Next, Possible, Runs, AllSpare, Consistent, Hands, IsIpv4;
    var packet := Packet(client, proxyPort, first);
    var w1 := Next(w, listener, packet);
    HandedFromSlot(w, listener, client, proxyPort, first, s, to);
    StepConsistent(w, listener, packet);
    SparedRunContinues(listener, steps, w1, client.ip);
    ConsistentAlong(listener, steps, w1);
    SlotHands(End(listener, steps, w1), listener, client, proxyPort, made);
  }

  /**
   * After a route change, and until the session is replaced, stopped or removed, a packet of a client behind the
   * address is handed on exactly when the route serves its port at a usable address and there is a socket for it, old
   * or newly made; and it goes to the route's address, at the backend port the route maps the proxy port to.
   */
  lemma PacketsFollowTheRoute<S>(listener: Port -> nat, w: World<S>, moved: Address, target: Target, now: int,
                                 steps: seq<Step<S>>, client: Address, proxyPort: Port, made: Option<S>)
    requires Consistent(w.table, listener) && client.ip == moved.ip
    requires var w1 := Next(w, listener, UpsertRoute(moved, target, now));
             && Runs(listener, steps, w1) && AllSpare(listener, steps, w1, moved.ip)
             && Possible(End(listener, steps, w1), Packet(client, proxyPort, made))
    ensures
      var w2 := End(listener, steps, Next(w, listener, UpsertRoute(moved, target, now)));
      var w3 := Next(w2, listener, Packet(client, proxyPort, made));
      && LegacyIp(moved.ip) in w2.table.sessions
      && var slot := (proxyPort, client.port);
         var sockets := w2.table.sessions[LegacyIp(moved.ip)].sockets;
      if (proxyPort, Udp) in target.ports && IsIpv4(target.address) && (slot in sockets || made.Some?) then
        Hands(w2, w3, client, proxyPort, if slot in sockets then sockets[slot] else made.value,
              Address(target.address, target.ports[(proxyPort, Udp)]))
      else w3.handed == w2.handed && w3.table == w2.table
  {
    hide Next, Possible, Runs, AllSpare, Consistent, Hands, IsIpv4;
    var upsert := UpsertRoute(moved, target, now);
    UpsertInstalls(w, listener, moved, target, now);
    var w1 := Next(w, listener, upsert);
    StepConsistent(w, listener, upsert);
    SparedRunContinues(listener, steps, w1, moved.ip);
    ConsistentAlong(listener, steps, w1);
    PacketOutcome(End(listener, steps, w1), listener, client, proxyPort, made);
  }

  lemma UpsertInstalls<S>(w: World<S>, listener: Port -> nat, moved: Address, target: Target, now: int)
    ensures
      var w' := Next(w, listener, UpsertRoute(moved, target, now));
      && Possible(w, UpsertRoute(moved, target, now))
      && LegacyIp(moved.ip) in w'.table.sessions
      && w'.table.sessions[LegacyIp(moved.ip)] == Entry(target, now, map[])
  {
  }

  lemma PacketOutcome<S>(w: World<S>, listener: Port -> nat, client: Address, proxyPort: Port, made: Option<S>)
    requires Consistent(w.table, listener) && Possible(w, Packet(client, proxyPort, made))
    requires LegacyIp(client.ip) in w.table.sessions
    ensures
      var entry := w.table.sessions[LegacyIp(client.ip)];
      var slot := (proxyPort, client.port);
      var w' := Next(w, listener, Packet(client, proxyPort, made));
      if (proxyPort, Udp) in entry.target.ports && IsIpv4(entry.target.address)
         && (slot in entry.sockets || made.Some?) then
        Hands(w, w', client, proxyPort, if slot in entry.sockets then entry.sockets[slot] else made.value,
              Address(entry.target.address, entry.target.ports[(proxyPort, Udp)]))
      else w'.handed == w.handed && w'.table == w.table
  {
    hide IsIpv4;
    KeyIsLegacy(w.table, listener, client);
  }

  // ----- activity and expiry -----

  /** The step marks the session of this address as active at this instant. */
  ghost predicate Activates<S>(w: World<S>, ip: string, step: Step<S>, now: int) {
    || (step.UpsertRoute? && step.client.ip == ip && step.now == now)
    || (step.TouchSession? && step.client.ip == ip && step.now == now && LegacyIp(ip) in w.table.sessions)
  }

  /** Later on nobody replaces, stops or removes the session but sweeps, each within the timeout of that instant. */
  ghost predicate Within<S>(ip: string, now: int, step: Step<S>) {
    match step
    case UpsertRoute(client, _, _) => client.ip != ip
    case TouchSession(client, later) => client.ip == ip ==> now <= later
    case SweepOnce(later, timeout) => later - now <= timeout
    case ClearAll => false
    case ShutPart(key) => key != LegacyIp(ip)
    case ReplacePart(other, _, _) => other != ip
    case RemovePart(key) => key != LegacyIp(ip)
    case _ => true
  }

  lemma ActivatedAt<S>(w: World<S>, listener: Port -> nat, ip: string, step: Step<S>, now: int)
    requires Consistent(w.table, listener) && Activates(w, ip, step, now)
    ensures Possible(w, step) && LegacyIp(ip) in Next(w, listener, step).table.sessions
    ensures Next(w, listener, step).table.sessions[LegacyIp(ip)].lastActivity == now
    ensures step.TouchSession? ==> Continues(w.table, Next(w, listener, step).table, ip)
  {
    if step.TouchSession? {
      KeyIsLegacy(w.table, listener, step.client);
    }
  }

  lemma WithinKeepsActive<S>(w: World<S>, listener: Port -> nat, ip: string, now: int, step: Step<S>)
    requires Consistent(w.table, listener) && Possible(w, step) && Within(ip, now, step)
    requires LegacyIp(ip) in w.table.sessions && now <= w.table.sessions[LegacyIp(ip)].lastActivity
    ensures var t' := Next(w, listener, step).table;
            && Continues(w.table, t', ip) && now <= t'.sessions[LegacyIp(ip)].lastActivity
  {
    hide Resolve, Held;
    if step.TouchSession? {
      KeyIsLegacy(w.table, listener, step.client);
    }
  }

  lemma {:induction false} WithinRunKeepsActive<S>(listener: Port -> nat, steps: seq<Step<S>>, w: World<S>,
                                                   ip: string, now: int)
    requires Consistent(w.table, listener) && Runs(listener, steps, w)
    requires forall i :: 0 <= i < |steps| ==> Within(ip, now, steps[i])
    requires LegacyIp(ip) in w.table.sessions && now <= w.table.sessions[LegacyIp(ip)].lastActivity
    ensures var t' := End(listener, steps, w).table;
            && Continues(w.table, t', ip) && now <= t'.sessions[LegacyIp(ip)].lastActivity
    decreases |steps|
  {
    hide Next, Possible, Within, Consistent;
    if steps != [] {
      var n := |steps| - 1;
      WithinRunKeepsActive(listener, steps[..n], w, ip, now);
      ConsistentAlong(listener, steps[..n], w);
      WithinKeepsActive(End(listener, steps[..n], w), listener, ip, now, steps[n]);
    }
  }

  /**
   * Activity keeps a session: after a packet or a route change marks it at `now`, every sweep up to `now` plus the
   * timeout leaves it, with the same route and the sockets it had then.
   */
  lemma ActiveSessionStays<S>(listener: Port -> nat, w: World<S>, ip: string, step: Step<S>, now: int,
                              steps: seq<Step<S>>)
    requires Consistent(w.table, listener) && Activates(w, ip, step, now) && Possible(w, step)
    requires Runs(listener, steps, Next(w, listener, step))
    requires forall i :: 0 <= i < |steps| ==> Within(ip, now, steps[i])
    ensures LegacyIp(ip) in Next(w, listener, step).table.sessions
    ensures Continues(Next(w, listener, step).table, End(listener, steps, Next(w, listener, step)).table, ip)
    ensures step.TouchSession? ==> Continues(w.table, End(listener, steps, Next(w, listener, step)).table, ip)
  {
    hide Next, Possible, Runs, Consistent, Within;
    ActivatedAt(w, listener, ip, step, now);
    StepConsistent(w, listener, step);
    WithinRunKeepsActive(listener, steps, Next(w, listener, step), ip, now);
  }

  /** The step does not mark the session of this address as active. */
  ghost predicate Idle<S>(ip: string, step: Step<S>) {
    match step
    case UpsertRoute(client, _, _) => client.ip != ip
    case TouchSession(client, _) => client.ip != ip
    case ReplacePart(other, _, _) => other != ip
    case _ => true
  }

  ghost predicate InactiveSince<S>(t: Table<S>, ip: string, now: int) {
    LegacyIp(ip) in t.sessions ==> t.sessions[LegacyIp(ip)].lastActivity == now
  }

  lemma IdleKeepsInactive<S>(w: World<S>, listener: Port -> nat, ip: string, now: int, step: Step<S>)
    requires Consistent(w.table, listener) && Possible(w, step) && Idle(ip, step) && InactiveSince(w.table, ip, now)
    ensures InactiveSince(Next(w, listener, step).table, ip, now)
  {
    hide Resolve, Held;
    if step.TouchSession? {
      KeyIsLegacy(w.table, listener, step.client);
    }
  }

  lemma {:induction false} IdleRunKeepsInactive<S>(listener: Port -> nat, steps: seq<Step<S>>, w: World<S>,
                                                   ip: string, now: int)
    requires Consistent(w.table, listener) && Runs(listener, steps, w) && InactiveSince(w.table, ip, now)
    requires forall i :: 0 <= i < |steps| ==> Idle(ip, steps[i])
    ensures InactiveSince(End(listener, steps, w).table, ip, now)
    decreases |steps|
  {
    hide Next, Possible, Idle, Consistent, InactiveSince;
    if steps != [] {
      var n := |steps| - 1;
      IdleRunKeepsInactive(listener, steps[..n], w, ip, now);
      ConsistentAlong(listener, steps[..n], w);
      IdleKeepsInactive(End(listener, steps[..n], w), listener, ip, now, steps[n]);
    }
  }

  lemma SweepTakesInactive<S>(w: World<S>, listener: Port -> nat, ip: string, now: int, later: int, timeout: nat)
    requires Consistent(w.table, listener) && InactiveSince(w.table, ip, now) && later - now > timeout
    ensures
      var t' := Next(w, listener, SweepOnce(later, timeout)).table;
      && LegacyIp(ip) !in t'.sessions
      && (LegacyIp(ip) in w.table.sessions ==>
            forall slot :: slot in w.table.sessions[LegacyIp(ip)].sockets ==>
              w.table.sessions[LegacyIp(ip)].sockets[slot] in t'.down)
  {
    if LegacyIp(ip) in w.table.sessions {
      assert LegacyIp(ip) in Expired(w.table, later, timeout);
      HeldMore(w.table, Expired(w.table, later, timeout) - {LegacyIp(ip)}, LegacyIp(ip));
      assert Expired(w.table, later, timeout) - {LegacyIp(ip)} + {LegacyIp(ip)} == Expired(w.table, later, timeout);
    }
  }

  /**
   * Without activity a session ends: when neither a packet nor a route change has marked it since `now`, a sweep later
   * than `now` plus the timeout leaves no session for the address and stops every socket it held.
   */
  lemma IdleSessionEnds<S>(listener: Port -> nat, w: World<S>, ip: string, step: Step<S>, now: int,
                           steps: seq<Step<S>>, later: int, timeout: nat)
    requires Consistent(w.table, listener) && Activates(w, ip, step, now) && Possible(w, step)
    requires Runs(listener, steps, Next(w, listener, step))
    requires forall i :: 0 <= i < |steps| ==> Idle(ip, steps[i])
    requires later - now > timeout
    ensures
      var before := End(listener, steps, Next(w, listener, step));
      var after := Next(before, listener, SweepOnce(later, timeout)).table;
      && LegacyIp(ip) !in after.sessions
      && (LegacyIp(ip) in before.table.sessions ==>
            forall slot :: slot in before.table.sessions[LegacyIp(ip)].sockets ==>
              before.table.sessions[LegacyIp(ip)].sockets[slot] in after.down)
  {
    hide Next, Possible, Runs, Consistent, Idle;
    var w1 := Next(w, listener, step);
    ActivatedAt(w, listener, ip, step, now);
    StepConsistent(w, listener, step);
    IdleRunKeepsInactive(listener, steps, w1, ip, now);
    ConsistentAlong(listener, steps, w1);
    SweepTakesInactive(End(listener, steps, w1), listener, ip, now, later, timeout);
  }

  /** Clearing leaves no session, and in an owned table no live socket. */
  lemma ClearingLeavesNothing<S>(w: World<S>, listener: Port -> nat)
    requires Owned(w.table, listener)
    ensures var t' := Next(w, listener, ClearAll).table;
            t'.sessions == map[] && forall s :: s in t'.created ==> s in t'.down
  {
    var t := w.table;
    forall s | s in t.created ensures s in Clear(t).down {
      assert Live(t, s) <==> InPlace(t, s);
    }
  }
}
