/** Turning a selected resource into a forwarding target: address, named ports and the route table. */
module Backend {
  import opened Wrappers
  import opened JsonPath

  type Port = n: int | 0 <= n < 0x1_0000 witness 0

  datatype Protocol = Udp | Tcp

  datatype PortMapping = PortMapping(name: string, portName: Option<string>, portPath: Option<string>)

  datatype Mapping = Mapping(
    addressPath: Option<string>,
    addressType: Option<string>,
    portPath: Option<string>,
    portName: Option<string>,
    ports: Option<seq<PortMapping>>)

  datatype DataPort = DataPort(port: Port, protocol: Protocol, name: string)

  type RouteTable = map<(Port, Protocol), Port>

  datatype Target = Target(address: string, ports: RouteTable)

  // ----- address -----

  function At(json: Json, path: string): Option<Json> {
    match Eval(json, path)
    case Found(value) => Some(value)
    case _ => None
  }

  predicate HasAddress(entry: Json, kind: string) {
    && Field(entry, "type") == Some(Str(kind))
    && Field(entry, "address").Some?
    && Field(entry, "address").value.Str?
  }

  function FirstAddress(entries: seq<Json>, kind: string): Option<string> {
    if entries == [] then None
    else if HasAddress(entries[0], kind) then Some(Field(entries[0], "address").value.s)
    else FirstAddress(entries[1..], kind)
  }

  function AddressOf(resource: Json, path: string, kind: Option<string>): Option<string> {
    match At(resource, path)
    case None => None
    case Some(value) =>
      match kind
      case Some(k) => if value.Arr? then FirstAddress(value.items, k) else None
      case None => if value.Str? then Some(value.s) else None
  }

  /** Entry `i` is the first of the kind. */
  ghost predicate FirstOfKind(entries: seq<Json>, kind: string, i: nat) {
    i < |entries| && HasAddress(entries[i], kind) && forall j :: 0 <= j < i ==> !HasAddress(entries[j], kind)
  }

  /** The address found in a typed list is that of the first entry of the kind; there is none when none is. */
  lemma {:induction false} FirstAddressIsFirst(entries: seq<Json>, kind: string)
    ensures FirstAddress(entries, kind) == None <==> forall i :: 0 <= i < |entries| ==> !HasAddress(entries[i], kind)
    ensures forall i: nat :: FirstOfKind(entries, kind, i) ==>
              Some(Str(FirstAddress(entries, kind).value)) == Field(entries[i], "address")
  {
    if entries != [] && !HasAddress(entries[0], kind) {
      FirstAddressIsFirst(entries[1..], kind);
      forall i: nat | FirstOfKind(entries, kind, i) ensures i > 0 && FirstOfKind(entries[1..], kind, i - 1) {
      }
      assert forall i :: 0 < i < |entries| ==> entries[i] == entries[1..][i - 1];
    }
  }

  /** `panicked` tells whether evaluating the path panics, which ends the request instead of failing the lookup. */
  method ExtractAddress(resource: Json, path: string, kind: Option<string>)
    returns (r: Option<string>, panicked: bool)
    ensures r == AddressOf(resource, path, kind)
    ensures panicked <==> Eval(resource, path) == Panic
  {
    var lookup := ExtractJsonPath(resource, path);
    panicked := lookup == Panic;
    if !lookup.Found? {
      return None, panicked;
    }
    var value := lookup.json;
    if kind == None {
      return if value.Str? then Some(value.s) else None, panicked;
    }
    if !value.Arr? {
      return None, panicked;
    }
    for i := 0 to |value.items|
      invariant FirstAddress(value.items, kind.value) == FirstAddress(value.items[i..], kind.value)
    {
      if HasAddress(value.items[i], kind.value) {
        return Some(Field(value.items[i], "address").value.s), panicked;
      }
    }
    return None, panicked;
  }

  // ----- ports -----

  predicate IsNumber(json: Option<Json>) {
    json.Some? && (json.value.Num? || json.value.Float?)
  }

  /** `as_u64` followed by the conversion to sixteen bits. */
  function ToPort(number: Json): Option<Port> {
    if number.Num? && 0 <= number.n < 0x1_0000 then Some(number.n) else None
  }

  predicate Names(entry: Json, name: string, key: string) {
    Field(entry, "name") == Some(Str(name)) && IsNumber(Field(entry, key))
  }

  /** The number stored under `key` in the first entry called `name` that has one. */
  function FindNumber(entries: seq<Json>, name: string, key: string): Option<Json> {
    if entries == [] then None
    else if Names(entries[0], name, key) then Field(entries[0], key)
    else FindNumber(entries[1..], name, key)
  }

  function Items(json: Option<Json>): seq<Json> {
    if json.Some? && json.value.Arr? then json.value.items else []
  }

  function Sub(json: Option<Json>, name: string): Option<Json> {
    if json.Some? then Field(json.value, name) else None
  }

  function ContainerPorts(containers: seq<Json>): seq<Json> {
    if containers == [] then []
    else Items(Field(containers[0], "ports")) + ContainerPorts(containers[1..])
  }

  /** A named port: `status.ports` first, then the ports of every container in order. */
  function NamedPort(resource: Json, name: string): Option<Port> {
    match FindNumber(Items(Sub(Field(resource, "status"), "ports")), name, "port")
    case Some(number) => ToPort(number)
    case None =>
      match FindNumber(ContainerPorts(Items(Sub(Field(resource, "spec"), "containers"))), name, "containerPort")
      case Some(number) => ToPort(number)
      case None => None
  }

  function PortOf(resource: Json, path: Option<string>, name: Option<string>): Option<Port> {
    match name
    case Some(n) => NamedPort(resource, n)
    case None =>
      match path
      case None => None
      case Some(p) =>
        match At(resource, p)
        case Some(value) => ToPort(value)
        case None => None
  }

  lemma {:induction false} FindNumberAppends(a: seq<Json>, b: seq<Json>, name: string, key: string)
    ensures FindNumber(a + b, name, key) ==
            if FindNumber(a, name, key).Some? then FindNumber(a, name, key) else FindNumber(b, name, key)
  {
    if a == [] {
      assert a + b == b;
    } else {
      assert (a + b)[0] == a[0] && (a + b)[1..] == a[1..] + b;
      FindNumberAppends(a[1..], b, name, key);
    }
  }

  ghost predicate FirstNamed(entries: seq<Json>, name: string, key: string, i: nat) {
    i < |entries| && Names(entries[i], name, key) && forall j :: 0 <= j < i ==> !Names(entries[j], name, key)
  }

  /** The number found is that of the first entry of the name that has one; there is none when none has. */
  lemma {:induction false} FindNumberIsFirst(entries: seq<Json>, name: string, key: string)
    ensures FindNumber(entries, name, key) == None <==> forall i :: 0 <= i < |entries| ==> !Names(entries[i], name, key)
    ensures forall i: nat :: FirstNamed(entries, name, key, i) ==>
              FindNumber(entries, name, key) == Field(entries[i], key)
  {
    if entries != [] && !Names(entries[0], name, key) {
      FindNumberIsFirst(entries[1..], name, key);
      forall i: nat | FirstNamed(entries, name, key, i) ensures i > 0 && FirstNamed(entries[1..], name, key, i - 1) {
      }
      assert forall i :: 0 < i < |entries| ==> entries[i] == entries[1..][i - 1];
    }
  }

  function StatusPorts(resource: Json): seq<Json> {
    Items(Sub(Field(resource, "status"), "ports"))
  }

  function AllContainerPorts(resource: Json): seq<Json> {
    ContainerPorts(Items(Sub(Field(resource, "spec"), "containers")))
  }

  /** A named port is the first match among the status ports, and only failing that among the container ports. */
  lemma NamedPortIsFirst(resource: Json, name: string)
    ensures forall i: nat :: FirstNamed(StatusPorts(resource), name, "port", i) ==>
              NamedPort(resource, name) == ToPort(Field(StatusPorts(resource)[i], "port").value)
    ensures (forall e :: e in StatusPorts(resource) ==> !Names(e, name, "port")) ==>
              && (forall i: nat :: FirstNamed(AllContainerPorts(resource), name, "containerPort", i) ==>
                    NamedPort(resource, name) == ToPort(Field(AllContainerPorts(resource)[i], "containerPort").value))
              && ((forall e :: e in AllContainerPorts(resource) ==> !Names(e, name, "containerPort")) ==>
                    NamedPort(resource, name) == None)
  {
    hide FindNumber, ContainerPorts;
    FindNumberIsFirst(StatusPorts(resource), name, "port");
    FindNumberIsFirst(AllContainerPorts(resource), name, "containerPort");
    assert forall i :: 0 <= i < |StatusPorts(resource)| ==> StatusPorts(resource)[i] in StatusPorts(resource);
    assert forall i :: 0 <= i < |AllContainerPorts(resource)| ==>
             AllContainerPorts(resource)[i] in AllContainerPorts(resource);
  }

  method SearchPorts(entries: seq<Json>, name: string, key: string) returns (r: Option<Json>)
    ensures r == FindNumber(entries, name, key)
  {
    for i := 0 to |entries|
      invariant FindNumber(entries, name, key) == FindNumber(entries[i..], name, key)
    {
      if Names(entries[i], name, key) {
        return Field(entries[i], key);
      }
    }
    return None;
  }

  /** A port is read by path only when no name is configured. */
  predicate PortPanics(resource: Json, path: Option<string>, name: Option<string>) {
    name == None && path.Some? && Eval(resource, path.value) == Panic
  }

  method SearchContainers(containers: seq<Json>, name: string) returns (r: Option<Json>)
    ensures r == FindNumber(ContainerPorts(containers), name, "containerPort")
  {
    hide Names;
    for i := 0 to |containers|
      invariant FindNumber(ContainerPorts(containers), name, "containerPort") ==
                FindNumber(ContainerPorts(containers[i..]), name, "containerPort")
    {
      var ports := Items(Field(containers[i], "ports"));
      assert containers[i..][1..] == containers[i + 1..];
      FindNumberAppends(ports, ContainerPorts(containers[i + 1..]), name, "containerPort");
      var found := SearchPorts(ports, name, "containerPort");
      if found.Some? {
        return found;
      }
    }
    return None;
  }

  /** The status ports are searched before the containers; a path is only used when no name is configured. */
  method ExtractPort(resource: Json, path: Option<string>, name: Option<string>)
    returns (r: Option<Port>, panicked: bool)
    ensures r == PortOf(resource, path, name)
    ensures panicked <==> PortPanics(resource, path, name)
  {
    hide FindNumber, ContainerPorts, Eval;
    if name.Some? {
      var found := SearchPorts(StatusPorts(resource), name.value, "port");
      if found.Some? {
        return ToPort(found.value), false;
      }
      found := SearchContainers(Items(Sub(Field(resource, "spec"), "containers")), name.value);
      if found.Some? {
        return ToPort(found.value), false;
      }
      return None, false;
    }
    if path == None {
      return None, false;
    }
    var value := ExtractJsonPath(resource, path.value);
    return if value.Found? then ToPort(value.json) else None, value == Panic;
  }

  /** All configured ports by name, later mappings winning; nothing when one cannot be resolved. */
  function PortsOf(resource: Json, mappings: seq<PortMapping>): Option<map<string, Port>> {
    if mappings == [] then Some(map[])
    else
      var last := mappings[|mappings| - 1];
      match PortsOf(resource, mappings[..|mappings| - 1])
      case None => None
      case Some(ports) =>
        match PortOf(resource, last.portPath, last.portName)
        case None => None
        case Some(port) => Some(ports[last.name := port])
  }

  lemma {:induction false} PortsOfPrefix(resource: Json, mappings: seq<PortMapping>, i: nat)
    requires i <= |mappings| && PortsOf(resource, mappings[..i]) == None
    ensures PortsOf(resource, mappings) == None
    decreases |mappings| - i
  {
    if i < |mappings| {
      assert mappings[..i + 1][..i] == mappings[..i];
      PortsOfPrefix(resource, mappings, i + 1);
    } else {
      assert mappings[..i] == mappings;
    }
  }

  /** Mapping `i` is the last one of the name. */
  ghost predicate LastOfName(mappings: seq<PortMapping>, i: nat, name: string) {
    i < |mappings| && mappings[i].name == name && forall j :: i < j < |mappings| ==> mappings[j].name != name
  }

  /** There are ports exactly when every mapping resolves; each name, and no other, has the port of its last mapping. */
  lemma {:induction false} PortsOfIs(resource: Json, mappings: seq<PortMapping>)
    ensures PortsOf(resource, mappings).Some? <==>
            forall m :: m in mappings ==> PortOf(resource, m.portPath, m.portName).Some?
    ensures PortsOf(resource, mappings).Some? ==>
              && (forall name :: name in PortsOf(resource, mappings).value <==>
                  exists m :: m in mappings && m.name == name)
              && (forall i: nat, name | name in PortsOf(resource, mappings).value ::
                    LastOfName(mappings, i, name) ==>
                    Some(PortsOf(resource, mappings).value[name])
                    == PortOf(resource, mappings[i].portPath, mappings[i].portName))
  {
    if mappings != [] {
      var n := |mappings| - 1;
      var before := mappings[..n];
      PortsOfIs(resource, before);
      assert mappings == before + [mappings[n]];
      forall i: nat, name | LastOfName(mappings, i, name) && i < n
        ensures LastOfName(before, i, name) && before[i] == mappings[i] && name != mappings[n].name
      {
      }
    }
  }

  /** The first mapping that does not resolve is one whose path panics. */
  ghost predicate PortsPanic(resource: Json, mappings: seq<PortMapping>) {
    exists i :: 0 <= i < |mappings| && PortsOf(resource, mappings[..i]).Some? &&
                PortPanics(resource, mappings[i].portPath, mappings[i].portName)
  }

  lemma StopsAtFirst(resource: Json, mappings: seq<PortMapping>, i: nat)
    requires i < |mappings| && PortsOf(resource, mappings[..i]).Some?
    requires PortOf(resource, mappings[i].portPath, mappings[i].portName) == None
    ensures PortsOf(resource, mappings) == None
    ensures PortsPanic(resource, mappings) <==> PortPanics(resource, mappings[i].portPath, mappings[i].portName)
  {
    hide PortOf;
    assert mappings[..i + 1][..i] == mappings[..i];
    PortsOfPrefix(resource, mappings, i + 1);
    forall j | 0 <= j < |mappings| && PortsOf(resource, mappings[..j]).Some? &&
               PortPanics(resource, mappings[j].portPath, mappings[j].portName)
      ensures j == i
    {
      if j > i {
        assert mappings[..j][..i + 1] == mappings[..i + 1];
        PortsOfPrefix(resource, mappings[..j], i + 1);
      } else if j < i {
        PanickingPortFails(resource, mappings[j].portPath, mappings[j].portName);
        assert mappings[..i][..j + 1][..j] == mappings[..j];
        PortsOfPrefix(resource, mappings[..i], j + 1);
      }
    }
  }

  lemma PanickingPortFails(resource: Json, path: Option<string>, name: Option<string>)
    ensures PortPanics(resource, path, name) ==> PortOf(resource, path, name) == None
  {
  }

  lemma ResolvedPortsDoNotPanic(resource: Json, mappings: seq<PortMapping>)
    requires PortsOf(resource, mappings).Some?
    ensures !PortsPanic(resource, mappings)
  {
    hide PortOf, PortPanics, PortsOf;
    PortsOfIs(resource, mappings);
    forall j | 0 <= j < |mappings| ensures !PortPanics(resource, mappings[j].portPath, mappings[j].portName) {
      assert mappings[j] in mappings;
      PanickingPortFails(resource, mappings[j].portPath, mappings[j].portName);
    }
  }

  /** Reading stops at the first mapping that does not resolve; it panics exactly when that one's path does. */
  method ExtractPorts(resource: Json, mappings: seq<PortMapping>) returns (r: Option<map<string, Port>>, panicked: bool)
    ensures r == PortsOf(resource, mappings)
    ensures panicked <==> PortsPanic(resource, mappings)
  {
    hide PortOf, PortPanics, PortsPanic;
    var ports: map<string, Port> := map[];
    for i := 0 to |mappings|
      invariant PortsOf(resource, mappings[..i]) == Some(ports)
    {
      var port, panics := ExtractPort(resource, mappings[i].portPath, mappings[i].portName);
      if port == None {
        StopsAtFirst(resource, mappings, i);
        return None, panics;
      }
      assert mappings[..i + 1][..i] == mappings[..i];
      ports := ports[mappings[i].name := port.value];
    }
    assert mappings[..|mappings|] == mappings;
    ResolvedPortsDoNotPanic(resource, mappings);
    return Some(ports), false;
  }

  // ----- route tables -----

  /** The routes of the data ports whose name resolves; a repeated listener keeps its last entry. */
  function RoutesFor(dataPorts: seq<DataPort>, ports: map<string, Port>): RouteTable {
    if dataPorts == [] then map[]
    else
      var last := dataPorts[|dataPorts| - 1];
      var routes := RoutesFor(dataPorts[..|dataPorts| - 1], ports);
      if last.name in ports then routes[(last.port, last.protocol) := ports[last.name]] else routes
  }

  /** Every data port mapped to the one backend port. */
  function SinglePort(dataPorts: seq<DataPort>, port: Port): map<string, Port> {
    map d | d in dataPorts :: d.name := port
  }

  predicate Covered(dataPorts: seq<DataPort>, ports: map<string, Port>) {
    forall d :: d in dataPorts ==> d.name in ports
  }

  /** The backend port of each data port name, as either route builder resolves it. */
  function PortsByName(mapping: Mapping, dataPorts: seq<DataPort>, resource: Json): Option<map<string, Port>> {
    match mapping.ports
    case Some(mappings) => PortsOf(resource, mappings)
    case None =>
      match PortOf(resource, mapping.portPath, mapping.portName)
      case None => None
      case Some(port) => Some(SinglePort(dataPorts, port))
  }

  /** What an access query installs: an address and a table covering every data port, or nothing. */
  function QueryTarget(mapping: Mapping, dataPorts: seq<DataPort>, resource: Json): Option<Target> {
    match mapping.addressPath
    case None => None
    case Some(path) =>
      match AddressOf(resource, path, mapping.addressType)
      case None => None
      case Some(address) =>
        match PortsByName(mapping, dataPorts, resource)
        case None => None
        case Some(ports) =>
          if dataPorts != [] && Covered(dataPorts, ports)
          then Some(Target(address, RoutesFor(dataPorts, ports)))
          else None
  }

  /** The access query's builder: it stops at the first data port without a backend port. */
  method BuildQueryTarget(mapping: Mapping, dataPorts: seq<DataPort>, resource: Json) returns (r: Option<Target>)
    ensures r == QueryTarget(mapping, dataPorts, resource)
  {
    hide PortOf, PortsOf, AddressOf;
    if mapping.addressPath == None {
      return None;
    }
    var address, _ := ExtractAddress(resource, mapping.addressPath.value, mapping.addressType);
    if address == None {
      return None;
    }
    var ports: map<string, Port>;
    if mapping.ports.Some? {
      var named, _ := ExtractPorts(resource, mapping.ports.value);
      if named == None {
        return None;
      }
      ports := named.value;
    } else {
      var port, _ := ExtractPort(resource, mapping.portPath, mapping.portName);
      if port == None {
        return None;
      }
      ports := SinglePort(dataPorts, port.value);
    }
    var routes := CollectRoutes(dataPorts, ports);
    if routes == None || routes.value == map[] {
      return None;
    }
    return Some(Target(address.value, routes.value));
  }

  /** The loop over the data ports: a missing backend port fails the whole table. */
  method CollectRoutes(dataPorts: seq<DataPort>, ports: map<string, Port>) returns (r: Option<RouteTable>)
    ensures r.Some? <==> Covered(dataPorts, ports)
    ensures r.Some? ==> r.value == RoutesFor(dataPorts, ports)
    ensures r.Some? ==> (r.value == map[] <==> dataPorts == [])
  {
    var routes: RouteTable := map[];
    for i := 0 to |dataPorts|
      invariant routes == RoutesFor(dataPorts[..i], ports)
      invariant Covered(dataPorts[..i], ports)
      invariant i > 0 ==> (dataPorts[i - 1].port, dataPorts[i - 1].protocol) in routes
    {
      assert dataPorts[..i + 1][..i] == dataPorts[..i];
      if dataPorts[i].name !in ports {
        assert dataPorts[i] in dataPorts;
        return None;
      }
      routes := routes[(dataPorts[i].port, dataPorts[i].protocol) := ports[dataPorts[i].name]];
    }
    assert dataPorts[..|dataPorts|] == dataPorts;
    return Some(routes);
  }

  /** What the default endpoint path installs. */
  function DefaultTarget(mapping: Mapping, dataPorts: seq<DataPort>, resource: Json): Option<Target> {
    match mapping.addressPath
    case None => None
    case Some(path) =>
      match AddressOf(resource, path, mapping.addressType)
      case None => None
      case Some(address) =>
        match PortsByName(mapping, dataPorts, resource)
        case None => None
        case Some(ports) => Some(Target(address, RoutesFor(dataPorts, ports)))
  }

  /** The default endpoint's builder: data ports without a backend port are skipped. */
  method BuildDefaultTarget(mapping: Mapping, dataPorts: seq<DataPort>, resource: Json) returns (r: Option<Target>)
    ensures r == DefaultTarget(mapping, dataPorts, resource)
  {
    hide PortOf, PortsOf, AddressOf;
    if mapping.addressPath == None {
      return None;
    }
    var address, _ := ExtractAddress(resource, mapping.addressPath.value, mapping.addressType);
    if address == None {
      return None;
    }
    var routes: RouteTable := map[];
    if mapping.ports.Some? {
      var named, _ := ExtractPorts(resource, mapping.ports.value);
      if named == None {
        return None;
      }
      for i := 0 to |dataPorts|
        invariant routes == RoutesFor(dataPorts[..i], named.value)
      {
        assert dataPorts[..i + 1][..i] == dataPorts[..i];
        if dataPorts[i].name in named.value {
          routes := routes[(dataPorts[i].port, dataPorts[i].protocol) := named.value[dataPorts[i].name]];
        }
      }
    } else {
      var port, _ := ExtractPort(resource, mapping.portPath, mapping.portName);
      if port == None {
        return None;
      }
      for i := 0 to |dataPorts|
        invariant routes == RoutesFor(dataPorts[..i], SinglePort(dataPorts, port.value))
      {
        assert dataPorts[..i + 1][..i] == dataPorts[..i];
        assert dataPorts[i] in dataPorts;
        routes := routes[(dataPorts[i].port, dataPorts[i].protocol) := port.value];
      }
    }
    assert dataPorts[..|dataPorts|] == dataPorts;
    return Some(Target(address.value, routes));
  }

  /** A route table has exactly the listeners of data ports whose name resolves. */
  lemma {:induction false} RoutesForCovers(dataPorts: seq<DataPort>, ports: map<string, Port>)
    ensures forall key :: key in RoutesFor(dataPorts, ports) <==>
              exists d :: d in dataPorts && d.name in ports && key == (d.port, d.protocol)
  {
    if dataPorts != [] {
      RoutesForCovers(dataPorts[..|dataPorts| - 1], ports);
      assert dataPorts == dataPorts[..|dataPorts| - 1] + [dataPorts[|dataPorts| - 1]];
    }
  }

  /** Each listener of a route table is fed by the last data port configured for it. */
  lemma {:induction false} RoutesForLast(dataPorts: seq<DataPort>, ports: map<string, Port>, i: nat)
    requires i < |dataPorts| && dataPorts[i].name in ports
    requires forall j :: i < j < |dataPorts| ==>
               (dataPorts[j].port, dataPorts[j].protocol) != (dataPorts[i].port, dataPorts[i].protocol)
    ensures (dataPorts[i].port, dataPorts[i].protocol) in RoutesFor(dataPorts, ports)
    ensures RoutesFor(dataPorts, ports)[(dataPorts[i].port, dataPorts[i].protocol)] == ports[dataPorts[i].name]
  {
    if i < |dataPorts| - 1 {
      RoutesForLast(dataPorts[..|dataPorts| - 1], ports, i);
    }
  }

  /** With distinct listeners, a query's route table sends each one to its own named backend port. */
  lemma EveryDataPortResolves(mapping: Mapping, dataPorts: seq<DataPort>, resource: Json)
    requires forall i, j :: 0 <= i < j < |dataPorts| ==>
               (dataPorts[i].port, dataPorts[i].protocol) != (dataPorts[j].port, dataPorts[j].protocol)
    requires QueryTarget(mapping, dataPorts, resource).Some?
    ensures forall d :: d in dataPorts ==>
              && d.name in PortsByName(mapping, dataPorts, resource).value
              && (d.port, d.protocol) in QueryTarget(mapping, dataPorts, resource).value.ports
              && QueryTarget(mapping, dataPorts, resource).value.ports[(d.port, d.protocol)]
                 == PortsByName(mapping, dataPorts, resource).value[d.name]
  {
    var ports := PortsByName(mapping, dataPorts, resource).value;
    forall d | d in dataPorts
      ensures d.name in ports && (d.port, d.protocol) in RoutesFor(dataPorts, ports)
      ensures RoutesFor(dataPorts, ports)[(d.port, d.protocol)] == ports[d.name]
    {
      var i :| 0 <= i < |dataPorts| && dataPorts[i] == d;
      RoutesForLast(dataPorts, ports, i);
    }
  }

  /**
   * The two builders on the same resource and configuration: the query succeeds exactly when the default
   * endpoint does and every data port of a non-empty list is covered, and then they install the same target.
   */
  lemma BuildersAgree(mapping: Mapping, dataPorts: seq<DataPort>, resource: Json)
    ensures
      var query := QueryTarget(mapping, dataPorts, resource);
      var fallback := DefaultTarget(mapping, dataPorts, resource);
      && (query.Some? ==> query == fallback)
      && (query.Some? <==> fallback.Some? && dataPorts != []
                           && Covered(dataPorts, PortsByName(mapping, dataPorts, resource).value))
      && (mapping.ports == None && dataPorts != [] ==> query == fallback)
  {
    var ports := PortsByName(mapping, dataPorts, resource);
    if mapping.ports == None && ports.Some? {
      assert Covered(dataPorts, ports.value);
    }
  }

  // ----- the readers, said on the JSON itself -----

  /** The object has this value under this name. */
  predicate Has(json: Json, name: string, value: Json) {
    json.Obj? && name in json.fields && json.fields[name] == value
  }

  /** An entry of this type with a textual address. */
  ghost predicate TypedAddress(entry: Json, kind: string, address: string) {
    Has(entry, "type", Str(kind)) && Has(entry, "address", Str(address))
  }

  lemma HasAddressExactly(entry: Json, kind: string)
    ensures HasAddress(entry, kind) <==> exists address :: TypedAddress(entry, kind, address)
    ensures forall address :: TypedAddress(entry, kind, address) ==> Field(entry, "address") == Some(Str(address))
  {
    if HasAddress(entry, kind) {
      assert TypedAddress(entry, kind, entry.fields["address"].s);
    }
  }

  /** Entry `i` is the first of the type that has an address. */
  ghost predicate FirstTyped(entries: seq<Json>, kind: string, i: nat, address: string) {
    && i < |entries| && TypedAddress(entries[i], kind, address)
    && forall j, other :: 0 <= j < i ==> !TypedAddress(entries[j], kind, other)
  }

  /** The address read: the text at the path, or that of the first entry of the type in the array at the path. */
  lemma AddressExactly(resource: Json, path: string, kind: Option<string>, address: string)
    ensures AddressOf(resource, path, kind) == Some(address) <==>
            && Eval(resource, path).Found?
            && var value := Eval(resource, path).json;
               match kind
               case None => value == Str(address)
               case Some(k) =>
                 value.Arr? && exists i: nat :: FirstTyped(value.items, k, i, address)
  {
    hide Eval, HasAddress;
    if Eval(resource, path).Found? && kind.Some? && Eval(resource, path).json.Arr? {
      FirstTypedAddress(Eval(resource, path).json.items, kind.value, address);
    }
  }

  lemma {:induction false} FirstTypedAddress(entries: seq<Json>, kind: string, address: string)
    ensures FirstAddress(entries, kind) == Some(address) <==> exists i: nat :: FirstTyped(entries, kind, i, address)
  {
    hide HasAddress, TypedAddress;
    forall entry ensures HasAddress(entry, kind) <==> exists a :: TypedAddress(entry, kind, a) {
      HasAddressExactly(entry, kind);
    }
    if entries != [] {
      HasAddressExactly(entries[0], kind);
      if HasAddress(entries[0], kind) {
        assert TypedAddress(entries[0], kind, address) ==> FirstTyped(entries, kind, 0, address);
      } else {
        FirstTypedAddress(entries[1..], kind, address);
        if i: nat :| FirstTyped(entries, kind, i, address) {
          assert forall j :: 0 <= j < i - 1 ==> entries[1..][j] == entries[j + 1];
          assert FirstTyped(entries[1..], kind, i - 1, address);
        }
        if i: nat :| FirstTyped(entries[1..], kind, i, address) {
          assert forall j :: 0 < j < i + 1 ==> entries[j] == entries[1..][j - 1];
          assert FirstTyped(entries, kind, i + 1, address);
        }
      }
    }
  }

  /** A number is a port exactly when it is whole and below 65536. */
  lemma PortNumberExactly(number: Json, port: int)
    ensures ToPort(number).Some? && ToPort(number).value == port <==> number == Num(port) && 0 <= port < 65536
  {
  }

  /** Without a name the port is the number at the path. */
  lemma PortAtPathExactly(resource: Json, path: string, port: Port)
    ensures PortOf(resource, Some(path), None) == Some(port) <==> Eval(resource, path) == Found(Num(port))
    ensures PortOf(resource, None, None) == None
  {
    hide Eval;
  }

  /** An entry of this name whose value under the key is a number. */
  ghost predicate NamedNumber(entry: Json, name: string, key: string, number: Json) {
    Has(entry, "name", Str(name)) && Has(entry, key, number) && (number.Num? || number.Float?)
  }

  lemma NamesExactly(entry: Json, name: string, key: string)
    ensures Names(entry, name, key) <==> exists number :: NamedNumber(entry, name, key, number)
    ensures forall number :: NamedNumber(entry, name, key, number) ==> Field(entry, key) == Some(number)
  {
    if Names(entry, name, key) {
      assert NamedNumber(entry, name, key, entry.fields[key]);
    }
  }

  /** Entry `i` is the first with a number for the name. */
  ghost predicate FirstNumber(entries: seq<Json>, name: string, key: string, i: nat, number: Json) {
    && i < |entries| && NamedNumber(entries[i], name, key, number)
    && forall j, other :: 0 <= j < i ==> !NamedNumber(entries[j], name, key, other)
  }

  lemma FirstNumberIsFound(entries: seq<Json>, name: string, key: string, i: nat, number: Json)
    requires FirstNumber(entries, name, key, i, number)
    ensures FindNumber(entries, name, key) == Some(number)
  {
    hide Names, NamedNumber, FindNumber;
    forall e ensures Names(e, name, key) <==> exists n :: NamedNumber(e, name, key, n) {
      NamesExactly(e, name, key);
    }
    NamesExactly(entries[i], name, key);
    FindNumberIsFirst(entries, name, key);
    assert FirstNamed(entries, name, key, i);
  }

  /** A named port listed in the resource's status is that entry's number. */
  lemma NamedPortInStatus(resource: Json, status: Json, entries: seq<Json>, name: string, i: nat, number: Json)
    requires Has(resource, "status", status) && Has(status, "ports", Arr(entries))
    requires FirstNumber(entries, name, "port", i, number)
    ensures NamedPort(resource, name) == ToPort(number)
  {
    hide FindNumber, FirstNumber;
    FirstNumberIsFound(entries, name, "port", i, number);
  }

  /** The container has no number for the name. */
  ghost predicate LacksNumber(container: Json, name: string) {
    forall entries, j, number :: Has(container, "ports", Arr(entries)) && 0 <= j < |entries| ==>
      !NamedNumber(entries[j], name, "containerPort", number)
  }

  /** Otherwise it is the first number for the name, container by container. */
  lemma NamedPortInContainer(resource: Json, spec: Json, containers: seq<Json>, name: string, k: nat,
                             entries: seq<Json>, i: nat, number: Json)
    requires forall status, listed, j, n ::
               Has(resource, "status", status) && Has(status, "ports", Arr(listed)) && 0 <= j < |listed| ==>
                 !NamedNumber(listed[j], name, "port", n)
    requires Has(resource, "spec", spec) && Has(spec, "containers", Arr(containers))
    requires k < |containers| && Has(containers[k], "ports", Arr(entries))
    requires FirstNumber(entries, name, "containerPort", i, number)
    requires forall c :: 0 <= c < k ==> LacksNumber(containers[c], name)
    ensures NamedPort(resource, name) == ToPort(number)
  {
    hide FindNumber, FirstNumber, ContainerPorts;
    NoStatusNumber(resource, name);
    FirstContainerNumber(containers, name, k, entries, i, number);
  }

  lemma NoStatusNumber(resource: Json, name: string)
    requires forall status, listed, j, n ::
               Has(resource, "status", status) && Has(status, "ports", Arr(listed)) && 0 <= j < |listed| ==>
                 !NamedNumber(listed[j], name, "port", n)
    ensures FindNumber(Items(Sub(Field(resource, "status"), "ports")), name, "port") == None
  {
    hide FindNumber;
    var listed := Items(Sub(Field(resource, "status"), "ports"));
    FindNumberIsFirst(listed, name, "port");
    forall j | 0 <= j < |listed| ensures !Names(listed[j], name, "port") {
      NamesExactly(listed[j], name, "port");
      assert Has(resource, "status", resource.fields["status"]);
      assert Has(resource.fields["status"], "ports", Arr(listed));
    }
  }

  lemma {:induction false} FirstContainerNumber(containers: seq<Json>, name: string, k: nat, entries: seq<Json>,
                                                i: nat, number: Json)
    requires k < |containers| && Has(containers[k], "ports", Arr(entries))
    requires FirstNumber(entries, name, "containerPort", i, number)
    requires forall c :: 0 <= c < k ==> LacksNumber(containers[c], name)
    ensures FindNumber(ContainerPorts(containers), name, "containerPort") == Some(number)
  {
    hide FindNumber, FirstNumber, LacksNumber;
    var first := Items(Field(containers[0], "ports"));
    FindNumberAppends(first, ContainerPorts(containers[1..]), name, "containerPort");
    if k == 0 {
      FirstNumberIsFound(entries, name, "containerPort", i, number);
    } else {
      LackingFindsNothing(containers[0], name);
      FirstContainerNumber(containers[1..], name, k - 1, entries, i, number);
    }
  }

  lemma LackingFindsNothing(container: Json, name: string)
    requires LacksNumber(container, name)
    ensures FindNumber(Items(Field(container, "ports")), name, "containerPort") == None
  {
    hide FindNumber;
    var entries := Items(Field(container, "ports"));
    FindNumberIsFirst(entries, name, "containerPort");
    forall j | 0 <= j < |entries| ensures !Names(entries[j], name, "containerPort") {
      NamesExactly(entries[j], name, "containerPort");
      assert Has(container, "ports", Arr(entries));
    }
  }

  // ----- what a query installs -----

  /** The backend port a data port's name stands for: one for all, or that of the last mapping of the name. */
  ghost predicate StandsFor(mapping: Mapping, resource: Json, name: string, port: Port) {
    match mapping.ports
    case None => PortOf(resource, mapping.portPath, mapping.portName) == Some(port)
    case Some(mappings) =>
      && (forall m :: m in mappings ==> PortOf(resource, m.portPath, m.portName).Some?)
      && exists i: nat :: LastOfName(mappings, i, name)
                          && PortOf(resource, mappings[i].portPath, mappings[i].portName) == Some(port)
  }

  lemma PortsByNameExactly(mapping: Mapping, dataPorts: seq<DataPort>, resource: Json, d: DataPort, port: Port)
    requires d in dataPorts
    ensures StandsFor(mapping, resource, d.name, port) <==>
            var ports := PortsByName(mapping, dataPorts, resource);
            ports.Some? && d.name in ports.value && ports.value[d.name] == port
  {
    hide PortOf, PortsOf, LastOfName;
    if mapping.ports.Some? {
      PortsOfIs(resource, mapping.ports.value);
      if PortsOf(resource, mapping.ports.value).Some? && d.name in PortsOf(resource, mapping.ports.value).value {
        var i := LastIndex(mapping.ports.value, d.name);
        assert LastOfName(mapping.ports.value, i, d.name);
      }
      forall i: nat | LastOfName(mapping.ports.value, i, d.name)
        ensures i < |mapping.ports.value| && mapping.ports.value[i] in mapping.ports.value
        ensures mapping.ports.value[i].name == d.name
      {
        LastIsThere(mapping.ports.value, i, d.name);
      }
    }
  }

  lemma LastIsThere(mappings: seq<PortMapping>, i: nat, name: string)
    requires LastOfName(mappings, i, name)
    ensures i < |mappings| && mappings[i].name == name
  {
  }

  lemma {:induction false} LastIndex(mappings: seq<PortMapping>, name: string) returns (i: nat)
    requires exists m :: m in mappings && m.name == name
    ensures LastOfName(mappings, i, name)
  {
    var n := |mappings| - 1;
    if mappings[n].name == name {
      i := n;
    } else {
      assert mappings == mappings[..n] + [mappings[n]];
      i := LastIndex(mappings[..n], name);
    }
  }

  /**
   * What an access query installs, exactly: there is a target when the address can be read, there is a data port, and
   * every data port's name stands for a backend port; its address is the one read, its listeners are those of the
   * data ports, and each goes to the backend port of the last data port configured for it.
   */
  lemma QueryTargetExactly(mapping: Mapping, dataPorts: seq<DataPort>, resource: Json)
    ensures
      var target := QueryTarget(mapping, dataPorts, resource);
      && (target.Some? <==>
            && mapping.addressPath.Some? && AddressOf(resource, mapping.addressPath.value, mapping.addressType).Some?
            && dataPorts != []
            && forall d :: d in dataPorts ==> exists port :: StandsFor(mapping, resource, d.name, port))
      && (target.Some? ==>
            && AddressOf(resource, mapping.addressPath.value, mapping.addressType) == Some(target.value.address)
            && (forall key :: key in target.value.ports <==> exists d :: d in dataPorts && key == (d.port, d.protocol))
            && forall i: nat :: LastForListener(dataPorts, i) ==>
                 var key := (dataPorts[i].port, dataPorts[i].protocol);
                 key in target.value.ports && StandsFor(mapping, resource, dataPorts[i].name, target.value.ports[key]))
  {
    hide AddressOf, PortOf, PortsByName, RoutesFor, StandsFor, LastForListener;
    var ports := PortsByName(mapping, dataPorts, resource);
    forall d, port | d in dataPorts
      ensures StandsFor(mapping, resource, d.name, port) <==>
                ports.Some? && d.name in ports.value && ports.value[d.name] == port
    {
      PortsByNameExactly(mapping, dataPorts, resource, d, port);
    }
    if ports.Some? {
      CoveredExactly(mapping, dataPorts, resource);
      RoutesForCovers(dataPorts, ports.value);
      if Covered(dataPorts, ports.value) {
        forall i: nat | LastForListener(dataPorts, i)
          ensures i < |dataPorts|
          ensures (dataPorts[i].port, dataPorts[i].protocol) in RoutesFor(dataPorts, ports.value)
          ensures StandsFor(mapping, resource, dataPorts[i].name,
                            RoutesFor(dataPorts, ports.value)[(dataPorts[i].port, dataPorts[i].protocol)])
        {
          ListenerLast(dataPorts, ports.value, i);
          assert dataPorts[i] in dataPorts;
        }
      }
    } else if dataPorts != [] {
      assert dataPorts[0] in dataPorts;
    }
  }

  lemma CoveredExactly(mapping: Mapping, dataPorts: seq<DataPort>, resource: Json)
    requires PortsByName(mapping, dataPorts, resource).Some?
    ensures Covered(dataPorts, PortsByName(mapping, dataPorts, resource).value) <==>
            forall d :: d in dataPorts ==> exists port :: StandsFor(mapping, resource, d.name, port)
  {
    hide PortsByName, StandsFor;
    var ports := PortsByName(mapping, dataPorts, resource).value;
    forall d | d in dataPorts
      ensures d.name in ports <==> exists port :: StandsFor(mapping, resource, d.name, port)
    {
      if d.name in ports {
        PortsByNameExactly(mapping, dataPorts, resource, d, ports[d.name]);
      }
      if port :| StandsFor(mapping, resource, d.name, port) {
        PortsByNameExactly(mapping, dataPorts, resource, d, port);
      }
    }
  }

  /** Data port `i` is the last one configured for its listener. */
  ghost predicate LastForListener(dataPorts: seq<DataPort>, i: nat) {
    && i < |dataPorts|
    && forall j :: i < j < |dataPorts| ==>
         (dataPorts[j].port, dataPorts[j].protocol) != (dataPorts[i].port, dataPorts[i].protocol)
  }

  lemma ListenerLast(dataPorts: seq<DataPort>, ports: map<string, Port>, i: nat)
    requires LastForListener(dataPorts, i) && Covered(dataPorts, ports)
    ensures i < |dataPorts| && dataPorts[i].name in ports
    ensures (dataPorts[i].port, dataPorts[i].protocol) in RoutesFor(dataPorts, ports)
    ensures RoutesFor(dataPorts, ports)[(dataPorts[i].port, dataPorts[i].protocol)] == ports[dataPorts[i].name]
  {
    hide RoutesFor;
    assert dataPorts[i] in dataPorts;
    RoutesForLast(dataPorts, ports, i);
  }

  /**
   * What the default route installs, exactly: there is a target when the address and every configured mapping can be
   * read; its listeners are those of the data ports whose name stands for a backend port, and each goes to that of
   * the last data port configured for it.
   */
  lemma DefaultTargetExactly(mapping: Mapping, dataPorts: seq<DataPort>, resource: Json)
    ensures
      var target := DefaultTarget(mapping, dataPorts, resource);
      && (target.Some? <==>
            && mapping.addressPath.Some? && AddressOf(resource, mapping.addressPath.value, mapping.addressType).Some?
            && match mapping.ports
               case None => PortOf(resource, mapping.portPath, mapping.portName).Some?
               case Some(mappings) => forall m :: m in mappings ==> PortOf(resource, m.portPath, m.portName).Some?)
      && (target.Some? ==>
            && AddressOf(resource, mapping.addressPath.value, mapping.addressType) == Some(target.value.address)
            && (forall key :: key in target.value.ports <==>
                  exists d, port :: d in dataPorts && key == (d.port, d.protocol)
                                    && StandsFor(mapping, resource, d.name, port))
            && forall i: nat, port | LastForListener(dataPorts, i) ::
                 StandsFor(mapping, resource, dataPorts[i].name, port) ==>
                   && (dataPorts[i].port, dataPorts[i].protocol) in target.value.ports
                   && target.value.ports[(dataPorts[i].port, dataPorts[i].protocol)] == port)
  {
    hide AddressOf, PortOf, PortsOf, RoutesFor, StandsFor;
    var ports := PortsByName(mapping, dataPorts, resource);
    if mapping.ports.Some? {
      PortsOfIs(resource, mapping.ports.value);
    }
    forall d, port | d in dataPorts
      ensures StandsFor(mapping, resource, d.name, port) <==>
                ports.Some? && d.name in ports.value && ports.value[d.name] == port
    {
      PortsByNameExactly(mapping, dataPorts, resource, d, port);
    }
    if ports.Some? {
      RoutesForCovers(dataPorts, ports.value);
      forall key
        ensures key in RoutesFor(dataPorts, ports.value) <==>
                exists d, port :: d in dataPorts && key == (d.port, d.protocol)
                                  && StandsFor(mapping, resource, d.name, port)
      {
        if key in RoutesFor(dataPorts, ports.value) {
          var d :| d in dataPorts && d.name in ports.value && key == (d.port, d.protocol);
          assert StandsFor(mapping, resource, d.name, ports.value[d.name]);
        }
      }
      forall i: nat, port | LastForListener(dataPorts, i) && StandsFor(mapping, resource, dataPorts[i].name, port)
        ensures (dataPorts[i].port, dataPorts[i].protocol) in RoutesFor(dataPorts, ports.value)
        ensures RoutesFor(dataPorts, ports.value)[(dataPorts[i].port, dataPorts[i].protocol)] == port
      {
        assert dataPorts[i] in dataPorts;
        RoutesForLast(dataPorts, ports.value, i);
      }
    }
  }
}
