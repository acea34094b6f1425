// src/backend/mod.rs: the nested table port -> service -> endpoint id -> endpoint, and the value
// that `process_event` turns it into.
module Services {
  import opened Wrappers
  import opened Endpoints

  datatype Service = Service(port: Port, protocol: string, endpoints: map<EndpointId, Endpoint>)

  type PortMap = map<Port, Service>

  /** Holds whenever the table's write lock is free: every service sits under its own port and
      has an endpoint, so `index %= n_endpoints` never divides by zero. */
  ghost predicate WellFormed(m: PortMap) {
    forall p | p in m :: m[p].port == p && m[p].endpoints != map[]
  }

  function Lookup(m: PortMap, p: Port, id: EndpointId): Option<Endpoint> {
    if p in m && id in m[p].endpoints then Some(m[p].endpoints[id]) else None
  }

  /** The port-to-protocol table a subscriber is meant to end up with. */
  function Protocols(m: PortMap): map<Port, string> {
    map p | p in m :: m[p].protocol
  }

  function StripService(s: Service, id: EndpointId): Service {
    s.(endpoints := s.endpoints - {id})
  }

  /** Every service loses `id`; services left without an endpoint stay. */
  function Strip(m: PortMap, id: EndpointId): PortMap {
    map p | p in m :: StripService(m[p], id)
  }

  /** The ports on which `id` was the only endpoint. */
  function Emptied(m: PortMap, id: EndpointId): set<Port> {
    set p | p in m && m[p].endpoints - {id} == map[]
  }

  function SetServiceAvailability(s: Service, id: EndpointId, isAvailable: bool): Service {
    if id in s.endpoints
    then s.(endpoints := s.endpoints[id := s.endpoints[id].(isAvailable := isAvailable)])
    else s
  }

  function SetAvailability(m: PortMap, id: EndpointId, isAvailable: bool): PortMap {
    map p | p in m :: SetServiceAvailability(m[p], id, isAvailable)
  }

  /** The table after the discovery task `from` reported `event`. */
  function Process(m: PortMap, from: string, event: EndpointEvent): PortMap {
    var id := EndpointId(from, event.uid);
    match event
    case Add(_, isAvailable, port, protocol, address, backendProtocol) =>
      var endpoint := Endpoint(isAvailable, address, backendProtocol);
      if port in m
      then m[port := m[port].(endpoints := m[port].endpoints[id := endpoint])]
      else m[port := Service(port, protocol, map[id := endpoint])]
    case Delete(_) => Strip(m, id) - Emptied(m, id)
    case Suspend(_) => SetAvailability(m, id, false)
    case Resume(_) => SetAvailability(m, id, true)
  }

  function Closes(order: seq<Port>): seq<PortEvent> {
    seq(|order|, i requires 0 <= i < |order| => Close(order[i]))
  }

  /** `out` is a sequence of port events that processing `event` may send. A Delete closes each
      emptied port once, in whatever order the hash map is iterated. */
  ghost predicate Emits(m: PortMap, from: string, event: EndpointEvent, out: seq<PortEvent>) {
    match event
    case Add(_, _, port, protocol, _, _) => out == if port in m then [] else [Open(port, protocol)]
    case Delete(_) => exists order :: Lists(order, Emptied(m, EndpointId(from, event.uid))) && out == Closes(order)
    case _ => out == []
  }

  lemma ProcessKeepsWellFormed(m: PortMap, from: string, event: EndpointEvent)
    requires WellFormed(m)
    ensures WellFormed(Process(m, from, event))
  {
    var id := EndpointId(from, event.uid);
    var m' := Process(m, from, event);
    forall p | p in m'
      ensures m'[p].port == p && m'[p].endpoints != map[]
    {
      match event
      case Add(_, _, _, _, _, _) => assert p != event.externalPort ==> m'[p] == m[p];
        if p == event.externalPort { assert id in m'[p].endpoints; }
      case Delete(_) =>
      case _ => assert m'[p].endpoints.Keys == m[p].endpoints.Keys;
    }
  }

  /** In a well-formed table a port is open exactly when some endpoint is registered on it. */
  lemma OpenIffServed(m: PortMap, p: Port)
    requires WellFormed(m)
    ensures p in m <==> exists id :: Lookup(m, p, id).Some?
  {
    if p in m {
      var id :| id in m[p].endpoints;
      assert Lookup(m, p, id).Some?;
    }
  }

  /** A Delete closes each port whose only endpoint was the deleted one, once, and no other,
      whatever the order in which the hash map is iterated. */
  lemma DeleteClosesExactly(m: PortMap, from: string, uid: string, out: seq<PortEvent>, p: Port)
    requires WellFormed(m) && Emits(m, from, Delete(uid), out)
    ensures Close(p) in out <==> p in m && m[p].endpoints.Keys == {EndpointId(from, uid)}
    ensures forall i, j | 0 <= i < j < |out| :: out[i] != out[j]
    ensures forall i | 0 <= i < |out| :: out[i].Close?
  {
    var id := EndpointId(from, uid);
    var order :| Lists(order, Emptied(m, id)) && out == Closes(order);
    if p in m {
      var left := m[p].endpoints - {id};
      assert left.Keys == m[p].endpoints.Keys - {id};
      assert left == map[] <==> left.Keys == {};
      assert m[p].endpoints.Keys != {};
    }
    if p in Emptied(m, id) {
      var i :| 0 <= i < |order| && order[i] == p;
      assert out[i] == Close(p);
    }
  }

  /** What one event does to the single cell (p, id), whatever else the table holds. */
  function Cell(c: Option<Endpoint>, p: Port, id: EndpointId, from: string, event: EndpointEvent): Option<Endpoint> {
    if id != EndpointId(from, event.uid) then c else
    match event
    case Add(_, isAvailable, port, _, address, protocol) =>
      if port == p then Some(Endpoint(isAvailable, address, protocol)) else c
    case Delete(_) => None
    case Suspend(_) => if c.Some? then Some(c.value.(isAvailable := false)) else None
    case Resume(_) => if c.Some? then Some(c.value.(isAvailable := true)) else None
  }

  /** The nested table refines independent cells: each step acts on every (port, id) by `Cell`. */
  lemma ProcessActsOnCells(m: PortMap, from: string, event: EndpointEvent, p: Port, id: EndpointId)
    ensures Lookup(Process(m, from, event), p, id) == Cell(Lookup(m, p, id), p, id, from, event)
  {
    var own := EndpointId(from, event.uid);
    if event.Delete? && p in m && id in m[p].endpoints && id != own {
      assert id in m[p].endpoints - {own};
      assert p !in Emptied(m, own);
    }
  }

  /** Well-formed tables that agree on every cell have the same open ports and the same endpoints
      behind them; they may still record different protocols. */
  lemma CellsDetermineTable(a: PortMap, b: PortMap)
    requires WellFormed(a) && WellFormed(b)
    requires forall p, id :: Lookup(a, p, id) == Lookup(b, p, id)
    ensures a.Keys == b.Keys
    ensures forall p | p in a :: a[p].endpoints == b[p].endpoints && a[p].port == b[p].port
  {
    forall p: Port
      ensures p in a <==> p in b
    {
      OpenIffServed(a, p);
      OpenIffServed(b, p);
      if p in a { var id :| Lookup(a, p, id).Some?; assert Lookup(b, p, id).Some?; }
      if p in b { var id :| Lookup(b, p, id).Some?; assert Lookup(a, p, id).Some?; }
    }
    forall p | p in a
      ensures a[p].endpoints == b[p].endpoints
    {
      forall id: EndpointId
        ensures id in a[p].endpoints <==> id in b[p].endpoints
        ensures id in a[p].endpoints ==> a[p].endpoints[id] == b[p].endpoints[id]
      {
        assert Lookup(a, p, id) == Lookup(b, p, id);
      }
    }
  }
}
