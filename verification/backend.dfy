// src/backend/mod.rs: the service manager, one call at a time. How concurrent calls interleave is
// in concurrency.dfy, which is proved against the same functions.
module Backend {
  import opened Wrappers
  import opened Endpoints
  import opened Services
  import opened PortLog
  import opened Histories
  import Selection

  function Opens(m: PortMap, order: seq<Port>): seq<PortEvent>
    requires forall i | 0 <= i < |order| :: order[i] in m
  {
    seq(|order|, i requires 0 <= i < |order| => Open(m[order[i]].port, m[order[i]].protocol))
  }

  function Rest(order: seq<Port>, n: nat): set<Port> {
    set i | n <= i < |order| :: order[i]
  }

  lemma OpensOneMore(m: PortMap, order: seq<Port>, n: nat)
    requires WellFormed(m) && 0 < n <= |order| && forall i | 0 <= i < |order| :: order[i] in m
    ensures Opens(m, order[..n]) == Opens(m, order[..n - 1]) + [Open(order[n - 1], Protocols(m)[order[n - 1]])]
  {}

  lemma RestShrinks(order: seq<Port>, n: nat, ports: set<Port>)
    requires Lists(order, ports)
    ensures Rest(order, 0) == ports && Rest(order, |order|) == {}
    ensures 0 < n <= |order| ==> order[n - 1] in Rest(order, n - 1) && Rest(order, n) == Rest(order, n - 1) - {order[n - 1]}
  {
    forall p | p in ports
      ensures p in Rest(order, 0)
    {
      assert p in order;
    }
  }

  /** Replaying `log` gives the table's ports and protocols, without the missing ones. */
  predicate IsSnapshot(log: seq<PortEvent>, m: PortMap, missing: set<Port>) {
    Replay(map[], log) == Some(Protocols(m) - missing)
  }

  /** Opening the first `n` ports leaves out the rest. */
  lemma {:induction false} OpensReplay(m: PortMap, order: seq<Port>, n: nat)
    requires WellFormed(m) && Lists(order, m.Keys) && n <= |order|
    ensures IsSnapshot(Opens(m, order[..n]), m, Rest(order, n)) && Rest(order, n) <= m.Keys
  {
    RestShrinks(order, n, m.Keys);
    if n == 0 {
      assert Protocols(m) - Rest(order, 0) == map[];
    } else {
      OpensReplay(m, order, n - 1);
      SnapshotStep(Opens(m, order[..n - 1]), Protocols(m), Rest(order, n - 1), order[n - 1]);
      OpensOneMore(m, order, n);
    }
  }

  lemma AllOpensReplay(m: PortMap, order: seq<Port>)
    requires WellFormed(m) && Lists(order, m.Keys)
    ensures IsSnapshot(Opens(m, order), m, {}) && Replay(map[], Opens(m, order)) == Some(Protocols(m))
  {
    OpensReplay(m, order, |order|);
    RestShrinks(order, 0, m.Keys);
    assert order[..|order|] == order;
    assert Protocols(m) - {} == Protocols(m);
  }

  /** One service further in collecting the emptied ones. */
  lemma CollectOneMore(collected: seq<Port>, emptied: set<Port>, todo: set<Port>, port: Port)
    requires Lists(collected, emptied - todo) && port in todo
    ensures Lists(if port in emptied then collected + [port] else collected, emptied - (todo - {port}))
  {
    if port in emptied {
      ListsAppend(collected, emptied - todo, port);
      assert emptied - todo + {port} == emptied - (todo - {port});
    } else {
      assert emptied - todo == emptied - (todo - {port});
    }
  }

  lemma StillFollows(m: PortMap, from: string, event: EndpointEvent, sent: seq<PortEvent>, out: seq<PortEvent>)
    requires WellFormed(m) && Emits(m, from, event, out) && Replay(map[], sent) == Some(Protocols(m))
    ensures Replay(map[], sent + out) == Some(Protocols(Process(m, from, event)))
  {
    StepReplays(m, from, event, out);
    ReplayConcat(map[], sent, out);
  }

  function Availability(order: seq<EndpointId>, endpoints: map<EndpointId, Endpoint>): seq<bool>
    requires forall i | 0 <= i < |order| :: order[i] in endpoints
  {
    seq(|order|, i requires 0 <= i < |order| => endpoints[order[i]].isAvailable)
  }

  /** The address and protocol of the endpoint at the position the scan finds. */
  function Selected(endpoints: map<EndpointId, Endpoint>, order: seq<EndpointId>, index: nat): Option<(SocketAddr, string)>
    requires order != [] && forall i | 0 <= i < |order| :: order[i] in endpoints
  {
    match Selection.Scan(Availability(order, endpoints), Selection.Start(index, |order|))
    case None => None
    case Some(k) => Some((endpoints[order[k]].address, endpoints[order[k]].protocol))
  }

  function EndpointPlace(order: seq<EndpointId>, x: nat): nat
    requires order != []
  {
    x % |order|
  }

  /** The endpoint in place x, going round. */
  function EndpointAt(endpoints: map<EndpointId, Endpoint>, order: seq<EndpointId>, x: nat): Endpoint
    requires order != [] && forall i | 0 <= i < |order| :: order[i] in endpoints
  {
    endpoints[order[EndpointPlace(order, x)]]
  }

  /** Place x, at most once round from `index`, is the first whose endpoint is available. */
  predicate FirstUpAt(endpoints: map<EndpointId, Endpoint>, order: seq<EndpointId>, index: nat, x: nat)
    requires order != [] && forall i | 0 <= i < |order| :: order[i] in endpoints
  {
    && index <= x < index + |order| && EndpointAt(endpoints, order, x).isAvailable
    && forall y | index <= y < x :: !EndpointAt(endpoints, order, y).isAvailable
  }

  /** None of the probed endpoints is available: positions [n - i, i) are not probed. */
  predicate NoneProbedIsUp(endpoints: map<EndpointId, Endpoint>, order: seq<EndpointId>, i: nat)
    requires forall k | 0 <= k < |order| :: order[k] in endpoints
  {
    forall k | 0 <= k < |order| && (i <= k || k < |order| - i) :: !endpoints[order[k]].isAvailable
  }

  /** What `get_endpoint_for` answers, on the endpoints themselves: nothing iff none that is probed is
      available, else the first available one, going round. */
  ghost predicate AnswersScan(
      endpoints: map<EndpointId, Endpoint>, order: seq<EndpointId>, index: nat, r: Option<(SocketAddr, string)>)
    requires order != [] && forall i | 0 <= i < |order| :: order[i] in endpoints
  {
    && (r == None <==> NoneProbedIsUp(endpoints, order, index % |order|))
    && forall x | FirstUpAt(endpoints, order, index, x) && r.Some? ::
         r.value == (EndpointAt(endpoints, order, x).address, EndpointAt(endpoints, order, x).protocol)
  }

  lemma FirstUpExists(endpoints: map<EndpointId, Endpoint>, order: seq<EndpointId>, index: nat, x: nat) returns (y: nat)
    requires order != [] && forall i | 0 <= i < |order| :: order[i] in endpoints
    requires index <= x < index + |order| && EndpointAt(endpoints, order, x).isAvailable
    ensures FirstUpAt(endpoints, order, index, y)
    decreases x
  {
    if z :| index <= z < x && EndpointAt(endpoints, order, z).isAvailable {
      y := FirstUpExists(endpoints, order, index, z);
    } else {
      y := x;
    }
  }

  lemma AvailabilityIs(endpoints: map<EndpointId, Endpoint>, order: seq<EndpointId>)
    requires forall i | 0 <= i < |order| :: order[i] in endpoints
    ensures |Availability(order, endpoints)| == |order|
    ensures forall k | 0 <= k < |order| :: Availability(order, endpoints)[k] == endpoints[order[k]].isAvailable
  {}

  lemma SelectedNone(endpoints: map<EndpointId, Endpoint>, order: seq<EndpointId>, index: nat)
    requires order != [] && forall i | 0 <= i < |order| :: order[i] in endpoints
    ensures Selected(endpoints, order, index) == None <==> NoneProbedIsUp(endpoints, order, index % |order|)
  {
    var avail := Availability(order, endpoints);
    AvailabilityIs(endpoints, order);
    Selection.ScanFindsCyclicFirst(avail, index % |order|);
    assert Selection.Start(index, |order|) == index % |order|;
    if NoneProbedIsUp(endpoints, order, index % |order|) {
      forall k | index % |order| <= k < |order| || 0 <= k < |order| - index % |order|
        ensures !avail[k]
      {
        assert !endpoints[order[k]].isAvailable;
      }
    }
  }

  lemma SelectedFirst(endpoints: map<EndpointId, Endpoint>, order: seq<EndpointId>, index: nat, x: nat)
    requires order != [] && forall i | 0 <= i < |order| :: order[i] in endpoints
    requires FirstUpAt(endpoints, order, index, x) && Selected(endpoints, order, index).Some?
    ensures Selected(endpoints, order, index) ==
            Some((EndpointAt(endpoints, order, x).address, EndpointAt(endpoints, order, x).protocol))
  {
    var n, avail, i := |order|, Availability(order, endpoints), index % |order|;
    AvailabilityIs(endpoints, order);
    Selection.ScanFindsCyclicFirst(avail, i);
    assert Selection.Start(index, n) == i;
    Selection.StartMoves(index, n, x - index);
    var k := Selection.Scan(avail, i).value;
    var d: nat :| d < n && k == Selection.Around(n, i, d) && avail[k]
               && forall e: nat | e < d :: !avail[Selection.Around(n, i, e)];
    Selection.StartMoves(index, n, d);
    assert index + d < x ==> !EndpointAt(endpoints, order, index + d).isAvailable;
  }

  lemma SelectedAnswersScan(endpoints: map<EndpointId, Endpoint>, order: seq<EndpointId>, index: nat)
    requires order != [] && forall i | 0 <= i < |order| :: order[i] in endpoints
    ensures AnswersScan(endpoints, order, index, Selected(endpoints, order, index))
  {
    SelectedNone(endpoints, order, index);
    forall x | FirstUpAt(endpoints, order, index, x) && Selected(endpoints, order, index).Some?
      ensures Selected(endpoints, order, index).value == (EndpointAt(endpoints, order, x).address, EndpointAt(endpoints, order, x).protocol)
    {
      SelectedFirst(endpoints, order, index, x);
    }
  }

  /** So every answer is that of the first available endpoint, going round. */
  lemma AnswerIsFirstUp(
      endpoints: map<EndpointId, Endpoint>, order: seq<EndpointId>, index: nat, r: Option<(SocketAddr, string)>) returns (x: nat)
    requires order != [] && forall i | 0 <= i < |order| :: order[i] in endpoints
    requires AnswersScan(endpoints, order, index, r) && r.Some?
    ensures FirstUpAt(endpoints, order, index, x)
    ensures r.value == (EndpointAt(endpoints, order, x).address, EndpointAt(endpoints, order, x).protocol)
  {
    var n, i := |order|, index % |order|;
    var k :| 0 <= k < n && (i <= k || k < n - i) && endpoints[order[k]].isAvailable;
    var d := if i <= k then k - i else k + n - i;
    Selection.StartMoves(index, n, d);
    x := FirstUpExists(endpoints, order, index, index + d);
  }

  /** Even spreading: while all n endpoints are available, each index is answered with the endpoint at
      its remainder, and of any n consecutive indices exactly one has remainder k. */
  lemma AnswersSpreadEvenly(
      endpoints: map<EndpointId, Endpoint>, order: seq<EndpointId>, index: nat, k: nat, answers: seq<Option<(SocketAddr, string)>>)
    returns (d: nat)
    requires k < |order| == |answers| && forall i | 0 <= i < |order| :: order[i] in endpoints && endpoints[order[i]].isAvailable
    requires forall j | 0 <= j < |order| :: AnswersScan(endpoints, order, index + j, answers[j])
    ensures d < |order| && answers[d] == Some((endpoints[order[k]].address, endpoints[order[k]].protocol))
    ensures forall j | 0 <= j < |order| ::
              answers[j] == Some((EndpointAt(endpoints, order, index + j).address, EndpointAt(endpoints, order, index + j).protocol))
    ensures forall x: nat | index <= x < index + |order| :: EndpointPlace(order, x) == k <==> x == index + d
  {
    var n, i := |order|, index % |order|;
    d := if i <= k then k - i else k + n - i;
    forall x: nat | index <= x < index + n
      ensures EndpointPlace(order, x) == k <==> x == index + d
    {
      Selection.StartMoves(index, n, x - index);
    }
    forall j | 0 <= j < n
      ensures answers[j] == Some((EndpointAt(endpoints, order, index + j).address, EndpointAt(endpoints, order, index + j).protocol))
    {
      assert endpoints[order[EndpointPlace(order, index + j)]].isAvailable;
      assert FirstUpAt(endpoints, order, index + j, index + j);
    }
  }

  /** The sending half of a subscriber's channel; `sent` is all it was ever sent, and `refusals` counts
      the events that a receiver that has hung up did not take. */
  class PortEventSender {
    var sent: seq<PortEvent>
    var refusals: nat

    constructor ()
      ensures sent == [] && refusals == 0
    {
      sent := [];
      refusals := 0;
    }

    /** Sends to a receiver that is there. */
    method Send(event: PortEvent)
      modifies this`sent
      ensures sent == old(sent) + [event]
    {
      sent := sent + [event];
    }

    /** Sends to a receiver that may have hung up. */
    method Offer(event: PortEvent) returns (taken: bool)
      modifies this
      ensures taken ==> sent == old(sent) + [event] && refusals == old(refusals)
      ensures !taken ==> sent == old(sent) && refusals == old(refusals) + 1
    {
      if * {
        refusals := refusals + 1;
        return false;
      }
      Send(event);
      taken := true;
    }
  }

  class ServiceManager {
    var registeredEndpointDiscoveryNames: set<string>
    var portServiceMap: map<Port, Service>
    var portEventSender: PortEventSender?
    var endpointDiscoveryMetrics: set<string>

    // How much its channel already held when the current subscriber was accepted.
    ghost var subscribedAt: nat

    /** What every method keeps: no service is empty or filed under a wrong port, and replaying
        what the installed subscriber was sent gives exactly the open ports and protocols. */
    ghost predicate Valid()
      reads this, portEventSender
    {
      && WellFormed(portServiceMap)
      && registeredEndpointDiscoveryNames == endpointDiscoveryMetrics
      && (portEventSender != null ==>
            && subscribedAt <= |portEventSender.sent|
            && Replay(map[], portEventSender.sent[subscribedAt..]) == Some(Protocols(portServiceMap)))
    }

    constructor ()
      ensures Valid()
      ensures portServiceMap == Run([]) && portEventSender == null && registeredEndpointDiscoveryNames == {}
    {
      registeredEndpointDiscoveryNames := {};
      portServiceMap := map[];
      portEventSender := null;
      endpointDiscoveryMetrics := {};
      subscribedAt := 0;
    }

    /** Sends an Open for every open port, in hash map order, then installs the sender. If the receiver
        hangs up meanwhile, and only then, it has been sent a part of the snapshot and nothing is
        installed. */
    method SendPortEventsTo(sender: PortEventSender) returns (installed: bool)
      requires Valid()
      modifies this`portEventSender, this`subscribedAt, sender
      ensures installed || sender != portEventSender ==> Valid()
      ensures old(sender.sent) <= sender.sent
      ensures sender.refusals == old(sender.refusals) + if installed then 0 else 1
      ensures installed ==>
                portEventSender == sender && IsSnapshot(sender.sent[|old(sender.sent)|..], portServiceMap, {})
      ensures !installed ==> portEventSender == old(portEventSender)
      ensures !installed ==>
                exists missing :: missing <= portServiceMap.Keys && IsSnapshot(sender.sent[|old(sender.sent)|..], portServiceMap, missing)
    {
      ghost var before := sender.sent;
      var ports := Iterate(portServiceMap.Keys);
      for i := 0 to |ports|
        invariant sender.sent == before + Opens(portServiceMap, ports[..i])
        invariant sender.refusals == old(sender.refusals)
        invariant portEventSender == old(portEventSender) && subscribedAt == old(subscribedAt)
      {
        var service := portServiceMap[ports[i]];
        var taken := sender.Offer(Open(service.port, service.protocol));
        if !taken {
          OpensReplay(portServiceMap, ports, i);
          assert sender.sent[|before|..] == Opens(portServiceMap, ports[..i]);
          assert IsSnapshot(sender.sent[|before|..], portServiceMap, Rest(ports, i));
          return false;
        }
        assert ports[..i + 1] == ports[..i] + [ports[i]];
      }
      assert ports[..|ports|] == ports;
      AllOpensReplay(portServiceMap, ports);
      assert sender.sent[|before|..] == Opens(portServiceMap, ports);
      portEventSender := sender;
      subscribedAt := |before|;
      installed := true;
    }

    /** One pass over part of the endpoints, ending at the first that is available. */
    method FirstAvailable(endpoints: map<EndpointId, Endpoint>, order: seq<EndpointId>, lo: nat, hi: nat) returns (r: Option<nat>)
      requires lo <= hi <= |order| && forall i | 0 <= i < |order| :: order[i] in endpoints
      ensures r == Selection.FirstIn(Availability(order, endpoints), lo, hi)
    {
      ghost var avail := Availability(order, endpoints);
      for i := lo to hi
        invariant Selection.FirstIn(avail, lo, hi) == Selection.FirstIn(avail, i, hi)
      {
        if endpoints[order[i]].isAvailable {
          return Some(i);
        }
      }
      r := None;
    }

    /** `order` is the order in which the hash map lists the service's endpoints; it stays the same
        while the service is not changed, so both loops see it. */
    method GetEndpointFor(port: Port, index: nat, order: seq<EndpointId>) returns (r: Option<(SocketAddr, string)>)
      requires Valid()
      requires port in portServiceMap ==> Lists(order, portServiceMap[port].endpoints.Keys)
      ensures port !in portServiceMap ==> r == None
      ensures port in portServiceMap ==> order != [] && r == Selected(portServiceMap[port].endpoints, order, index)
      ensures port in portServiceMap ==> AnswersScan(portServiceMap[port].endpoints, order, index, r)
    {
      if port in portServiceMap {
        var endpoints := portServiceMap[port].endpoints;
        assert |order| > 0 by { var id :| id in endpoints; assert id in order; }
        SelectedAnswersScan(endpoints, order, index);
        var nEndpoints := |order|;
        var start := Selection.Start(index, nEndpoints);
        var k := FirstAvailable(endpoints, order, start, nEndpoints);
        if k.None? {
          k := FirstAvailable(endpoints, order, 0, nEndpoints - start);
        }
        if k.Some? {
          var candidate := endpoints[order[k.value]];
          return Some((candidate.address, candidate.protocol));
        }
      }
      r := None;
    }

    /** Registering a name twice is refused and changes nothing, so no two listeners share one. */
    method RegisterEndpointDiscovery(name: string) returns (ok: bool)
      requires Valid()
      modifies this`registeredEndpointDiscoveryNames, this`endpointDiscoveryMetrics
      ensures Valid()
      ensures ok <==> name !in old(registeredEndpointDiscoveryNames)
      ensures registeredEndpointDiscoveryNames == old(registeredEndpointDiscoveryNames) + {name}
    {
      if name in registeredEndpointDiscoveryNames {
        return false;
      }
      endpointDiscoveryMetrics := endpointDiscoveryMetrics + {name};
      registeredEndpointDiscoveryNames := registeredEndpointDiscoveryNames + {name};
      ok := true;
    }

    /** A send nobody is subscribed for is dropped. */
    method SendEvent(event: PortEvent)
      modifies portEventSender
      ensures portEventSender != null ==> portEventSender.sent == old(portEventSender.sent) + [event]
    {
      if portEventSender != null {
        portEventSender.Send(event);
      }
    }

    method AddEndpoint(id: EndpointId, endpoint: Endpoint, port: Port, protocol: string)
      modifies this`portServiceMap, portEventSender
      ensures portServiceMap ==
              if port in old(portServiceMap)
              then old(portServiceMap)[port := old(portServiceMap)[port].(endpoints := old(portServiceMap)[port].endpoints[id := endpoint])]
              else old(portServiceMap)[port := Service(port, protocol, map[id := endpoint])]
      ensures portEventSender != null ==>
              portEventSender.sent == old(portEventSender.sent) + if port in old(portServiceMap) then [] else [Open(port, protocol)]
    {
      if port !in portServiceMap {
        portServiceMap := portServiceMap[port := Service(port, protocol, map[id := endpoint])];
        SendEvent(Open(port, protocol));
      } else {
        var service := portServiceMap[port];
        portServiceMap := portServiceMap[port := service.(endpoints := service.endpoints[id := endpoint])];
      }
    }

    method StripEndpoint(id: EndpointId) returns (servicesToDelete: seq<Port>)
      modifies this`portServiceMap
      ensures portServiceMap == Strip(old(portServiceMap), id)
      ensures Lists(servicesToDelete, Emptied(old(portServiceMap), id))
    {
      ghost var before := portServiceMap;
      ghost var emptied := Emptied(before, id);
      servicesToDelete := [];
      var todo := portServiceMap.Keys;
      while todo != {}
        invariant todo <= before.Keys && portServiceMap.Keys == before.Keys
        invariant forall p | p in before :: portServiceMap[p] == if p in todo then before[p] else StripService(before[p], id)
        invariant Lists(servicesToDelete, emptied - todo)
        decreases |todo|
      {
        var port :| port in todo;
        var service := portServiceMap[port];
        service := service.(endpoints := service.endpoints - {id});
        portServiceMap := portServiceMap[port := service];
        CollectOneMore(servicesToDelete, emptied, todo, port);
        if service.endpoints == map[] {
          servicesToDelete := servicesToDelete + [port];
        }
        todo := todo - {port};
      }
      assert emptied - todo == emptied;
    }

    method CloseServices(servicesToDelete: seq<Port>, ghost ports: set<Port>)
      requires Lists(servicesToDelete, ports) && ports <= portServiceMap.Keys
      modifies this`portServiceMap, portEventSender
      ensures portServiceMap == old(portServiceMap) - ports
      ensures portEventSender != null ==> portEventSender.sent == old(portEventSender.sent) + Closes(servicesToDelete)
    {
      ghost var todo := ports;
      for i := 0 to |servicesToDelete|
        invariant Lists(servicesToDelete[i..], todo) && todo <= ports
        invariant portServiceMap == old(portServiceMap) - (ports - todo)
        invariant portEventSender != null ==> portEventSender.sent == old(portEventSender.sent) + Closes(servicesToDelete[..i])
      {
        var port := servicesToDelete[i];
        ListsTail(servicesToDelete[i..], todo);
        assert servicesToDelete[i..][1..] == servicesToDelete[i + 1..];
        assert port in portServiceMap;
        portServiceMap := portServiceMap - {port};
        SendEvent(Close(port));
        todo := todo - {port};
        assert Closes(servicesToDelete[..i + 1]) == Closes(servicesToDelete[..i]) + [Close(port)];
      }
      assert servicesToDelete[..|servicesToDelete|] == servicesToDelete;
      ListsNothing(servicesToDelete[|servicesToDelete|..], todo);
    }

    /** First removes `id` everywhere, collecting the ports left empty, then drops those ports. The
        collected ports are distinct and still present when they are removed. */
    method DeleteEndpoint(id: EndpointId)
      modifies this`portServiceMap, portEventSender
      ensures portServiceMap == Strip(old(portServiceMap), id) - Emptied(old(portServiceMap), id)
      ensures portEventSender != null ==>
              exists order :: Lists(order, Emptied(old(portServiceMap), id)) && portEventSender.sent == old(portEventSender.sent) + Closes(order)
    {
      ghost var before := portServiceMap;
      var servicesToDelete := StripEndpoint(id);
      CloseServices(servicesToDelete, Emptied(before, id));
    }

    method SetAvailable(id: EndpointId, isAvailable: bool)
      modifies this`portServiceMap
      ensures portServiceMap == SetAvailability(old(portServiceMap), id, isAvailable)
    {
      ghost var before := portServiceMap;
      var todo := portServiceMap.Keys;
      while todo != {}
        invariant todo <= before.Keys && portServiceMap.Keys == before.Keys
        invariant forall p | p in before ::
                    portServiceMap[p] == if p in todo then before[p] else SetServiceAvailability(before[p], id, isAvailable)
        decreases |todo|
      {
        var port :| port in todo;
        var service := portServiceMap[port];
        if id in service.endpoints && service.endpoints[id].isAvailable != isAvailable {
          var endpoint := service.endpoints[id].(isAvailable := isAvailable);
          service := service.(endpoints := service.endpoints[id := endpoint]);
          portServiceMap := portServiceMap[port := service];
        } else if id in service.endpoints {
          assert service.endpoints[id := service.endpoints[id].(isAvailable := isAvailable)] == service.endpoints;
        }
        todo := todo - {port};
      }
    }

    /** The table becomes what `Process` says, and the subscriber is sent what `Emits` allows. */
    method ProcessEvent(from: string, event: EndpointEvent)
      requires Valid()
      modifies this`portServiceMap, portEventSender
      ensures Valid()
      ensures portServiceMap == Process(old(portServiceMap), from, event)
      ensures portEventSender != null ==>
                && old(portEventSender.sent) <= portEventSender.sent
                && Emits(old(portServiceMap), from, event, portEventSender.sent[|old(portEventSender.sent)|..])
    {
      ghost var before := portServiceMap;
      ghost var sent := if portEventSender == null then [] else portEventSender.sent;
      match event {
        case Add(uid, isAvailable, port, protocol, address, backendProtocol) =>
          AddEndpoint(EndpointId(from, uid), Endpoint(isAvailable, address, backendProtocol), port, protocol);
        case Delete(uid) =>
          DeleteEndpoint(EndpointId(from, uid));
        case Suspend(uid) =>
          SetAvailable(EndpointId(from, uid), false);
        case Resume(uid) =>
          SetAvailable(EndpointId(from, uid), true);
      }
      ProcessKeepsWellFormed(before, from, event);
      if portEventSender != null {
        ghost var out := portEventSender.sent[|sent|..];
        assert portEventSender.sent[subscribedAt..] == sent[subscribedAt..] + out;
        StillFollows(before, from, event, sent[subscribedAt..], out);
      }
    }

    /** Processes everything one discovery task sends. */
    method ListenForDiscoveryEvents(from: string, receiver: seq<EndpointEvent>)
      requires Valid()
      modifies this`portServiceMap, portEventSender
      ensures Valid()
      ensures portServiceMap == RunFrom(old(portServiceMap), Tag(from, receiver))
    {
      ghost var log := Tag(from, receiver);
      for i := 0 to |receiver|
        invariant Valid()
        invariant portServiceMap == RunFrom(old(portServiceMap), log[..i])
      {
        ProcessEvent(from, receiver[i]);
        assert log[..i + 1][..i] == log[..i];
      }
      assert log[..|receiver|] == log;
    }
  }

  /** What three Adds and a Resume leave on port 80, as a manager holds it. */
  function ThreeAddsOneResume(address: SocketAddr): seq<Report> {
    [ Report("k", Add("0", false, 80, "http", address, "http")),
      Report("k", Add("1", false, 80, "http", address, "http")),
      Report("k", Add("2", false, 80, "http", address, "http")),
      Report("k", Resume("1")) ]
  }

  /** A connection that is turned away although an endpoint is available: three endpoints on one port,
      only the second in hash map order available, and index 2. */
  lemma AvailableEndpointMissed(address: SocketAddr) returns (table: PortMap, order: seq<EndpointId>)
    ensures table == Run(ThreeAddsOneResume(address)) && 80 in table
    ensures Lists(order, table[80].endpoints.Keys) && |order| == 3
    ensures table[80].endpoints[order[1]].isAvailable && Selected(table[80].endpoints, order, 2) == None
  {
    var log := ThreeAddsOneResume(address);
    assert log == [] + [log[0]] + [log[1]] + [log[2]] + [log[3]];
    RunNext([], log[0]);
    RunNext([] + [log[0]], log[1]);
    RunNext([] + [log[0]] + [log[1]], log[2]);
    RunNext([] + [log[0]] + [log[1]] + [log[2]], log[3]);
    table := Run(log);
    order := [EndpointId("k", "0"), EndpointId("k", "1"), EndpointId("k", "2")];
    assert "0"[0] != "1"[0] && "1"[0] != "2"[0] && "0"[0] != "2"[0];
    var endpoints := table[80].endpoints;
    assert endpoints.Keys == {order[0], order[1], order[2]};
    assert Availability(order, endpoints) == [false, true, false];
    Selection.ScanMissesExample();
  }
}
