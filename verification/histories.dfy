// What a whole history of reports does to the service table (src/backend/mod.rs, process_event).
module Histories {
  import opened Wrappers
  import opened Endpoints
  import opened Services

  /** One event and the discovery task it came from. */
  datatype Report = Report(from: string, event: EndpointEvent)

  function Id(r: Report): EndpointId {
    EndpointId(r.from, r.event.uid)
  }

  function RunFrom(m: PortMap, log: seq<Report>): PortMap {
    if log == [] then m else
    var last := log[|log| - 1];
    Process(RunFrom(m, log[..|log| - 1]), last.from, last.event)
  }

  /** The table after every report of `log`, starting from a new service manager. */
  function Run(log: seq<Report>): PortMap {
    RunFrom(map[], log)
  }

  function Tag(from: string, events: seq<EndpointEvent>): seq<Report> {
    seq(|events|, i requires 0 <= i < |events| => Report(from, events[i]))
  }

  lemma {:induction false} RunConcat(m: PortMap, a: seq<Report>, b: seq<Report>)
    ensures RunFrom(m, a + b) == RunFrom(RunFrom(m, a), b)
  {
    if b == [] {
      assert a + b == a;
    } else {
      var n := |b| - 1;
      assert (a + b)[..|a + b| - 1] == a + b[..n];
      RunConcat(m, a, b[..n]);
    }
  }

  lemma RunNext(log: seq<Report>, r: Report)
    ensures Run(log + [r]) == Process(Run(log), r.from, r.event)
  {
    assert (log + [r])[..|log|] == log;
  }

  lemma {:induction false} RunKeepsWellFormed(m: PortMap, log: seq<Report>)
    requires WellFormed(m)
    ensures WellFormed(RunFrom(m, log))
  {
    if log != [] {
      var n := |log| - 1;
      RunKeepsWellFormed(m, log[..n]);
      ProcessKeepsWellFormed(RunFrom(m, log[..n]), log[n].from, log[n].event);
    }
  }

  // ---- Last writer --------------------------------------------------------------------------

  predicate Adds(r: Report, p: Port, id: EndpointId) {
    r.event.Add? && Id(r) == id && r.event.externalPort == p
  }

  predicate Deletes(r: Report, id: EndpointId) {
    r.event.Delete? && Id(r) == id
  }

  predicate Toggles(r: Report, id: EndpointId) {
    (r.event.Suspend? || r.event.Resume?) && Id(r) == id
  }

  /** `i` is the last of the Adds of (p, id) and the Deletes of id, and it is an Add. */
  ghost predicate IsLastWrite(log: seq<Report>, p: Port, id: EndpointId, i: nat) {
    && i < |log|
    && Adds(log[i], p, id)
    && forall j | i < j < |log| :: !Adds(log[j], p, id) && !Deletes(log[j], id)
  }

  /** `j` is the last Suspend or Resume of `id` after position `i`. */
  ghost predicate IsLastToggle(log: seq<Report>, id: EndpointId, i: nat, j: nat) {
    && i < j < |log|
    && Toggles(log[j], id)
    && forall k | j < k < |log| :: !Toggles(log[k], id)
  }

  ghost predicate NoToggleAfter(log: seq<Report>, id: EndpointId, i: nat) {
    forall j | i < j < |log| :: !Toggles(log[j], id)
  }

  /** `endpoint` is what the write at `i` and the toggles after it leave behind. */
  ghost predicate LeftBy(log: seq<Report>, id: EndpointId, i: nat, endpoint: Endpoint)
    requires i < |log| && log[i].event.Add?
  {
    && endpoint.address == log[i].event.backendAddress
    && endpoint.protocol == log[i].event.backendProtocol
    && (NoToggleAfter(log, id, i) ==> endpoint.isAvailable == log[i].event.isAvailable)
    && (forall j: nat | IsLastToggle(log, id, i, j) :: endpoint.isAvailable == log[j].event.Resume?)
  }

  /** `c` is present iff some Add of (p, id) is its last write, and then it is what that left. */
  ghost predicate Explains(log: seq<Report>, p: Port, id: EndpointId, c: Option<Endpoint>) {
    && (c.Some? <==> exists i: nat :: IsLastWrite(log, p, id, i))
    && (forall i: nat | IsLastWrite(log, p, id, i) :: c.Some? && LeftBy(log, id, i, c.value))
  }

  lemma LastReportWrites(log: seq<Report>, p: Port, id: EndpointId)
    requires log != []
    requires Adds(log[|log| - 1], p, id) || Deletes(log[|log| - 1], id)
    ensures Explains(log, p, id, Cell(None, p, id, log[|log| - 1].from, log[|log| - 1].event))
  {
    var n := |log| - 1;
    assert Adds(log[n], p, id) ==> IsLastWrite(log, p, id, n);
    forall i: nat | IsLastWrite(log, p, id, i)
      ensures i == n
    {}
  }

  lemma LeftByOneMore(log: seq<Report>, id: EndpointId, i: nat, endpoint: Endpoint)
    requires i < |log| - 1 && log[i].event.Add?
    requires LeftBy(log[..|log| - 1], id, i, endpoint)
    ensures LeftBy(log, id, i,
                   if Toggles(log[|log| - 1], id)
                   then endpoint.(isAvailable := log[|log| - 1].event.Resume?)
                   else endpoint)
  {
    var n := |log| - 1;
    var before := log[..n];
    if Toggles(log[n], id) {
      forall j: nat | IsLastToggle(log, id, i, j)
        ensures j == n
      {}
    } else {
      assert NoToggleAfter(log, id, i) ==> NoToggleAfter(before, id, i);
      forall j: nat | IsLastToggle(log, id, i, j)
        ensures IsLastToggle(before, id, i, j)
      {}
    }
  }

  lemma LastReportDoesNotWrite(log: seq<Report>, p: Port, id: EndpointId, c: Option<Endpoint>)
    requires log != []
    requires !Adds(log[|log| - 1], p, id) && !Deletes(log[|log| - 1], id)
    requires Explains(log[..|log| - 1], p, id, c)
    ensures Explains(log, p, id, Cell(c, p, id, log[|log| - 1].from, log[|log| - 1].event))
  {
    var n := |log| - 1;
    var before := log[..n];
    var after := Cell(c, p, id, log[n].from, log[n].event);
    forall i: nat
      ensures IsLastWrite(log, p, id, i) <==> IsLastWrite(before, p, id, i)
    {
      if IsLastWrite(before, p, id, i) { assert log[i] == before[i]; }
      if IsLastWrite(log, p, id, i) { assert i < n && before[i] == log[i]; }
    }
    assert after.Some? == c.Some?;
    forall i: nat | IsLastWrite(log, p, id, i)
      ensures after.Some? && LeftBy(log, id, i, after.value)
    {
      assert IsLastWrite(before, p, id, i);
      LeftByOneMore(log, id, i, c.value);
    }
  }

  /** The table holds (p, id) iff the last event among Add(p, id) and Delete(id) is an Add. Its
      address and protocol are that Add's; its availability is set by the last Suspend or Resume
      after that Add, else by the Add itself. */
  lemma {:induction false} LastWriterWins(log: seq<Report>, p: Port, id: EndpointId)
    ensures Explains(log, p, id, Lookup(Run(log), p, id))
  {
    if log != [] {
      var n := |log| - 1;
      var before := log[..n];
      LastWriterWins(before, p, id);
      ProcessActsOnCells(Run(before), log[n].from, log[n].event, p, id);
      if Adds(log[n], p, id) || Deletes(log[n], id) {
        LastReportWrites(log, p, id);
      } else {
        LastReportDoesNotWrite(log, p, id, Lookup(Run(before), p, id));
      }
    }
  }

  /** A port's protocol is that of the Add that opened it since it was last closed: some Add found
      the port closed, the port has been open ever since, and later Adds changed nothing. */
  lemma {:induction false} ProtocolOfOpener(log: seq<Report>, p: Port) returns (i: nat)
    requires p in Run(log)
    ensures i < |log| && log[i].event.Add? && log[i].event.externalPort == p
    ensures p !in Run(log[..i])
    ensures forall k | i < k <= |log| :: p in Run(log[..k]) && Run(log[..k])[p].protocol == log[i].event.externalProtocol
  {
    var n := |log| - 1;
    var before := log[..n];
    assert log[..|log|] == log;
    if p in Run(before) {
      i := ProtocolOfOpener(before, p);
      forall k | 0 <= k <= n
        ensures log[..k] == before[..k]
      {}
      forall k | i < k <= |log|
        ensures p in Run(log[..k]) && Run(log[..k])[p].protocol == log[i].event.externalProtocol
      {
        if k <= n { assert log[..k] == before[..k]; } else { assert before[..n] == before; }
      }
    } else {
      i := n;
    }
  }

  // ---- Interleavings ------------------------------------------------------------------------

  /** The reports of one discovery task, in order. Two logs are interleavings of the same streams
      exactly when their projections agree for every name. */
  function Project(log: seq<Report>, name: string): seq<Report> {
    if log == [] then [] else
    var last := log[|log| - 1];
    Project(log[..|log| - 1], name) + if last.from == name then [last] else []
  }

  /** What a task's endpoints look like depends on that task's own stream alone. */
  lemma {:induction false} OwnStreamDecides(log: seq<Report>, p: Port, id: EndpointId)
    ensures Lookup(Run(log), p, id) == Lookup(Run(Project(log, id.endpointDiscoveryName)), p, id)
  {
    if log != [] {
      var n := |log| - 1;
      var name := id.endpointDiscoveryName;
      var own := Project(log[..n], name);
      OwnStreamDecides(log[..n], p, id);
      ProcessActsOnCells(Run(log[..n]), log[n].from, log[n].event, p, id);
      if log[n].from == name {
        assert (own + [log[n]])[..|own|] == own;
        ProcessActsOnCells(Run(own), log[n].from, log[n].event, p, id);
      } else {
        assert own + [] == own;
      }
    }
  }

  lemma {:induction false} ForeignStreamLeavesNothing(log: seq<Report>, name: string, p: Port, id: EndpointId)
    requires id.endpointDiscoveryName != name
    ensures Lookup(Run(Project(log, name)), p, id) == None
  {
    if log != [] {
      var n := |log| - 1;
      var own := Project(log[..n], name);
      ForeignStreamLeavesNothing(log[..n], name, p, id);
      if log[n].from == name {
        assert (own + [log[n]])[..|own|] == own;
        ProcessActsOnCells(Run(own), log[n].from, log[n].event, p, id);
      } else {
        assert own + [] == own;
      }
    }
  }

  /** The open ports are the union, over the discovery tasks, of the ports each would open alone. */
  lemma OpenPortsAreUnion(log: seq<Report>, p: Port)
    ensures p in Run(log) <==> exists name :: p in Run(Project(log, name))
  {
    RunKeepsWellFormed(map[], log);
    OpenIffServed(Run(log), p);
    if p in Run(log) {
      var id :| Lookup(Run(log), p, id).Some?;
      OwnStreamDecides(log, p, id);
      assert p in Run(Project(log, id.endpointDiscoveryName));
    }
    if name :| p in Run(Project(log, name)) {
      var alone := Run(Project(log, name));
      RunKeepsWellFormed(map[], Project(log, name));
      OpenIffServed(alone, p);
      var id :| Lookup(alone, p, id).Some?;
      if id.endpointDiscoveryName != name { ForeignStreamLeavesNothing(log, name, p, id); }
      OwnStreamDecides(log, p, id);
    }
  }

  /** `a` and `b` are interleavings of the same streams. */
  ghost predicate SameStreams(a: seq<Report>, b: seq<Report>) {
    forall name :: Project(a, name) == Project(b, name)
  }

  /** However the streams of the discovery tasks are interleaved, the same ports are open and the
      same endpoints serve them. */
  lemma InterleavingIndependence(a: seq<Report>, b: seq<Report>)
    requires SameStreams(a, b)
    ensures Run(a).Keys == Run(b).Keys
    ensures forall p | p in Run(a) :: Run(a)[p].endpoints == Run(b)[p].endpoints && Run(a)[p].port == Run(b)[p].port
  {
    RunKeepsWellFormed(map[], a);
    RunKeepsWellFormed(map[], b);
    forall p: Port, id: EndpointId
      ensures Lookup(Run(a), p, id) == Lookup(Run(b), p, id)
    {
      OwnStreamDecides(a, p, id);
      OwnStreamDecides(b, p, id);
    }
    CellsDetermineTable(Run(a), Run(b));
  }
}
