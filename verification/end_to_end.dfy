// A Kubernetes discovery task, its listener and the concurrent service manager together.
module EndToEnd {
  import opened Wrappers
  import opened Endpoints
  import opened Services
  import opened Histories
  import opened Annotations
  import opened Kubernetes
  import opened DiscoveryLists
  import opened DiscoveryRuns
  import opened DiscoveryExact
  import opened Resync
  import opened TaskEndpoints
  import opened WatchPhases
  import opened Concurrency
  import opened ConcurrencyInvariant
  import opened ConcurrencyResults
  import opened ConcurrencyCalls
  import Backend

  /** In `s`, listener `t` serves `name`, the table's write lock is free, and the listener has
      processed exactly the events in `sent` so far. */
  ghost predicate CaughtUp(s: State, t: TaskId, name: string, sent: seq<EndpointEvent>) {
    && t < |s.tasks| && IsListener(s.tasks[t]) && s.tasks[t].from == name && TableReleased(s.tasks)
    && name in s.registered && s.registered[name] == sent + s.tasks[t].inbox
  }

  lemma CaughtUpProjects(s0: State, run: seq<Step>, s: State, t: TaskId, name: string, sent: seq<EndpointEvent>)
    requires Reached(s0, run, s) && CaughtUp(s, t, name, sent)
    ensures s.table == Run(s.processed) && Project(s.processed, name) == Tag(name, sent)
  {
    SnapshotThenDeltas(s0, run, s);
    ListenerShare(s0, run, s, t);
    StreamSplit(name, Project(s.processed, name), s.tasks[t].inbox, s.registered[name]);
    var stream := s.registered[name];
    assert stream[..|stream| - |s.tasks[t].inbox|] == sent;
  }

  /** A task gets that far: once all calls are done, the listener of the only call that registers `name`
      has caught up with the whole stream that call was made with. */
  lemma CaughtUpInTheEnd(s0: State, run: seq<Step>, s: State, t: TaskId, name: string)
    requires Reached(s0, run, s) && AllDone(s)
    requires Registers(s0, t, name) && forall u: TaskId | Registers(s0, u, name) :: u == t
    ensures CaughtUp(s, t, name, s0.tasks[t].stream)
  {
    DistinctNamesAreAllAdmitted(s0, run, s, t);
    OriginsKept(s0, run, s);
    assert CameFrom(s.registered, s0.tasks[t], s.tasks[t]) && Done(s.tasks[t]);
    forall u | 0 <= u < |s.tasks|
      ensures Holds(s.tasks[u], PortServiceMap) != Some(Write)
    {
      assert Done(s.tasks[u]);
    }
    assert s0.tasks[t].stream + [] == s0.tasks[t].stream;
  }

  /** Whatever else the service manager is doing concurrently: once the listener of a Kubernetes task
      has processed what the task had sent by the end of a successful Restarted, the table holds no
      endpoint of that task whose pod was not listed. */
  lemma RestartedReachesTable(
      life: nat, history: seq<Watched>, parseIp: IpParser, w: Watched,
      s0: State, run: seq<Step>, s: State, t: TaskId, name: string, p: Port, uid: string)
    requires w.event.Restarted? && Possible(life, history, parseIp)
    requires var before := After(life, history, parseIp);
             && Lists(w.order, Stale(before, w.event, parseIp))
             && Handle(before, w.event, w.order, parseIp).1.Ok?
             && Reached(s0, run, s)
             && CaughtUp(s, t, name, Events(Handle(before, w.event, w.order, parseIp).0.log))
    ensures Lookup(s.table, p, EndpointId(name, uid)).Some? ==> uid in Listed(w.event.pods)
  {
    var before := After(life, history, parseIp);
    CaughtUpProjects(s0, run, s, t, name, Events(Handle(before, w.event, w.order, parseIp).0.log));
    RestartedResyncs(life, history, parseIp, w, name, s.processed, p, EndpointId(name, uid));
  }

  /** Exactly the running pods are available: once the listener of a Kubernetes task has caught up, an
      endpoint of the task is available iff the last phase other than Pending that the watch stream gave
      its pod since the pod was announced is Running. */
  lemma AvailableIffRunning(
      life: nat, history: seq<Watched>, parseIp: IpParser,
      s0: State, run: seq<Step>, s: State, t: TaskId, name: string, p: Port, uid: string)
    requires Possible(life, history, parseIp) && Reached(s0, run, s)
    requires CaughtUp(s, t, name, Events(After(life, history, parseIp).log))
    requires Lookup(s.table, p, EndpointId(name, uid)).Some?
    ensures Lookup(s.table, p, EndpointId(name, uid)).value.isAvailable <==>
            WatchedPhase(life, history, parseIp, uid) == Some("Running")
  {
    var log := After(life, history, parseIp).log;
    CaughtUpProjects(s0, run, s, t, name, Events(log));
    StreamDrivesAvailability(life, history, parseIp, name, s.processed, p, uid);
  }

  /** `get_endpoint_for` on port p answers with place x of the hash map's order, going round. */
  ghost predicate Picks(table: PortMap, p: Port, order: seq<EndpointId>, index: nat, answer: (SocketAddr, string), x: nat) {
    && p in table && order != [] && Lists(order, table[p].endpoints.Keys)
    && Backend.AnswersScan(table[p].endpoints, order, index, Some(answer))
    && Backend.FirstUpAt(table[p].endpoints, order, index, x)
  }

  /** Every answer is of some place. */
  lemma AnswerHasAPlace(table: PortMap, p: Port, order: seq<EndpointId>, index: nat, answer: (SocketAddr, string)) returns (x: nat)
    requires p in table && order != [] && Lists(order, table[p].endpoints.Keys)
    requires Backend.AnswersScan(table[p].endpoints, order, index, Some(answer))
    ensures Picks(table, p, order, index, answer, x)
  {
    x := Backend.AnswerIsFirstUp(table[p].endpoints, order, index, Some(answer));
  }

  /** Once the listener has caught up, a connection is handed to a running pod: an endpoint of the
      task that is picked belongs to a pod whose last phase other than Pending in the watch stream is
      Running. */
  lemma SelectedPodIsRunning(
      life: nat, history: seq<Watched>, parseIp: IpParser,
      s0: State, run: seq<Step>, s: State, t: TaskId, name: string,
      p: Port, order: seq<EndpointId>, index: nat, answer: (SocketAddr, string), x: nat)
    requires Possible(life, history, parseIp) && Reached(s0, run, s)
    requires CaughtUp(s, t, name, Events(After(life, history, parseIp).log))
    requires Picks(s.table, p, order, index, answer, x) && order[x % |order|].endpointDiscoveryName == name
    ensures WatchedPhase(life, history, parseIp, order[x % |order|].uid) == Some("Running")
  {
    var id := order[x % |order|];
    assert id == EndpointId(name, id.uid);
    assert Backend.EndpointAt(s.table[p].endpoints, order, x) == s.table[p].endpoints[id];
    assert Lookup(s.table, p, id) == Some(s.table[p].endpoints[id]);
    AvailableIffRunning(life, history, parseIp, s0, run, s, t, name, p, id.uid);
  }

  /** And it goes to that pod: the address handed out is that of one pod that was applied or listed, at
      the backend port of the last service its annotation has on the port connected to. */
  lemma SelectedAddressIsOfPod(
      life: nat, history: seq<Watched>, parseIp: IpParser,
      s0: State, run: seq<Step>, s: State, t: TaskId, name: string,
      p: Port, order: seq<EndpointId>, index: nat, answer: (SocketAddr, string), x: nat)
    returns (pod: Pod, i: nat)
    requires Possible(life, history, parseIp) && Reached(s0, run, s)
    requires CaughtUp(s, t, name, Events(After(life, history, parseIp).log))
    requires Picks(s.table, p, order, index, answer, x) && order[x % |order|].endpointDiscoveryName == name
    ensures pod in PodsOf(history) && Concerns(pod, order[x % |order|].uid, parseIp) && IsLastOn(SpecsOf(pod), p, i)
    ensures answer ==
            (SocketAddr(parseIp(pod.status.value.podIp.value).value, SpecsOf(pod)[i].backendPort), SpecsOf(pod)[i].backendProtocol)
  {
    var log, id := After(life, history, parseIp).log, order[x % |order|];
    CaughtUpProjects(s0, run, s, t, name, Events(log));
    var c := Lookup(s.table, p, EndpointId(name, id.uid));
    assert id == EndpointId(name, id.uid);
    assert Backend.EndpointAt(s.table[p].endpoints, order, x) == s.table[p].endpoints[id];
    assert c == Some(s.table[p].endpoints[id]);
    pod := EndpointsAreOfOnePod(life, history, parseIp, name, s.processed, p, id.uid);
    assert Serves(SpecsOf(pod), parseIp(pod.status.value.podIp.value).value, p, c);
    i :| IsLastOn(SpecsOf(pod), p, i);
  }

  /** Under the same conditions as in `RestartedReachesTable`, the table is complete: each pod announced
      in the list has on each port of its annotation the endpoint of its last service there, and the
      task has no other endpoint of that pod. */
  lemma RestartedFillsTable(
      life: nat, history: seq<Watched>, parseIp: IpParser, w: Watched,
      s0: State, run: seq<Step>, s: State, t: TaskId, name: string, p: Port, k: nat)
    requires w.event.Restarted? && Possible(life, history, parseIp)
    requires var before := After(life, history, parseIp);
             && Lists(w.order, Stale(before, w.event, parseIp))
             && Handle(before, w.event, w.order, parseIp).1.Ok?
             && Reached(s0, run, s)
             && CaughtUp(s, t, name, Events(Handle(before, w.event, w.order, parseIp).0.log))
    requires AnnouncedAt(After(life, history, parseIp).known, w.event.pods, k)
    ensures var pod := w.event.pods[k];
            && Concerns(pod, pod.uid.value, parseIp) && ItemsValid(pod)
            && Serves(SpecsOf(pod), parseIp(pod.status.value.podIp.value).value, p,
                      Lookup(s.table, p, EndpointId(name, pod.uid.value)))
  {
    var before, uid := After(life, history, parseIp), w.event.pods[k].uid.value;
    var after := Handle(before, w.event, w.order, parseIp).0;
    HistoryKeepsSound(life, history, parseIp);
    RestartLeavesEndpoints(before, w.event.pods, w.order, parseIp, name, p, uid);
    CaughtUpProjects(s0, run, s, t, name, Events(after.log));
    OwnCell(after.log, name, s.processed, p, uid);
  }
}
