// src/kubernetes/mod.rs: what the Kubernetes discovery task does with each watch event, as
// functions on its state. The imperative form in kubernetes_runtime.dfy is proved to compute these.
module Kubernetes {
  import opened Wrappers
  import opened Endpoints
  import opened Annotations

  const SERVICES_ANNOTATION := "state-proxy.io/services"

  datatype PodStatus = PodStatus(podIp: Option<string>, phase: Option<string>)

  datatype Pod = Pod(
    uid: Option<string>,
    name: Option<string>,
    annotations: Option<map<string, string>>,
    status: Option<PodStatus>)

  datatype WatchEvent = Applied(pod: Pod) | Deleted(pod: Pod) | Restarted(pods: seq<Pod>)

  /** Parsing of IP addresses is a library's; any partial function will do. */
  type IpParser = string -> Option<IpAddr>

  /** One step of the task's past: an announcement of a pod's services begins, an event has been
      sent, or a pod's phase has been acted on. */
  datatype Item = Burst(uid: string) | Sent(event: EndpointEvent) | Handled(uid: string, phase: string)

  /** `known` is `known_pod_uids`. `log` is the task's past, of which only the sent events can be
      seen from outside. `life` is how many more events the receiver accepts before it hangs up. */
  datatype Runtime = Runtime(known: set<string>, log: seq<Item>, life: nat)

  type Outcome = Result<(), Error>

  function Events(log: seq<Item>): seq<EndpointEvent> {
    if log == [] then [] else
    var last := log[|log| - 1];
    Events(log[..|log| - 1]) + if last.Sent? then [last.event] else []
  }

  function Note(rt: Runtime, item: Item): Runtime {
    rt.(log := rt.log + [item])
  }

  function Send(rt: Runtime, event: EndpointEvent): (Runtime, Outcome) {
    if rt.life == 0 then (rt, Err(ChannelClosed))
    else (Note(rt, Sent(event)).(life := rt.life - 1), Ok(()))
  }

  function AddOf(uid: string, ip: IpAddr, spec: ServiceSpec): EndpointEvent {
    Add(uid, false, spec.externalPort, spec.externalProtocol, SocketAddr(ip, spec.backendPort), spec.backendProtocol)
  }

  function SendService(rt: Runtime, item: string, uid: string, ip: IpAddr): (Runtime, Outcome) {
    match ParseService(item)
    case Err(e) => (rt, Err(e))
    case Ok(spec) => Send(rt, AddOf(uid, ip, spec))
  }

  /** Announces items until the first that fails. */
  function Announce(rt: Runtime, items: seq<string>, uid: string, ip: IpAddr): (Runtime, Outcome)
    decreases |items|
  {
    if items == [] then (rt, Ok(())) else
    var (next, r) := SendService(rt, items[0], uid, ip);
    if r.Err? then (next, r) else Announce(next, items[1..], uid, ip)
  }

  function Discover(rt: Runtime, annotations: map<string, string>, uid: string, ip: IpAddr): (Runtime, Outcome) {
    if SERVICES_ANNOTATION in annotations
    then Announce(Note(rt, Burst(uid)), Split(annotations[SERVICES_ANNOTATION], ','), uid, ip)
    else (Note(rt, Burst(uid)), Ok(()))
  }

  function Forget(rt: Runtime, uid: string): Runtime {
    rt.(known := rt.known - {uid})
  }

  function PhaseEvent(uid: string, phase: string): Option<EndpointEvent> {
    if phase == "Running" then Some(Resume(uid))
    else if phase == "Succeeded" then Some(Delete(uid))
    else if phase == "Pending" then None
    else Some(Suspend(uid))
  }

  function HandlePhase(rt: Runtime, uid: string, phase: string): (Runtime, Outcome) {
    var rt := if phase == "Succeeded" then Forget(rt, uid) else rt;
    match PhaseEvent(uid, phase)
    case None => (Note(rt, Handled(uid, phase)), Ok(()))
    case Some(event) =>
      var (next, r) := Send(rt, event);
      if r.Err? then (next, r) else (Note(next, Handled(uid, phase)), r)
  }

  /** Everything `apply_pod` needs is there. */
  predicate Complete(pod: Pod) {
    && pod.status.Some? && pod.uid.Some? && pod.name.Some? && pod.annotations.Some?
    && pod.status.value.podIp.Some? && pod.status.value.phase.Some?
  }

  function Phase(pod: Pod): string
    requires Complete(pod)
  {
    pod.status.value.phase.value
  }

  function ApplyPod(rt: Runtime, pod: Pod, parseIp: IpParser): (Runtime, Outcome) {
    if !Complete(pod) then (rt, Ok(())) else
    var uid := pod.uid.value;
    match parseIp(pod.status.value.podIp.value)
    case None => (rt, Err(BadAddress(pod.status.value.podIp.value)))
    case Some(ip) =>
      var (next, r) :=
        if uid in rt.known then (rt, Ok(()))
        else Discover(rt.(known := rt.known + {uid}), pod.annotations.value, uid, ip);
      if r.Err? then (next, r) else HandlePhase(next, uid, Phase(pod))
  }

  /** Applies a list of pods until the first that fails. */
  function ApplyAll(rt: Runtime, pods: seq<Pod>, parseIp: IpParser): (Runtime, Outcome)
    decreases |pods|
  {
    if pods == [] then (rt, Ok(())) else
    var (next, r) := if pods[0].uid.Some? then ApplyPod(rt, pods[0], parseIp) else (rt, Ok(()));
    if r.Err? then (next, r) else ApplyAll(next, pods[1..], parseIp)
  }

  function Listed(pods: seq<Pod>): set<string> {
    set i | 0 <= i < |pods| && pods[i].uid.Some? :: pods[i].uid.value
  }

  function SendDeletes(rt: Runtime, uids: seq<string>): (Runtime, Outcome)
    decreases |uids|
  {
    if uids == [] then (rt, Ok(())) else
    var (next, r) := Send(rt, Delete(uids[0]));
    if r.Err? then (next, r) else SendDeletes(next, uids[1..])
  }

  /** The uids a completed Restarted finds known but not listed. */
  function Stale(rt: Runtime, event: WatchEvent, parseIp: IpParser): set<string> {
    if event.Restarted? && ApplyAll(rt, event.pods, parseIp).1.Ok?
    then ApplyAll(rt, event.pods, parseIp).0.known - Listed(event.pods)
    else {}
  }

  /** `order` is the order in which the hash set of old uids yields the stale ones. */
  function Handle(rt: Runtime, event: WatchEvent, order: seq<string>, parseIp: IpParser): (Runtime, Outcome) {
    match event
    case Applied(pod) =>
      if pod.uid.Some? then ApplyPod(rt, pod, parseIp) else (rt, Ok(()))
    case Deleted(pod) =>
      if pod.uid.Some? then Send(Forget(rt, pod.uid.value), Delete(pod.uid.value)) else (rt, Ok(()))
    case Restarted(pods) =>
      var (next, r) := ApplyAll(rt, pods, parseIp);
      if r.Err? then (next, r) else SendDeletes(next.(known := Listed(pods)), order)
  }

  lemma EventsOfNote(log: seq<Item>, item: Item)
    ensures Events(log + [item]) == Events(log) + if item.Sent? then [item.event] else []
  {
    assert (log + [item])[..|log|] == log;
  }
}
