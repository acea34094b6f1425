// What each watch event makes the Kubernetes discovery task send and remember (src/kubernetes/mod.rs,
// handle_pod_event), in terms of the fields of the pods alone.
module WatchEffects {
  import opened Wrappers
  import opened Endpoints
  import opened Annotations
  import opened Kubernetes
  import opened Announcement
  import opened DiscoveryLists
  import opened DiscoveryRuns

  /** One of the six fields that `apply_pod` takes is missing. */
  predicate LacksAField(pod: Pod) {
    || pod.uid.None? || pod.name.None? || pod.annotations.None?
    || pod.status.None? || pod.status.value.podIp.None? || pod.status.value.phase.None?
  }

  function WholePod(uid: string, name: string, annotations: map<string, string>, address: string, phase: string): Pod {
    Pod(Some(uid), Some(name), Some(annotations), Some(PodStatus(Some(address), Some(phase))))
  }

  /** What a phase is worth telling. */
  function Told(uid: string, phase: string): seq<EndpointEvent> {
    if phase == "Running" then [Resume(uid)]
    else if phase == "Succeeded" then [Delete(uid)]
    else if phase == "Pending" then []
    else [Suspend(uid)]
  }

  lemma PartialPodIsSkipped(rt: Runtime, pod: Pod, parseIp: IpParser)
    requires LacksAField(pod)
    ensures ApplyPod(rt, pod, parseIp) == (rt, Ok(()))
  {}

  lemma UnreadableAddressFails(
      rt: Runtime, uid: string, name: string, annotations: map<string, string>, address: string, phase: string, parseIp: IpParser)
    requires parseIp(address) == None
    ensures ApplyPod(rt, WholePod(uid, name, annotations, address, phase), parseIp) == (rt, Err(BadAddress(address)))
  {}

  lemma PhaseTold(rt: Runtime, uid: string, phase: string)
    ensures var (next, r) := HandlePhase(rt, uid, phase);
            && (if Told(uid, phase) != [] && rt.life == 0 then r == Err(ChannelClosed) && Events(next.log) == Events(rt.log)
                else r == Ok(()) && Events(next.log) == Events(rt.log) + Told(uid, phase))
            && next.known == if phase == "Succeeded" then rt.known - {uid} else rt.known
  {
    if Told(uid, phase) == [] || rt.life > 0 {
      var event := PhaseEvent(uid, phase);
      var mid := if event.None? then rt.log else rt.log + [Sent(event.value)];
      if event.Some? { EventsOfNote(rt.log, Sent(event.value)); }
      EventsOfNote(mid, Handled(uid, phase));
      assert HandlePhase(rt, uid, phase).0.log == mid + [Handled(uid, phase)];
    }
  }

  /** A pod with all six fields, a readable address and a known uid is told of by its phase, and by that
      alone: Resume for Running, Delete for Succeeded, nothing for Pending, Suspend for all others. Only a
      receiver that has hung up can refuse that. */
  lemma KnownPodIsTold(
      rt: Runtime, uid: string, name: string, annotations: map<string, string>, address: string, phase: string, parseIp: IpParser)
    requires parseIp(address).Some? && uid in rt.known
    ensures var (next, r) := ApplyPod(rt, WholePod(uid, name, annotations, address, phase), parseIp);
            && (if Told(uid, phase) != [] && rt.life == 0 then r == Err(ChannelClosed) && Events(next.log) == Events(rt.log)
                else r == Ok(()) && Events(next.log) == Events(rt.log) + Told(uid, phase))
            && next.known == if phase == "Succeeded" then rt.known - {uid} else rt.known
  {
    PhaseTold(rt, uid, phase);
  }

  /** Each item of the annotation is a service, `specs` in order. */
  predicate Asks(annotations: map<string, string>, specs: seq<ServiceSpec>) {
    if "state-proxy.io/services" in annotations then
      var items := Split(annotations["state-proxy.io/services"], ',');
      |items| == |specs| && forall i | 0 <= i < |items| :: ParseService(items[i]) == Ok(specs[i])
    else specs == []
  }

  lemma DiscoverTells(rt: Runtime, annotations: map<string, string>, specs: seq<ServiceSpec>, uid: string, ip: IpAddr)
    requires Asks(annotations, specs) && |specs| <= rt.life
    ensures var (next, r) := Discover(rt, annotations, uid, ip);
            && r == Ok(()) && AnnouncedFirst(Events(rt.log), Events(next.log), uid, ip, specs, |specs|)
            && next.known == rt.known && next.life == rt.life - |specs|
  {
    EventsOfNote(rt.log, Burst(uid));
    assert Events(rt.log) + [] == Events(rt.log);
    if SERVICES_ANNOTATION in annotations {
      var begun, items := Note(rt, Burst(uid)), Split(annotations[SERVICES_ANNOTATION], ',');
      AllValid(items, specs);
      AnnounceSendsPrefix(begun, items, uid, ip);
      AnnounceKeepsKnown(begun, items, uid, ip);
    }
  }

  /** One with an unknown uid is told of by one Add for each service, in order, and then by its phase. */
  lemma NewPodIsTold(
      rt: Runtime, uid: string, name: string, annotations: map<string, string>, specs: seq<ServiceSpec>,
      address: string, phase: string, parseIp: IpParser)
    returns (announced: seq<EndpointEvent>)
    requires parseIp(address).Some? && uid !in rt.known && Asks(annotations, specs) && |specs| < rt.life
    ensures AnnouncedFirst(Events(rt.log), announced, uid, parseIp(address).value, specs, |specs|)
    ensures var (next, r) := ApplyPod(rt, WholePod(uid, name, annotations, address, phase), parseIp);
            && r == Ok(()) && Events(next.log) == announced + Told(uid, phase)
            && next.known == if phase == "Succeeded" then rt.known else rt.known + {uid}
  {
    var started, ip := rt.(known := rt.known + {uid}), parseIp(address).value;
    var mid := Discover(started, annotations, uid, ip).0;
    DiscoverTells(started, annotations, specs, uid, ip);
    PhaseTold(mid, uid, phase);
    announced := Events(mid.log);
    assert rt.known + {uid} - {uid} == rt.known;
  }

  /** Its items are services up to one that is not. */
  predicate AsksUpTo(annotations: map<string, string>, specs: seq<ServiceSpec>, error: Error) {
    && "state-proxy.io/services" in annotations
    && var items := Split(annotations["state-proxy.io/services"], ',');
       && |specs| < |items| && (forall i | 0 <= i < |specs| :: ParseService(items[i]) == Ok(specs[i]))
       && ParseService(items[|specs|]) == Err(error)
  }

  lemma PrefixOf(items: seq<string>, specs: seq<ServiceSpec>)
    requires |specs| < |items| && (forall i | 0 <= i < |specs| :: ParseService(items[i]) == Ok(specs[i]))
    requires ParseService(items[|specs|]).Err?
    ensures ValidPrefix(items) == specs
  {
    ValidPrefixIsLongest(items);
  }

  /** If one of the items is no service, those before it are announced, and the pod fails with its error:
      its phase is not told, and it counts as known. */
  lemma NewPodFails(
      rt: Runtime, uid: string, name: string, annotations: map<string, string>, specs: seq<ServiceSpec>, error: Error,
      address: string, phase: string, parseIp: IpParser)
    requires parseIp(address).Some? && uid !in rt.known && AsksUpTo(annotations, specs, error) && |specs| <= rt.life
    ensures var (next, r) := ApplyPod(rt, WholePod(uid, name, annotations, address, phase), parseIp);
            && r == Err(error) && next.known == rt.known + {uid}
            && AnnouncedFirst(Events(rt.log), Events(next.log), uid, parseIp(address).value, specs, |specs|)
  {
    var items := Split(annotations[SERVICES_ANNOTATION], ',');
    var begun := Note(rt.(known := rt.known + {uid}), Burst(uid));
    EventsOfNote(rt.log, Burst(uid));
    assert Events(rt.log) + [] == Events(rt.log);
    PrefixOf(items, specs);
    AnnounceSendsPrefix(begun, items, uid, parseIp(address).value);
    AnnounceKeepsKnown(begun, items, uid, parseIp(address).value);
  }

  /** A deletion is told whether or not the pod was known; without a uid it changes nothing. */
  lemma DeletedIsTold(rt: Runtime, pod: Pod, parseIp: IpParser)
    ensures pod.uid.None? ==> Handle(rt, Deleted(pod), [], parseIp) == (rt, Ok(()))
    ensures pod.uid.Some? ==>
              var uid, (next, r) := pod.uid.value, Handle(rt, Deleted(pod), [], parseIp);
              && next.known == rt.known - {uid}
              && (if rt.life > 0 then r == Ok(()) && Events(next.log) == Events(rt.log) + [Delete(uid)]
                  else r == Err(ChannelClosed) && Events(next.log) == Events(rt.log))
  {
    if pod.uid.Some? { EventsOfNote(rt.log, Sent(Delete(pod.uid.value))); }
  }

  /** An Applied pod is handled as in a list of its own. */
  lemma AppliedIsApplied(rt: Runtime, pod: Pod, parseIp: IpParser)
    ensures Handle(rt, Applied(pod), [], parseIp) == if pod.uid.None? then (rt, Ok(())) else ApplyPod(rt, pod, parseIp)
  {}

  lemma {:induction false} SendDeletesTells(rt: Runtime, uids: seq<string>)
    requires SendDeletes(rt, uids).1.Ok?
    ensures var next := SendDeletes(rt, uids).0;
            && next.known == rt.known && |Events(next.log)| == |Events(rt.log)| + |uids| && Events(rt.log) <= Events(next.log)
            && forall i | 0 <= i < |uids| :: Events(next.log)[|Events(rt.log)| + i] == Delete(uids[i])
    decreases |uids|
  {
    if uids != [] {
      var next := Send(rt, Delete(uids[0])).0;
      EventsOfNote(rt.log, Sent(Delete(uids[0])));
      SendDeletesTells(next, uids[1..]);
    }
  }

  predicate IsListed(pods: seq<Pod>, uid: string) {
    exists k :: 0 <= k < |pods| && pods[k].uid == Some(uid)
  }

  /** A Restarted that succeeds ends with exactly the uids known that some listed pod has, whole or not;
      after what its pods are told of by, it sends one Delete for each uid known by then that no listed
      pod has, and nothing else. `applied` is the state after its pods. */
  lemma RestartedIsTold(rt: Runtime, pods: seq<Pod>, order: seq<string>, parseIp: IpParser) returns (applied: Runtime)
    requires Lists(order, Stale(rt, Restarted(pods), parseIp)) && Handle(rt, Restarted(pods), order, parseIp).1.Ok?
    ensures ApplyAll(rt, pods, parseIp).1.Ok? && applied == ApplyAll(rt, pods, parseIp).0
    ensures forall uid :: uid in order <==> uid in applied.known && !IsListed(pods, uid)
    ensures forall i, j | 0 <= i < j < |order| :: order[i] != order[j]
    ensures var next := Handle(rt, Restarted(pods), order, parseIp).0;
            && (forall uid :: uid in next.known <==> IsListed(pods, uid))
            && |Events(next.log)| == |Events(applied.log)| + |order| && Events(applied.log) <= Events(next.log)
            && forall i | 0 <= i < |order| :: Events(next.log)[|Events(applied.log)| + i] == Delete(order[i])
  {
    applied := ApplyAll(rt, pods, parseIp).0;
    forall uid: string
      ensures uid in Listed(pods) <==> IsListed(pods, uid)
    {}
    SendDeletesTells(applied.(known := Listed(pods)), order);
  }

  /** A list is applied pod by pod in its order, up to the first that fails; pods without a uid are
      skipped. */
  lemma ListIsAppliedInOrder(rt: Runtime, pods: seq<Pod>, pod: Pod, parseIp: IpParser)
    ensures ApplyAll(rt, [], parseIp) == (rt, Ok(()))
    ensures var (mid, r) := ApplyAll(rt, pods, parseIp);
            ApplyAll(rt, pods + [pod], parseIp) ==
              if r.Err? then (mid, r) else if pod.uid.None? then (mid, Ok(())) else ApplyPod(mid, pod, parseIp)
  {
    var longer := pods + [pod];
    ApplyAllButLast(rt, longer, parseIp);
    assert longer[..|pods|] == pods && longer[|pods|] == pod;
  }
}
