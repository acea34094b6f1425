// Availability, read off the watch stream (src/kubernetes/mod.rs): an endpoint is available iff the
// last phase that the stream gave its pod since the pod was announced is Running.
module WatchPhases {
  import opened Wrappers
  import opened Endpoints
  import opened Services
  import opened Histories
  import opened Annotations
  import opened Kubernetes
  import opened DiscoveryLists
  import opened DiscoveryRuns
  import opened DiscoveryExact
  import opened Resync
  import opened WatchEffects

  // ---- The phase a watch stream leaves ------------------------------------------------------

  /** The last phase other than Pending of `uid`, once `pod` has had its turn: only a pod of that uid with
      all six fields counts, and Succeeded ends what went before. */
  function Turn(was: Option<string>, pod: Pod, uid: string): Option<string> {
    if LacksAField(pod) || pod.uid != Some(uid) then was
    else if pod.status.value.phase.value == "Succeeded" then None
    else if pod.status.value.phase.value == "Pending" then was
    else pod.status.value.phase
  }

  function Turns(was: Option<string>, pods: seq<Pod>, uid: string): Option<string> {
    if pods == [] then was else Turn(Turns(was, pods[..|pods| - 1], uid), pods[|pods| - 1], uid)
  }

  /** The pods of a list that are applied before one fails. */
  function Taken(rt: Runtime, pods: seq<Pod>, parseIp: IpParser): seq<Pod> {
    if pods == [] || ApplyAll(rt, pods, parseIp).1.Ok? then pods else Taken(rt, pods[..|pods| - 1], parseIp)
  }

  /** An event's pods have their turn, up to one that fails. A deletion, and a completed Restarted that
      does not list the uid, end what went before. */
  function PhaseAfter(was: Option<string>, rt: Runtime, event: WatchEvent, parseIp: IpParser, uid: string): Option<string> {
    match event
    case Applied(pod) => Turns(was, Taken(rt, [pod], parseIp), uid)
    case Deleted(pod) => if pod.uid == Some(uid) then None else was
    case Restarted(pods) =>
      if ApplyAll(rt, pods, parseIp).1.Ok? && !IsListed(pods, uid) then None else Turns(was, Taken(rt, pods, parseIp), uid)
  }

  function WatchedPhase(life: nat, history: seq<Watched>, parseIp: IpParser, uid: string): Option<string> {
    if history == [] then None else
    var n := |history| - 1;
    PhaseAfter(WatchedPhase(life, history[..n], parseIp, uid), After(life, history[..n], parseIp), history[n].event, parseIp, uid)
  }

  // ---- It is the phase the task acts on -----------------------------------------------------

  /** `phase` is that of `uid` as far as `rt` has announced it, and unknown uids have none. */
  predicate Tracks(rt: Runtime, uid: string, phase: Option<string>) {
    (Live(rt.log, uid) ==> Latest(rt.log, uid) == phase) && (uid !in rt.known ==> phase == None)
  }

  lemma NoteKeepsLatest(log: seq<Item>, item: Item, u: string)
    ensures Latest(log + [item], u) ==
            if item == Burst(u) then None else if HandledFirmly(item, u) then Some(item.phase) else Latest(log, u)
  {
    NoteActs(log, item);
  }

  lemma {:induction false} AnnounceKeepsLatest(rt: Runtime, items: seq<string>, uid: string, ip: IpAddr, u: string)
    ensures Latest(Announce(rt, items, uid, ip).0.log, u) == Latest(rt.log, u)
    decreases |items|
  {
    if items != [] && ParseService(items[0]).Ok? && rt.life > 0 {
      var add := AddOf(uid, ip, ParseService(items[0]).value);
      NoteKeepsLatest(rt.log, Sent(add), u);
      AnnounceKeepsLatest(Send(rt, add).0, items[1..], uid, ip, u);
    }
  }

  lemma DiscoverLatest(rt: Runtime, annotations: map<string, string>, uid: string, ip: IpAddr, u: string)
    ensures Latest(Discover(rt, annotations, uid, ip).0.log, u) == if u == uid then None else Latest(rt.log, u)
  {
    NoteKeepsLatest(rt.log, Burst(uid), u);
    if SERVICES_ANNOTATION in annotations {
      AnnounceKeepsLatest(Note(rt, Burst(uid)), Split(annotations[SERVICES_ANNOTATION], ','), uid, ip, u);
    }
  }

  lemma HandlePhaseLatest(rt: Runtime, uid: string, phase: string, u: string)
    requires Survived(HandlePhase(rt, uid, phase).1)
    ensures Latest(HandlePhase(rt, uid, phase).0.log, u) ==
            if u == uid && phase != "Pending" then Some(phase) else Latest(rt.log, u)
  {
    var event := PhaseEvent(uid, phase);
    var mid := if event.None? then rt.log else rt.log + [Sent(event.value)];
    if event.Some? { NoteKeepsLatest(rt.log, Sent(event.value), u); }
    NoteKeepsLatest(mid, Handled(uid, phase), u);
    assert HandlePhase(rt, uid, phase).0.log == mid + [Handled(uid, phase)];
  }

  lemma ApplyPodLatest(rt: Runtime, pod: Pod, parseIp: IpParser, u: string)
    requires pod.uid.Some? && Survived(ApplyPod(rt, pod, parseIp).1)
    ensures var (next, r) := ApplyPod(rt, pod, parseIp);
            Latest(next.log, u) ==
            if !Concerns(pod, u, parseIp) then Latest(rt.log, u)
            else if r.Ok? && Phase(pod) != "Pending" then Some(Phase(pod))
            else if u in rt.known then Latest(rt.log, u) else None
  {
    if Complete(pod) && parseIp(pod.status.value.podIp.value).Some? {
      var uid, ip := pod.uid.value, parseIp(pod.status.value.podIp.value).value;
      var started := rt.(known := rt.known + {uid});
      var (next, r) := if uid in rt.known then (rt, Ok(())) else Discover(started, pod.annotations.value, uid, ip);
      DiscoverLatest(started, pod.annotations.value, uid, ip, u);
      if r.Ok? { HandlePhaseLatest(next, uid, Phase(pod), u); }
    }
  }

  lemma ApplyPodTracks(rt: Runtime, pod: Pod, parseIp: IpParser, u: string, phase: Option<string>)
    requires Sound(rt) && pod.uid.Some? && Survived(ApplyPod(rt, pod, parseIp).1) && Tracks(rt, u, phase)
    ensures var (next, r) := ApplyPod(rt, pod, parseIp);
            Tracks(next, u, if r.Ok? then Turn(phase, pod, u) else phase)
  {
    ApplyPodLatest(rt, pod, parseIp, u);
    ApplyPodOkIff(rt, pod, parseIp);
    if Concerns(pod, u, parseIp) {
      OwnPodActs(rt, pod, parseIp, u);
    } else {
      OtherPodActs(rt, pod, parseIp, u);
    }
  }

  lemma {:induction false} ApplyAllTracks(rt: Runtime, pods: seq<Pod>, parseIp: IpParser, u: string, phase: Option<string>)
    requires Sound(rt) && Survived(ApplyAll(rt, pods, parseIp).1) && Tracks(rt, u, phase)
    ensures Tracks(ApplyAll(rt, pods, parseIp).0, u, Turns(phase, Taken(rt, pods, parseIp), u))
    decreases |pods|
  {
    if pods != [] {
      var n := |pods| - 1;
      var (mid, r) := ApplyAll(rt, pods[..n], parseIp);
      ApplyAllButLast(rt, pods, parseIp);
      ApplyAllTracks(rt, pods[..n], parseIp, u, phase);
      ApplyAllKeepsSound(rt, pods[..n], parseIp);
      if r.Ok? && pods[n].uid.Some? {
        ApplyPodTracks(mid, pods[n], parseIp, u, Turns(phase, pods[..n], u));
      }
    }
  }

  lemma {:induction false} SendDeletesLatest(rt: Runtime, uids: seq<string>, u: string)
    ensures Latest(SendDeletes(rt, uids).0.log, u) == Latest(rt.log, u)
    decreases |uids|
  {
    if uids != [] && rt.life > 0 {
      NoteKeepsLatest(rt.log, Sent(Delete(uids[0])), u);
      SendDeletesLatest(Send(rt, Delete(uids[0])).0, uids[1..], u);
    }
  }

  lemma HandleTracks(rt: Runtime, event: WatchEvent, order: seq<string>, parseIp: IpParser, u: string, phase: Option<string>)
    requires Sound(rt) && Lists(order, Stale(rt, event, parseIp)) && Survived(Handle(rt, event, order, parseIp).1)
    requires Tracks(rt, u, phase)
    ensures Tracks(Handle(rt, event, order, parseIp).0, u, PhaseAfter(phase, rt, event, parseIp, u))
  {
    match event
    case Applied(pod) =>
      AppliedIsOneLongList(rt, pod, parseIp);
      ApplyAllTracks(rt, [pod], parseIp, u, phase);
    case Deleted(pod) =>
      if pod.uid.Some? {
        NoteKeepsLatest(rt.log, Sent(Delete(pod.uid.value)), u);
        NoteActsOn(rt.log, Sent(Delete(pod.uid.value)), u);
      }
    case Restarted(pods) =>
      ApplyAllTracks(rt, pods, parseIp, u, phase);
      ApplyAllKeepsSound(rt, pods, parseIp);
      var (next, r) := ApplyAll(rt, pods, parseIp);
      if r.Ok? {
        RestartKeepsSound(next, Listed(pods), order);
        SendDeletesLatest(next.(known := Listed(pods)), order, u);
        assert u in Listed(pods) <==> IsListed(pods, u);
      }
  }

  /** After any history, the last phase acted on for an announced pod is the one the watch stream left. */
  lemma {:induction false} HistoryTracks(life: nat, history: seq<Watched>, parseIp: IpParser, uid: string)
    requires Possible(life, history, parseIp)
    ensures Tracks(After(life, history, parseIp), uid, WatchedPhase(life, history, parseIp, uid))
  {
    if history != [] {
      var n := |history| - 1;
      HistoryTracks(life, history[..n], parseIp, uid);
      HistoryKeepsSound(life, history[..n], parseIp);
      HandleTracks(After(life, history[..n], parseIp), history[n].event, history[n].order, parseIp, uid,
                   WatchedPhase(life, history[..n], parseIp, uid));
    }
  }

  /** Phase drives availability, on the watch stream itself: once everything sent is processed, however
      interleaved with other tasks' events, an endpoint of the task is available iff the last phase other
      than Pending that the stream gave its pod since it was announced is Running. */
  lemma StreamDrivesAvailability(
      life: nat, history: seq<Watched>, parseIp: IpParser, name: string, reports: seq<Report>, p: Port, uid: string)
    requires Possible(life, history, parseIp)
    requires Project(reports, name) == Tag(name, Events(After(life, history, parseIp).log))
    requires Lookup(Run(reports), p, EndpointId(name, uid)).Some?
    ensures Lookup(Run(reports), p, EndpointId(name, uid)).value.isAvailable <==>
            WatchedPhase(life, history, parseIp, uid) == Some("Running")
  {
    var rt := After(life, history, parseIp);
    HistoryKeepsSound(life, history, parseIp);
    HistoryTracks(life, history, parseIp, uid);
    OwnStreamDecides(reports, p, EndpointId(name, uid));
    TableFollowsLog(rt.log, name, p, uid);
    AnnouncedIsLive(rt.log, uid);
    assert UidFits(rt.known, rt.log, uid);
  }
}
