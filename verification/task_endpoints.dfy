// Where the endpoints that the manager holds for a Kubernetes task come from: which pod's annotation
// and address they carry, and which ports a pod gets.
module TaskEndpoints {
  import opened Wrappers
  import opened Endpoints
  import opened Services
  import opened Histories
  import opened Annotations
  import opened Kubernetes
  import opened Announcement
  import opened DiscoveryLists
  import opened DiscoveryRuns
  import opened DiscoveryExact
  import opened Resync

  /** What the task's events alone make of a new service manager. */
  function Table(log: seq<Item>, name: string): PortMap {
    Run(Tag(name, Events(log)))
  }

  function CellOf(log: seq<Item>, name: string, p: Port, uid: string): Option<Endpoint> {
    Lookup(Table(log, name), p, EndpointId(name, uid))
  }

  /** One more item acts on a cell as its event does. */
  lemma NoteCell(log: seq<Item>, item: Item, name: string, p: Port, uid: string)
    ensures CellOf(log + [item], name, p, uid) ==
            if item.Sent? then Cell(CellOf(log, name, p, uid), p, EndpointId(name, uid), name, item.event)
            else CellOf(log, name, p, uid)
  {
    EventsOfNote(log, item);
    if item.Sent? {
      RunOneMore(map[], name, Events(log), item.event);
      ProcessActsOnCells(Table(log, name), name, item.event, p, EndpointId(name, uid));
    } else {
      assert Events(log) + [] == Events(log);
    }
  }

  lemma {:induction false} AnnouncedIsServed(log: seq<Item>, name: string, uid: string) returns (p: Port)
    requires Announced(log, uid)
    ensures CellOf(log, name, p, uid).Some?
  {
    var n := |log| - 1;
    assert log == log[..n] + [log[n]];
    if IsAddOf(log[n], uid) {
      p := log[n].event.externalPort;
    } else {
      p := AnnouncedIsServed(log[..n], name, uid);
    }
    NoteCell(log[..n], log[n], name, p, uid);
  }

  /** A uid is announced iff the manager holds an endpoint of it. */
  lemma AnnouncedIffServed(log: seq<Item>, name: string, uid: string)
    requires LogFits(log)
    ensures Announced(log, uid) <==> exists p :: CellOf(log, name, p, uid).Some?
  {
    if p :| CellOf(log, name, p, uid).Some? {
      TableFollowsLog(log, name, p, uid);
    }
    if Announced(log, uid) {
      var p := AnnouncedIsServed(log, name, uid);
    }
  }

  // ---- What an announcement leaves ----------------------------------------------------------

  /** `specs[i]` is the last on port p. */
  ghost predicate IsLastOn(specs: seq<ServiceSpec>, p: Port, i: nat) {
    i < |specs| && specs[i].externalPort == p && forall j | i < j < |specs| :: specs[j].externalPort != p
  }

  /** There is an endpoint iff some service is on port p, and then it is that of the last one. */
  ghost predicate Serves(specs: seq<ServiceSpec>, ip: IpAddr, p: Port, c: Option<Endpoint>) {
    && (c.Some? <==> exists i: nat :: IsLastOn(specs, p, i))
    && forall i: nat | IsLastOn(specs, p, i) ::
         c.Some? && c.value.address == SocketAddr(ip, specs[i].backendPort) && c.value.protocol == specs[i].backendProtocol
  }

  lemma ServesOneMore(specs: seq<ServiceSpec>, spec: ServiceSpec, ip: IpAddr, p: Port, c: Option<Endpoint>, name: string, uid: string)
    requires Serves(specs, ip, p, c)
    ensures Serves(specs + [spec], ip, p, Cell(c, p, EndpointId(name, uid), name, AddOf(uid, ip, spec)))
  {
    var longer := specs + [spec];
    if spec.externalPort == p {
      assert IsLastOn(longer, p, |specs|);
    } else {
      forall i: nat
        ensures IsLastOn(longer, p, i) <==> IsLastOn(specs, p, i)
      {
        if IsLastOn(longer, p, i) {
          forall j | i < j < |specs| ensures specs[j].externalPort != p { assert longer[j] == specs[j]; }
        }
      }
    }
  }

  lemma NoneAnnounced(rt: Runtime, items: seq<string>, uid: string, ip: IpAddr, done: seq<ServiceSpec>)
    requires items == [] || ParseService(items[0]).Err?
    ensures done + ValidPrefix(items) == done && Announce(rt, items, uid, ip).0 == rt
  {}

  /** The first item is announced, and then the rest. */
  lemma OneAnnounced(rt: Runtime, items: seq<string>, uid: string, ip: IpAddr, done: seq<ServiceSpec>) returns (spec: ServiceSpec)
    requires items != [] && ParseService(items[0]).Ok? && Survived(Announce(rt, items, uid, ip).1)
    ensures rt.life > 0 && done + ValidPrefix(items) == done + [spec] + ValidPrefix(items[1..])
    ensures Announce(rt, items, uid, ip) == Announce(Send(rt, AddOf(uid, ip, spec)).0, items[1..], uid, ip)
  {
    spec := ParseService(items[0]).value;
  }

  lemma AddServes(rt: Runtime, spec: ServiceSpec, uid: string, ip: IpAddr, name: string, p: Port, done: seq<ServiceSpec>)
    requires Serves(done, ip, p, CellOf(rt.log, name, p, uid)) && rt.life > 0
    ensures Serves(done + [spec], ip, p, CellOf(Send(rt, AddOf(uid, ip, spec)).0.log, name, p, uid))
  {
    NoteCell(rt.log, Sent(AddOf(uid, ip, spec)), name, p, uid);
    ServesOneMore(done, spec, ip, p, CellOf(rt.log, name, p, uid), name, uid);
  }

  /** The services of the items' valid prefix are served after those already there. */
  lemma {:induction false} AnnounceServes(
      rt: Runtime, items: seq<string>, uid: string, ip: IpAddr, name: string, p: Port, done: seq<ServiceSpec>)
    requires Serves(done, ip, p, CellOf(rt.log, name, p, uid)) && Survived(Announce(rt, items, uid, ip).1)
    ensures Serves(done + ValidPrefix(items), ip, p, CellOf(Announce(rt, items, uid, ip).0.log, name, p, uid))
    decreases |items|
  {
    if items == [] || ParseService(items[0]).Err? {
      NoneAnnounced(rt, items, uid, ip, done);
    } else {
      var spec := OneAnnounced(rt, items, uid, ip, done);
      AddServes(rt, spec, uid, ip, name, p, done);
      AnnounceServes(Send(rt, AddOf(uid, ip, spec)).0, items[1..], uid, ip, name, p, done + [spec]);
    }
  }

  lemma {:induction false} AnnounceLeavesOthers(
      rt: Runtime, items: seq<string>, uid: string, ip: IpAddr, name: string, p: Port, u: string)
    requires u != uid
    ensures CellOf(Announce(rt, items, uid, ip).0.log, name, p, u) == CellOf(rt.log, name, p, u)
    decreases |items|
  {
    if items != [] && ParseService(items[0]).Ok? && rt.life > 0 {
      var add := AddOf(uid, ip, ParseService(items[0]).value);
      NoteCell(rt.log, Sent(add), name, p, u);
      AnnounceLeavesOthers(Send(rt, add).0, items[1..], uid, ip, name, p, u);
    }
  }

  /** The services a pod is announced with: its items as far as they can be read. */
  function SpecsOf(pod: Pod): seq<ServiceSpec>
    requires Complete(pod)
  {
    ValidPrefix(ItemsOf(pod))
  }

  lemma DiscoverServes(rt: Runtime, pod: Pod, ip: IpAddr, name: string, p: Port, u: string)
    requires Complete(pod) && Survived(Discover(rt, pod.annotations.value, pod.uid.value, ip).1)
    requires u == pod.uid.value ==> CellOf(rt.log, name, p, u) == None
    ensures var c := CellOf(Discover(rt, pod.annotations.value, pod.uid.value, ip).0.log, name, p, u);
            if u == pod.uid.value then Serves(SpecsOf(pod), ip, p, c) else c == CellOf(rt.log, name, p, u)
  {
    var uid := pod.uid.value;
    NoteCell(rt.log, Burst(uid), name, p, u);
    if SERVICES_ANNOTATION in pod.annotations.value {
      var begun := Note(rt, Burst(uid));
      if u == uid {
        AnnounceServes(begun, ItemsOf(pod), uid, ip, name, p, []);
        assert [] + SpecsOf(pod) == SpecsOf(pod);
      } else {
        AnnounceLeavesOthers(begun, ItemsOf(pod), uid, ip, name, p, u);
      }
    }
  }

  // ---- What a pod leaves --------------------------------------------------------------------

  /** The same endpoint, but for its availability. */
  predicate Alike(c: Option<Endpoint>, c': Option<Endpoint>) {
    && (c.Some? <==> c'.Some?)
    && (c.Some? ==> c'.value.address == c.value.address && c'.value.protocol == c.value.protocol)
  }

  lemma HandlePhaseLeaves(rt: Runtime, uid: string, phase: string, name: string, p: Port, u: string)
    requires Survived(HandlePhase(rt, uid, phase).1)
    ensures var c, c' := CellOf(rt.log, name, p, u), CellOf(HandlePhase(rt, uid, phase).0.log, name, p, u);
            if u != uid then c' == c else if phase == "Succeeded" then c' == None else Alike(c, c')
  {
    var event := PhaseEvent(uid, phase);
    var mid := if event.None? then rt.log else rt.log + [Sent(event.value)];
    if event.Some? { NoteCell(rt.log, Sent(event.value), name, p, u); }
    NoteCell(mid, Handled(uid, phase), name, p, u);
    assert HandlePhase(rt, uid, phase).0.log == mid + [Handled(uid, phase)];
  }

  /** Before it is known, a uid has no endpoints. */
  lemma UnknownHasNone(rt: Runtime, name: string, p: Port, uid: string)
    requires Sound(rt) && uid !in rt.known
    ensures CellOf(rt.log, name, p, uid) == None
  {
    TableFollowsLog(rt.log, name, p, uid);
    if Announced(rt.log, uid) { AnnouncedIsLive(rt.log, uid); }
    assert UidFits(rt.known, rt.log, uid);
  }

  /** What applying a pod makes of an endpoint `c` of its uid. */
  ghost predicate PodLeaves(isKnown: bool, pod: Pod, parseIp: IpParser, ended: bool, p: Port, c: Option<Endpoint>, c': Option<Endpoint>)
    requires Complete(pod) && parseIp(pod.status.value.podIp.value).Some?
  {
    if ended && Phase(pod) == "Succeeded" then c' == None
    else if isKnown then Alike(c, c')
    else Serves(SpecsOf(pod), parseIp(pod.status.value.podIp.value).value, p, c')
  }

  lemma AlikeServes(specs: seq<ServiceSpec>, ip: IpAddr, p: Port, c: Option<Endpoint>, c': Option<Endpoint>)
    requires Serves(specs, ip, p, c) && Alike(c, c')
    ensures Serves(specs, ip, p, c')
  {}

  lemma ApplyPodLeaves(rt: Runtime, pod: Pod, parseIp: IpParser, name: string, p: Port, u: string)
    requires Sound(rt) && pod.uid.Some? && Survived(ApplyPod(rt, pod, parseIp).1)
    ensures var (next, r) := ApplyPod(rt, pod, parseIp);
            var c, c' := CellOf(rt.log, name, p, u), CellOf(next.log, name, p, u);
            if Concerns(pod, u, parseIp) then PodLeaves(u in rt.known, pod, parseIp, r.Ok?, p, c, c') else c' == c
  {
    if Complete(pod) && parseIp(pod.status.value.podIp.value).Some? {
      var uid, ip := pod.uid.value, parseIp(pod.status.value.podIp.value).value;
      if uid in rt.known {
        HandlePhaseLeaves(rt, uid, Phase(pod), name, p, u);
      } else {
        var started := rt.(known := rt.known + {uid});
        var (next, r) := Discover(started, pod.annotations.value, uid, ip);
        UnknownHasNone(rt, name, p, uid);
        DiscoverServes(started, pod, ip, name, p, u);
        if r.Ok? {
          HandlePhaseLeaves(next, uid, Phase(pod), name, p, u);
          if u == uid && Phase(pod) != "Succeeded" {
            AlikeServes(SpecsOf(pod), ip, p, CellOf(next.log, name, p, u),
                        CellOf(HandlePhase(next, uid, Phase(pod)).0.log, name, p, u));
          }
        }
      }
    }
  }

  // ---- Where endpoints come from ------------------------------------------------------------

  /** The manager's endpoints of `uid` are those of one pod: on each port of its services that of the
      last service there, at the pod's address, and none on other ports. */
  ghost predicate HasServicesOf(log: seq<Item>, name: string, uid: string, pod: Pod, parseIp: IpParser) {
    && Concerns(pod, uid, parseIp)
    && forall p :: Serves(SpecsOf(pod), parseIp(pod.status.value.podIp.value).value, p, CellOf(log, name, p, uid))
  }

  ghost predicate HasNone(log: seq<Item>, name: string, uid: string) {
    forall p :: CellOf(log, name, p, uid) == None
  }

  /** They are those of one of these pods, or there are none. */
  ghost predicate ComesFrom(log: seq<Item>, name: string, uid: string, pods: seq<Pod>, parseIp: IpParser) {
    HasNone(log, name, uid) || exists k :: 0 <= k < |pods| && HasServicesOf(log, name, uid, pods[k], parseIp)
  }

  lemma SameKeepsServices(log: seq<Item>, log': seq<Item>, name: string, uid: string, pod: Pod, parseIp: IpParser)
    requires HasServicesOf(log, name, uid, pod, parseIp)
    requires forall p :: Alike(CellOf(log, name, p, uid), CellOf(log', name, p, uid))
    ensures HasServicesOf(log', name, uid, pod, parseIp)
  {
    forall p: Port
      ensures Serves(SpecsOf(pod), parseIp(pod.status.value.podIp.value).value, p, CellOf(log', name, p, uid))
    {
      assert Alike(CellOf(log, name, p, uid), CellOf(log', name, p, uid));
      AlikeServes(SpecsOf(pod), parseIp(pod.status.value.podIp.value).value, p,
                  CellOf(log, name, p, uid), CellOf(log', name, p, uid));
    }
  }

  lemma SameComesFrom(log: seq<Item>, log': seq<Item>, name: string, uid: string, pods: seq<Pod>, more: seq<Pod>, parseIp: IpParser)
    requires ComesFrom(log, name, uid, pods, parseIp)
    requires forall p :: Alike(CellOf(log, name, p, uid), CellOf(log', name, p, uid))
    ensures ComesFrom(log', name, uid, pods + more, parseIp)
  {
    if HasNone(log, name, uid) {
      forall p: Port
        ensures CellOf(log', name, p, uid) == None
      {
        assert Alike(CellOf(log, name, p, uid), CellOf(log', name, p, uid));
      }
    } else {
      var k :| 0 <= k < |pods| && HasServicesOf(log, name, uid, pods[k], parseIp);
      SameKeepsServices(log, log', name, uid, pods[k], parseIp);
      assert (pods + more)[k] == pods[k];
    }
  }

  lemma ApplyPodComesFrom(rt: Runtime, pod: Pod, parseIp: IpParser, name: string, uid: string, pods: seq<Pod>)
    requires Sound(rt) && pod.uid.Some? && Survived(ApplyPod(rt, pod, parseIp).1)
    requires ComesFrom(rt.log, name, uid, pods, parseIp)
    ensures ComesFrom(ApplyPod(rt, pod, parseIp).0.log, name, uid, pods + [pod], parseIp)
  {
    var (next, r) := ApplyPod(rt, pod, parseIp);
    forall p: Port
      ensures var c, c' := CellOf(rt.log, name, p, uid), CellOf(next.log, name, p, uid);
              if Concerns(pod, uid, parseIp) then PodLeaves(uid in rt.known, pod, parseIp, r.Ok?, p, c, c') else Alike(c, c')
    {
      ApplyPodLeaves(rt, pod, parseIp, name, p, uid);
    }
    if Concerns(pod, uid, parseIp) && r.Ok? && Phase(pod) == "Succeeded" {
      assert HasNone(next.log, name, uid);
    } else if Concerns(pod, uid, parseIp) && uid !in rt.known {
      assert HasServicesOf(next.log, name, uid, pod, parseIp);
      assert (pods + [pod])[|pods|] == pod;
    } else {
      SameComesFrom(rt.log, next.log, name, uid, pods, [pod], parseIp);
    }
  }

  lemma {:induction false} ApplyAllComesFrom(rt: Runtime, pods: seq<Pod>, parseIp: IpParser, name: string, uid: string, before: seq<Pod>)
    requires Sound(rt) && Survived(ApplyAll(rt, pods, parseIp).1)
    requires ComesFrom(rt.log, name, uid, before, parseIp)
    ensures ComesFrom(ApplyAll(rt, pods, parseIp).0.log, name, uid, before + pods, parseIp)
    decreases |pods|
  {
    if pods == [] {
      assert before + pods == before;
    } else {
      var n := |pods| - 1;
      var (mid, r) := ApplyAll(rt, pods[..n], parseIp);
      ApplyAllButLast(rt, pods, parseIp);
      ApplyAllComesFrom(rt, pods[..n], parseIp, name, uid, before);
      ApplyAllKeepsSound(rt, pods[..n], parseIp);
      assert before + pods[..n] + [pods[n]] == before + pods;
      if r.Ok? && pods[n].uid.Some? {
        ApplyPodComesFrom(mid, pods[n], parseIp, name, uid, before + pods[..n]);
      } else {
        SameComesFrom(mid.log, mid.log, name, uid, before + pods[..n], [pods[n]], parseIp);
      }
    }
  }

  lemma DeleteLeaves(rt: Runtime, d: string, name: string, p: Port, uid: string)
    requires rt.life > 0
    ensures CellOf(Send(rt, Delete(d)).0.log, name, p, uid) == if d == uid then None else CellOf(rt.log, name, p, uid)
  {
    NoteCell(rt.log, Sent(Delete(d)), name, p, uid);
  }

  /** Deleting takes all endpoints of the deleted uids and no other. */
  lemma {:induction false} SendDeletesLeaves(rt: Runtime, uids: seq<string>, name: string, p: Port, uid: string)
    requires SendDeletes(rt, uids).1.Ok?
    ensures CellOf(SendDeletes(rt, uids).0.log, name, p, uid) == if uid in uids then None else CellOf(rt.log, name, p, uid)
    decreases |uids|
  {
    if uids != [] {
      DeleteLeaves(rt, uids[0], name, p, uid);
      SendDeletesLeaves(Send(rt, Delete(uids[0])).0, uids[1..], name, p, uid);
    }
  }

  lemma SendDeletesComesFrom(rt: Runtime, uids: seq<string>, name: string, uid: string, pods: seq<Pod>, parseIp: IpParser)
    requires SendDeletes(rt, uids).1.Ok? && ComesFrom(rt.log, name, uid, pods, parseIp)
    ensures ComesFrom(SendDeletes(rt, uids).0.log, name, uid, pods, parseIp)
  {
    var next := SendDeletes(rt, uids).0;
    forall p: Port
      ensures CellOf(next.log, name, p, uid) == if uid in uids then None else CellOf(rt.log, name, p, uid)
    {
      SendDeletesLeaves(rt, uids, name, p, uid);
    }
    if uid in uids {
      assert HasNone(next.log, name, uid);
    } else {
      SameComesFrom(rt.log, next.log, name, uid, pods, [], parseIp);
      assert pods + [] == pods;
    }
  }

  // ---- Histories ----------------------------------------------------------------------------

  /** The pods whose data an event carries for announcing. */
  function EventPods(event: WatchEvent): seq<Pod> {
    match event
    case Applied(pod) => [pod]
    case Deleted(_) => []
    case Restarted(pods) => pods
  }

  function PodsOf(history: seq<Watched>): seq<Pod> {
    if history == [] then []
    else PodsOf(history[..|history| - 1]) + EventPods(history[|history| - 1].event)
  }

  lemma HandleComesFrom(
      rt: Runtime, event: WatchEvent, order: seq<string>, parseIp: IpParser, name: string, uid: string, pods: seq<Pod>)
    requires Sound(rt) && Lists(order, Stale(rt, event, parseIp))
    requires Survived(Handle(rt, event, order, parseIp).1)
    requires ComesFrom(rt.log, name, uid, pods, parseIp)
    ensures ComesFrom(Handle(rt, event, order, parseIp).0.log, name, uid, pods + EventPods(event), parseIp)
  {
    match event
    case Applied(pod) =>
      AppliedIsOneLongList(rt, pod, parseIp);
      ApplyAllComesFrom(rt, [pod], parseIp, name, uid, pods);
    case Deleted(pod) =>
      assert pods + [] == pods;
      if pod.uid.Some? {
        var start, uids := Forget(rt, pod.uid.value), [pod.uid.value];
        assert uids[1..] == [];
        assert SendDeletes(start, uids) == Send(start, Delete(pod.uid.value));
        SendDeletesComesFrom(start, uids, name, uid, pods, parseIp);
      }
    case Restarted(list) =>
      ApplyAllComesFrom(rt, list, parseIp, name, uid, pods);
      ApplyAllKeepsSound(rt, list, parseIp);
      var (next, r) := ApplyAll(rt, list, parseIp);
      if r.Ok? {
        RestartKeepsSound(next, Listed(list), order);
        SendDeletesComesFrom(next.(known := Listed(list)), order, name, uid, pods + list, parseIp);
      }
  }

  /** After any history, the endpoints that the task's events leave of a uid are exactly the services of
      a single pod that was applied or listed, at that pod's address; or there are none. */
  lemma {:induction false} HistoryComesFrom(life: nat, history: seq<Watched>, parseIp: IpParser, name: string, uid: string)
    requires Possible(life, history, parseIp)
    ensures ComesFrom(After(life, history, parseIp).log, name, uid, PodsOf(history), parseIp)
  {
    if history == [] {
      forall p: Port
        ensures CellOf([], name, p, uid) == None
      {
        TableFollowsLog([], name, p, uid);
      }
      assert HasNone([], name, uid);
    } else {
      var n := |history| - 1;
      var before, w := After(life, history[..n], parseIp), history[n];
      HistoryComesFrom(life, history[..n], parseIp, name, uid);
      HistoryKeepsSound(life, history[..n], parseIp);
      HandleComesFrom(before, w.event, w.order, parseIp, name, uid, PodsOf(history[..n]));
    }
  }

  // ---- A completed Restarted ----------------------------------------------------------------

  /** Pod `k` of the list is announced when its turn comes, and its uid is not deleted after. */
  predicate AnnouncedAt(known: set<string>, pods: seq<Pod>, k: nat) {
    && k < |pods| && Complete(pods[k]) && !Kept(known, pods[..k], pods[k].uid.value)
    && forall j | k <= j < |pods| && Complete(pods[j]) && pods[j].uid == pods[k].uid :: Phase(pods[j]) != "Succeeded"
  }

  /** No complete pod of the list has `uid` succeeded. */
  predicate NeverSucceeded(pods: seq<Pod>, uid: string) {
    forall j | 0 <= j < |pods| && Complete(pods[j]) && pods[j].uid == Some(uid) :: Phase(pods[j]) != "Succeeded"
  }

  lemma {:induction false} KeptSince(known: set<string>, pods: seq<Pod>, k: nat)
    requires AnnouncedAt(known, pods, k)
    ensures Kept(known, pods, pods[k].uid.value)
    decreases |pods|
  {
    var n := |pods| - 1;
    if k < n {
      assert pods[..n][..k] == pods[..k];
      KeptSince(known, pods[..n], k);
    }
  }

  lemma {:induction false} KeptThroughout(known: set<string>, pods: seq<Pod>, uid: string)
    requires uid in known && NeverSucceeded(pods, uid)
    ensures Kept(known, pods, uid)
  {
    if pods != [] { KeptThroughout(known, pods[..|pods| - 1], uid); }
  }

  lemma AnnouncedLast(known: set<string>, pods: seq<Pod>, uid: string)
    requires pods != [] && Complete(pods[|pods| - 1]) && pods[|pods| - 1].uid == Some(uid)
    requires Phase(pods[|pods| - 1]) != "Succeeded" && !Kept(known, pods[..|pods| - 1], uid)
    ensures AnnouncedAt(known, pods, |pods| - 1)
  {}

  lemma AnnouncedEarlier(known: set<string>, pods: seq<Pod>, k: nat)
    requires pods != [] && AnnouncedAt(known, pods[..|pods| - 1], k)
    requires Complete(pods[|pods| - 1]) && pods[|pods| - 1].uid == pods[k].uid ==> Phase(pods[|pods| - 1]) != "Succeeded"
    ensures AnnouncedAt(known, pods, k)
  {
    var earlier := pods[..|pods| - 1];
    assert earlier[..k] == pods[..k];
    forall j | k <= j < |pods| && Complete(pods[j]) && pods[j].uid == pods[k].uid
      ensures Phase(pods[j]) != "Succeeded"
    {
      if j < |earlier| { assert earlier[j] == pods[j]; }
    }
  }

  ghost predicate SomeAnnounced(known: set<string>, pods: seq<Pod>, uid: string) {
    exists k: nat :: AnnouncedAt(known, pods, k) && pods[k].uid == Some(uid)
  }

  lemma {:induction false} KeptHow(known: set<string>, pods: seq<Pod>, uid: string)
    requires Kept(known, pods, uid) && !(uid in known && NeverSucceeded(pods, uid))
    ensures SomeAnnounced(known, pods, uid)
  {
    var n := |pods| - 1;
    if Complete(pods[n]) && pods[n].uid == Some(uid) && !Kept(known, pods[..n], uid) {
      AnnouncedLast(known, pods, uid);
    } else {
      assert uid in known ==> !NeverSucceeded(pods[..n], uid);
      KeptHow(known, pods[..n], uid);
      var k: nat :| AnnouncedAt(known, pods[..n], k) && pods[..n][k].uid == Some(uid);
      AnnouncedEarlier(known, pods, k);
    }
  }

  /** A uid is kept either because it was known and stayed, or because some pod of it is announced. */
  lemma KeptIff(known: set<string>, pods: seq<Pod>, uid: string)
    ensures Kept(known, pods, uid) <==> (uid in known && NeverSucceeded(pods, uid)) || SomeAnnounced(known, pods, uid)
  {
    if uid in known && NeverSucceeded(pods, uid) {
      KeptThroughout(known, pods, uid);
    } else if k: nat :| AnnouncedAt(known, pods, k) && pods[k].uid == Some(uid) {
      KeptSince(known, pods, k);
    } else if Kept(known, pods, uid) {
      KeptHow(known, pods, uid);
    }
  }

  /** Applying a list gives each pod announced in it its endpoints. */
  lemma {:induction false} ListServes(rt: Runtime, pods: seq<Pod>, parseIp: IpParser, name: string, k: nat)
    requires Sound(rt) && ApplyAll(rt, pods, parseIp).1.Ok? && AnnouncedAt(rt.known, pods, k)
    ensures HasServicesOf(ApplyAll(rt, pods, parseIp).0.log, name, pods[k].uid.value, pods[k], parseIp)
    decreases |pods|
  {
    var n, uid := |pods| - 1, pods[k].uid.value;
    var mid, next := ApplyAll(rt, pods[..n], parseIp).0, ApplyAll(rt, pods, parseIp).0;
    ApplyAllButLast(rt, pods, parseIp);
    ApplyAllOkIff(rt, pods[..n], parseIp);
    ApplyAllKeepsSound(rt, pods[..n], parseIp);
    if k < n {
      assert pods[..n][..k] == pods[..k];
      ListServes(rt, pods[..n], parseIp, name, k);
      KeptSince(rt.known, pods[..n], k);
    }
    forall p: Port
      ensures if k < n then Alike(CellOf(mid.log, name, p, uid), CellOf(next.log, name, p, uid))
              else Serves(SpecsOf(pods[k]), parseIp(pods[k].status.value.podIp.value).value, p, CellOf(next.log, name, p, uid))
    {
      if pods[n].uid.Some? { ApplyPodLeaves(mid, pods[n], parseIp, name, p, uid); }
    }
    if k < n { SameKeepsServices(mid.log, next.log, name, uid, pods[k], parseIp); }
  }

  /** It leaves the endpoints of a uid known throughout as they are, but for availability. */
  lemma {:induction false} ListLeavesKnown(rt: Runtime, pods: seq<Pod>, parseIp: IpParser, name: string, p: Port, uid: string)
    requires Sound(rt) && ApplyAll(rt, pods, parseIp).1.Ok? && uid in rt.known && NeverSucceeded(pods, uid)
    ensures Alike(CellOf(rt.log, name, p, uid), CellOf(ApplyAll(rt, pods, parseIp).0.log, name, p, uid))
    decreases |pods|
  {
    if pods != [] {
      var n := |pods| - 1;
      var mid := ApplyAll(rt, pods[..n], parseIp).0;
      ApplyAllButLast(rt, pods, parseIp);
      ApplyAllOkIff(rt, pods[..n], parseIp);
      ApplyAllKeepsSound(rt, pods[..n], parseIp);
      ListLeavesKnown(rt, pods[..n], parseIp, name, p, uid);
      KeptThroughout(rt.known, pods[..n], uid);
      if pods[n].uid.Some? { ApplyPodLeaves(mid, pods[n], parseIp, name, p, uid); }
    }
  }

  /** The table's endpoints of the task are those of its own events, whatever other tasks report. */
  lemma OwnCell(log: seq<Item>, name: string, reports: seq<Report>, p: Port, uid: string)
    requires Project(reports, name) == Tag(name, Events(log))
    ensures Lookup(Run(reports), p, EndpointId(name, uid)) == CellOf(log, name, p, uid)
  {
    OwnStreamDecides(reports, p, EndpointId(name, uid));
  }

  /** What a completed Restarted makes of an endpoint `c` of `uid`: none, if applying the list leaves the
      uid unknown or does not list it; the services of the pod that was announced; or the same as
      before, if the uid was known and stayed. */
  ghost predicate RestartLeaves(
      known: set<string>, pods: seq<Pod>, parseIp: IpParser, uid: string, p: Port, c: Option<Endpoint>, c': Option<Endpoint>) {
    && (!Kept(known, pods, uid) || uid !in Listed(pods) ==> c' == None)
    && (uid in Listed(pods) && uid in known && NeverSucceeded(pods, uid) ==> Alike(c, c'))
    && (forall k: nat | AnnouncedAt(known, pods, k) && pods[k].uid == Some(uid) ::
          Concerns(pods[k], uid, parseIp) && ItemsValid(pods[k])
          && Serves(SpecsOf(pods[k]), parseIp(pods[k].status.value.podIp.value).value, p, c'))
  }

  lemma AnnouncedFits(known: set<string>, pods: seq<Pod>, parseIp: IpParser, k: nat)
    requires ListFits(known, pods, parseIp) && AnnouncedAt(known, pods, k)
    ensures PodFits(false, pods[k], parseIp)
    decreases |pods|
  {
    if k < |pods| - 1 {
      assert pods[..|pods| - 1][..k] == pods[..k];
      AnnouncedFits(known, pods[..|pods| - 1], parseIp, k);
    }
  }

  lemma RestartLeavesEndpoints(rt: Runtime, pods: seq<Pod>, order: seq<string>, parseIp: IpParser, name: string, p: Port, uid: string)
    requires Sound(rt) && Lists(order, Stale(rt, Restarted(pods), parseIp))
    requires Handle(rt, Restarted(pods), order, parseIp).1.Ok?
    ensures RestartLeaves(rt.known, pods, parseIp, uid, p, CellOf(rt.log, name, p, uid),
                          CellOf(Handle(rt, Restarted(pods), order, parseIp).0.log, name, p, uid))
  {
    var next := ApplyAll(rt, pods, parseIp).0;
    ApplyAllOkIff(rt, pods, parseIp);
    ApplyAllKeepsSound(rt, pods, parseIp);
    SendDeletesLeaves(next.(known := Listed(pods)), order, name, p, uid);
    if uid !in next.known { UnknownHasNone(next, name, p, uid); }
    if uid in rt.known && NeverSucceeded(pods, uid) { ListLeavesKnown(rt, pods, parseIp, name, p, uid); }
    forall k: nat | AnnouncedAt(rt.known, pods, k) && pods[k].uid == Some(uid)
      ensures uid in Listed(pods) && ItemsValid(pods[k]) && HasServicesOf(next.log, name, uid, pods[k], parseIp)
    {
      ListServes(rt, pods, parseIp, name, k);
      AnnouncedFits(rt.known, pods, parseIp, k);
    }
  }

  // ---- In the manager's table ---------------------------------------------------------------

  /** Completeness of the resynchronisation: once a Restarted returns Ok and the manager has processed
      everything the task sent, however interleaved with other tasks, the task's endpoints of each uid
      are what `RestartLeaves` says of those it held before; in particular each pod announced in the
      list has on each port of its annotation the endpoint of its last service there. */
  lemma RestartedServes(
      life: nat, history: seq<Watched>, parseIp: IpParser, w: Watched,
      name: string, earlier: seq<Report>, reports: seq<Report>, p: Port, uid: string)
    requires w.event.Restarted? && Possible(life, history, parseIp)
    requires var before := After(life, history, parseIp);
             && Lists(w.order, Stale(before, w.event, parseIp))
             && Handle(before, w.event, w.order, parseIp).1.Ok?
             && Project(earlier, name) == Tag(name, Events(before.log))
             && Project(reports, name) == Tag(name, Events(Handle(before, w.event, w.order, parseIp).0.log))
    ensures RestartLeaves(
              After(life, history, parseIp).known, w.event.pods, parseIp, uid, p,
              Lookup(Run(earlier), p, EndpointId(name, uid)), Lookup(Run(reports), p, EndpointId(name, uid)))
  {
    var before := After(life, history, parseIp);
    HistoryKeepsSound(life, history, parseIp);
    RestartLeavesEndpoints(before, w.event.pods, w.order, parseIp, name, p, uid);
    OwnCell(before.log, name, earlier, p, uid);
    OwnCell(Handle(before, w.event, w.order, parseIp).0.log, name, reports, p, uid);
  }

  /** Provenance: after any history, and however its events are interleaved with those of other tasks,
      whatever the table holds of a uid of the task is all of one pod that was applied or listed. */
  lemma EndpointsAreOfOnePod(
      life: nat, history: seq<Watched>, parseIp: IpParser, name: string, reports: seq<Report>, p: Port, uid: string)
    returns (pod: Pod)
    requires Possible(life, history, parseIp)
    requires Project(reports, name) == Tag(name, Events(After(life, history, parseIp).log))
    requires Lookup(Run(reports), p, EndpointId(name, uid)).Some?
    ensures pod in PodsOf(history) && Concerns(pod, uid, parseIp)
    ensures forall q :: Serves(SpecsOf(pod), parseIp(pod.status.value.podIp.value).value, q, Lookup(Run(reports), q, EndpointId(name, uid)))
  {
    var log := After(life, history, parseIp).log;
    HistoryComesFrom(life, history, parseIp, name, uid);
    forall q: Port
      ensures Lookup(Run(reports), q, EndpointId(name, uid)) == CellOf(log, name, q, uid)
    {
      OwnCell(log, name, reports, q, uid);
    }
    assert CellOf(log, name, p, uid).Some?;
    var k :| 0 <= k < |PodsOf(history)| && HasServicesOf(log, name, uid, PodsOf(history)[k], parseIp);
    pod := PodsOf(history)[k];
  }
}
