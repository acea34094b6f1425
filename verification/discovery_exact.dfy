// When exactly `known_pod_uids` holds the announced pods (src/kubernetes/mod.rs): those whose
// announcement has begun, and, which is less, those with an Add that stands.
module DiscoveryExact {
  import opened Wrappers
  import opened Endpoints
  import opened Annotations
  import opened Kubernetes
  import opened Announcement
  import opened DiscoveryLists
  import opened DiscoveryRuns

  /** The known uids are those with an announcement begun and no Delete since. */
  ghost predicate Exact(rt: Runtime) {
    forall uid :: uid in rt.known <==> Live(rt.log, uid)
  }

  /** The known uids are those with an Add sent and no Delete since. */
  ghost predicate Standing(rt: Runtime) {
    forall uid :: uid in rt.known <==> Announced(rt.log, uid)
  }

  /** The task knows `uid`, but no Add of it stands. */
  predicate Silent(rt: Runtime, uid: string) {
    uid in rt.known && !Announced(rt.log, uid)
  }

  lemma StandingIffNoneSilent(rt: Runtime)
    requires Sound(rt)
    ensures Standing(rt) <==> forall uid :: !Silent(rt, uid)
    ensures Standing(rt) ==> Exact(rt)
  {
    forall uid: string
      ensures Announced(rt.log, uid) ==> Live(rt.log, uid) && uid in rt.known
      ensures Live(rt.log, uid) ==> uid in rt.known
      ensures (uid in rt.known <==> Announced(rt.log, uid)) <==> !Silent(rt, uid)
    {
      if Announced(rt.log, uid) { AnnouncedIsLive(rt.log, uid); }
      assert UidFits(rt.known, rt.log, uid);
    }
  }

  // ---- What one pod changes -----------------------------------------------------------------

  predicate FirstItemValid(pod: Pod)
    requires Complete(pod)
  {
    ItemsOf(pod) != [] && ParseService(ItemsOf(pod)[0]).Ok?
  }

  /** Nothing that the past says about `u` differs between the two. */
  predicate SameFor(log: seq<Item>, log': seq<Item>, u: string) {
    Live(log', u) == Live(log, u) && Up(log', u) == Up(log, u) && Announced(log', u) == Announced(log, u)
  }

  /** One more item, as far as `u` is concerned. */
  lemma NoteActsOn(log: seq<Item>, item: Item, u: string)
    ensures Live(log + [item], u) <==> item == Burst(u) || (item != Sent(Delete(u)) && Live(log, u))
    ensures Up(log + [item], u) <==> if item.Sent? && item.event.uid == u then item.event.Resume? else Up(log, u)
    ensures Announced(log + [item], u) <==> IsAddOf(item, u) || (item != Sent(Delete(u)) && Announced(log, u))
  {
    NoteActs(log, item);
  }

  lemma {:induction false} AnnounceActs(rt: Runtime, items: seq<string>, uid: string, ip: IpAddr, u: string)
    ensures var log := Announce(rt, items, uid, ip).0.log;
            if u != uid then SameFor(rt.log, log, u)
            else Announced(log, u) <==> Announced(rt.log, u) || (items != [] && ParseService(items[0]).Ok? && rt.life > 0)
    decreases |items|
  {
    if items != [] && ParseService(items[0]).Ok? && rt.life > 0 {
      var add := AddOf(uid, ip, ParseService(items[0]).value);
      NoteActsOn(rt.log, Sent(add), u);
      AnnounceActs(Send(rt, add).0, items[1..], uid, ip, u);
    }
  }

  lemma DiscoverActs(rt: Runtime, pod: Pod, ip: IpAddr, u: string)
    requires Complete(pod)
    ensures var log := Discover(rt, pod.annotations.value, pod.uid.value, ip).0.log;
            if u != pod.uid.value then SameFor(rt.log, log, u)
            else Announced(log, u) <==> Announced(rt.log, u) || (FirstItemValid(pod) && rt.life > 0)
  {
    NoteActsOn(rt.log, Burst(pod.uid.value), u);
    if SERVICES_ANNOTATION in pod.annotations.value {
      AnnounceActs(Note(rt, Burst(pod.uid.value)), ItemsOf(pod), pod.uid.value, ip, u);
    }
  }

  lemma HandlePhaseActs(rt: Runtime, uid: string, phase: string, u: string)
    requires Survived(HandlePhase(rt, uid, phase).1)
    ensures var log := HandlePhase(rt, uid, phase).0.log;
            if u != uid then SameFor(rt.log, log, u) else
            && (Live(log, uid) <==> Live(rt.log, uid) && phase != "Succeeded")
            && (Up(log, uid) <==> phase == "Running" || (phase == "Pending" && Up(rt.log, uid)))
            && (Announced(log, uid) <==> Announced(rt.log, uid) && phase != "Succeeded")
  {
    var event := PhaseEvent(uid, phase);
    var mid := if event.None? then rt.log else rt.log + [Sent(event.value)];
    if event.Some? { NoteActsOn(rt.log, Sent(event.value), u); }
    NoteActsOn(mid, Handled(uid, phase), u);
    assert HandlePhase(rt, uid, phase).0.log == mid + [Handled(uid, phase)];
  }

  /** The pod is about `uid`, and its address can be read. */
  predicate Concerns(pod: Pod, uid: string, parseIp: IpParser) {
    Complete(pod) && pod.uid == Some(uid) && parseIp(pod.status.value.podIp.value).Some?
  }

  lemma OtherPodActs(rt: Runtime, pod: Pod, parseIp: IpParser, u: string)
    requires pod.uid.Some? && Survived(ApplyPod(rt, pod, parseIp).1) && !Concerns(pod, u, parseIp)
    ensures var next := ApplyPod(rt, pod, parseIp).0;
            SameFor(rt.log, next.log, u) && (u in next.known <==> u in rt.known)
  {
    if Complete(pod) && parseIp(pod.status.value.podIp.value).Some? {
      var uid, ip := pod.uid.value, parseIp(pod.status.value.podIp.value).value;
      var started := rt.(known := rt.known + {uid});
      var (next, r) := if uid in rt.known then (rt, Ok(())) else Discover(started, pod.annotations.value, uid, ip);
      if uid !in rt.known {
        DiscoverActs(started, pod, ip, u);
        DiscoverOkIff(started, pod, ip);
      }
      if r.Ok? { HandlePhaseActs(next, uid, Phase(pod), u); }
    }
  }

  /** Whether a uid is silent once a pod of it was applied. */
  predicate PodSilent(isKnown: bool, wasSilent: bool, pod: Pod)
    requires Complete(pod)
  {
    if isKnown then wasSilent && Phase(pod) != "Succeeded"
    else !FirstItemValid(pod) && (ItemsOf(pod) == [] ==> Phase(pod) != "Succeeded")
  }

  lemma FirstItemDecides(rt: Runtime, pod: Pod, ip: IpAddr)
    requires Complete(pod) && Survived(Discover(rt, pod.annotations.value, pod.uid.value, ip).1)
    ensures FirstItemValid(pod) ==> rt.life > 0
    ensures Discover(rt, pod.annotations.value, pod.uid.value, ip).1.Ok? && !FirstItemValid(pod) ==> ItemsOf(pod) == []
    ensures Discover(rt, pod.annotations.value, pod.uid.value, ip).1.Err? ==> ItemsOf(pod) != []
  {
    DiscoverOkIff(rt, pod, ip);
  }

  lemma OwnPodActs(rt: Runtime, pod: Pod, parseIp: IpParser, uid: string)
    requires Sound(rt) && Concerns(pod, uid, parseIp) && Survived(ApplyPod(rt, pod, parseIp).1)
    ensures var (next, r) := ApplyPod(rt, pod, parseIp);
            && (Silent(next, uid) <==> PodSilent(uid in rt.known, Silent(rt, uid), pod))
            && (r.Ok? ==> (Live(next.log, uid) <==> Phase(pod) != "Succeeded" && (uid in rt.known ==> Live(rt.log, uid))))
            && (r.Ok? ==> (Up(next.log, uid) <==> Phase(pod) == "Running" || (Phase(pod) == "Pending" && Up(rt.log, uid))))
            && (r.Err? ==> uid !in rt.known && uid in next.known && Live(next.log, uid))
  {
    var ip := parseIp(pod.status.value.podIp.value).value;
    assert UidFits(rt.known, rt.log, uid);
    if uid in rt.known {
      HandlePhaseActs(rt, uid, Phase(pod), uid);
    } else {
      var started := rt.(known := rt.known + {uid});
      var (next, r) := Discover(started, pod.annotations.value, uid, ip);
      DiscoverActs(started, pod, ip, uid);
      DiscoverOkIff(started, pod, ip);
      DiscoverKeepsSound(rt, pod.annotations.value, uid, ip);
      if Announced(rt.log, uid) { AnnouncedIsLive(rt.log, uid); }
      FirstItemDecides(started, pod, ip);
      if r.Ok? { HandlePhaseActs(next, uid, Phase(pod), uid); }
    }
  }

  // ---- Announcement begun -------------------------------------------------------------------

  lemma ApplyPodKeepsExact(rt: Runtime, pod: Pod, parseIp: IpParser)
    requires Sound(rt) && Exact(rt) && pod.uid.Some? && Survived(ApplyPod(rt, pod, parseIp).1)
    ensures Exact(ApplyPod(rt, pod, parseIp).0)
  {
    var (next, r) := ApplyPod(rt, pod, parseIp);
    ApplyPodOkIff(rt, pod, parseIp);
    forall u: string
      ensures u in next.known <==> Live(next.log, u)
    {
      if Concerns(pod, u, parseIp) { OwnPodActs(rt, pod, parseIp, u); } else { OtherPodActs(rt, pod, parseIp, u); }
    }
  }

  lemma {:induction false} ApplyAllKeepsExact(rt: Runtime, pods: seq<Pod>, parseIp: IpParser)
    requires Sound(rt) && Exact(rt) && Survived(ApplyAll(rt, pods, parseIp).1)
    ensures Exact(ApplyAll(rt, pods, parseIp).0)
    decreases |pods|
  {
    if pods != [] {
      var (next, r) := ApplyOne(rt, pods[0], parseIp);
      if pods[0].uid.Some? {
        ApplyPodKeepsSound(rt, pods[0], parseIp);
        ApplyPodKeepsExact(rt, pods[0], parseIp);
      }
      if r.Ok? { ApplyAllKeepsExact(next, pods[1..], parseIp); }
    }
  }

  /** From known = begun, a step that survives ends so too, except that a Restarted whose pods all
      fit does so iff every listed uid is one that applying the list leaves known: the list is put
      into `known_pod_uids` whole, including pods skipped as incomplete and pods deleted as
      Succeeded. */
  lemma ExactIff(rt: Runtime, event: WatchEvent, order: seq<string>, parseIp: IpParser)
    requires Sound(rt) && Exact(rt) && Lists(order, Stale(rt, event, parseIp))
    requires Survived(Handle(rt, event, order, parseIp).1)
    ensures Exact(Handle(rt, event, order, parseIp).0) <==>
            (event.Restarted? && ListFits(rt.known, event.pods, parseIp) ==>
               forall uid | uid in Listed(event.pods) :: Kept(rt.known, event.pods, uid))
  {
    match event
    case Applied(pod) =>
      if pod.uid.Some? { ApplyPodKeepsExact(rt, pod, parseIp); }
    case Deleted(pod) =>
      if pod.uid.Some? { NoteActs(rt.log, Sent(Delete(pod.uid.value))); }
    case Restarted(pods) =>
      ApplyAllKeepsSound(rt, pods, parseIp);
      ApplyAllKeepsExact(rt, pods, parseIp);
      ApplyAllOkIff(rt, pods, parseIp);
      var (next, r) := ApplyAll(rt, pods, parseIp);
      if r.Ok? {
        RestartKeepsSound(next, Listed(pods), order);
        var end := Handle(rt, event, order, parseIp).0;
        forall u: string
          ensures (u in end.known <==> Live(end.log, u)) <==> (u in Listed(pods) ==> Kept(rt.known, pods, u))
        {}
      }
  }

  // ---- An Add that stands -------------------------------------------------------------------

  /** Whether `uid` is silent once the list was applied, as far as its first pod that does not fit:
      only complete pods of that uid count, the last of them first. */
  predicate ListSilent(known: set<string>, wasSilent: bool, pods: seq<Pod>, uid: string, parseIp: IpParser) {
    if pods == [] then wasSilent else
    var last, earlier := pods[|pods| - 1], pods[..|pods| - 1];
    var before := ListSilent(known, wasSilent, earlier, uid, parseIp);
    if ListFits(known, earlier, parseIp) && Concerns(last, uid, parseIp)
    then PodSilent(Kept(known, earlier, uid), before, last)
    else before
  }

  lemma {:induction false} ApplyAllSilentIff(rt: Runtime, pods: seq<Pod>, parseIp: IpParser, uid: string)
    requires Sound(rt) && Survived(ApplyAll(rt, pods, parseIp).1)
    ensures Silent(ApplyAll(rt, pods, parseIp).0, uid) <==> ListSilent(rt.known, Silent(rt, uid), pods, uid, parseIp)
  {
    if pods != [] {
      var last, earlier := pods[|pods| - 1], pods[..|pods| - 1];
      var (mid, r) := ApplyAll(rt, earlier, parseIp);
      ApplyAllButLast(rt, pods, parseIp);
      ApplyAllSilentIff(rt, earlier, parseIp, uid);
      ApplyAllKeepsSound(rt, earlier, parseIp);
      ApplyAllOkIff(rt, earlier, parseIp);
      if r.Ok? && last.uid.Some? {
        if Concerns(last, uid, parseIp) {
          OwnPodActs(mid, last, parseIp, uid);
        } else {
          OtherPodActs(mid, last, parseIp, uid);
        }
      }
    }
  }

  /** Whether `uid` is silent after a watch event. */
  predicate EventSilent(rt: Runtime, event: WatchEvent, uid: string, parseIp: IpParser) {
    match event
    case Applied(pod) => ListSilent(rt.known, Silent(rt, uid), [pod], uid, parseIp)
    case Deleted(pod) => Silent(rt, uid) && pod.uid != Some(uid)
    case Restarted(pods) =>
      var applied := ListSilent(rt.known, Silent(rt, uid), pods, uid, parseIp);
      if ListFits(rt.known, pods, parseIp)
      then uid in Listed(pods) && (Kept(rt.known, pods, uid) ==> applied)
      else applied
  }

  lemma AppliedIsOneLongList(rt: Runtime, pod: Pod, parseIp: IpParser)
    ensures ApplyAll(rt, [pod], parseIp) == ApplyOne(rt, pod, parseIp)
  {
    var (next, r) := ApplyOne(rt, pod, parseIp);
    assert [pod][1..] == [];
    assert ApplyAll(next, [], parseIp) == (next, Ok(()));
  }

  lemma {:induction false} SendDeletesActs(rt: Runtime, uids: seq<string>, u: string)
    requires SendDeletes(rt, uids).1.Ok?
    ensures Announced(SendDeletes(rt, uids).0.log, u) <==> Announced(rt.log, u) && u !in uids
    decreases |uids|
  {
    if uids != [] {
      NoteActsOn(rt.log, Sent(Delete(uids[0])), u);
      SendDeletesActs(Send(rt, Delete(uids[0])).0, uids[1..], u);
    }
  }

  /** Which uids a step leaves known without an Add that stands, read off the step and the state
      before it. */
  lemma SilentIff(rt: Runtime, event: WatchEvent, order: seq<string>, parseIp: IpParser, uid: string)
    requires Sound(rt) && Lists(order, Stale(rt, event, parseIp))
    requires Survived(Handle(rt, event, order, parseIp).1)
    ensures Silent(Handle(rt, event, order, parseIp).0, uid) <==> EventSilent(rt, event, uid, parseIp)
  {
    match event
    case Applied(pod) =>
      AppliedIsOneLongList(rt, pod, parseIp);
      ApplyAllSilentIff(rt, [pod], parseIp, uid);
    case Deleted(pod) =>
      if pod.uid.Some? { NoteActsOn(rt.log, Sent(Delete(pod.uid.value)), uid); }
    case Restarted(pods) =>
      ApplyAllKeepsSound(rt, pods, parseIp);
      ApplyAllSilentIff(rt, pods, parseIp, uid);
      ApplyAllOkIff(rt, pods, parseIp);
      var (next, r) := ApplyAll(rt, pods, parseIp);
      if r.Ok? {
        RestartKeepsSound(next, Listed(pods), order);
        SendDeletesActs(next.(known := Listed(pods)), order, uid);
        if Announced(next.log, uid) { AnnouncedIsLive(next.log, uid); }
        assert UidFits(next.known, next.log, uid);
      }
  }

  /** When exactly the known uids are those with an Add that stands. */
  lemma StandingIff(rt: Runtime, event: WatchEvent, order: seq<string>, parseIp: IpParser)
    requires Sound(rt) && Lists(order, Stale(rt, event, parseIp))
    requires Survived(Handle(rt, event, order, parseIp).1)
    ensures Standing(Handle(rt, event, order, parseIp).0) <==> forall uid :: !EventSilent(rt, event, uid, parseIp)
  {
    var next := Handle(rt, event, order, parseIp).0;
    HandleKeepsSound(rt, event, order, parseIp);
    StandingIffNoneSilent(next);
    forall uid: string
      ensures Silent(next, uid) <==> EventSilent(rt, event, uid, parseIp)
    {
      SilentIff(rt, event, order, parseIp, uid);
    }
  }

  // ---- Runs ---------------------------------------------------------------------------------

  /** A complete pod has a service to announce first. */
  predicate Announceable(pod: Pod) {
    Complete(pod) ==> FirstItemValid(pod)
  }

  predicate Steady(pod: Pod) {
    Complete(pod) && Phase(pod) != "Succeeded"
  }

  lemma {:induction false} SteadyPodsAreKept(known: set<string>, pods: seq<Pod>, uid: string)
    requires forall k | 0 <= k < |pods| :: Steady(pods[k])
    requires uid in Listed(pods)
    ensures Kept(known, pods, uid)
  {
    var n := |pods| - 1;
    if pods[n].uid != Some(uid) {
      var i :| 0 <= i < |pods| && pods[i].uid == Some(uid);
      assert pods[..n][i].uid == Some(uid);
      SteadyPodsAreKept(known, pods[..n], uid);
    }
  }

  lemma {:induction false} AnnounceablePodsAreNotSilent(known: set<string>, pods: seq<Pod>, uid: string, parseIp: IpParser)
    requires forall k | 0 <= k < |pods| :: Announceable(pods[k])
    ensures !ListSilent(known, false, pods, uid, parseIp)
  {
    if pods != [] {
      AnnounceablePodsAreNotSilent(known, pods[..|pods| - 1], uid, parseIp);
      assert Announceable(pods[|pods| - 1]);
    }
  }

  /** Runs whose Restarted lists hold only complete, not Succeeded pods keep known = begun. */
  lemma {:induction false} CompleteListsKeepExact(life: nat, history: seq<Watched>, parseIp: IpParser)
    requires Possible(life, history, parseIp)
    requires forall i, k | 0 <= i < |history| && history[i].event.Restarted? && 0 <= k < |history[i].event.pods| ::
               Steady(history[i].event.pods[k])
    ensures Exact(After(life, history, parseIp))
  {
    if history != [] {
      var n := |history| - 1;
      var before, w := After(life, history[..n], parseIp), history[n];
      CompleteListsKeepExact(life, history[..n], parseIp);
      HistoryKeepsSound(life, history[..n], parseIp);
      ExactIff(before, w.event, w.order, parseIp);
      if w.event.Restarted? {
        forall uid | uid in Listed(w.event.pods)
          ensures Kept(before.known, w.event.pods, uid)
        {
          SteadyPodsAreKept(before.known, w.event.pods, uid);
        }
      }
    }
  }

  predicate AllAnnounceable(event: WatchEvent) {
    match event
    case Applied(pod) => Announceable(pod)
    case Deleted(_) => true
    case Restarted(pods) => forall k | 0 <= k < |pods| :: Steady(pods[k]) && Announceable(pods[k])
  }

  lemma EventIsNotSilent(rt: Runtime, event: WatchEvent, uid: string, parseIp: IpParser)
    requires AllAnnounceable(event) && !Silent(rt, uid)
    ensures !EventSilent(rt, event, uid, parseIp)
  {
    match event
    case Applied(pod) => AnnounceablePodsAreNotSilent(rt.known, [pod], uid, parseIp);
    case Deleted(_) =>
    case Restarted(pods) =>
      AnnounceablePodsAreNotSilent(rt.known, pods, uid, parseIp);
      if uid in Listed(pods) { SteadyPodsAreKept(rt.known, pods, uid); }
  }

  /** If besides each complete pod's first item is a service, the known uids are throughout those
      with an Add that stands. */
  lemma {:induction false} AnnounceableRunsStand(life: nat, history: seq<Watched>, parseIp: IpParser)
    requires Possible(life, history, parseIp)
    requires forall i | 0 <= i < |history| :: AllAnnounceable(history[i].event)
    ensures Standing(After(life, history, parseIp))
  {
    HistoryKeepsSound(life, history, parseIp);
    StandingIffNoneSilent(After(life, history, parseIp));
    if history != [] {
      var n := |history| - 1;
      var before, w := After(life, history[..n], parseIp), history[n];
      AnnounceableRunsStand(life, history[..n], parseIp);
      HistoryKeepsSound(life, history[..n], parseIp);
      StandingIffNoneSilent(before);
      forall uid: string
        ensures !EventSilent(before, w.event, uid, parseIp)
      {
        EventIsNotSilent(before, w.event, uid, parseIp);
      }
      StandingIff(before, w.event, w.order, parseIp);
    }
  }

  // ---- Inputs where they differ -------------------------------------------------------------

  /** A new task that is given a list with one incomplete pod knows it without having begun to
      announce it. */
  lemma KnownNotAnnounced(parseIp: IpParser) returns (event: WatchEvent)
    ensures Stale(START, event, parseIp) == {} && Handle(START, event, [], parseIp).1.Ok?
    ensures !Exact(Handle(START, event, [], parseIp).0)
  {
    var pod := Pod(Some("0"), None, None, None);
    event := Restarted([pod]);
    AppliedIsOneLongList(START, pod, parseIp);
    assert "0" in Listed([pod]) by { assert [pod][0].uid == Some("0"); }
    assert "0" in Handle(START, event, [], parseIp).0.known && !Live(Handle(START, event, [], parseIp).0.log, "0");
  }

  /** A running pod without the services annotation is remembered as announced, although nothing but
      a Resume was ever sent for it. */
  lemma KnownWithoutAdd(parseIp: IpParser, address: string) returns (history: seq<Watched>)
    requires parseIp(address).Some?
    ensures Possible(1, history, parseIp)
    ensures var rt := After(1, history, parseIp);
            "0" in rt.known && Exact(rt) && Events(rt.log) == [Resume("0")] && !Announced(rt.log, "0") && rt.life == 0
  {
    var pod := Pod(Some("0"), Some("pod"), Some(map[]), Some(PodStatus(Some(address), Some("Running"))));
    history := [Watched(Applied(pod), [])];
    assert history[..0] == [];
    var start := START.(life := 1);
    assert After(1, [], parseIp) == start && Sound(start);
    var rt := After(1, history, parseIp);
    var burst := Note(start.(known := {"0"}), Burst("0"));
    assert ApplyPod(start, pod, parseIp) == HandlePhase(burst, "0", "Running") by {
      assert start.known + {"0"} == {"0"};
      assert Discover(start.(known := {"0"}), map[], "0", parseIp(address).value) == (burst, Ok(()));
    }
    assert rt == ApplyPod(start, pod, parseIp).0;
    EventsOfNote([], Burst("0"));
    EventsOfNote([Burst("0")], Sent(Resume("0")));
    EventsOfNote([Burst("0"), Sent(Resume("0"))], Handled("0", "Running"));
    assert rt.log == [Burst("0"), Sent(Resume("0")), Handled("0", "Running")];
    ExactIff(start, Applied(pod), [], parseIp);
    NoteActsOn([], Burst("0"), "0");
    NoteActsOn([Burst("0")], Sent(Resume("0")), "0");
    NoteActsOn([Burst("0"), Sent(Resume("0"))], Handled("0", "Running"), "0");
  }
}
