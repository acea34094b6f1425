// What a receiver that hangs up does to the discovery task's invariant. The step that meets it is
// the task's last one: the error ends the task (src/kubernetes/mod.rs, run).
module DiscoveryHangUp {
  import opened Wrappers
  import opened Endpoints
  import opened Annotations
  import opened Kubernetes
  import opened Announcement
  import opened DiscoveryLists
  import opened DiscoveryRuns
  import opened DiscoveryExact

  predicate LiveOrUp(log: seq<Item>, uid: string) {
    Live(log, uid) || Up(log, uid)
  }

  /** Forgetting a uid without deleting it keeps the invariant iff nothing was sent that would have
      to be deleted. */
  lemma ForgetSoundIff(rt: Runtime, uid: string)
    requires Sound(rt)
    ensures Sound(Forget(rt, uid)) <==> !LiveOrUp(rt.log, uid)
  {
    assert UidFits(rt.known, rt.log, uid);
    assert !UidFits(rt.known - {uid}, rt.log, uid) <==> LiveOrUp(rt.log, uid);
    forall u: string | u != uid
      ensures UidFits(rt.known - {uid}, rt.log, u)
    {
      assert UidFits(rt.known, rt.log, u);
    }
  }

  // ---- One pod ------------------------------------------------------------------------------

  /** If applying the pod meets a receiver that has hung up: it is the Delete of an endpoint still to
      be deleted that is refused. `life` is what the receiver accepted when the pod's turn came. */
  predicate PodBreaks(isKnown: bool, wasLiveOrUp: bool, pod: Pod, life: nat) {
    && Complete(pod) && Phase(pod) == "Succeeded"
    && if isKnown then wasLiveOrUp else ItemsValid(pod) && |ItemsOf(pod)| == life
  }

  lemma PodHangUp(rt: Runtime, pod: Pod, parseIp: IpParser)
    requires Sound(rt) && pod.uid.Some? && ApplyPod(rt, pod, parseIp).1 == Err(ChannelClosed)
    ensures Sound(ApplyPod(rt, pod, parseIp).0) <==>
            !PodBreaks(pod.uid.value in rt.known, LiveOrUp(rt.log, pod.uid.value), pod, rt.life)
  {
    var uid, ip := pod.uid.value, parseIp(pod.status.value.podIp.value).value;
    if uid in rt.known {
      ForgetSoundIff(rt, uid);
    } else {
      var started := rt.(known := rt.known + {uid});
      var (next, r) := Discover(started, pod.annotations.value, uid, ip);
      DiscoverKeepsSound(rt, pod.annotations.value, uid, ip);
      DiscoverOkIff(started, pod, ip);
      ForgetSoundIff(next, uid);
    }
  }

  // ---- Lists --------------------------------------------------------------------------------

  /** Whether a uid is live once a list was applied to its end. */
  predicate ListLive(known: set<string>, wasLive: bool, pods: seq<Pod>, uid: string) {
    if pods == [] then wasLive else
    var last, earlier := pods[|pods| - 1], pods[..|pods| - 1];
    var before := ListLive(known, wasLive, earlier, uid);
    if Complete(last) && last.uid == Some(uid)
    then Phase(last) != "Succeeded" && (Kept(known, earlier, uid) ==> before)
    else before
  }

  /** Whether it is up. */
  predicate ListUp(wasUp: bool, pods: seq<Pod>, uid: string) {
    if pods == [] then wasUp else
    var last, earlier := pods[|pods| - 1], pods[..|pods| - 1];
    var before := ListUp(wasUp, earlier, uid);
    if Complete(last) && last.uid == Some(uid) && Phase(last) != "Pending" then Phase(last) == "Running"
    else before
  }

  predicate ListLiveOrUp(rt: Runtime, pods: seq<Pod>, uid: string) {
    ListLive(rt.known, Live(rt.log, uid), pods, uid) || ListUp(Up(rt.log, uid), pods, uid)
  }

  lemma {:induction false} ApplyAllLiveUp(rt: Runtime, pods: seq<Pod>, parseIp: IpParser, uid: string)
    requires Sound(rt) && ApplyAll(rt, pods, parseIp).1.Ok?
    ensures var log := ApplyAll(rt, pods, parseIp).0.log;
            && (Live(log, uid) <==> ListLive(rt.known, Live(rt.log, uid), pods, uid))
            && (Up(log, uid) <==> ListUp(Up(rt.log, uid), pods, uid))
    decreases |pods|
  {
    if pods != [] {
      var last, earlier := pods[|pods| - 1], pods[..|pods| - 1];
      var (mid, r) := ApplyAll(rt, earlier, parseIp);
      ApplyAllButLast(rt, pods, parseIp);
      ApplyAllLiveUp(rt, earlier, parseIp, uid);
      ApplyAllKeepsSound(rt, earlier, parseIp);
      ApplyAllOkIff(rt, earlier, parseIp);
      if last.uid.Some? {
        if Concerns(last, uid, parseIp) {
          OwnPodActs(mid, last, parseIp, uid);
        } else {
          OtherPodActs(mid, last, parseIp, uid);
        }
      }
    }
  }

  /** If applying the list meets a receiver that has hung up: the pod whose turn it then is loses a
      Delete that is needed. */
  predicate ListBreaks(rt: Runtime, pods: seq<Pod>, parseIp: IpParser) {
    pods != [] &&
    var last, earlier := pods[|pods| - 1], pods[..|pods| - 1];
    if ListFits(rt.known, earlier, parseIp) && ListCost(rt.known, earlier) <= rt.life then
      && last.uid.Some?
      && PodBreaks(
           Kept(rt.known, earlier, last.uid.value), ListLiveOrUp(rt, earlier, last.uid.value), last,
           rt.life - ListCost(rt.known, earlier))
    else ListBreaks(rt, earlier, parseIp)
  }

  lemma {:induction false} ListHangUp(rt: Runtime, pods: seq<Pod>, parseIp: IpParser)
    requires Sound(rt) && ApplyAll(rt, pods, parseIp).1 == Err(ChannelClosed)
    ensures Sound(ApplyAll(rt, pods, parseIp).0) <==> !ListBreaks(rt, pods, parseIp)
    decreases |pods|
  {
    if pods != [] {
      var last, earlier := pods[|pods| - 1], pods[..|pods| - 1];
      var (mid, r) := ApplyAll(rt, earlier, parseIp);
      ApplyAllButLast(rt, pods, parseIp);
      ApplyAllOkIff(rt, earlier, parseIp);
      if r.Err? {
        ListHangUp(rt, earlier, parseIp);
      } else {
        ApplyAllKeepsSound(rt, earlier, parseIp);
        ApplyAllLiveUp(rt, earlier, parseIp, last.uid.value);
        PodHangUp(mid, last, parseIp);
      }
    }
  }

  // ---- Deletions ----------------------------------------------------------------------------

  /** One of the uids from the `m`-th on still has something to be deleted. */
  ghost predicate SomeLeft(log: seq<Item>, uids: seq<string>, m: nat) {
    exists i | m <= i < |uids| :: LiveOrUp(log, uids[i])
  }

  lemma DeletedFirst(log: seq<Item>, uids: seq<string>, m: nat)
    requires uids != [] && forall i, j | 0 <= i < j < |uids| :: uids[i] != uids[j]
    ensures SomeLeft(log + [Sent(Delete(uids[0]))], uids[1..], m) <==> SomeLeft(log, uids, m + 1)
  {
    var log' := log + [Sent(Delete(uids[0]))];
    forall i | 0 <= i < |uids| - 1
      ensures LiveOrUp(log', uids[1..][i]) <==> LiveOrUp(log, uids[i + 1])
    {
      NoteActsOn(log, Sent(Delete(uids[0])), uids[i + 1]);
    }
    if SomeLeft(log, uids, m + 1) {
      var i :| m + 1 <= i < |uids| && LiveOrUp(log, uids[i]);
      assert LiveOrUp(log', uids[1..][i - 1]);
    }
  }

  /** The receiver takes `rt.life` of the deletions; the stale uids after those are forgotten only. */
  lemma {:induction false} DeletesHangUp(rt: Runtime, uids: seq<string>, stale: set<string>)
    requires Sound(rt.(known := rt.known + stale)) && Lists(uids, stale) && rt.known !! stale
    requires SendDeletes(rt, uids).1 == Err(ChannelClosed)
    ensures Sound(SendDeletes(rt, uids).0) <==> !SomeLeft(rt.log, uids, rt.life)
    decreases |uids|
  {
    var uid := uids[0];
    if rt.life > 0 {
      var next := Send(rt, Delete(uid)).0;
      ListsTail(uids, stale);
      NoteActs(rt.log, Sent(Delete(uid)));
      forall u: string
        ensures UidFits(next.known + (stale - {uid}), next.log, u)
      {
        assert UidFits(rt.known + stale, rt.log, u);
      }
      DeletesHangUp(next, uids[1..], stale - {uid});
      DeletedFirst(rt.log, uids, rt.life - 1);
    } else {
      forall u: string
        ensures UidFits(rt.known, rt.log, u) <==> !(u in stale && LiveOrUp(rt.log, u))
      {
        assert UidFits(rt.known + stale, rt.log, u);
      }
    }
  }

  // ---- Steps --------------------------------------------------------------------------------

  /** If the step meets a receiver that has hung up: a Delete goes missing of a uid that is still
      live or up. */
  ghost predicate EventBreaks(rt: Runtime, event: WatchEvent, order: seq<string>, parseIp: IpParser) {
    match event
    case Applied(pod) => ListBreaks(rt, [pod], parseIp)
    case Deleted(pod) => pod.uid.Some? && LiveOrUp(rt.log, pod.uid.value)
    case Restarted(pods) =>
      if ListFits(rt.known, pods, parseIp) && ListCost(rt.known, pods) <= rt.life
      then exists i | rt.life - ListCost(rt.known, pods) <= i < |order| :: ListLiveOrUp(rt, pods, order[i])
      else ListBreaks(rt, pods, parseIp)
  }

  lemma RestartHangUp(rt: Runtime, listed: set<string>, order: seq<string>)
    requires Sound(rt) && Lists(order, rt.known - listed)
    requires SendDeletes(rt.(known := listed), order).1 == Err(ChannelClosed)
    ensures Sound(SendDeletes(rt.(known := listed), order).0) <==> !SomeLeft(rt.log, order, rt.life)
  {
    MoreKnownIsSound(rt, listed + (rt.known - listed));
    DeletesHangUp(rt.(known := listed), order, rt.known - listed);
  }

  /** When exactly a receiver that hangs up breaks the invariant. */
  lemma HangUpBreaksIff(rt: Runtime, event: WatchEvent, order: seq<string>, parseIp: IpParser)
    requires Sound(rt) && Lists(order, Stale(rt, event, parseIp))
    requires Handle(rt, event, order, parseIp).1 == Err(ChannelClosed)
    ensures !Sound(Handle(rt, event, order, parseIp).0) <==> EventBreaks(rt, event, order, parseIp)
  {
    match event
    case Applied(pod) =>
      AppliedIsOneLongList(rt, pod, parseIp);
      ListHangUp(rt, [pod], parseIp);
    case Deleted(pod) =>
      ForgetSoundIff(rt, pod.uid.value);
    case Restarted(pods) =>
      ApplyAllOkIff(rt, pods, parseIp);
      var (next, r) := ApplyAll(rt, pods, parseIp);
      if r.Err? {
        ListHangUp(rt, pods, parseIp);
      } else {
        ApplyAllKeepsSound(rt, pods, parseIp);
        RestartHangUp(next, Listed(pods), order);
        forall i | 0 <= i < |order|
          ensures LiveOrUp(next.log, order[i]) <==> ListLiveOrUp(rt, pods, order[i])
        {
          ApplyAllLiveUp(rt, pods, parseIp, order[i]);
        }
      }
  }

  // ---- Adds left standing -------------------------------------------------------------------

  /** An Add of `uid` stands, and the task has forgotten it. */
  predicate Leaked(rt: Runtime, uid: string) {
    Announced(rt.log, uid) && uid !in rt.known
  }

  lemma NoneLeaked(rt: Runtime, uid: string)
    requires Sound(rt)
    ensures !Leaked(rt, uid)
    ensures Announced(rt.log, uid) <==> uid in rt.known && !Silent(rt, uid)
  {
    if Announced(rt.log, uid) { AnnouncedIsLive(rt.log, uid); }
    assert UidFits(rt.known, rt.log, uid);
  }

  /** If applying a pod of that uid meets a receiver that has hung up: the refused event is the Delete
      of a uid that has an Add. */
  predicate PodLeaks(isKnown: bool, wasAnnounced: bool, pod: Pod, life: nat) {
    && Complete(pod) && Phase(pod) == "Succeeded"
    && if isKnown then wasAnnounced else ItemsOf(pod) != [] && ItemsValid(pod) && |ItemsOf(pod)| == life
  }

  lemma PodLeaksIff(rt: Runtime, pod: Pod, parseIp: IpParser, u: string)
    requires Sound(rt) && pod.uid.Some? && ApplyPod(rt, pod, parseIp).1 == Err(ChannelClosed)
    ensures Leaked(ApplyPod(rt, pod, parseIp).0, u) <==>
            pod.uid == Some(u) && PodLeaks(u in rt.known, Announced(rt.log, u), pod, rt.life)
  {
    var uid, ip := pod.uid.value, parseIp(pod.status.value.podIp.value).value;
    NoneLeaked(rt, u);
    if uid !in rt.known {
      var started := rt.(known := rt.known + {uid});
      DiscoverOkIff(started, pod, ip);
      DiscoverActs(started, pod, ip, u);
    }
  }

  /** If applying the list meets a receiver that has hung up: the pod whose turn it then is leaks. */
  predicate ListLeaks(rt: Runtime, pods: seq<Pod>, uid: string, parseIp: IpParser) {
    pods != [] &&
    var last, earlier := pods[|pods| - 1], pods[..|pods| - 1];
    if ListFits(rt.known, earlier, parseIp) && ListCost(rt.known, earlier) <= rt.life then
      && last.uid == Some(uid)
      && PodLeaks(
           Kept(rt.known, earlier, uid), !ListSilent(rt.known, Silent(rt, uid), earlier, uid, parseIp), last,
           rt.life - ListCost(rt.known, earlier))
    else ListLeaks(rt, earlier, uid, parseIp)
  }

  lemma {:induction false} ListLeaksIff(rt: Runtime, pods: seq<Pod>, parseIp: IpParser, uid: string)
    requires Sound(rt) && ApplyAll(rt, pods, parseIp).1 == Err(ChannelClosed)
    ensures Leaked(ApplyAll(rt, pods, parseIp).0, uid) <==> ListLeaks(rt, pods, uid, parseIp)
    decreases |pods|
  {
    if pods != [] {
      var last, earlier := pods[|pods| - 1], pods[..|pods| - 1];
      var (mid, r) := ApplyAll(rt, earlier, parseIp);
      ApplyAllButLast(rt, pods, parseIp);
      ApplyAllOkIff(rt, earlier, parseIp);
      if r.Err? {
        ListLeaksIff(rt, earlier, parseIp, uid);
      } else {
        ApplyAllKeepsSound(rt, earlier, parseIp);
        ApplyAllSilentIff(rt, earlier, parseIp, uid);
        NoneLeaked(mid, uid);
        PodLeaksIff(mid, last, parseIp, uid);
      }
    }
  }

  /** The receiver takes `rt.life` of the deletions. */
  lemma {:induction false} DeletesTaken(rt: Runtime, uids: seq<string>, u: string)
    requires SendDeletes(rt, uids).1 == Err(ChannelClosed)
    ensures rt.life < |uids| && SendDeletes(rt, uids).0.known == rt.known
    ensures Announced(SendDeletes(rt, uids).0.log, u) <==> Announced(rt.log, u) && u !in uids[..rt.life]
    decreases |uids|
  {
    if rt.life > 0 {
      NoteActsOn(rt.log, Sent(Delete(uids[0])), u);
      DeletesTaken(Send(rt, Delete(uids[0])).0, uids[1..], u);
      assert uids[..rt.life] == [uids[0]] + uids[1..][..rt.life - 1];
    }
  }

  lemma ListingSplits(order: seq<string>, s: set<string>, k: nat, u: string)
    requires Lists(order, s) && k <= |order|
    ensures u in order[k..] <==> u in s && u !in order[..k]
  {
    assert order == order[..k] + order[k..];
    if u in order[k..] {
      var j :| k <= j < |order| && order[j] == u;
      forall i | 0 <= i < k
        ensures order[..k][i] != u
      {}
    }
  }

  lemma RestartLeaksIff(rt: Runtime, listed: set<string>, order: seq<string>, u: string)
    requires Sound(rt) && Lists(order, rt.known - listed)
    requires SendDeletes(rt.(known := listed), order).1 == Err(ChannelClosed)
    ensures rt.life < |order|
    ensures Leaked(SendDeletes(rt.(known := listed), order).0, u) <==>
            u in order[rt.life..] && u in rt.known && !Silent(rt, u)
  {
    DeletesTaken(rt.(known := listed), order, u);
    NoneLeaked(rt, u);
    ListingSplits(order, rt.known - listed, rt.life, u);
  }

  /** Whether a step that meets a receiver that has hung up leaves an Add of `uid` standing and the
      uid forgotten. */
  predicate EventLeaks(rt: Runtime, event: WatchEvent, order: seq<string>, uid: string, parseIp: IpParser) {
    match event
    case Applied(pod) => ListLeaks(rt, [pod], uid, parseIp)
    case Deleted(pod) => pod.uid == Some(uid) && Announced(rt.log, uid)
    case Restarted(pods) =>
      var cost := ListCost(rt.known, pods);
      if ListFits(rt.known, pods, parseIp) && cost <= rt.life then
        && rt.life - cost <= |order| && uid in order[rt.life - cost..]
        && Kept(rt.known, pods, uid) && !ListSilent(rt.known, Silent(rt, uid), pods, uid, parseIp)
      else ListLeaks(rt, pods, uid, parseIp)
  }

  /** Which Adds a receiver that hangs up leaves standing for good, read off the step and the state
      before it. */
  lemma LeaksIff(rt: Runtime, event: WatchEvent, order: seq<string>, parseIp: IpParser, uid: string)
    requires Sound(rt) && Lists(order, Stale(rt, event, parseIp))
    requires Handle(rt, event, order, parseIp).1 == Err(ChannelClosed)
    ensures Leaked(Handle(rt, event, order, parseIp).0, uid) <==> EventLeaks(rt, event, order, uid, parseIp)
  {
    NoneLeaked(rt, uid);
    match event
    case Applied(pod) =>
      AppliedIsOneLongList(rt, pod, parseIp);
      ListLeaksIff(rt, [pod], parseIp, uid);
    case Deleted(_) =>
    case Restarted(pods) =>
      ApplyAllOkIff(rt, pods, parseIp);
      var (next, r) := ApplyAll(rt, pods, parseIp);
      if r.Err? {
        ListLeaksIff(rt, pods, parseIp, uid);
      } else {
        ApplyAllKeepsSound(rt, pods, parseIp);
        ApplyAllSilentIff(rt, pods, parseIp, uid);
        RestartLeaksIff(next, Listed(pods), order, uid);
      }
  }

  /** The same over runs and as the receiver sees it: after any history, the step that meets a hung-up
      receiver leaves an Add among the sent events with no Delete after it and its uid unknown
      exactly if `EventLeaks` says so. */
  lemma RunLeaksIff(
      life: nat, history: seq<Watched>, parseIp: IpParser, event: WatchEvent, order: seq<string>, sent: seq<EndpointEvent>, uid: string)
    requires Possible(life, history, parseIp)
    requires var before := After(life, history, parseIp);
             && Lists(order, Stale(before, event, parseIp))
             && Handle(before, event, order, parseIp).1 == Err(ChannelClosed)
             && sent == Events(Handle(before, event, order, parseIp).0.log)
    ensures var before := After(life, history, parseIp);
            (exists i: nat :: IsStandingAdd(sent, uid, i)) && uid !in Handle(before, event, order, parseIp).0.known <==>
            EventLeaks(before, event, order, uid, parseIp)
  {
    var before := After(life, history, parseIp);
    HistoryKeepsSound(life, history, parseIp);
    LeaksIff(before, event, order, parseIp, uid);
    AnnouncedMeans(Handle(before, event, order, parseIp).0.log, sent, uid);
  }

  // ---- A run that ends so -------------------------------------------------------------------

  /** A task announces a pod with one service and the receiver hangs up before its Delete: the Add
      stands, and the task has forgotten the pod. */
  lemma AnnouncedPodLeaks(parseIp: IpParser, address: string, spec: ServiceSpec)
    returns (history: seq<Watched>, event: WatchEvent)
    requires parseIp(address).Some? && Printable(spec)
    ensures Possible(1, history, parseIp)
    ensures var rt := After(1, history, parseIp);
            && Lists([], Stale(rt, event, parseIp)) && EventLeaks(rt, event, [], "0", parseIp)
            && var (next, r) := Handle(rt, event, [], parseIp);
               r == Err(ChannelClosed) && Leaked(next, "0") && !Sound(next)
  {
    var annotations := map[SERVICES_ANNOTATION := Join(PrintItems([spec], [""]), ',')];
    var pod := Pod(Some("0"), Some("pod"), Some(annotations), Some(PodStatus(Some(address), Some("Pending"))));
    history, event := [Watched(Applied(pod), [])], Deleted(pod);
    var start, rt := START.(life := 1), After(1, history, parseIp);
    assert history[..0] == [];
    assert After(1, [], parseIp) == start && Possible(1, [], parseIp);
    var started, ip := start.(known := start.known + {"0"}), parseIp(address).value;
    PrintedAnnotationAnnounces(started, [spec], [""], annotations, "0", ip);
    DiscoverOkIff(started, pod, ip);
    assert ItemsOf(pod) != [];
    DiscoverActs(started, pod, ip, "0");
    var next := Discover(started, annotations, "0", ip).0;
    HandlePhaseActs(next, "0", "Pending", "0");
    assert rt == HandlePhase(next, "0", "Pending").0 && rt.life == 0;
    HistoryKeepsSound(1, history, parseIp);
    AnnouncedIsLive(rt.log, "0");
    HangUpBreaksIff(rt, event, [], parseIp);
  }

  /** The invariant can break without a leak: of a running pod without services only a Resume was sent
      when the receiver hangs up before its Delete. */
  lemma BrokenWithoutLeak(parseIp: IpParser, address: string) returns (history: seq<Watched>, event: WatchEvent)
    requires parseIp(address).Some?
    ensures Possible(1, history, parseIp)
    ensures var rt := After(1, history, parseIp);
            && Lists([], Stale(rt, event, parseIp)) && Handle(rt, event, [], parseIp).1 == Err(ChannelClosed)
            && EventBreaks(rt, event, [], parseIp) && forall uid :: !EventLeaks(rt, event, [], uid, parseIp)
  {
    history := KnownWithoutAdd(parseIp, address);
    event := Deleted(Pod(Some("0"), None, None, None));
  }
}
