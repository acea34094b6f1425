// What applying a list of pods comes to: when it succeeds, what it costs and what it leaves known
// (src/kubernetes/mod.rs, apply_pod and the first loop of a Restarted).
module DiscoveryLists {
  import opened Wrappers
  import opened Endpoints
  import opened Annotations
  import opened Kubernetes
  import opened Announcement

  /** The outcome is not that the receiver has hung up. */
  predicate Survived(r: Outcome) {
    r != Err(ChannelClosed)
  }

  function ApplyOne(rt: Runtime, pod: Pod, parseIp: IpParser): (Runtime, Outcome) {
    if pod.uid.Some? then ApplyPod(rt, pod, parseIp) else (rt, Ok(()))
  }

  /** A list is applied by applying all but its last pod, and then that one. */
  lemma {:induction false} ApplyAllButLast(rt: Runtime, pods: seq<Pod>, parseIp: IpParser)
    requires pods != []
    ensures ApplyAll(rt, pods, parseIp) ==
            var (mid, r) := ApplyAll(rt, pods[..|pods| - 1], parseIp);
            if r.Err? then (mid, r) else ApplyOne(mid, pods[|pods| - 1], parseIp)
    decreases |pods|
  {
    var n := |pods| - 1;
    if n > 0 {
      var (next, r) := ApplyOne(rt, pods[0], parseIp);
      assert pods[1..][..n - 1] == pods[..n][1..];
      if r.Ok? { ApplyAllButLast(next, pods[1..], parseIp); }
    }
  }

  // ---- One pod ------------------------------------------------------------------------------

  function ItemsOf(pod: Pod): seq<string>
    requires Complete(pod)
  {
    if SERVICES_ANNOTATION in pod.annotations.value then Split(pod.annotations.value[SERVICES_ANNOTATION], ',') else []
  }

  predicate ItemsValid(pod: Pod)
    requires Complete(pod)
  {
    forall i | 0 <= i < |ItemsOf(pod)| :: ParseService(ItemsOf(pod)[i]).Ok?
  }

  /** Applying the pod meets no address or annotation it cannot read. */
  predicate PodFits(isKnown: bool, pod: Pod, parseIp: IpParser) {
    Complete(pod) ==> parseIp(pod.status.value.podIp.value).Some? && (isKnown || ItemsValid(pod))
  }

  /** How many events applying the pod sends. */
  function PodCost(isKnown: bool, pod: Pod): nat {
    if !Complete(pod) then 0
    else (if isKnown then 0 else |ItemsOf(pod)|) + if PhaseEvent(pod.uid.value, Phase(pod)).Some? then 1 else 0
  }

  lemma {:induction false} AnnounceKeepsKnown(rt: Runtime, items: seq<string>, uid: string, ip: IpAddr)
    ensures Announce(rt, items, uid, ip).0.known == rt.known
    ensures Announce(rt, items, uid, ip).1.Ok? ==> Announce(rt, items, uid, ip).0.life == rt.life - |items|
    decreases |items|
  {
    if items != [] {
      var (next, r) := SendService(rt, items[0], uid, ip);
      if r.Ok? { AnnounceKeepsKnown(next, items[1..], uid, ip); }
    }
  }

  /** Announcing succeeds iff all items are valid and accepted; if all are valid, only a receiver that
      hangs up can stop it. */
  lemma DiscoverOkIff(rt: Runtime, pod: Pod, ip: IpAddr)
    requires Complete(pod)
    ensures var (next, r) := Discover(rt, pod.annotations.value, pod.uid.value, ip);
            && next.known == rt.known
            && (r.Ok? <==> ItemsValid(pod) && |ItemsOf(pod)| <= rt.life)
            && (r.Ok? ==> next.life == rt.life - |ItemsOf(pod)|)
            && (ItemsValid(pod) ==> r.Ok? || r == Err(ChannelClosed))
            && (!ItemsValid(pod) && Survived(r) ==> r.Err?)
  {
    if SERVICES_ANNOTATION in pod.annotations.value {
      var begun := Note(rt, Burst(pod.uid.value));
      AnnounceKeepsKnown(begun, ItemsOf(pod), pod.uid.value, ip);
      AnnounceOkIff(begun, ItemsOf(pod), pod.uid.value, ip);
      AnnounceSendsPrefix(begun, ItemsOf(pod), pod.uid.value, ip);
      ValidPrefixIsLongest(ItemsOf(pod));
    }
  }

  /** Applying a pod succeeds iff it fits and the receiver accepts what it costs, and then exactly
      that is spent and the uid is known unless the pod has succeeded. */
  lemma ApplyPodOkIff(rt: Runtime, pod: Pod, parseIp: IpParser)
    requires pod.uid.Some?
    ensures var (next, r) := ApplyPod(rt, pod, parseIp);
            var isKnown := pod.uid.value in rt.known;
            && (r.Ok? <==> PodFits(isKnown, pod, parseIp) && PodCost(isKnown, pod) <= rt.life)
            && (r.Ok? ==> next.life == rt.life - PodCost(isKnown, pod))
            && (r.Ok? ==> next.known == if !Complete(pod) then rt.known
                                        else if Phase(pod) == "Succeeded" then rt.known - {pod.uid.value}
                                        else rt.known + {pod.uid.value})
            && (Survived(r) ==> (r.Ok? <==> PodFits(isKnown, pod, parseIp)))
  {
    if Complete(pod) && parseIp(pod.status.value.podIp.value).Some? {
      var uid := pod.uid.value;
      if uid !in rt.known {
        DiscoverOkIff(rt.(known := rt.known + {uid}), pod, parseIp(pod.status.value.podIp.value).value);
      } else {
        assert rt.known == rt.known + {uid};
      }
      assert rt.known + {uid} - {uid} == rt.known - {uid};
    }
  }

  // ---- Lists --------------------------------------------------------------------------------

  /** Whether, after the listed pods are applied, the task knows `uid`: its last complete pod in the
      list decides, else what was known before. */
  predicate Kept(known: set<string>, pods: seq<Pod>, uid: string) {
    if pods == [] then uid in known else
    var last := pods[|pods| - 1];
    if Complete(last) && last.uid == Some(uid) then Phase(last) != "Succeeded"
    else Kept(known, pods[..|pods| - 1], uid)
  }

  /** Every pod of the list fits when its turn comes. */
  predicate ListFits(known: set<string>, pods: seq<Pod>, parseIp: IpParser) {
    pods == [] ||
    var last, earlier := pods[|pods| - 1], pods[..|pods| - 1];
    ListFits(known, earlier, parseIp) && (last.uid.Some? ==> PodFits(Kept(known, earlier, last.uid.value), last, parseIp))
  }

  /** How many events applying the list sends. */
  function ListCost(known: set<string>, pods: seq<Pod>): nat {
    if pods == [] then 0 else
    var last, earlier := pods[|pods| - 1], pods[..|pods| - 1];
    ListCost(known, earlier) + if last.uid.Some? then PodCost(Kept(known, earlier, last.uid.value), last) else 0
  }

  /** Applying a list succeeds iff every pod fits when its turn comes and the receiver accepts what the
      list costs. A receiver that has not hung up leaves only the first condition. */
  lemma {:induction false} ApplyAllOkIff(rt: Runtime, pods: seq<Pod>, parseIp: IpParser)
    ensures var (next, r) := ApplyAll(rt, pods, parseIp);
            && (r.Ok? <==> ListFits(rt.known, pods, parseIp) && ListCost(rt.known, pods) <= rt.life)
            && (r.Ok? ==> next.life == rt.life - ListCost(rt.known, pods))
            && (r.Ok? ==> forall uid :: uid in next.known <==> Kept(rt.known, pods, uid))
            && (Survived(r) ==> (r.Ok? <==> ListFits(rt.known, pods, parseIp)))
  {
    if pods != [] {
      var n := |pods| - 1;
      ApplyAllButLast(rt, pods, parseIp);
      ApplyAllOkIff(rt, pods[..n], parseIp);
      var (mid, r) := ApplyAll(rt, pods[..n], parseIp);
      if r.Ok? && pods[n].uid.Some? {
        ApplyPodOkIff(mid, pods[n], parseIp);
      }
    }
  }
}
