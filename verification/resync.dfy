// The Kubernetes task and the service manager together: what the manager's table holds once it has
// processed what the task sent.
module Resync {
  import opened Wrappers
  import opened Endpoints
  import opened Services
  import opened Histories
  import opened Annotations
  import opened Kubernetes
  import opened DiscoveryLists
  import opened DiscoveryRuns

  lemma RunOneMore(m: PortMap, from: string, events: seq<EndpointEvent>, event: EndpointEvent)
    ensures RunFrom(m, Tag(from, events + [event])) == Process(RunFrom(m, Tag(from, events)), from, event)
  {
    var log := Tag(from, events + [event]);
    assert log[..|log| - 1] == Tag(from, events);
  }

  /** The endpoints the manager holds for the task are those of announced pods, and one is
      available exactly when the last thing sent about its pod was a Resume. */
  lemma {:induction false} TableFollowsLog(log: seq<Item>, name: string, p: Port, uid: string)
    requires LogFits(log)
    ensures var c := Lookup(Run(Tag(name, Events(log))), p, EndpointId(name, uid));
            c.Some? ==> Announced(log, uid) && c.value.isAvailable == Up(log, uid)
  {
    if log != [] {
      var n := |log| - 1;
      var before := Events(log[..n]);
      TableFollowsLog(log[..n], name, p, uid);
      if log[n].Sent? {
        RunOneMore(map[], name, before, log[n].event);
        ProcessActsOnCells(Run(Tag(name, before)), name, log[n].event, p, EndpointId(name, uid));
      } else {
        assert Events(log) == before;
      }
    }
  }

  lemma {:induction false} SendDeletesKnown(rt: Runtime, uids: seq<string>)
    ensures SendDeletes(rt, uids).0.known == rt.known
    decreases |uids|
  {
    if uids != [] && rt.life > 0 {
      SendDeletesKnown(Send(rt, Delete(uids[0])).0, uids[1..]);
    }
  }

  /** Resynchronisation: once a Restarted returns Ok and the manager has processed everything the
      task sent, in order but however interleaved with other tasks, every endpoint of the task has
      its pod listed, and every other task's endpoints are what that task alone would have. */
  lemma RestartedResyncs(
      life: nat, history: seq<Watched>, parseIp: IpParser, w: Watched,
      name: string, reports: seq<Report>, p: Port, id: EndpointId)
    requires w.event.Restarted?
    requires Possible(life, history, parseIp)
    requires var before := After(life, history, parseIp);
             && Lists(w.order, Stale(before, w.event, parseIp))
             && Handle(before, w.event, w.order, parseIp).1.Ok?
             && Project(reports, name) == Tag(name, Events(Handle(before, w.event, w.order, parseIp).0.log))
    ensures Lookup(Run(reports), p, id).Some? && id.endpointDiscoveryName == name ==> id.uid in Listed(w.event.pods)
    ensures Lookup(Run(reports), p, id) == Lookup(Run(Project(reports, id.endpointDiscoveryName)), p, id)
  {
    var before := After(life, history, parseIp);
    var end := Handle(before, w.event, w.order, parseIp).0;
    HistoryKeepsSound(life, history, parseIp);
    HandleKeepsSound(before, w.event, w.order, parseIp);
    OwnStreamDecides(reports, p, id);
    if Lookup(Run(reports), p, id).Some? && id.endpointDiscoveryName == name {
      TableFollowsLog(end.log, name, p, id.uid);
      AnnouncedIsLive(end.log, id.uid);
      assert UidFits(end.known, end.log, id.uid);
      SendDeletesKnown(ApplyAll(before, w.event.pods, parseIp).0.(known := Listed(w.event.pods)), w.order);
    }
  }

  /** Phase drives availability: once everything sent is processed, an endpoint of the task is
      available iff the last phase other than Pending acted on for its pod since the pod was
      announced is Running. */
  lemma PhaseDrivesAvailability(
      life: nat, history: seq<Watched>, parseIp: IpParser,
      name: string, reports: seq<Report>, p: Port, uid: string)
    requires Possible(life, history, parseIp)
    requires Project(reports, name) == Tag(name, Events(After(life, history, parseIp).log))
    requires Lookup(Run(reports), p, EndpointId(name, uid)).Some?
    ensures var log := After(life, history, parseIp).log;
            Lookup(Run(reports), p, EndpointId(name, uid)).value.isAvailable <==>
            exists i :: 0 <= i < |log| && HandledFirmly(log[i], uid) && log[i].phase == "Running"
              && forall k | i < k < |log| :: log[k] != Burst(uid) && !HandledFirmly(log[k], uid)
  {
    var rt := After(life, history, parseIp);
    HistoryKeepsSound(life, history, parseIp);
    OwnStreamDecides(reports, p, EndpointId(name, uid));
    TableFollowsLog(rt.log, name, p, uid);
    AnnouncedIsLive(rt.log, uid);
    assert UidFits(rt.known, rt.log, uid);
    LatestMeans(rt.log, uid, "Running");
  }

  // ---- Idempotence --------------------------------------------------------------------------

  /** Processing the event changes nothing and sends nothing. */
  ghost predicate IsNoOp(m: PortMap, from: string, event: EndpointEvent) {
    && Process(m, from, event) == m
    && forall out | Emits(m, from, event, out) :: out == []
  }

  predicate CellSettled(c: Option<Endpoint>, event: EndpointEvent) {
    match event
    case Add(_, _, _, _, _, _) => false
    case Delete(_) => c.None?
    case Suspend(_) => c.Some? ==> !c.value.isAvailable
    case Resume(_) => c.Some? ==> c.value.isAvailable
  }

  /** The table already is as `event` would have it. */
  ghost predicate Settled(m: PortMap, from: string, event: EndpointEvent) {
    forall p :: CellSettled(Lookup(m, p, EndpointId(from, event.uid)), event)
  }

  lemma SettledIsNoOp(m: PortMap, from: string, event: EndpointEvent)
    requires WellFormed(m) && Settled(m, from, event)
    ensures IsNoOp(m, from, event)
  {
    var id := EndpointId(from, event.uid);
    var m' := Process(m, from, event);
    assert CellSettled(Lookup(m, 0, id), event);
    if event.Delete? {
      forall p | p in m
        ensures m[p].endpoints - {id} == m[p].endpoints
      {
        assert CellSettled(Lookup(m, p, id), event);
      }
      assert Emptied(m, id) == {};
      forall out | Emits(m, from, event, out)
        ensures out == []
      {
        var order :| Lists(order, Emptied(m, id)) && out == Closes(order);
        ListsNothing(order, Emptied(m, id));
      }
    } else {
      forall p | p in m
        ensures m'[p] == m[p]
      {
        assert CellSettled(Lookup(m, p, id), event);
        if id in m[p].endpoints {
          assert m'[p].endpoints == m[p].endpoints;
        }
      }
    }
    assert m' == m;
  }

  lemma SettledOnceProcessed(m: PortMap, from: string, event: EndpointEvent)
    requires !event.Add?
    ensures Settled(Process(m, from, event), from, event)
  {
    forall p: Port
      ensures CellSettled(Lookup(Process(m, from, event), p, EndpointId(from, event.uid)), event)
    {
      ProcessActsOnCells(m, from, event, p, EndpointId(from, event.uid));
    }
  }

  lemma SettledKept(m: PortMap, from: string, event: EndpointEvent, other: EndpointEvent)
    requires Settled(m, from, event) && other.uid != event.uid
    ensures Settled(Process(m, from, other), from, event)
  {
    forall p: Port
      ensures CellSettled(Lookup(Process(m, from, other), p, EndpointId(from, event.uid)), event)
    {
      ProcessActsOnCells(m, from, other, p, EndpointId(from, event.uid));
    }
  }

  /** The table `m` after the task's events from number `n` on. */
  function Fed(m: PortMap, from: string, rt: Runtime, n: nat): PortMap
    requires n <= |Events(rt.log)|
  {
    RunFrom(m, Tag(from, Events(rt.log)[n..]))
  }

  lemma FedByNote(m: PortMap, from: string, rt: Runtime, n: nat, item: Item)
    requires n <= |Events(rt.log)|
    ensures n <= |Events(Note(rt, item).log)|
    ensures Fed(m, from, Note(rt, item), n) ==
            if item.Sent? then Process(Fed(m, from, rt, n), from, item.event) else Fed(m, from, rt, n)
  {
    EventsOfNote(rt.log, item);
    if item.Sent? {
      assert (Events(rt.log) + [item.event])[n..] == Events(rt.log)[n..] + [item.event];
      RunOneMore(m, from, Events(rt.log)[n..], item.event);
    } else {
      assert Events(rt.log) + [] == Events(rt.log);
    }
  }

  /** `event` is settled once the manager has caught up with `rt`. */
  ghost predicate SettledBy(m: PortMap, from: string, rt: Runtime, n: nat, event: EndpointEvent) {
    n <= |Events(rt.log)| && Settled(Fed(m, from, rt, n), from, event)
  }

  lemma {:induction false} AnnounceKeepsOthers(
      m: PortMap, from: string, n: nat, event: EndpointEvent,
      rt: Runtime, items: seq<string>, uid: string, ip: IpAddr)
    requires n <= |Events(rt.log)|
    ensures n <= |Events(Announce(rt, items, uid, ip).0.log)|
    ensures SettledBy(m, from, rt, n, event) && event.uid != uid ==>
              SettledBy(m, from, Announce(rt, items, uid, ip).0, n, event)
    decreases |items|
  {
    if items != [] {
      var (next, r) := SendService(rt, items[0], uid, ip);
      if next != rt {
        var add := AddOf(uid, ip, ParseService(items[0]).value);
        FedByNote(m, from, rt, n, Sent(add));
        if Settled(Fed(m, from, rt, n), from, event) && event.uid != uid {
          SettledKept(Fed(m, from, rt, n), from, event, add);
        }
      }
      if r.Ok? {
        AnnounceKeepsOthers(m, from, n, event, next, items[1..], uid, ip);
      }
    }
  }

  lemma DiscoverKeepsOthers(
      m: PortMap, from: string, n: nat, event: EndpointEvent,
      rt: Runtime, annotations: map<string, string>, uid: string, ip: IpAddr)
    requires n <= |Events(rt.log)|
    ensures n <= |Events(Discover(rt, annotations, uid, ip).0.log)|
    ensures SettledBy(m, from, rt, n, event) && event.uid != uid ==>
              SettledBy(m, from, Discover(rt, annotations, uid, ip).0, n, event)
  {
    FedByNote(m, from, rt, n, Burst(uid));
    if SERVICES_ANNOTATION in annotations {
      AnnounceKeepsOthers(m, from, n, event, Note(rt, Burst(uid)), Split(annotations[SERVICES_ANNOTATION], ','), uid, ip);
    }
  }

  lemma HandlePhaseSettles(m: PortMap, from: string, n: nat, event: EndpointEvent, rt: Runtime, uid: string, phase: string)
    requires n <= |Events(rt.log)| && HandlePhase(rt, uid, phase).1.Ok?
    ensures n <= |Events(HandlePhase(rt, uid, phase).0.log)|
    ensures PhaseEvent(uid, phase) == Some(event) || (SettledBy(m, from, rt, n, event) && event.uid != uid) ==>
              SettledBy(m, from, HandlePhase(rt, uid, phase).0, n, event)
  {
    var start := if phase == "Succeeded" then Forget(rt, uid) else rt;
    match PhaseEvent(uid, phase)
    case None => FedByNote(m, from, start, n, Handled(uid, phase));
    case Some(e) =>
      FedByNote(m, from, start, n, Sent(e));
      FedByNote(m, from, Send(start, e).0, n, Handled(uid, phase));
      SettledOnceProcessed(Fed(m, from, start, n), from, e);
      if Settled(Fed(m, from, rt, n), from, event) && event.uid != uid {
        SettledKept(Fed(m, from, rt, n), from, event, e);
      }
  }

  function PodEvent(pod: Pod): Option<EndpointEvent> {
    if Complete(pod) then PhaseEvent(pod.uid.value, Phase(pod)) else None
  }

  lemma ApplyPodSettles(m: PortMap, from: string, n: nat, event: EndpointEvent, rt: Runtime, pod: Pod, parseIp: IpParser)
    requires n <= |Events(rt.log)| && ApplyPod(rt, pod, parseIp).1.Ok?
    ensures n <= |Events(ApplyPod(rt, pod, parseIp).0.log)|
    ensures PodEvent(pod) == Some(event) || (SettledBy(m, from, rt, n, event) && pod.uid != Some(event.uid)) ==>
              SettledBy(m, from, ApplyPod(rt, pod, parseIp).0, n, event)
  {
    if Complete(pod) {
      var uid, ip := pod.uid.value, parseIp(pod.status.value.podIp.value).value;
      var start := rt.(known := rt.known + {uid});
      var next := if uid in rt.known then rt else Discover(start, pod.annotations.value, uid, ip).0;
      if uid !in rt.known {
        DiscoverKeepsOthers(m, from, n, event, start, pod.annotations.value, uid, ip);
      }
      HandlePhaseSettles(m, from, n, event, next, uid, Phase(pod));
    }
  }

  /** No two listed pods share a uid. */
  predicate DistinctUids(pods: seq<Pod>) {
    forall i, j | 0 <= i < j < |pods| :: pods[i].uid.Some? ==> pods[i].uid != pods[j].uid
  }

  /** Applying a list settles the phase of every pod in it, and unsettles no other pod. */
  lemma {:induction false} ApplyAllSettles(
      m: PortMap, from: string, n: nat, event: EndpointEvent, rt: Runtime, pods: seq<Pod>, parseIp: IpParser)
    requires n <= |Events(rt.log)| && ApplyAll(rt, pods, parseIp).1.Ok? && DistinctUids(pods)
    ensures n <= |Events(ApplyAll(rt, pods, parseIp).0.log)|
    ensures (exists k :: 0 <= k < |pods| && PodEvent(pods[k]) == Some(event))
            || (SettledBy(m, from, rt, n, event) && event.uid !in Listed(pods)) ==>
              SettledBy(m, from, ApplyAll(rt, pods, parseIp).0, n, event)
    decreases |pods|
  {
    if pods != [] {
      var next := if pods[0].uid.Some? then ApplyPod(rt, pods[0], parseIp).0 else rt;
      if pods[0].uid.Some? { ApplyPodSettles(m, from, n, event, rt, pods[0], parseIp); }
      ApplyAllSettles(m, from, n, event, next, pods[1..], parseIp);
      if k :| 0 <= k < |pods| && PodEvent(pods[k]) == Some(event) {
        assert pods[k].uid == Some(event.uid);
        if k > 0 {
          assert pods[1..][k - 1] == pods[k];
        } else {
          assert event.uid !in Listed(pods[1..]);
        }
      } else if event.uid !in Listed(pods) {
        assert pods[0].uid != Some(event.uid);
        assert forall i | 0 <= i < |pods| - 1 :: pods[1..][i] == pods[i + 1];
        assert event.uid !in Listed(pods[1..]);
      }
    }
  }

  lemma {:induction false} SendDeletesKeepsOthers(m: PortMap, from: string, n: nat, event: EndpointEvent, rt: Runtime, uids: seq<string>)
    requires n <= |Events(rt.log)|
    ensures n <= |Events(SendDeletes(rt, uids).0.log)|
    ensures SettledBy(m, from, rt, n, event) && event.uid !in uids ==>
              SettledBy(m, from, SendDeletes(rt, uids).0, n, event)
    decreases |uids|
  {
    if uids != [] && rt.life > 0 {
      FedByNote(m, from, rt, n, Sent(Delete(uids[0])));
      if SettledBy(m, from, rt, n, event) && event.uid !in uids {
        SettledKept(Fed(m, from, rt, n), from, event, Delete(uids[0]));
      }
      SendDeletesKeepsOthers(m, from, n, event, Send(rt, Delete(uids[0])).0, uids[1..]);
    }
  }

  ghost predicate ForSomePod(pods: seq<Pod>, event: EndpointEvent) {
    exists k :: 0 <= k < |pods| && PodEvent(pods[k]) == Some(event)
  }

  /** Every event after `base` was sent for the phase of one of the pods. */
  ghost predicate OnlyPhases(rt: Runtime, base: seq<EndpointEvent>, pods: seq<Pod>) {
    && base <= Events(rt.log)
    && forall i | |base| <= i < |Events(rt.log)| :: ForSomePod(pods, Events(rt.log)[i])
  }

  lemma PhaseOfKnownPod(rt: Runtime, base: seq<EndpointEvent>, pods: seq<Pod>, k: nat)
    requires k < |pods| && Complete(pods[k]) && OnlyPhases(rt, base, pods)
    ensures var next := HandlePhase(rt, pods[k].uid.value, Phase(pods[k])).0;
            OnlyPhases(next, base, pods) && rt.known - {pods[k].uid.value} <= next.known <= rt.known
  {
    var uid, phase := pods[k].uid.value, Phase(pods[k]);
    var mid := rt.log;
    if PodEvent(pods[k]).Some? && rt.life > 0 {
      EventsOfNote(rt.log, Sent(PodEvent(pods[k]).value));
      mid := rt.log + [Sent(PodEvent(pods[k]).value)];
      assert ForSomePod(pods, PodEvent(pods[k]).value);
    }
    EventsOfNote(mid, Handled(uid, phase));
  }

  /** Applying pods that are all known announces nothing and learns nothing. `k` of them are done. */
  lemma {:induction false} KnownPodsOnlyPhases(rt: Runtime, base: seq<EndpointEvent>, pods: seq<Pod>, k: nat, parseIp: IpParser)
    requires k <= |pods| && DistinctUids(pods) && OnlyPhases(rt, base, pods)
    requires forall i | k <= i < |pods| && pods[i].uid.Some? :: pods[i].uid.value in rt.known
    ensures OnlyPhases(ApplyAll(rt, pods[k..], parseIp).0, base, pods)
    ensures ApplyAll(rt, pods[k..], parseIp).0.known <= rt.known
    decreases |pods| - k
  {
    if k < |pods| {
      assert pods[k..][1..] == pods[k + 1..];
      var (next, r) := if pods[k].uid.Some? then ApplyPod(rt, pods[k], parseIp) else (rt, Ok(()));
      if Complete(pods[k]) { PhaseOfKnownPod(rt, base, pods, k); }
      if r.Ok? { KnownPodsOnlyPhases(next, base, pods, k + 1, parseIp); }
    }
  }

  lemma {:induction false} NoOpsChangeNothing(m: PortMap, from: string, events: seq<EndpointEvent>)
    requires forall i | 0 <= i < |events| :: IsNoOp(m, from, events[i])
    ensures RunFrom(m, Tag(from, events)) == m
  {
    if events != [] {
      var n := |events| - 1;
      NoOpsChangeNothing(m, from, events[..n]);
      assert events[..n] + [events[n]] == events;
      RunOneMore(m, from, events[..n], events[n]);
    }
  }

  /** After a completed pass over a list, the phase of every pod in it is settled. */
  lemma PassSettles(
      m: PortMap, from: string, event: EndpointEvent, rt: Runtime, pods: seq<Pod>, order: seq<string>, parseIp: IpParser)
    requires DistinctUids(pods) && Lists(order, Stale(rt, Restarted(pods), parseIp))
    requires Handle(rt, Restarted(pods), order, parseIp).1.Ok?
    ensures var once := Handle(rt, Restarted(pods), order, parseIp).0;
            && once.known == Listed(pods)
            && |Events(rt.log)| <= |Events(once.log)|
            && (ForSomePod(pods, event) ==> SettledBy(m, from, once, |Events(rt.log)|, event))
  {
    var applied := ApplyAll(rt, pods, parseIp).0.(known := Listed(pods));
    SendDeletesKnown(applied, order);
    ApplyAllSettles(m, from, |Events(rt.log)|, event, rt, pods, parseIp);
    SendDeletesKeepsOthers(m, from, |Events(rt.log)|, event, applied, order);
    if ForSomePod(pods, event) {
      var k :| 0 <= k < |pods| && PodEvent(pods[k]) == Some(event);
      assert pods[k].uid == Some(event.uid);
      assert event.uid in Listed(pods);
    }
  }

  /** A pass over a list all of whose uids are known only repeats phases. */
  lemma SecondPassRepeats(rt: Runtime, pods: seq<Pod>, order: seq<string>, parseIp: IpParser)
    requires DistinctUids(pods) && rt.known == Listed(pods)
    requires Lists(order, Stale(rt, Restarted(pods), parseIp))
    ensures OnlyPhases(Handle(rt, Restarted(pods), order, parseIp).0, Events(rt.log), pods)
  {
    assert pods[0..] == pods;
    KnownPodsOnlyPhases(rt, Events(rt.log), pods, 0, parseIp);
    assert Stale(rt, Restarted(pods), parseIp) == {};
    ListsNothing(order, Stale(rt, Restarted(pods), parseIp));
  }

  lemma FedTwice(m: PortMap, from: string, once: Runtime, twice: Runtime, n: nat)
    requires n <= |Events(once.log)| && Events(once.log) <= Events(twice.log)
    ensures Fed(m, from, twice, n) == Fed(Fed(m, from, once, n), from, twice, |Events(once.log)|)
  {
    var olds, news := Events(once.log)[n..], Events(twice.log)[|Events(once.log)|..];
    assert Events(twice.log)[n..] == olds + news;
    assert Tag(from, olds + news) == Tag(from, olds) + Tag(from, news);
    RunConcat(m, Tag(from, olds), Tag(from, news));
  }

  /** Idempotence: handling the same list twice in a row leaves the table as once. Whatever the
      manager held before and whatever the task knew, every event of the second pass is a no-op on
      the table the first pass leads to, so no port is opened or closed. The list may hold
      incomplete, Pending and Succeeded pods. */
  lemma ResyncIsIdempotent(
      m: PortMap, from: string, rt: Runtime, pods: seq<Pod>, first: seq<string>, second: seq<string>, parseIp: IpParser)
    returns (once: Runtime, twice: Runtime)
    requires WellFormed(m) && DistinctUids(pods)
    requires Lists(first, Stale(rt, Restarted(pods), parseIp))
    requires Handle(rt, Restarted(pods), first, parseIp).1.Ok?
    requires Lists(second, Stale(Handle(rt, Restarted(pods), first, parseIp).0, Restarted(pods), parseIp))
    ensures once == Handle(rt, Restarted(pods), first, parseIp).0
    ensures twice == Handle(once, Restarted(pods), second, parseIp).0
    ensures |Events(rt.log)| <= |Events(once.log)| && Events(once.log) <= Events(twice.log)
    ensures Fed(m, from, twice, |Events(rt.log)|) == Fed(m, from, once, |Events(rt.log)|)
    ensures forall i | |Events(once.log)| <= i < |Events(twice.log)| ::
              IsNoOp(Fed(m, from, once, |Events(rt.log)|), from, Events(twice.log)[i])
  {
    once := Handle(rt, Restarted(pods), first, parseIp).0;
    twice := Handle(once, Restarted(pods), second, parseIp).0;
    var n, k := |Events(rt.log)|, |Events(once.log)|;
    PassSettles(m, from, Delete(""), rt, pods, first, parseIp);
    SecondPassRepeats(once, pods, second, parseIp);
    var table := Fed(m, from, once, n);
    RunKeepsWellFormed(m, Tag(from, Events(once.log)[n..]));
    forall i | k <= i < |Events(twice.log)|
      ensures IsNoOp(table, from, Events(twice.log)[i])
    {
      assert ForSomePod(pods, Events(twice.log)[i]);
      PassSettles(m, from, Events(twice.log)[i], rt, pods, first, parseIp);
      SettledIsNoOp(table, from, Events(twice.log)[i]);
    }
    NoOpsChangeNothing(table, from, Events(twice.log)[k..]);
    FedTwice(m, from, once, twice, n);
  }
}
