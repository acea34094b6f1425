// What every run of the Kubernetes discovery task keeps, step by step and over whole histories.
module DiscoveryRuns {
  import opened Wrappers
  import opened Endpoints
  import opened Annotations
  import opened Kubernetes
  import opened DiscoveryLists

  // ---- What the past says about one uid -----------------------------------------------------

  /** An announcement of `uid` began and no Delete was sent since. */
  predicate Live(log: seq<Item>, uid: string) {
    log != [] &&
    var last := log[|log| - 1];
    last == Burst(uid) || (last != Sent(Delete(uid)) && Live(log[..|log| - 1], uid))
  }

  predicate IsAddOf(item: Item, uid: string) {
    item.Sent? && item.event.Add? && item.event.uid == uid
  }

  /** An Add of `uid` was sent and no Delete since. */
  predicate Announced(log: seq<Item>, uid: string) {
    log != [] &&
    var last := log[|log| - 1];
    IsAddOf(last, uid)
    || (last != Sent(Delete(uid)) && Announced(log[..|log| - 1], uid))
  }

  /** The last thing sent about `uid` was a Resume. */
  predicate Up(log: seq<Item>, uid: string) {
    log != [] &&
    var last := log[|log| - 1];
    if last.Sent? && last.event.uid == uid then last.event.Resume? else Up(log[..|log| - 1], uid)
  }

  /** The last step began announcing `uid`, or sent one of its Adds. */
  predicate InBurst(log: seq<Item>, uid: string) {
    log != [] && (log[|log| - 1] == Burst(uid) || IsAddOf(log[|log| - 1], uid))
  }

  predicate HandledFirmly(item: Item, uid: string) {
    item.Handled? && item.uid == uid && item.phase != "Pending"
  }

  /** The last phase other than Pending acted on for `uid` since its last announcement began. */
  function Latest(log: seq<Item>, uid: string): Option<string> {
    if log == [] then None else
    var last := log[|log| - 1];
    if last == Burst(uid) then None
    else if HandledFirmly(last, uid) then Some(last.phase)
    else Latest(log[..|log| - 1], uid)
  }

  // The same, without recursion.

  lemma {:induction false} LiveMeans(log: seq<Item>, uid: string)
    ensures Live(log, uid) <==>
            exists i :: 0 <= i < |log| && log[i] == Burst(uid) && Sent(Delete(uid)) !in log[i..]
  {
    if log != [] {
      var n := |log| - 1;
      LiveMeans(log[..n], uid);
      if log[n] == Burst(uid) {
        assert Sent(Delete(uid)) !in log[n..];
      } else {
        forall i | 0 <= i < n
          ensures log[i..] == log[..n][i..] + [log[n]]
        {}
      }
    }
  }

  lemma {:induction false} LatestMeans(log: seq<Item>, uid: string, phase: string)
    ensures Latest(log, uid) == Some(phase) <==>
            exists i :: 0 <= i < |log| && HandledFirmly(log[i], uid) && log[i].phase == phase
              && forall k | i < k < |log| :: log[k] != Burst(uid) && !HandledFirmly(log[k], uid)
  {
    if log != [] {
      var n := |log| - 1;
      LatestMeans(log[..n], uid, phase);
      forall i | 0 <= i < n
        ensures log[..n][i] == log[i]
      {}
    }
  }

  // ---- The invariant ------------------------------------------------------------------------

  /** Announcements start only for uids that have none and are not up; endpoints are added only at
      their beginning, one after the other, and as unavailable. */
  predicate ItemFits(log: seq<Item>, item: Item) {
    match item
    case Burst(uid) => !Live(log, uid) && !Up(log, uid)
    case Sent(event) => event.Add? ==> Live(log, event.uid) && !Up(log, event.uid) && InBurst(log, event.uid) && !event.isAvailable
    case Handled(_, _) => true
  }

  predicate LogFits(log: seq<Item>) {
    log == [] || (LogFits(log[..|log| - 1]) && ItemFits(log[..|log| - 1], log[|log| - 1]))
  }

  predicate UidFits(known: set<string>, log: seq<Item>, uid: string) {
    && (Live(log, uid) ==> uid in known)
    && (Up(log, uid) ==> uid in known)
    && (Live(log, uid) ==> (Up(log, uid) <==> Latest(log, uid) == Some("Running")))
  }

  ghost predicate Sound(rt: Runtime) {
    LogFits(rt.log) && forall uid :: UidFits(rt.known, rt.log, uid)
  }

  /** `pod uid` is in the middle of its announcement. */
  predicate Announcing(rt: Runtime, uid: string) {
    uid in rt.known && Live(rt.log, uid) && !Up(rt.log, uid) && Latest(rt.log, uid) == None && InBurst(rt.log, uid)
  }

  /** What one more item changes. */
  lemma NoteActs(log: seq<Item>, item: Item)
    ensures LogFits(log + [item]) <==> LogFits(log) && ItemFits(log, item)
    ensures forall u :: Live(log + [item], u) <==> item == Burst(u) || (item != Sent(Delete(u)) && Live(log, u))
    ensures forall u :: Up(log + [item], u) <==> if item.Sent? && item.event.uid == u then item.event.Resume? else Up(log, u)
    ensures forall u :: Latest(log + [item], u) ==
              if item == Burst(u) then None else if HandledFirmly(item, u) then Some(item.phase) else Latest(log, u)
    ensures forall u :: InBurst(log + [item], u) <==> item == Burst(u) || IsAddOf(item, u)
    ensures forall u :: Announced(log + [item], u) <==> IsAddOf(item, u) || (item != Sent(Delete(u)) && Announced(log, u))
  {
    assert (log + [item])[..|log|] == log;
  }

  lemma {:induction false} AnnounceKeepsSound(rt: Runtime, items: seq<string>, uid: string, ip: IpAddr)
    requires Sound(rt) && Announcing(rt, uid)
    ensures var next := Announce(rt, items, uid, ip).0;
            Sound(next) && Announcing(next, uid) && next.known == rt.known
    decreases |items|
  {
    if items != [] {
      var (next, r) := SendService(rt, items[0], uid, ip);
      if next != rt {
        NoteActs(rt.log, next.log[|rt.log|]);
        forall u: string
          ensures UidFits(next.known, next.log, u)
        {
          assert UidFits(rt.known, rt.log, u);
        }
      }
      if r.Ok? {
        AnnounceKeepsSound(next, items[1..], uid, ip);
      }
    }
  }

  /** Whatever the annotation holds, and even if announcing it fails half way. */
  lemma DiscoverKeepsSound(rt: Runtime, annotations: map<string, string>, uid: string, ip: IpAddr)
    requires Sound(rt) && uid !in rt.known
    ensures var next := Discover(rt.(known := rt.known + {uid}), annotations, uid, ip).0;
            Sound(next) && Announcing(next, uid) && next.known == rt.known + {uid}
  {
    var started := Note(rt.(known := rt.known + {uid}), Burst(uid));
    NoteActs(rt.log, Burst(uid));
    assert UidFits(rt.known, rt.log, uid);
    forall u: string
      ensures UidFits(started.known, started.log, u)
    {
      assert UidFits(rt.known, rt.log, u);
    }
    if SERVICES_ANNOTATION in annotations {
      AnnounceKeepsSound(started, Split(annotations[SERVICES_ANNOTATION], ','), uid, ip);
    }
  }

  lemma HandlePhaseKeepsSound(rt: Runtime, uid: string, phase: string)
    requires Sound(rt) && uid in rt.known && Survived(HandlePhase(rt, uid, phase).1)
    ensures Sound(HandlePhase(rt, uid, phase).0)
    ensures HandlePhase(rt, uid, phase).0.known == if phase == "Succeeded" then rt.known - {uid} else rt.known
    ensures forall u :: Live(HandlePhase(rt, uid, phase).0.log, u) <==>
              Live(rt.log, u) && !(u == uid && phase == "Succeeded")
  {
    var next := HandlePhase(rt, uid, phase).0;
    var event := PhaseEvent(uid, phase);
    var mid := if event.None? then rt.log else rt.log + [Sent(event.value)];
    if event.Some? { NoteActs(rt.log, Sent(event.value)); }
    NoteActs(mid, Handled(uid, phase));
    assert next.log == mid + [Handled(uid, phase)];
    forall u: string
      ensures UidFits(next.known, next.log, u)
      ensures Live(next.log, u) <==> Live(rt.log, u) && !(u == uid && phase == "Succeeded")
    {
      assert UidFits(rt.known, rt.log, u);
    }
  }

  lemma ApplyPodKeepsSound(rt: Runtime, pod: Pod, parseIp: IpParser)
    requires Sound(rt) && Survived(ApplyPod(rt, pod, parseIp).1)
    ensures Sound(ApplyPod(rt, pod, parseIp).0)
  {
    if Complete(pod) && parseIp(pod.status.value.podIp.value).Some? {
      var uid, ip := pod.uid.value, parseIp(pod.status.value.podIp.value).value;
      var (next, r) :=
        if uid in rt.known then (rt, Ok(()))
        else Discover(rt.(known := rt.known + {uid}), pod.annotations.value, uid, ip);
      if uid !in rt.known {
        DiscoverKeepsSound(rt, pod.annotations.value, uid, ip);
      }
      if r.Ok? {
        HandlePhaseKeepsSound(next, uid, Phase(pod));
      }
    }
  }

  lemma {:induction false} ApplyAllKeepsSound(rt: Runtime, pods: seq<Pod>, parseIp: IpParser)
    requires Sound(rt) && Survived(ApplyAll(rt, pods, parseIp).1)
    ensures Sound(ApplyAll(rt, pods, parseIp).0)
    decreases |pods|
  {
    if pods != [] {
      var (next, r) := if pods[0].uid.Some? then ApplyPod(rt, pods[0], parseIp) else (rt, Ok(()));
      if pods[0].uid.Some? { ApplyPodKeepsSound(rt, pods[0], parseIp); }
      if r.Ok? { ApplyAllKeepsSound(next, pods[1..], parseIp); }
    }
  }

  /** While stale uids are being deleted, those still to go count as known. */
  lemma {:induction false} SendDeletesKeepsSound(rt: Runtime, uids: seq<string>, stale: set<string>)
    requires Sound(rt.(known := rt.known + stale)) && Lists(uids, stale) && rt.known !! stale
    requires Survived(SendDeletes(rt, uids).1)
    ensures Sound(SendDeletes(rt, uids).0) && SendDeletes(rt, uids).0.known == rt.known
    ensures SendDeletes(rt, uids).1.Ok?
    ensures forall u :: Live(SendDeletes(rt, uids).0.log, u) <==> Live(rt.log, u) && u !in stale
    decreases |uids|
  {
    if uids == [] {
      ListsNothing(uids, stale);
      assert rt.known + stale == rt.known;
    } else {
      var uid := uids[0];
      ListsTail(uids, stale);
      var next := Send(rt, Delete(uid)).0;
      if rt.life > 0 {
        NoteActs(rt.log, Sent(Delete(uid)));
        forall u: string
          ensures UidFits(next.known + (stale - {uid}), next.log, u)
          ensures Live(next.log, u) <==> Live(rt.log, u) && u != uid
        {
          assert UidFits(rt.known + stale, rt.log, u);
        }
        SendDeletesKeepsSound(next, uids[1..], stale - {uid});
      }
    }
  }

  lemma DeletedKeepsSound(rt: Runtime, uid: string)
    requires Sound(rt) && rt.life > 0
    ensures Sound(Send(Forget(rt, uid), Delete(uid)).0)
  {
    var next := Send(Forget(rt, uid), Delete(uid)).0;
    NoteActs(rt.log, Sent(Delete(uid)));
    forall u: string
      ensures UidFits(next.known, next.log, u)
    {
      assert UidFits(rt.known, rt.log, u);
    }
  }

  lemma MoreKnownIsSound(rt: Runtime, known: set<string>)
    requires Sound(rt) && rt.known <= known
    ensures Sound(rt.(known := known))
  {
    forall u: string
      ensures UidFits(known, rt.log, u)
    {
      assert UidFits(rt.known, rt.log, u);
    }
  }

  /** The last part of a Restarted: `listed` becomes what is known, and the rest is deleted. */
  lemma RestartKeepsSound(rt: Runtime, listed: set<string>, order: seq<string>)
    requires Sound(rt) && Lists(order, rt.known - listed)
    requires Survived(SendDeletes(rt.(known := listed), order).1)
    ensures var next := SendDeletes(rt.(known := listed), order).0;
            && Sound(next) && next.known == listed && SendDeletes(rt.(known := listed), order).1.Ok?
            && forall u :: Live(next.log, u) <==> Live(rt.log, u) && u in listed
  {
    var stale := rt.known - listed;
    MoreKnownIsSound(rt, listed + stale);
    SendDeletesKeepsSound(rt.(known := listed), order, stale);
    forall u: string
      ensures Live(rt.log, u) ==> u in rt.known
    {
      assert UidFits(rt.known, rt.log, u);
    }
  }

  /** Every handled watch event keeps the invariant, including one that ends in a parse error;
      only a receiver that has hung up can break it. */
  lemma HandleKeepsSound(rt: Runtime, event: WatchEvent, order: seq<string>, parseIp: IpParser)
    requires Sound(rt) && Lists(order, Stale(rt, event, parseIp))
    requires Survived(Handle(rt, event, order, parseIp).1)
    ensures Sound(Handle(rt, event, order, parseIp).0)
  {
    match event
    case Applied(pod) =>
      if pod.uid.Some? { ApplyPodKeepsSound(rt, pod, parseIp); }
    case Deleted(pod) =>
      if pod.uid.Some? { DeletedKeepsSound(rt, pod.uid.value); }
    case Restarted(pods) =>
      ApplyAllKeepsSound(rt, pods, parseIp);
      var (next, r) := ApplyAll(rt, pods, parseIp);
      if r.Ok? { RestartKeepsSound(next, Listed(pods), order); }
  }

  // ---- Histories ----------------------------------------------------------------------------

  /** A watch event, and the order its stale uids come in. */
  datatype Watched = Watched(event: WatchEvent, order: seq<string>)

  const START := Runtime({}, [], 0)

  /** The state after a history. A step that ends in a parse error may be followed by others. */
  function After(life: nat, history: seq<Watched>, parseIp: IpParser): Runtime {
    if history == [] then START.(life := life) else
    var w := history[|history| - 1];
    Handle(After(life, history[..|history| - 1], parseIp), w.event, w.order, parseIp).0
  }

  /** Every step's order is possible and the receiver has not hung up on any. */
  ghost predicate Possible(life: nat, history: seq<Watched>, parseIp: IpParser) {
    history == [] ||
    var w := history[|history| - 1];
    var before := After(life, history[..|history| - 1], parseIp);
    && Possible(life, history[..|history| - 1], parseIp)
    && Lists(w.order, Stale(before, w.event, parseIp))
    && Survived(Handle(before, w.event, w.order, parseIp).1)
  }

  lemma {:induction false} HistoryKeepsSound(life: nat, history: seq<Watched>, parseIp: IpParser)
    requires Possible(life, history, parseIp)
    ensures Sound(After(life, history, parseIp))
  {
    if history != [] {
      var n := |history| - 1;
      HistoryKeepsSound(life, history[..n], parseIp);
      HandleKeepsSound(After(life, history[..n], parseIp), history[n].event, history[n].order, parseIp);
    }
  }

  lemma {:induction false} AnnouncedIsLive(log: seq<Item>, uid: string)
    requires LogFits(log) && Announced(log, uid)
    ensures Live(log, uid)
  {
    var n := |log| - 1;
    if !IsAddOf(log[n], uid) {
      AnnouncedIsLive(log[..n], uid);
    }
  }

  /** Event `i` adds an endpoint of `uid`, and no Delete of it follows. */
  predicate IsStandingAdd(events: seq<EndpointEvent>, uid: string, i: nat) {
    i < |events| && events[i].Add? && events[i].uid == uid && Delete(uid) !in events[i..]
  }

  lemma StandingAddOneMore(events: seq<EndpointEvent>, event: EndpointEvent, uid: string, i: nat)
    ensures IsStandingAdd(events + [event], uid, i) <==>
            if i == |events| then event.Add? && event.uid == uid else event != Delete(uid) && IsStandingAdd(events, uid, i)
  {
    if i < |events| {
      assert (events + [event])[i..] == events[i..] + [event];
    } else if i == |events| {
      assert (events + [event])[i..] == [event];
    }
  }

  lemma {:induction false} AnnouncedMeans(log: seq<Item>, events: seq<EndpointEvent>, uid: string)
    requires events == Events(log)
    ensures Announced(log, uid) <==> exists i: nat :: IsStandingAdd(events, uid, i)
  {
    if log != [] {
      var n := |log| - 1;
      var before := Events(log[..n]);
      AnnouncedMeans(log[..n], before, uid);
      if log[n].Sent? {
        forall i: nat
          ensures IsStandingAdd(events, uid, i) <==>
                  if i == |before| then log[n].event.Add? && log[n].event.uid == uid
                  else log[n].event != Delete(uid) && IsStandingAdd(before, uid, i)
        {
          StandingAddOneMore(before, log[n].event, uid, i);
        }
        assert IsStandingAdd(events, uid, |before|) <==> log[n].event.Add? && log[n].event.uid == uid;
      } else {
        assert events == before;
      }
    }
  }

  /** No leaked pods: a uid with an Add not yet followed by a Delete is remembered, so that the
      next Restarted that does not list it deletes it. */
  lemma NoLeakedPods(life: nat, history: seq<Watched>, parseIp: IpParser, uid: string, i: nat)
    requires Possible(life, history, parseIp)
    requires IsStandingAdd(Events(After(life, history, parseIp).log), uid, i)
    ensures uid in After(life, history, parseIp).known
  {
    var rt := After(life, history, parseIp);
    HistoryKeepsSound(life, history, parseIp);
    AnnouncedMeans(rt.log, Events(rt.log), uid);
    AnnouncedIsLive(rt.log, uid);
    assert UidFits(rt.known, rt.log, uid);
  }

  lemma {:induction false} PrefixFits(log: seq<Item>, n: nat)
    requires LogFits(log) && n <= |log|
    ensures LogFits(log[..n])
  {
    if n < |log| {
      assert log[..|log| - 1][..n] == log[..n];
      PrefixFits(log[..|log| - 1], n);
    } else {
      assert log[..n] == log;
    }
  }

  lemma DeleteBetween(log: seq<Item>, uid: string, i: nat, j: nat) returns (k: nat)
    requires LogFits(log) && i < j < |log| && log[i] == log[j] == Burst(uid)
    ensures i < k < j && log[k] == Sent(Delete(uid))
  {
    var earlier := log[..j];
    PrefixFits(log, j + 1);
    assert log[..j + 1][..j] == earlier;
    LiveMeans(earlier, uid);
    assert earlier[i] == Burst(uid);
    assert Sent(Delete(uid)) in earlier[i..];
    k :| i <= k < j && earlier[k] == Sent(Delete(uid));
  }

  /** No double announcement: between two announcements of one uid a Delete of it was sent. */
  lemma NoDoubleAnnouncement(life: nat, history: seq<Watched>, parseIp: IpParser, uid: string, i: nat, j: nat)
    returns (k: nat)
    requires Possible(life, history, parseIp)
    requires var log := After(life, history, parseIp).log;
             i < j < |log| && log[i] == log[j] == Burst(uid)
    ensures i < k < j && After(life, history, parseIp).log[k] == Sent(Delete(uid))
  {
    HistoryKeepsSound(life, history, parseIp);
    k := DeleteBetween(After(life, history, parseIp).log, uid, i, j);
  }

  /** Adds of one uid with no Delete of it between them come one right after the other. */
  lemma {:induction false} AddsComeTogether(log: seq<Item>, events: seq<EndpointEvent>, uid: string, i: nat, j: nat)
    requires LogFits(log) && events == Events(log) && i < j < |events|
    requires events[i].Add? && events[i].uid == uid && events[j].Add? && events[j].uid == uid
    requires Delete(uid) !in events[i..j]
    ensures forall k | i <= k <= j :: events[k].Add? && events[k].uid == uid
    decreases |log|
  {
    var n := |log| - 1;
    var before := Events(log[..n]);
    if j < |before| {
      assert events[i..j] == before[i..j];
      AddsComeTogether(log[..n], before, uid, i, j);
    } else {
      assert events == before + [log[n].event] && j == |before|;
      assert events[i..j] == before[i..];
      if log[n - 1] == Burst(uid) {
        assert Events(log[..n][..n - 1]) == before;
        if IsStandingAdd(before, uid, i) {
          AnnouncedMeans(log[..n][..n - 1], before, uid);
          AnnouncedIsLive(log[..n][..n - 1], uid);
        }
      } else {
        var m := |before| - 1;
        assert before[m] == log[n - 1].event;
        if i < m {
          assert Delete(uid) !in before[i..m] by { assert forall d | d in before[i..m] :: d in before[i..]; }
          AddsComeTogether(log[..n], before, uid, i, m);
        }
      }
    }
  }

  /** As the receiver sees it: two Adds of one uid with any other event between them have a Delete of
      that uid between them. */
  lemma NoSecondAnnouncement(
      life: nat, history: seq<Watched>, parseIp: IpParser, sent: seq<EndpointEvent>, uid: string, i: nat, k: nat, j: nat)
    returns (d: nat)
    requires Possible(life, history, parseIp) && sent == Events(After(life, history, parseIp).log)
    requires i < k < j < |sent|
    requires sent[i].Add? && sent[i].uid == uid && sent[j].Add? && sent[j].uid == uid
    requires !(sent[k].Add? && sent[k].uid == uid)
    ensures i < d < j && sent[d] == Delete(uid)
  {
    HistoryKeepsSound(life, history, parseIp);
    if Delete(uid) !in sent[i..j] {
      AddsComeTogether(After(life, history, parseIp).log, sent, uid, i, j);
    }
    d :| i <= d < j && sent[d] == Delete(uid);
  }
}
