// src/kubernetes/mod.rs: the discovery task itself, updating its fields in place.
module KubernetesRuntime {
  import opened Wrappers
  import opened Endpoints
  import opened Annotations
  import opened Kubernetes

  lemma ListedOneMore(pods: seq<Pod>, i: nat)
    requires i < |pods|
    ensures Listed(pods[..i + 1]) == Listed(pods[..i]) + if pods[i].uid.Some? then {pods[i].uid.value} else {}
  {
    forall uid | uid in Listed(pods[..i])
      ensures uid in Listed(pods[..i + 1])
    {
      var k :| 0 <= k < i && pods[..i][k].uid == Some(uid);
      assert pods[..i + 1][k].uid == Some(uid);
    }
    assert pods[..i + 1][i] == pods[i];
    forall uid | uid in Listed(pods[..i + 1]) && pods[i].uid != Some(uid)
      ensures uid in Listed(pods[..i])
    {
      var k :| 0 <= k < i + 1 && pods[..i + 1][k].uid == Some(uid);
      assert pods[..i][k].uid == Some(uid);
    }
  }

  function Without(uids: seq<string>, known: set<string>): seq<string> {
    if uids == [] then []
    else if uids[0] in known then Without(uids[1..], known)
    else [uids[0]] + Without(uids[1..], known)
  }

  lemma {:induction false} WithoutLists(uids: seq<string>, s: set<string>, known: set<string>)
    requires Lists(uids, s)
    ensures Lists(Without(uids, known), s - known)
  {
    if uids != [] {
      var x, rest := uids[0], Without(uids[1..], known);
      ListsTail(uids, s);
      WithoutLists(uids[1..], s - {x}, known);
      forall y | y in s - known
        ensures y in Without(uids, known)
      {
        if y != x { assert y in rest; }
      }
    } else {
      ListsNothing(uids, s);
    }
  }

  class KubernetesDiscoveryRuntime {
    const parseIp: IpParser
    var knownPodUids: set<string>

    // The channel to the service manager: what it carried so far, and how many more events its
    // receiver will accept.
    var sent: seq<EndpointEvent>
    var life: nat

    ghost var log: seq<Item>

    ghost predicate Valid()
      reads this
    {
      sent == Events(log)
    }

    ghost function State(): Runtime
      reads this
    {
      Runtime(knownPodUids, log, life)
    }

    constructor (parseIp: IpParser, life: nat)
      ensures Valid() && State() == Runtime({}, [], life) && this.parseIp == parseIp
    {
      this.parseIp := parseIp;
      this.life := life;
      knownPodUids, sent, log := {}, [], [];
    }

    method Send(event: EndpointEvent) returns (r: Outcome)
      requires Valid()
      modifies this`sent, this`life, this`log
      ensures Valid()
      ensures (State(), r) == Kubernetes.Send(old(State()), event)
    {
      if life == 0 {
        return Err(ChannelClosed);
      }
      life := life - 1;
      sent := sent + [event];
      EventsOfNote(log, Sent(event));
      log := log + [Sent(event)];
      r := Ok(());
    }

    /** The second loop of a restart. */
    method DeleteStale(oldPodUids: set<string>) returns (r: Outcome, ghost order: seq<string>)
      requires Valid()
      modifies this`sent, this`life, this`log
      ensures Valid()
      ensures (State(), r) == SendDeletes(old(State()), order)
      ensures Lists(order, oldPodUids - knownPodUids)
    {
      ghost var start := State();
      var uids := Iterate(oldPodUids);
      order := Without(uids, knownPodUids);
      WithoutLists(uids, oldPodUids, knownPodUids);
      r := Ok(());
      for i := 0 to |uids|
        invariant Valid() && r == Ok(())
        invariant SendDeletes(start, order) == SendDeletes(State(), Without(uids[i..], knownPodUids))
      {
        assert uids[i..][1..] == uids[i + 1..];
        ghost var rest := Without(uids[i + 1..], knownPodUids);
        if uids[i] !in knownPodUids {
          assert ([uids[i]] + rest)[1..] == rest;
          r := Send(Delete(uids[i]));
          if r.Err? {
            return;
          }
        }
      }
      assert uids[|uids|..] == [];
    }

    /** Notes in the task's past something that no one else sees. */
    ghost method Record(item: Item)
      requires Valid() && !item.Sent?
      modifies this`log
      ensures Valid() && State() == Note(old(State()), item)
    {
      EventsOfNote(log, item);
      log := log + [item];
    }

    method FollowPhase(uid: string, phase: string) returns (r: Outcome)
      requires Valid()
      modifies this
      ensures Valid()
      ensures (State(), r) == HandlePhase(old(State()), uid, phase)
    {
      match phase {
        case "Running" =>
          r := Send(Resume(uid));
        case "Succeeded" =>
          knownPodUids := knownPodUids - {uid};
          r := Send(Delete(uid));
        case "Failed" =>
          r := Send(Suspend(uid));
        case "Unknown" =>
          r := Send(Suspend(uid));
        case "Pending" =>
          r := Ok(());
        case _ =>
          r := Send(Suspend(uid));
      }
      if r.Ok? {
        Record(Handled(uid, phase));
      }
    }

    method SendServiceFromString(item: string, uid: string, ip: IpAddr) returns (r: Outcome)
      requires Valid()
      modifies this`sent, this`life, this`log
      ensures Valid()
      ensures (State(), r) == SendService(old(State()), item, uid, ip)
    {
      var parsed := ParseService(item);
      match parsed {
        case Err(e) => r := Err(e);
        case Ok(spec) => r := Send(AddOf(uid, ip, spec));
      }
    }

    method DiscoverServices(annotations: map<string, string>, uid: string, ip: IpAddr) returns (r: Outcome)
      requires Valid()
      modifies this`sent, this`life, this`log
      ensures Valid()
      ensures (State(), r) == Discover(old(State()), annotations, uid, ip)
    {
      Record(Burst(uid));
      ghost var start := State();
      r := Ok(());
      if SERVICES_ANNOTATION in annotations {
        var items := Split(annotations[SERVICES_ANNOTATION], ',');
        for i := 0 to |items|
          invariant Valid() && r == Ok(())
          invariant Announce(start, items, uid, ip) == Announce(State(), items[i..], uid, ip)
        {
          assert items[i..][1..] == items[i + 1..];
          r := SendServiceFromString(items[i], uid, ip);
          if r.Err? {
            return;
          }
        }
        assert items[|items|..] == [];
      }
    }

    method ApplyPod(pod: Pod) returns (r: Outcome)
      requires Valid()
      modifies this
      ensures Valid()
      ensures (State(), r) == Kubernetes.ApplyPod(old(State()), pod, parseIp)
    {
      r := Ok(());
      if pod.status.Some? {
        var status := pod.status.value;
        if pod.uid.Some? && pod.name.Some? && pod.annotations.Some? && status.podIp.Some? && status.phase.Some? {
          var uid := pod.uid.value;
          var address := parseIp(status.podIp.value);
          if address.None? {
            return Err(BadAddress(status.podIp.value));
          }
          if uid !in knownPodUids {
            knownPodUids := knownPodUids + {uid};
            r := DiscoverServices(pod.annotations.value, uid, address.value);
            if r.Err? {
              return;
            }
          }
          r := FollowPhase(uid, status.phase.value);
        }
      }
    }

    method Restart(pods: seq<Pod>) returns (r: Outcome, ghost order: seq<string>)
      requires Valid()
      modifies this
      ensures Valid()
      ensures (State(), r) == Handle(old(State()), Restarted(pods), order, parseIp)
      ensures Lists(order, Stale(old(State()), Restarted(pods), parseIp))
    {
      ghost var start := State();
      var currentPodUids := {};
      for i := 0 to |pods|
        invariant Valid()
        invariant currentPodUids == Listed(pods[..i])
        invariant ApplyAll(start, pods, parseIp) == ApplyAll(State(), pods[i..], parseIp)
      {
        var pod := pods[i];
        assert pods[i..][1..] == pods[i + 1..];
        ListedOneMore(pods, i);
        if pod.uid.Some? {
          currentPodUids := currentPodUids + {pod.uid.value};
          r := ApplyPod(pod);
          if r.Err? {
            order := [];
            return;
          }
        }
      }
      assert pods[..|pods|] == pods;
      var oldPodUids := knownPodUids;
      knownPodUids := currentPodUids;
      r, order := DeleteStale(oldPodUids);
    }

    method HandlePodEvent(event: WatchEvent) returns (r: Outcome, ghost order: seq<string>)
      requires Valid()
      modifies this
      ensures Valid()
      ensures (State(), r) == Handle(old(State()), event, order, parseIp)
      ensures Lists(order, Stale(old(State()), event, parseIp))
    {
      order := [];
      match event {
        case Applied(pod) =>
          if pod.uid.Some? {
            r := ApplyPod(pod);
          } else {
            r := Ok(());
          }
        case Deleted(pod) =>
          if pod.uid.Some? {
            knownPodUids := knownPodUids - {pod.uid.value};
            r := Send(Delete(pod.uid.value));
          } else {
            r := Ok(());
          }
        case Restarted(pods) =>
          r, order := Restart(pods);
      }
    }
  }
}
