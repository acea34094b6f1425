// What announcing a pod sends for its annotation (src/kubernetes/mod.rs, discover_services).
module Announcement {
  import opened Wrappers
  import opened Endpoints
  import opened Annotations
  import opened Kubernetes

  /** `event` adds, as unavailable, the endpoint that `spec` describes at the pod's address. */
  predicate Announces(event: EndpointEvent, uid: string, ip: IpAddr, spec: ServiceSpec) {
    && event.Add? && event.uid == uid && !event.isAvailable
    && event.externalPort == spec.externalPort && event.externalProtocol == spec.externalProtocol
    && event.backendAddress.ip == ip && event.backendAddress.port == spec.backendPort
    && event.backendProtocol == spec.backendProtocol
  }

  /** After `before`, exactly the first `k` of `specs` were announced, in order. */
  predicate AnnouncedFirst(before: seq<EndpointEvent>, after: seq<EndpointEvent>, uid: string, ip: IpAddr, specs: seq<ServiceSpec>, k: nat) {
    && k <= |specs| && |after| == |before| + k && after[..|before|] == before
    && forall i | 0 <= i < k :: Announces(after[|before| + i], uid, ip, specs[i])
  }

  /** How a run over `items` ends when the receiver accepts `life` more events. */
  function Ending(items: seq<string>, life: nat): Outcome {
    var valid := |ValidPrefix(items)|;
    if life < valid then Err(ChannelClosed)
    else if valid == |items| then Ok(())
    else if ParseService(items[valid]).Err? then Err(ParseService(items[valid]).error) else Ok(())
  }

  lemma AnnouncedOneMore(
      before: seq<EndpointEvent>, event: EndpointEvent, after: seq<EndpointEvent>,
      uid: string, ip: IpAddr, specs: seq<ServiceSpec>, k: nat)
    requires specs != [] && Announces(event, uid, ip, specs[0])
    requires AnnouncedFirst(before + [event], after, uid, ip, specs[1..], k)
    ensures AnnouncedFirst(before, after, uid, ip, specs, k + 1)
  {
    assert after[..|before|] == (before + [event])[..|before|] == before by {
      assert after[..|before|] == after[..|before + [event]|][..|before|];
    }
    forall i | 0 <= i < k + 1
      ensures Announces(after[|before| + i], uid, ip, specs[i])
    {
      if i == 0 {
        assert after[|before|] == after[..|before| + 1][|before|] == event;
      } else {
        assert specs[i] == specs[1..][i - 1] && after[|before| + i] == after[|before + [event]| + (i - 1)];
      }
    }
  }

  lemma EndingOneMore(items: seq<string>, life: nat)
    requires items != [] && ParseService(items[0]).Ok? && life > 0
    ensures Ending(items, life) == Ending(items[1..], life - 1)
  {
    var valid := |ValidPrefix(items[1..])|;
    assert |ValidPrefix(items)| == valid + 1;
    if valid < |items[1..]| {
      assert items[valid + 1] == items[1..][valid];
    }
  }

  /** The items of the longest valid prefix are announced, as far as the receiver accepts them, and
      nothing is sent for the first invalid one; the run ends as `Ending` says. */
  predicate SendsPrefix(rt: Runtime, items: seq<string>, uid: string, ip: IpAddr) {
    var (next, r) := Announce(rt, items, uid, ip);
    var specs := ValidPrefix(items);
    && AnnouncedFirst(Events(rt.log), Events(next.log), uid, ip, specs, if rt.life < |specs| then rt.life else |specs|)
    && r == Ending(items, rt.life)
  }

  lemma StopsAtOnce(rt: Runtime, items: seq<string>, uid: string, ip: IpAddr)
    requires items == [] || ParseService(items[0]).Err? || rt.life == 0
    ensures SendsPrefix(rt, items, uid, ip)
  {}

  lemma GoesOn(rt: Runtime, items: seq<string>, uid: string, ip: IpAddr)
    requires items != [] && ParseService(items[0]).Ok? && rt.life > 0
    requires SendsPrefix(Send(rt, AddOf(uid, ip, ParseService(items[0]).value)).0, items[1..], uid, ip)
    ensures SendsPrefix(rt, items, uid, ip)
  {
    var add := AddOf(uid, ip, ParseService(items[0]).value);
    var next, specs := Send(rt, add).0, ValidPrefix(items);
    var k := if rt.life < |specs| then rt.life else |specs|;
    EventsOfNote(rt.log, Sent(add));
    AnnouncedOneMore(Events(rt.log), add, Events(Announce(next, items[1..], uid, ip).0.log), uid, ip, specs, k - 1);
    EndingOneMore(items, rt.life);
  }

  /** Prefix semantics, for every annotation and every receiver. */
  lemma {:induction false} AnnounceSendsPrefix(rt: Runtime, items: seq<string>, uid: string, ip: IpAddr)
    ensures SendsPrefix(rt, items, uid, ip)
    decreases |items|
  {
    if items == [] || ParseService(items[0]).Err? || rt.life == 0 {
      StopsAtOnce(rt, items, uid, ip);
    } else {
      AnnounceSendsPrefix(Send(rt, AddOf(uid, ip, ParseService(items[0]).value)).0, items[1..], uid, ip);
      GoesOn(rt, items, uid, ip);
    }
  }

  /** A run succeeds iff all items are valid and accepted. */
  lemma AnnounceOkIff(rt: Runtime, items: seq<string>, uid: string, ip: IpAddr)
    ensures Announce(rt, items, uid, ip).1.Ok? <==>
            |items| <= rt.life && forall i | 0 <= i < |items| :: ParseService(items[i]).Ok?
  {
    AnnounceSendsPrefix(rt, items, uid, ip);
    ValidPrefixIsLongest(items);
  }

  /** Round trip to the wire: a pod annotated with printed services, whatever follows each of them
      after a ':', is announced by exactly the matching Adds, in order. */
  lemma PrintedAnnotationAnnounces(
      rt: Runtime, specs: seq<ServiceSpec>, suffixes: seq<string>, annotations: map<string, string>, uid: string, ip: IpAddr)
    requires specs != [] && |specs| == |suffixes| <= rt.life
    requires forall i | 0 <= i < |specs| :: Printable(specs[i]) && IsSuffix(suffixes[i])
    requires SERVICES_ANNOTATION in annotations && annotations[SERVICES_ANNOTATION] == Join(PrintItems(specs, suffixes), ',')
    ensures var (next, r) := Discover(rt, annotations, uid, ip);
            r == Ok(()) && AnnouncedFirst(Events(rt.log), Events(next.log), uid, ip, specs, |specs|)
  {
    AnnotationRoundTrip(specs, suffixes);
    EventsOfNote(rt.log, Burst(uid));
    assert Events(rt.log) + [] == Events(rt.log);
    AnnounceSendsPrefix(Note(rt, Burst(uid)), Split(annotations[SERVICES_ANNOTATION], ','), uid, ip);
  }

  /** A pod with an empty annotation announces nothing and ends the task with an error; one without
      the annotation announces nothing and goes on. */
  lemma NothingToAnnounce(rt: Runtime, annotations: map<string, string>, uid: string, ip: IpAddr)
    requires SERVICES_ANNOTATION in annotations ==> annotations[SERVICES_ANNOTATION] == ""
    ensures var (next, r) := Discover(rt, annotations, uid, ip);
            && Events(next.log) == Events(rt.log)
            && r == if SERVICES_ANNOTATION in annotations then Err(InvalidServiceString) else Ok(())
  {
    EventsOfNote(rt.log, Burst(uid));
    assert Events(rt.log) + [] == Events(rt.log);
    EmptyAnnotationIsInvalid();
    assert Announce(Note(rt, Burst(uid)), [""], uid, ip) == (Note(rt, Burst(uid)), Err(InvalidServiceString));
  }
}
