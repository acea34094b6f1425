// When the protocol recorded for a port depends on how the discovery tasks' streams are interleaved
// (src/backend/mod.rs, process_event).
module PortProtocols {
  import opened Wrappers
  import opened Endpoints
  import opened Services
  import opened Histories

  predicate AddsOn(r: Report, p: Port) {
    r.event.Add? && r.event.externalPort == p
  }

  // ---- Projections --------------------------------------------------------------------------

  lemma {:induction false} ProjectConcat(a: seq<Report>, b: seq<Report>, name: string)
    ensures Project(a + b, name) == Project(a, name) + Project(b, name)
  {
    if b == [] {
      assert a + b == a;
    } else {
      var n := |b| - 1;
      assert (a + b)[..|a + b| - 1] == a + b[..n];
      ProjectConcat(a, b[..n], name);
    }
  }

  /** `log` comes from one task. */
  predicate IsFrom(log: seq<Report>, name: string) {
    forall i | 0 <= i < |log| :: log[i].from == name
  }

  lemma {:induction false} ProjectOfOne(log: seq<Report>, from: string, name: string)
    requires IsFrom(log, from)
    ensures Project(log, name) == if name == from then log else []
  {
    if log != [] {
      ProjectOfOne(log[..|log| - 1], from, name);
    }
  }

  lemma {:induction false} ProjectIsFrom(log: seq<Report>, name: string)
    ensures IsFrom(Project(log, name), name)
    ensures forall r | r in log && r.from == name :: r in Project(log, name)
    ensures forall r | r in Project(log, name) :: r in log
  {
    if log != [] {
      ProjectIsFrom(log[..|log| - 1], name);
    }
  }

  lemma {:induction false} ProjectPrefix(log: seq<Report>, name: string, k: nat)
    requires k <= |log|
    ensures |Project(log[..k], name)| <= |Project(log, name)|
    ensures Project(log, name)[..|Project(log[..k], name)|] == Project(log[..k], name)
  {
    assert log == log[..k] + log[k..];
    ProjectConcat(log[..k], log[k..], name);
  }

  // ---- Staying open -------------------------------------------------------------------------

  /** One step never changes the protocol of a port that is open before and after it. */
  lemma ProtocolKept(m: PortMap, r: Report, p: Port)
    requires p in m && p in Process(m, r.from, r.event)
    ensures Process(m, r.from, r.event)[p].protocol == m[p].protocol
  {}

  /** While others report, what a task has on a port keeps it open under its protocol. */
  lemma {:induction false} HeldOpen(base: seq<Report>, more: seq<Report>, holder: string, p: Port)
    requires p in Run(base) && p in Run(Project(base, holder))
    requires forall i | 0 <= i < |more| :: more[i].from != holder
    ensures Project(base + more, holder) == Project(base, holder)
    ensures p in Run(base + more) && Run(base + more)[p].protocol == Run(base)[p].protocol
  {
    if more == [] {
      assert base + more == base;
    } else {
      var n := |more| - 1;
      HeldOpen(base, more[..n], holder, p);
      assert base + more == base + more[..n] + [more[n]];
      ProjectConcat(base + more[..n], [more[n]], holder);
      ProjectOfOne([more[n]], more[n].from, holder);
      OpenPortsAreUnion(base + more, p);
      RunNext(base + more[..n], more[n]);
      ProtocolKept(Run(base + more[..n]), more[n], p);
    }
  }

  /** So does a task that never leaves the port while it reports. */
  lemma {:induction false} HoldsOnItself(base: seq<Report>, more: seq<Report>, from: string, p: Port)
    requires p in Run(base) && IsFrom(more, from)
    requires forall k | 0 <= k <= |more| :: p in Run(Project(base, from) + more[..k])
    ensures p in Run(base + more) && Run(base + more)[p].protocol == Run(base)[p].protocol
  {
    if more == [] {
      assert base + more == base;
    } else {
      var n := |more| - 1;
      forall k | 0 <= k <= n
        ensures p in Run(Project(base, from) + more[..n][..k])
      {
        assert more[..n][..k] == more[..k];
      }
      HoldsOnItself(base, more[..n], from, p);
      assert base + more == base + more[..n] + [more[n]];
      ProjectConcat(base, more, from);
      ProjectOfOne(more, from, from);
      assert more[..|more|] == more;
      OpenPortsAreUnion(base + more, p);
      RunNext(base + more[..n], more[n]);
      ProtocolKept(Run(base + more[..n]), more[n], p);
    }
  }

  // ---- Opening Adds -------------------------------------------------------------------------

  /** Report `i` of `name`'s own stream adds to p while nothing of that stream is on p. */
  ghost predicate Opens(log: seq<Report>, p: Port, name: string, i: nat) {
    i < |Project(log, name)| && AddsOn(Project(log, name)[i], p) && p !in Run(Project(log, name)[..i])
  }

  function ProtocolAt(log: seq<Report>, name: string, i: nat): string
    requires i < |Project(log, name)| && Project(log, name)[i].event.Add?
  {
    Project(log, name)[i].event.externalProtocol
  }

  /** All Adds that open p within their own stream ask for one protocol. */
  ghost predicate OneProtocol(log: seq<Report>, p: Port) {
    forall x, i, y, j | Opens(log, p, x, i) && Opens(log, p, y, j) :: ProtocolAt(log, x, i) == ProtocolAt(log, y, j)
  }

  /** At most one task ever adds to p. */
  ghost predicate OneTask(log: seq<Report>, p: Port) {
    forall x, i, y, j | Opens(log, p, x, i) && Opens(log, p, y, j) :: x == y
  }

  /** The recorded protocol is that of an Add that opens p within its own stream. */
  lemma ProtocolIsOfAnOpening(log: seq<Report>, p: Port) returns (name: string, i: nat)
    requires p in Run(log)
    ensures Opens(log, p, name, i) && Run(log)[p].protocol == ProtocolAt(log, name, i)
  {
    var k := ProtocolOfOpener(log, p);
    name := log[k].from;
    i := |Project(log[..k], name)|;
    assert log[..|log|] == log;
    assert log[..k + 1] == log[..k] + [log[k]];
    ProjectConcat(log[..k], [log[k]], name);
    ProjectOfOne([log[k]], name, name);
    ProjectPrefix(log, name, k);
    ProjectPrefix(log, name, k + 1);
    assert Project(log, name)[..i + 1][i] == log[k];
    OpenPortsAreUnion(log[..k], p);
  }

  lemma OnlyTaskIsOpen(log: seq<Report>, p: Port, name: string)
    requires forall i | 0 <= i < |log| && AddsOn(log[i], p) :: log[i].from == name
    ensures p in Run(log) <==> p in Run(Project(log, name))
  {
    OpenPortsAreUnion(log, p);
    if other :| p in Run(Project(log, other)) {
      var k := ProtocolOfOpener(Project(log, other), p);
      ProjectIsFrom(log, other);
      assert Project(log, other)[k] in log;
    }
  }

  /** The protocol after one more report, for a port that is then open. */
  lemma ProtocolNext(m: PortMap, r: Report, p: Port)
    requires p in Process(m, r.from, r.event)
    ensures p !in m ==> AddsOn(r, p)
    ensures Process(m, r.from, r.event)[p].protocol == if p in m then m[p].protocol else r.event.externalProtocol
  {}

  /** A port that only one task opens is open exactly when it is in that task's own stream, with the
      same protocol. */
  lemma {:induction false} OnlyTaskDecides(log: seq<Report>, p: Port, name: string)
    requires forall i | 0 <= i < |log| && AddsOn(log[i], p) :: log[i].from == name
    ensures p in Run(log) <==> p in Run(Project(log, name))
    ensures p in Run(log) ==> Run(log)[p].protocol == Run(Project(log, name))[p].protocol
  {
    OnlyTaskIsOpen(log, p, name);
    if log != [] && p in Run(log) {
      var n := |log| - 1;
      var before, own, r := log[..n], Project(log[..n], name), log[n];
      OnlyTaskDecides(before, p, name);
      assert log == before + [r];
      RunNext(before, r);
      ProtocolNext(Run(before), r, p);
      if r.from == name {
        RunNext(own, r);
        assert Project(log, name) == own + [r];
        ProtocolNext(Run(own), r, p);
      } else {
        assert Project(log, name) == own;
      }
    }
  }

  lemma FirstAdd(own: seq<Report>, p: Port, k: nat) returns (i: nat)
    requires k < |own| && AddsOn(own[k], p)
    ensures i <= k && AddsOn(own[i], p) && forall j | 0 <= j < i :: !AddsOn(own[j], p)
    decreases k
  {
    if j: nat :| j < k && AddsOn(own[j], p) {
      i := FirstAdd(own, p, j);
    } else {
      i := k;
    }
  }

  /** A task that adds to p opens it within its own stream. */
  lemma FirstAddOpens(log: seq<Report>, p: Port, r: Report) returns (i: nat)
    requires r in log && AddsOn(r, p)
    ensures Opens(log, p, r.from, i)
  {
    ProjectIsFrom(log, r.from);
    var own := Project(log, r.from);
    var k: nat :| k < |own| && own[k] == r;
    i := FirstAdd(own, p, k);
    if p in Run(own[..i]) {
      var j := ProtocolOfOpener(own[..i], p);
      assert AddsOn(own[j], p);
    }
  }

  lemma SameStreamsOpenAlike(a: seq<Report>, b: seq<Report>, p: Port)
    requires SameStreams(a, b)
    ensures forall name, i :: Opens(a, p, name, i) <==> Opens(b, p, name, i)
    ensures forall name, i | Opens(a, p, name, i) :: ProtocolAt(a, name, i) == ProtocolAt(b, name, i)
  {
    forall name, i: nat
      ensures Opens(a, p, name, i) <==> Opens(b, p, name, i)
    {
      assert Project(a, name) == Project(b, name);
    }
    forall name, i: nat | Opens(a, p, name, i)
      ensures ProtocolAt(a, name, i) == ProtocolAt(b, name, i)
    {
      assert Project(a, name) == Project(b, name);
    }
  }

  lemma OneTaskAdds(log: seq<Report>, p: Port, name: string, i: nat)
    requires Opens(log, p, name, i) && forall y, j | Opens(log, p, y, j) :: y == name
    ensures forall k | 0 <= k < |log| && AddsOn(log[k], p) :: log[k].from == name
  {
    forall k | 0 <= k < |log| && AddsOn(log[k], p)
      ensures log[k].from == name
    {
      var j := FirstAddOpens(log, p, log[k]);
    }
  }

  /** Undisputed ports: if one task alone opens p, or all openings ask for one protocol, every
      interleaving records the same protocol. */
  lemma UndisputedIsIndependent(a: seq<Report>, b: seq<Report>, p: Port)
    requires SameStreams(a, b) && p in Run(a) && (OneProtocol(a, p) || OneTask(a, p))
    ensures p in Run(b) && Run(a)[p].protocol == Run(b)[p].protocol
  {
    InterleavingIndependence(a, b);
    SameStreamsOpenAlike(a, b, p);
    var x, i := ProtocolIsOfAnOpening(a, p);
    var y, j := ProtocolIsOfAnOpening(b, p);
    assert Opens(a, p, y, j);
    if OneTask(a, p) {
      OneTaskAdds(a, p, x, i);
      forall z, k | Opens(b, p, z, k)
        ensures z == x
      {
        assert Opens(a, p, z, k);
      }
      OneTaskAdds(b, p, x, j);
      OnlyTaskDecides(a, p, x);
      OnlyTaskDecides(b, p, x);
      assert Project(a, x) == Project(b, x);
    }
  }

  // ---- Disputed ports -----------------------------------------------------------------------

  function Others(log: seq<Report>, x: string, y: string): seq<Report> {
    if log == [] then [] else
    var last := log[|log| - 1];
    Others(log[..|log| - 1], x, y) + if last.from == x || last.from == y then [] else [last]
  }

  lemma {:induction false} OthersProject(log: seq<Report>, x: string, y: string, name: string)
    ensures forall i | 0 <= i < |Others(log, x, y)| :: Others(log, x, y)[i].from != x && Others(log, x, y)[i].from != y
    ensures Project(Others(log, x, y), name) == if name == x || name == y then [] else Project(log, name)
  {
    if log != [] {
      var n := |log| - 1;
      var others, kept := Others(log[..n], x, y), if log[n].from == x || log[n].from == y then [] else [log[n]];
      OthersProject(log[..n], x, y, name);
      ProjectConcat(others, kept, name);
      if kept != [] { ProjectOfOne(kept, log[n].from, name); }
      assert Project(log[..n], name) + [] == Project(log[..n], name);
    }
  }

  /** `log` is an interleaving of x's stream `xs` and y's stream `ys`. */
  ghost predicate Merges(log: seq<Report>, x: string, xs: seq<Report>, y: string, ys: seq<Report>) {
    forall name :: Project(log, name) == if name == x then xs else if name == y then ys else []
  }

  lemma ProjectExtended(log: seq<Report>, more: seq<Report>, from: string, name: string)
    requires IsFrom(more, from)
    ensures Project(log + more, name) == if name == from then Project(log, name) + more else Project(log, name)
  {
    ProjectConcat(log, more, name);
    ProjectOfOne(more, from, name);
    assert Project(log, name) + [] == Project(log, name);
  }

  lemma MergeMore(log: seq<Report>, x: string, xs: seq<Report>, y: string, ys: seq<Report>, more: seq<Report>)
    requires x != y && Merges(log, x, xs, y, ys) && IsFrom(more, x)
    ensures Merges(log + more, x, xs + more, y, ys) && Merges(log + more, y, ys, x, xs + more)
  {
    forall name: string
      ensures Project(log + more, name) == if name == x then xs + more else if name == y then ys else []
    {
      ProjectExtended(log, more, x, name);
    }
  }

  /** x goes on while y holds p. */
  lemma MergeWhileHeld(log: seq<Report>, x: string, xs: seq<Report>, y: string, ys: seq<Report>, more: seq<Report>, p: Port)
    requires x != y && Merges(log, x, xs, y, ys) && IsFrom(more, x) && p in Run(log) && p in Run(ys)
    ensures Merges(log + more, x, xs + more, y, ys) && Merges(log + more, y, ys, x, xs + more)
    ensures p in Run(log + more) && Run(log + more)[p].protocol == Run(log)[p].protocol
  {
    MergeMore(log, x, xs, y, ys, more);
    assert Project(log, y) == ys;
    HeldOpen(log, more, y, p);
  }

  /** x and y both up to before their openings: p is closed. */
  lemma MergedClosed(x: string, xs: seq<Report>, y: string, ys: seq<Report>, p: Port) returns (log: seq<Report>)
    requires x != y && IsFrom(xs, x) && IsFrom(ys, y) && p !in Run(xs) && p !in Run(ys)
    ensures Merges(log, x, xs, y, ys) && p !in Run(log)
  {
    log := ys + xs;
    forall name: string
      ensures Project(log, name) == if name == x then xs else if name == y then ys else []
    {
      ProjectExtended(ys, xs, x, name);
      ProjectOfOne(ys, y, name);
      assert [] + xs == xs;
    }
    OpenPortsAreUnion(log, p);
  }

  lemma AddOpens(own: seq<Report>, i: nat, p: Port)
    requires i < |own| && AddsOn(own[i], p)
    ensures own[..i + 1] == own[..i] + [own[i]] && p in Run(own[..i + 1])
  {
    assert own[..i + 1] == own[..i] + [own[i]];
    RunNext(own[..i], own[i]);
  }

  /** Then x opens p, and y joins. */
  lemma XOpensYJoins(xs: seq<Report>, x: string, i: nat, ys: seq<Report>, y: string, j: nat, p: Port) returns (log: seq<Report>)
    requires x != y && IsFrom(xs, x) && IsFrom(ys, y) && i < |xs| && j < |ys|
    requires AddsOn(xs[i], p) && p !in Run(xs[..i]) && AddsOn(ys[j], p) && p !in Run(ys[..j])
    ensures Merges(log, x, xs[..i + 1], y, ys[..j + 1])
    ensures p in Run(log) && Run(log)[p].protocol == xs[i].event.externalProtocol
    ensures p in Run(xs[..i + 1]) && p in Run(ys[..j + 1])
  {
    var before := MergedClosed(x, xs[..i], y, ys[..j], p);
    RunNext(before, xs[i]);
    AddOpens(xs, i, p);
    AddOpens(ys, j, p);
    MergeMore(before, x, xs[..i], y, ys[..j], [xs[i]]);
    MergeWhileHeld(before + [xs[i]], y, ys[..j], x, xs[..i + 1], [ys[j]], p);
    log := before + [xs[i]] + [ys[j]];
  }

  /** Whoever holds p for good lets both streams run to their ends. */
  lemma BothRunOn(
      log: seq<Report>, xs: seq<Report>, x: string, i: nat, ys: seq<Report>, y: string, j: nat, p: Port) returns (longer: seq<Report>)
    requires x != y && IsFrom(xs, x) && IsFrom(ys, y) && i <= |xs| && j <= |ys|
    requires Merges(log, x, xs[..i], y, ys[..j]) && p in Run(log) && p in Run(ys[..j])
    requires p in Run(xs) || forall l | j <= l <= |ys| :: p in Run(ys[..l])
    ensures Merges(longer, x, xs, y, ys) && p in Run(longer) && Run(longer)[p].protocol == Run(log)[p].protocol
  {
    MergeWhileHeld(log, x, xs[..i], y, ys[..j], xs[i..], p);
    var mid := log + xs[i..];
    assert xs[..i] + xs[i..] == xs && ys[..j] + ys[j..] == ys;
    longer := mid + ys[j..];
    if p in Run(xs) {
      MergeWhileHeld(mid, y, ys[..j], x, xs, ys[j..], p);
    } else {
      MergeMore(mid, y, ys[..j], x, xs, ys[j..]);
      forall k | 0 <= k <= |ys[j..]|
        ensures p in Run(Project(mid, y) + ys[j..][..k])
      {
        assert ys[..j] + ys[j..][..k] == ys[..j + k];
      }
      HoldsOnItself(mid, ys[j..], y, p);
    }
  }

  /** Everybody else follows. */
  lemma OthersFollow(log: seq<Report>, merged: seq<Report>, x: string, y: string, p: Port)
    requires Merges(merged, x, Project(log, x), y, Project(log, y)) && p in Run(merged)
    requires p in Run(Project(log, x)) || p in Run(Project(log, y))
    ensures SameStreams(merged + Others(log, x, y), log)
    ensures p in Run(merged + Others(log, x, y)) && Run(merged + Others(log, x, y))[p].protocol == Run(merged)[p].protocol
  {
    var others := Others(log, x, y);
    forall name: string
      ensures Project(merged + others, name) == Project(log, name)
    {
      ProjectConcat(merged, others, name);
      OthersProject(log, x, y, name);
      assert Project(merged, name) + [] == Project(merged, name);
      assert [] + Project(log, name) == Project(log, name);
    }
    OthersProject(log, x, y, x);
    var holder := if p in Run(Project(log, x)) then x else y;
    assert Project(merged, holder) == Project(log, holder);
    HeldOpen(merged, others, holder, p);
  }

  /** Any opening can be the one whose protocol stays, if another task opens p as well, and x or that
      task has it for good. */
  lemma OpeningCanStay(log: seq<Report>, p: Port, x: string, xs: seq<Report>, i: nat, y: string, ys: seq<Report>, j: nat)
    returns (other: seq<Report>)
    requires x != y && Opens(log, p, x, i) && Opens(log, p, y, j) && xs == Project(log, x) && ys == Project(log, y)
    requires p in Run(xs) || forall l | j < l <= |ys| :: p in Run(ys[..l])
    ensures SameStreams(other, log) && p in Run(other) && Run(other)[p].protocol == xs[i].event.externalProtocol
  {
    ProjectIsFrom(log, x);
    ProjectIsFrom(log, y);
    var both := XOpensYJoins(xs, x, i, ys, y, j, p);
    var merged := BothRunOn(both, xs, x, i + 1, ys, y, j + 1, p);
    assert ys[..|ys|] == ys;
    OthersFollow(log, merged, x, y, p);
    other := merged + Others(log, x, y);
  }

  /** If two tasks open a port that ends open, every opening's protocol is recorded by some
      interleaving. */
  lemma EveryOpeningIsPossible(log: seq<Report>, p: Port, x: string, i: nat, z: string, k: nat) returns (other: seq<Report>)
    requires p in Run(log) && Opens(log, p, x, i) && Opens(log, p, z, k) && x != z
    ensures SameStreams(other, log) && p in Run(other) && Run(other)[p].protocol == ProtocolAt(log, x, i)
  {
    if p in Run(Project(log, x)) {
      other := OpeningCanStay(log, p, x, Project(log, x), i, z, Project(log, z), k);
    } else {
      OpenPortsAreUnion(log, p);
      var y :| p in Run(Project(log, y));
      var j := ProtocolOfOpener(Project(log, y), p);
      other := OpeningCanStay(log, p, x, Project(log, x), i, y, Project(log, y), j);
    }
  }

  /** Exactly when the interleaving matters: all interleavings of the streams record the same protocol
      for an open port iff one task alone opens it, or all openings, each within its own stream, ask
      for one protocol. */
  lemma ProtocolIndependentIff(log: seq<Report>, p: Port)
    requires p in Run(log)
    ensures OneProtocol(log, p) || OneTask(log, p) <==>
            forall other | SameStreams(other, log) :: p in Run(other) && Run(other)[p].protocol == Run(log)[p].protocol
  {
    if OneProtocol(log, p) || OneTask(log, p) {
      forall other | SameStreams(other, log)
        ensures p in Run(other) && Run(other)[p].protocol == Run(log)[p].protocol
      {
        UndisputedIsIndependent(log, other, p);
      }
    } else {
      var x, i, y, j :| Opens(log, p, x, i) && Opens(log, p, y, j) && ProtocolAt(log, x, i) != ProtocolAt(log, y, j);
      var v, a, w, b :| Opens(log, p, v, a) && Opens(log, p, w, b) && v != w;
      var one, two: seq<Report>;
      if v != x {
        one := EveryOpeningIsPossible(log, p, x, i, v, a);
      } else {
        one := EveryOpeningIsPossible(log, p, x, i, w, b);
      }
      if v != y {
        two := EveryOpeningIsPossible(log, p, y, j, v, a);
      } else {
        two := EveryOpeningIsPossible(log, p, y, j, w, b);
      }
      assert Run(one)[p].protocol != Run(two)[p].protocol;
    }
  }

  lemma SwapKeepsStreams(xs: seq<Report>, x: string, ys: seq<Report>, y: string, name: string)
    requires x != y && IsFrom(xs, x) && IsFrom(ys, y)
    ensures Project(xs + ys, name) == Project(ys + xs, name) == if name == x then xs else if name == y then ys else []
  {
    ProjectExtended(xs, ys, y, name);
    ProjectExtended(ys, xs, x, name);
    ProjectOfOne(xs, x, name);
    ProjectOfOne(ys, y, name);
  }

  /** A task that has p open on its own is not disturbed by another one's whole stream. */
  lemma FirstStays(xs: seq<Report>, x: string, ys: seq<Report>, y: string, p: Port)
    requires x != y && IsFrom(xs, x) && IsFrom(ys, y) && p in Run(xs)
    ensures p in Run(xs + ys) && Run(xs + ys)[p].protocol == Run(xs)[p].protocol
  {
    ProjectOfOne(xs, x, x);
    HeldOpen(xs, ys, x, p);
  }

  /** In particular two tasks that each end alone with p open, under different protocols: running one
      stream and then the other records the protocol of whichever ran first. */
  lemma FirstComeFirstServed(xs: seq<Report>, x: string, ys: seq<Report>, y: string, p: Port)
    requires x != y && IsFrom(xs, x) && IsFrom(ys, y) && p in Run(xs) && p in Run(ys)
    ensures SameStreams(xs + ys, ys + xs)
    ensures p in Run(xs + ys) && Run(xs + ys)[p].protocol == Run(xs)[p].protocol
    ensures p in Run(ys + xs) && Run(ys + xs)[p].protocol == Run(ys)[p].protocol
  {
    forall name: string
      ensures Project(xs + ys, name) == Project(ys + xs, name)
    {
      SwapKeepsStreams(xs, x, ys, y, name);
    }
    FirstStays(xs, x, ys, y, p);
    FirstStays(ys, y, xs, x, p);
  }

  /** The smallest case: two tasks ask for port 80 under different protocols. */
  lemma ProtocolDependsOnOrder() returns (a: seq<Report>, b: seq<Report>, p: Port)
    ensures forall name :: Project(a, name) == Project(b, name)
    ensures p in Run(a) && p in Run(b) && Run(a)[p].protocol != Run(b)[p].protocol
  {
    p := 80;
    var address := SocketAddr(V4([10, 0, 0, 1]), 80);
    var x := Report("x", Add("0", true, p, "http", address, "http"));
    var y := Report("y", Add("0", true, p, "ssh", address, "ssh"));
    a, b := [x] + [y], [y] + [x];
    RunNext([], x);
    RunNext([], y);
    assert [] + [x] == [x] && [] + [y] == [y];
    assert x.from[0] != y.from[0] && "http"[0] != "ssh"[0];
    FirstComeFirstServed([x], "x", [y], "y", p);
    assert SameStreams(a, b);
  }
}
