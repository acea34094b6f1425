// The stream of port events: what a subscriber that replays it ends up with.
module PortLog {
  import opened Wrappers
  import opened Endpoints
  import opened Services

  /** A strict subscriber, like the one in src/matchmaking/mod.rs: opening a port that is open, or
      closing one that is not, is a failure (None). */
  function Replay(open: map<Port, string>, log: seq<PortEvent>): Option<map<Port, string>>
    decreases |log|
  {
    if log == [] then Some(open) else
    match log[0]
    case Open(p, protocol) => if p in open then None else Replay(open[p := protocol], log[1..])
    case Close(p) => if p in open then Replay(open - {p}, log[1..]) else None
  }

  lemma {:induction false} ReplayConcat(open: map<Port, string>, a: seq<PortEvent>, b: seq<PortEvent>)
    ensures Replay(open, a + b) ==
            match Replay(open, a) case None => None case Some(mid) => Replay(mid, b)
    decreases |a|
  {
    if a == [] {
      assert a + b == b;
    } else {
      assert (a + b)[1..] == a[1..] + b;
      match a[0]
      case Open(p, protocol) => ReplayConcat(open[p := protocol], a[1..], b);
      case Close(p) => ReplayConcat(open - {p}, a[1..], b);
    }
  }

  lemma ReplayOpens(log: seq<PortEvent>, open: map<Port, string>, p: Port, protocol: string)
    requires Replay(map[], log) == Some(open) && p !in open
    ensures Replay(map[], log + [Open(p, protocol)]) == Some(open[p := protocol])
  {
    ReplayConcat(map[], log, [Open(p, protocol)]);
    assert [Open(p, protocol)][1..] == [];
  }

  /** A snapshot of `open` that lacks `todo`, one port further. */
  lemma SnapshotStep(log: seq<PortEvent>, open: map<Port, string>, todo: set<Port>, p: Port)
    requires p in todo && p in open && Replay(map[], log) == Some(open - todo)
    ensures Replay(map[], log + [Open(p, open[p])]) == Some(open - (todo - {p}))
  {
    ReplayOpens(log, open - todo, p, open[p]);
    assert (open - todo)[p := open[p]] == open - (todo - {p});
  }

  lemma {:induction false} ReplayCloses(open: map<Port, string>, order: seq<Port>, closed: set<Port>)
    requires Lists(order, closed) && closed <= open.Keys
    ensures Replay(open, Closes(order)) == Some(open - closed)
  {
    if order == [] {
      assert closed == {};
      assert open - closed == open;
    } else {
      var p := order[0];
      assert Closes(order)[1..] == Closes(order[1..]);
      assert Lists(order[1..], closed - {p});
      ReplayCloses(open - {p}, order[1..], closed - {p});
      assert open - {p} - (closed - {p}) == open - closed;
    }
  }

  /** Whatever the iteration order, the port events of one step carry a subscriber from the old
      port table to the new one without ever failing. */
  lemma StepReplays(m: PortMap, from: string, event: EndpointEvent, out: seq<PortEvent>)
    requires WellFormed(m) && Emits(m, from, event, out)
    ensures Replay(Protocols(m), out) == Some(Protocols(Process(m, from, event)))
  {
    var m' := Process(m, from, event);
    match event
    case Add(_, _, port, protocol, _, _) =>
      assert Protocols(m') == if port in m then Protocols(m) else Protocols(m)[port := protocol];
      assert out != [] ==> out[1..] == [];
    case Delete(_) =>
      var emptied := Emptied(m, EndpointId(from, event.uid));
      var order :| Lists(order, emptied) && out == Closes(order);
      ReplayCloses(Protocols(m), order, emptied);
      assert Protocols(m') == Protocols(m) - emptied;
    case _ =>
      assert Protocols(m') == Protocols(m);
  }

  /** Of one port, Opens and Closes alternate; `open` says which must come first. */
  predicate Alternates(log: seq<PortEvent>, open: bool) {
    log == [] || (log[0].Close? == open && Alternates(log[1..], !open))
  }

  function OfPort(log: seq<PortEvent>, p: Port): seq<PortEvent> {
    if log == [] then [] else (if log[0].port == p then [log[0]] else []) + OfPort(log[1..], p)
  }

  function After(open: map<Port, string>, event: PortEvent): map<Port, string> {
    match event
    case Open(p, protocol) => open[p := protocol]
    case Close(p) => open - {p}
  }

  lemma {:induction false} ReplayedPortAlternates(open: map<Port, string>, log: seq<PortEvent>, p: Port)
    requires Replay(open, log).Some?
    ensures Alternates(OfPort(log, p), p in open)
    ensures p in Replay(open, log).value <==>
            if OfPort(log, p) == [] then p in open else OfPort(log, p)[|OfPort(log, p)| - 1].Open?
    decreases |log|
  {
    if log != [] {
      var next := After(open, log[0]);
      var rest := OfPort(log[1..], p);
      ReplayedPortAlternates(next, log[1..], p);
      if log[0].port == p {
        assert OfPort(log, p)[1..] == rest;
      } else {
        assert OfPort(log, p) == rest;
      }
    }
  }

  lemma {:induction false} AlternatingPortsReplay(open: map<Port, string>, log: seq<PortEvent>)
    requires forall p :: Alternates(OfPort(log, p), p in open)
    ensures Replay(open, log).Some?
    decreases |log|
  {
    if log != [] {
      var next := After(open, log[0]);
      forall p: Port
        ensures Alternates(OfPort(log[1..], p), p in next)
      {
        assert Alternates(OfPort(log, p), p in open);
        if log[0].port == p {
          assert OfPort(log, p)[1..] == OfPort(log[1..], p);
        } else {
          assert OfPort(log, p) == OfPort(log[1..], p);
        }
      }
      assert log[0].Close? == (log[0].port in open) by {
        assert Alternates(OfPort(log, log[0].port), log[0].port in open);
        assert OfPort(log, log[0].port)[0] == log[0];
      }
      AlternatingPortsReplay(next, log[1..]);
    }
  }

  /** A log replays without failing exactly when the events of every port strictly alternate, and
      then a port is open at the end exactly when its last event, if any, opened it. */
  lemma ReplayIffAlternating(open: map<Port, string>, log: seq<PortEvent>)
    ensures Replay(open, log).Some? <==> forall p :: Alternates(OfPort(log, p), p in open)
    ensures Replay(open, log).Some? ==> forall p ::
              p in Replay(open, log).value <==>
              if OfPort(log, p) == [] then p in open else OfPort(log, p)[|OfPort(log, p)| - 1].Open?
  {
    if Replay(open, log).Some? {
      forall p: Port
        ensures Alternates(OfPort(log, p), p in open)
        ensures p in Replay(open, log).value <==>
                if OfPort(log, p) == [] then p in open else OfPort(log, p)[|OfPort(log, p)| - 1].Open?
      {
        ReplayedPortAlternates(open, log, p);
      }
    } else if forall p :: Alternates(OfPort(log, p), p in open) {
      AlternatingPortsReplay(open, log);
    }
  }

  lemma {:induction false} OfPortCloses(order: seq<Port>, closed: set<Port>, p: Port)
    requires Lists(order, closed)
    ensures OfPort(Closes(order), p) == if p in closed then [Close(p)] else []
  {
    if order == [] {
      ListsNothing(order, closed);
    } else {
      ListsTail(order, closed);
      assert Closes(order)[1..] == Closes(order[1..]);
      OfPortCloses(order[1..], closed - {order[0]}, p);
    }
  }

  /** One event sends nothing but what changes: of each port one Open if it was not open and now is, one
      Close if it was and now is not, and nothing otherwise, even if its endpoints changed. */
  lemma OnlyChangesAreSent(m: PortMap, from: string, event: EndpointEvent, out: seq<PortEvent>, p: Port)
    requires WellFormed(m) && Emits(m, from, event, out)
    ensures var m' := Process(m, from, event);
            OfPort(out, p) ==
            if p !in m && p in m' then [Open(p, m'[p].protocol)] else if p in m && p !in m' then [Close(p)] else []
  {
    match event
    case Add(_, _, port, protocol, _, _) =>
      assert out != [] ==> out[1..] == [];
    case Delete(_) =>
      var emptied := Emptied(m, EndpointId(from, event.uid));
      var order :| Lists(order, emptied) && out == Closes(order);
      OfPortCloses(order, emptied, p);
    case _ =>
  }
}
