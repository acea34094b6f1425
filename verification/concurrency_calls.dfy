// What becomes of each call in the state machine of concurrency.dfy: which registrations are admitted,
// which subscriber ends up installed, and what a query sees.
module ConcurrencyCalls {
  import opened Wrappers
  import opened Endpoints
  import opened Services
  import opened PortLog
  import opened Histories
  import opened Concurrency
  import opened ConcurrencyInvariant
  import opened ConcurrencyResults

  // ---- What a call can have become ----------------------------------------------------------

  predicate IsSubscriber(task: Task) {
    || task.Subscribing? || task.SubscriberAwaitingTable? || task.SubscriberReading? || task.Snapshotting?
    || task.SubscriberAwaitingSender? || task.Installing? || task.Subscribed? || task.HungUp?
  }

  predicate IsQuery(task: Task, port: Port, index: nat) {
    && (task.Querying? || task.QueryAwaitingTable? || task.Selecting? || task.Answered?)
    && task.port == port && task.index == index
  }

  /** The registration is still under way, for this name and stream. */
  predicate IsRegistering(task: Task, name: string, stream: seq<EndpointEvent>) {
    && (task.Registering? || task.AwaitingNames? || task.NamesHeld? || task.AwaitingMetrics? || task.BothHeld? || task.Admitting?)
    && task.from == name && task.stream == stream
  }

  /** A call that began as `was`. A registration is under way, or refused with its name taken, or has
      become the listener that its stream is registered for. */
  predicate CameFrom(registered: map<string, seq<EndpointEvent>>, was: Task, task: Task) {
    if was.Subscribing? then IsSubscriber(task)
    else if was.Querying? then IsQuery(task, was.port, was.index)
    else
      was.Registering? &&
      (|| IsRegistering(task, was.from, was.stream)
       || (task.Refused? && was.from in registered)
       || (IsListener(task) && task.from == was.from && was.from in registered && registered[was.from] == was.stream))
  }

  predicate AllCameFrom(s0: State, s: State) {
    |s.tasks| == |s0.tasks| && forall t | 0 <= t < |s.tasks| :: CameFrom(s.registered, s0.tasks[t], s.tasks[t])
  }

  lemma RequestGoesOn(registered: map<string, seq<EndpointEvent>>, was: Task, task: Task)
    requires CameFrom(registered, was, task) && AfterRequest(task).Some?
    ensures CameFrom(registered, was, AfterRequest(task).value)
  {}

  lemma GrantGoesOn(registered: map<string, seq<EndpointEvent>>, was: Task, task: Task)
    requires CameFrom(registered, was, task) && Wants(task).Some?
    ensures CameFrom(registered, was, AfterGrant(task))
  {}

  lemma WorkKeepsKind(s: State, t: TaskId, order: seq<Port>)
    requires Shaped(s) && Enabled(s, Work(t, order))
    ensures var was, task := s.tasks[t], WorkedTask(s, t, order);
            && (IsSubscriber(was) ==> IsSubscriber(task))
            && (was.Selecting? ==> task == Answered(was.port, was.index, EndpointsOn(s.table, was.port)))
            && (IsListener(was) ==> IsListener(task) && task.from == was.from)
            && (was.BothHeld? ==> task == if was.from in s.registered then Refused else Admitting(was.from, was.stream))
            && (was.Admitting? ==> task == Listening(was.from, was.stream))
            && (IsSubscriber(was) || was.Selecting? || IsListener(was) || was.BothHeld? || was.Admitting?)
  {}

  lemma WorkRegisters(s: State, t: TaskId, order: seq<Port>)
    requires Shaped(s) && Enabled(s, Work(t, order))
    ensures var was := s.tasks[t];
            Next(s, Work(t, order)).registered == if was.Admitting? then s.registered[was.from := was.stream] else s.registered
  {}

  lemma WorkGoesOn(s0: State, s: State, t: TaskId, order: seq<Port>)
    requires Shaped(s) && RegistryOk(s) && AllCameFrom(s0, s) && Enabled(s, Work(t, order))
    ensures CameFrom(Next(s, Work(t, order)).registered, s0.tasks[t], WorkedTask(s, t, order))
    ensures forall name | name in s.registered ::
              name in Next(s, Work(t, order)).registered && Next(s, Work(t, order)).registered[name] == s.registered[name]
  {
    assert CameFrom(s.registered, s0.tasks[t], s.tasks[t]);
    assert ListenerFits(s.registered, s.processed, s.tasks[t]);
    WorkKeepsKind(s, t, order);
    WorkRegisters(s, t, order);
  }

  lemma WorkKeepsOrigins(s0: State, s: State, t: TaskId, order: seq<Port>)
    requires Shaped(s) && RegistryOk(s) && AllCameFrom(s0, s) && Enabled(s, Work(t, order))
    ensures AllCameFrom(s0, Next(s, Work(t, order)))
  {
    var s' := Next(s, Work(t, order));
    WorkGoesOn(s0, s, t, order);
    assert s'.tasks == s.tasks[t := WorkedTask(s, t, order)];
    forall u | 0 <= u < |s'.tasks|
      ensures CameFrom(s'.registered, s0.tasks[u], s'.tasks[u])
    {
      assert CameFrom(s.registered, s0.tasks[u], s.tasks[u]);
    }
  }

  lemma StepKeepsOrigins(s0: State, s: State, step: Step)
    requires Shaped(s) && RegistryOk(s) && AllCameFrom(s0, s) && Enabled(s, step)
    ensures AllCameFrom(s0, Next(s, step))
  {
    match step
    case Request(t) => RequestGoesOn(s.registered, s0.tasks[t], s.tasks[t]);
    case Grant(i) => GrantGoesOn(s.registered, s0.tasks[s.waiting[i]], s.tasks[s.waiting[i]]);
    case Work(t, order) => WorkKeepsOrigins(s0, s, t, order);
    case Drain(t) =>
    case HangUp(t) => assert CameFrom(s.registered, s0.tasks[t], s.tasks[t]);
  }

  lemma {:induction false} OriginsKept(s0: State, run: seq<Step>, s: State)
    requires Reached(s0, run, s)
    ensures AllCameFrom(s0, s)
  {
    if run != [] {
      var n := |run| - 1;
      var mid :| Leads(s0, run[..n], mid) && Shaped(mid) && Enabled(mid, run[n]) && Next(mid, run[n]) == s;
      OriginsKept(s0, run[..n], mid);
      ReachedInv(s0, run[..n], mid);
      StepKeepsOrigins(s0, mid, run[n]);
    }
  }

  // ---- Registrations ------------------------------------------------------------------------

  /** Call t registers `name`. */
  predicate Registers(s0: State, t: TaskId, name: string) {
    t < |s0.tasks| && s0.tasks[t].Registering? && s0.tasks[t].from == name
  }

  /** Call t registered its name and became its listener. */
  predicate Admitted(s0: State, s: State, t: TaskId) {
    && t < |s0.tasks| == |s.tasks| && s0.tasks[t].Registering? && IsListener(s.tasks[t])
    && s0.tasks[t].from in s.registered && s.registered[s0.tasks[t].from] == s0.tasks[t].stream
  }

  /** A name is registered, with a stream, only by an admitted call that asked for just that. */
  lemma RegisteredByACall(s0: State, run: seq<Step>, s: State, name: string) returns (t: TaskId)
    requires Reached(s0, run, s) && name in s.registered
    ensures Registers(s0, t, name) && Admitted(s0, s, t) && s.registered[name] == s0.tasks[t].stream
    ensures s.tasks[t].from == name
  {
    OriginsKept(s0, run, s);
    t := ListenerExists(s0, run, s, name);
    assert CameFrom(s.registered, s0.tasks[t], s.tasks[t]);
  }

  /** At most one call is admitted for a name. */
  lemma AdmittedOnce(s0: State, run: seq<Step>, s: State, t: TaskId, u: TaskId)
    requires Reached(s0, run, s) && Admitted(s0, s, t) && Admitted(s0, s, u) && s0.tasks[t].from == s0.tasks[u].from
    ensures t == u
  {
    OriginsKept(s0, run, s);
    assert CameFrom(s.registered, s0.tasks[t], s.tasks[t]) && CameFrom(s.registered, s0.tasks[u], s.tasks[u]);
    NamesAreUnique(s0, run, s, t, u);
  }

  /** A registration is refused only in favour of another one of the same name that was admitted. */
  lemma RefusedForAnother(s0: State, run: seq<Step>, s: State, t: TaskId) returns (u: TaskId)
    requires Reached(s0, run, s) && t < |s.tasks| && s.tasks[t].Refused?
    ensures t < |s0.tasks| && s0.tasks[t].Registering? && Registers(s0, u, s0.tasks[t].from) && u != t && Admitted(s0, s, u)
  {
    OriginsKept(s0, run, s);
    assert CameFrom(s.registered, s0.tasks[t], s.tasks[t]);
    u := RegisteredByACall(s0, run, s, s0.tasks[t].from);
  }

  /** Once all calls are done, of the calls that register a name exactly one was admitted, and all others
      were refused. */
  lemma EveryNameIsAdmitted(s0: State, run: seq<Step>, s: State, name: string, u: TaskId) returns (t: TaskId)
    requires Reached(s0, run, s) && AllDone(s) && Registers(s0, u, name)
    ensures Registers(s0, t, name) && Admitted(s0, s, t) && name in s.registered
    ensures forall v: TaskId | Registers(s0, v, name) && v != t :: v < |s.tasks| && s.tasks[v].Refused?
  {
    OriginsKept(s0, run, s);
    assert CameFrom(s.registered, s0.tasks[u], s.tasks[u]) && Done(s.tasks[u]);
    t := RegisteredByACall(s0, run, s, name);
    forall v: TaskId | Registers(s0, v, name) && v != t
      ensures s.tasks[v].Refused?
    {
      assert CameFrom(s.registered, s0.tasks[v], s.tasks[v]) && Done(s.tasks[v]);
      if !s.tasks[v].Refused? { AdmittedOnce(s0, run, s, t, v); }
    }
  }

  lemma HeldNameIsRegistered(s0: State, run: seq<Step>, s: State, p: Port, id: EndpointId)
    requires Reached(s0, run, s) && AllDone(s) && Lookup(s.table, p, id).Some?
    ensures id.endpointDiscoveryName in s.registered
  {
    SnapshotThenDeltas(s0, run, s);
    OwnStreamDecides(s.processed, p, id);
    if id.endpointDiscoveryName !in s.registered {
      Unregistered(s0, run, s, id.endpointDiscoveryName);
    }
  }

  /** The final table over the calls: once all are done, the endpoints of each admitted call's name are
      what the stream it was called with makes of a new service manager, the open ports are the union
      over the admitted calls, and nothing of any other name is in the table. */
  lemma FinalTableOfCalls(s0: State, run: seq<Step>, s: State, p: Port)
    requires Reached(s0, run, s) && AllDone(s)
    ensures forall t: TaskId, uid | Admitted(s0, s, t) ::
              Lookup(s.table, p, EndpointId(s0.tasks[t].from, uid)) ==
              Lookup(Run(Tag(s0.tasks[t].from, s0.tasks[t].stream)), p, EndpointId(s0.tasks[t].from, uid))
    ensures p in s.table <==> exists t: TaskId :: Admitted(s0, s, t) && p in Run(Tag(s0.tasks[t].from, s0.tasks[t].stream))
    ensures forall id | Lookup(s.table, p, id).Some? :: exists t: TaskId :: Admitted(s0, s, t) && s0.tasks[t].from == id.endpointDiscoveryName
  {
    FinalTable(s0, run, s, p);
    if p in s.table {
      var name :| name in s.registered && p in Run(Tag(name, s.registered[name]));
      var t := RegisteredByACall(s0, run, s, name);
      assert Admitted(s0, s, t) && p in Run(Tag(s0.tasks[t].from, s0.tasks[t].stream));
    }
    forall id: EndpointId | Lookup(s.table, p, id).Some?
      ensures exists t: TaskId :: Admitted(s0, s, t) && s0.tasks[t].from == id.endpointDiscoveryName
    {
      HeldNameIsRegistered(s0, run, s, p, id);
      var t := RegisteredByACall(s0, run, s, id.endpointDiscoveryName);
    }
  }

  /** If no two calls register one name, all are admitted. */
  lemma DistinctNamesAreAllAdmitted(s0: State, run: seq<Step>, s: State, t: TaskId)
    requires Reached(s0, run, s) && AllDone(s) && t < |s0.tasks| && s0.tasks[t].Registering?
    requires forall u: TaskId | Registers(s0, u, s0.tasks[t].from) :: u == t
    ensures Admitted(s0, s, t)
  {
    var u := EveryNameIsAdmitted(s0, run, s, s0.tasks[t].from, t);
  }

  // ---- Subscriptions ------------------------------------------------------------------------

  /** The installed subscriber is one that finished subscribing, and there is one as soon as any has. */
  predicate InstalledOk(s: State) {
    && (s.installed.Some? ==> s.installed.value < |s.tasks| && s.tasks[s.installed.value].Subscribed?)
    && ((exists t :: 0 <= t < |s.tasks| && s.tasks[t].Subscribed?) ==> s.installed.Some?)
  }

  /** At most one task becomes a finished subscriber, and then it is the installed one. */
  predicate InstallsAtMost(s: State, s': State) {
    && |s'.tasks| == |s.tasks|
    && (forall t | 0 <= t < |s.tasks| && s.tasks[t].Subscribed? :: s'.tasks[t].Subscribed?)
    && (s'.installed == s.installed || (s'.installed.Some? && s'.installed.value < |s.tasks|
          && !s.tasks[s'.installed.value].Subscribed? && s'.tasks[s'.installed.value].Subscribed?))
    && (forall t | 0 <= t < |s.tasks| && s'.tasks[t].Subscribed? && !s.tasks[t].Subscribed? :: s'.installed == Some(t))
  }

  lemma WorkInstalls(s: State, t: TaskId, order: seq<Port>)
    requires Shaped(s) && Enabled(s, Work(t, order))
    ensures InstallsAtMost(s, Next(s, Work(t, order)))
    ensures s.tasks[t].Installing? ==> Next(s, Work(t, order)).installed == Some(t)
  {
    var s' := Next(s, Work(t, order));
    assert s'.tasks == s.tasks[t := WorkedTask(s, t, order)];
    assert s'.installed == if s.tasks[t].Installing? then Some(t) else s.installed;
    assert WorkedTask(s, t, order).Subscribed? <==> s.tasks[t].Installing?;
  }

  lemma StepInstalls(s: State, step: Step)
    requires Shaped(s) && Enabled(s, step)
    ensures InstallsAtMost(s, Next(s, step))
  {
    if step.Work? { WorkInstalls(s, step.t, step.order); }
  }

  lemma {:induction false} ReachedInstalled(s0: State, run: seq<Step>, s: State)
    requires Reached(s0, run, s)
    ensures InstalledOk(s)
  {
    if run != [] {
      var n := |run| - 1;
      var mid :| Leads(s0, run[..n], mid) && Shaped(mid) && Enabled(mid, run[n]) && Next(mid, run[n]) == s;
      ReachedInstalled(s0, run[..n], mid);
      StepInstalls(mid, run[n]);
    }
  }

  /** The latest to finish subscribing is the installed one: after t has done so, it is installed unless
      yet another one has done so since. */
  lemma {:induction false} LatestIsInstalled(mid: State, t: TaskId, more: seq<Step>, s: State)
    requires mid.installed == Some(t) && t < |mid.tasks| && Leads(mid, more, s)
    ensures |s.tasks| == |mid.tasks|
    ensures forall u | 0 <= u < |mid.tasks| && mid.tasks[u].Subscribed? :: s.tasks[u].Subscribed?
    ensures s.installed == Some(t)
            || exists u :: 0 <= u < |s.tasks| && s.tasks[u].Subscribed? && !mid.tasks[u].Subscribed?
    decreases |more|
  {
    if more != [] {
      var n := |more| - 1;
      var last :| Leads(mid, more[..n], last) && Shaped(last) && Enabled(last, more[n]) && Next(last, more[n]) == s;
      LatestIsInstalled(mid, t, more[..n], last);
      StepInstalls(last, more[n]);
    }
  }

  /** Finishing a subscription installs it, and it stays installed until another one finishes. */
  lemma SubscribedIsInstalled(s: State, t: TaskId, order: seq<Port>, more: seq<Step>, end: State)
    requires Shaped(s) && Enabled(s, Work(t, order)) && s.tasks[t].Installing?
    requires Leads(Next(s, Work(t, order)), more, end)
    requires forall u | 0 <= u < |end.tasks| && u != t && end.tasks[u].Subscribed? :: u < |s.tasks| && s.tasks[u].Subscribed?
    ensures end.installed == Some(t)
  {
    WorkInstalls(s, t, order);
    LatestIsInstalled(Next(s, Work(t, order)), t, more, end);
  }

  /** A subscriber that hangs up has been sent a part of the table as it is, and not all of it. */
  lemma HangUpMissesPorts(s0: State, run: seq<Step>, s: State, t: TaskId) returns (missing: set<Port>)
    requires Reached(s0, run, s) && Shaped(s) && Enabled(s, HangUp(t))
    ensures missing != {} && missing <= s.table.Keys
    ensures Replay(map[], s.sent[t]) == Some(Protocols(s.table) - missing)
  {
    ReachedInv(s0, run, s);
    assert SubscriberFits(s.table, s.tasks[t], s.sent[t]);
    missing := Elements(s.tasks[t].todo);
    assert s.tasks[t].todo[0] in missing;
  }

  lemma StepHangsUp(s: State, step: Step, t: TaskId)
    requires Shaped(s) && Enabled(s, step) && t < |s.tasks| && !s.tasks[t].HungUp? && step != HangUp(t)
    ensures |Next(s, step).tasks| == |s.tasks| && !Next(s, step).tasks[t].HungUp?
  {}

  /** A subscriber has hung up only if its receiver did. */
  lemma {:induction false} HungUpOnlySo(s0: State, run: seq<Step>, s: State, t: TaskId)
    requires Reached(s0, run, s) && t < |s.tasks| && HangUp(t) !in run
    ensures !s.tasks[t].HungUp?
  {
    if run != [] {
      var n := |run| - 1;
      var mid :| Leads(s0, run[..n], mid) && Shaped(mid) && Enabled(mid, run[n]) && Next(mid, run[n]) == s;
      StepInstalls(mid, run[n]);
      HungUpOnlySo(s0, run[..n], mid, t);
      StepHangsUp(mid, run[n], t);
    }
  }

  /** Subscribing works: once all calls are done, a subscriber whose receiver did not hang up has made
      some subscriber the installed one, and what that was sent replays to exactly the ports and
      protocols of the table. */
  lemma SubscribersAreServed(s0: State, run: seq<Step>, s: State, t: TaskId) returns (u: TaskId)
    requires Reached(s0, run, s) && AllDone(s)
    requires t < |s0.tasks| && s0.tasks[t].Subscribing? && HangUp(t) !in run
    ensures u < |s0.tasks| && s0.tasks[u].Subscribing? && s.installed == Some(u)
    ensures u < |s.sent| && Replay(map[], s.sent[u]) == Some(Protocols(s.table))
  {
    OriginsKept(s0, run, s);
    assert CameFrom(s.registered, s0.tasks[t], s.tasks[t]) && Done(s.tasks[t]);
    HungUpOnlySo(s0, run, s, t);
    ReachedInstalled(s0, run, s);
    u := s.installed.value;
    assert CameFrom(s.registered, s0.tasks[u], s.tasks[u]);
    SnapshotThenDeltas(s0, run, s);
  }

  /** The only subscriber is the one. */
  lemma OnlySubscriberIsServed(s0: State, run: seq<Step>, s: State, t: TaskId)
    requires Reached(s0, run, s) && AllDone(s)
    requires t < |s0.tasks| && s0.tasks[t].Subscribing? && HangUp(t) !in run
    requires forall u | 0 <= u < |s0.tasks| && s0.tasks[u].Subscribing? :: u == t
    ensures t < |s.sent| && Replay(map[], s.sent[t]) == Some(Protocols(s.table))
  {
    var u := SubscribersAreServed(s0, run, s, t);
  }

  // ---- Queries ------------------------------------------------------------------------------

  /** A query selects from a table that no report is half way through: that of the processed reports, so
      that no service it sees is without an endpoint. */
  lemma QuerySeesWholeTable(s0: State, run: seq<Step>, s: State, t: TaskId)
    requires Reached(s0, run, s) && t < |s.tasks| && s.tasks[t].Selecting?
    ensures TableReleased(s.tasks) && s.table == Run(s.processed) && WellFormed(s.table)
  {
    ReachedInv(s0, run, s);
    assert Holds(s.tasks[t], PortServiceMap) == Some(Read);
    SnapshotThenDeltas(s0, run, s);
  }

  /** Step by step, only reports that are processed add to the table's past, and an answer is seen at once
      and does not change. */
  predicate AnswersAtMost(s: State, s': State, t: TaskId)
    requires t < |s.tasks|
  {
    && |s'.tasks| == |s.tasks| && |s.processed| <= |s'.processed| && s'.processed[..|s.processed|] == s.processed
    && (s.tasks[t].Answered? ==> s'.tasks[t] == s.tasks[t])
    && (s'.tasks[t].Answered? && !s.tasks[t].Answered? ==>
          s.tasks[t].Selecting? && s'.processed == s.processed && s'.tasks[t].port == s.tasks[t].port
          && s'.tasks[t].seen == EndpointsOn(s.table, s.tasks[t].port))
  }

  lemma WorkAnswers(s: State, u: TaskId, order: seq<Port>, t: TaskId)
    requires Shaped(s) && Enabled(s, Work(u, order)) && t < |s.tasks|
    ensures AnswersAtMost(s, Next(s, Work(u, order)), t)
  {
    WorkKeepsKind(s, u, order);
    assert Next(s, Work(u, order)).tasks == s.tasks[u := WorkedTask(s, u, order)];
  }

  lemma StepAnswers(s: State, step: Step, t: TaskId)
    requires Shaped(s) && Enabled(s, step) && t < |s.tasks|
    ensures AnswersAtMost(s, Next(s, step), t)
  {
    if step.Work? { WorkAnswers(s, step.t, step.order, t); }
  }

  /** `seen` is what is under the port after the first k processed reports. */
  ghost predicate SeenAfter(processed: seq<Report>, k: nat, task: Task) {
    k <= |processed| && task.Answered? && task.seen == EndpointsOn(Run(processed[..k]), task.port)
  }

  lemma {:induction false} LeadsOn(s0: State, run: seq<Step>, mid: State, more: seq<Step>, s: State)
    requires Reached(s0, run, mid) && Leads(mid, more, s)
    ensures Reached(s0, run + more, s)
    decreases |more|
  {
    if more == [] {
      assert run + more == run;
    } else {
      var n := |more| - 1;
      var last :| Leads(mid, more[..n], last) && Shaped(last) && Enabled(last, more[n]) && Next(last, more[n]) == s;
      LeadsOn(s0, run, mid, more[..n], last);
      assert (run + more)[..|run + more| - 1] == run + more[..n];
    }
  }

  /** Queries are linearizable: one that is answered between `mid` and `s` has seen what is under its port
      after some number of processed reports, none fewer than at `mid` and none more than at `s`. */
  lemma {:induction false} AnswerIsFromBetween(s0: State, run: seq<Step>, mid: State, more: seq<Step>, s: State, t: TaskId)
    returns (k: nat)
    requires Reached(s0, run, mid) && Leads(mid, more, s) && t < |mid.tasks| && !mid.tasks[t].Answered?
    ensures t < |s.tasks| && |mid.processed| <= |s.processed| && s.processed[..|mid.processed|] == mid.processed
    ensures s.tasks[t].Answered? ==> |mid.processed| <= k && SeenAfter(s.processed, k, s.tasks[t])
    decreases |more|
  {
    k := 0;
    if more != [] {
      var n := |more| - 1;
      var last :| Leads(mid, more[..n], last) && Shaped(last) && Enabled(last, more[n]) && Next(last, more[n]) == s;
      k := AnswerIsFromBetween(s0, run, mid, more[..n], last, t);
      StepAnswers(last, more[n], t);
      assert s.processed[..|mid.processed|] == s.processed[..|last.processed|][..|mid.processed|];
      if last.tasks[t].Answered? {
        assert s.processed[..k] == s.processed[..|last.processed|][..k];
      } else if s.tasks[t].Answered? {
        LeadsOn(s0, run, mid, more[..n], last);
        QuerySeesWholeTable(s0, run + more[..n], last, t);
        k := |last.processed|;
        assert s.processed[..k] == last.processed;
      }
    }
  }

  /** Once all calls are done, each query was answered for its own port and index. */
  lemma QueriesAreAnswered(s0: State, run: seq<Step>, s: State, t: TaskId) returns (k: nat)
    requires Reached(s0, run, s) && AllDone(s) && t < |s0.tasks| && s0.tasks[t].Querying?
    ensures t < |s.tasks| && SeenAfter(s.processed, k, s.tasks[t])
    ensures s.tasks[t].port == s0.tasks[t].port && s.tasks[t].index == s0.tasks[t].index
  {
    OriginsKept(s0, run, s);
    assert CameFrom(s.registered, s0.tasks[t], s.tasks[t]) && Done(s.tasks[t]);
    assert Leads(s0, [], s0);
    k := AnswerIsFromBetween(s0, [], s0, run, s, t);
  }

  // ---- Locks --------------------------------------------------------------------------------

  /** Of the requests for one lock, none is granted before an older one. */
  lemma OldestRequestFirst(s: State, i: nat, j: nat, l: LockId)
    requires Shaped(s) && i < j < |s.waiting| && WantsLock(s, s.waiting[i], l) && WantsLock(s, s.waiting[j], l)
    ensures !Enabled(s, Grant(j))
  {
    assert Wants(s.tasks[s.waiting[i]]).value.0 == l;
  }
}
