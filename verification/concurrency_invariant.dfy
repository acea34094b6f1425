// What every step of the state machine in concurrency.dfy keeps: an invariant in three parts, about
// the locks, the table and the subscribers, and the registered tasks.
module ConcurrencyInvariant {
  import opened Wrappers
  import opened Endpoints
  import opened Services
  import opened PortLog
  import opened Histories
  import opened Concurrency

  // ---- Locks --------------------------------------------------------------------------------

  /** Every task with an open request is queued, once. */
  predicate Queued(s: State)
    requires Shaped(s)
  {
    && (forall i, j | 0 <= i < j < |s.waiting| :: s.waiting[i] != s.waiting[j])
    && (forall t | 0 <= t < |s.tasks| && Wants(s.tasks[t]).Some? :: t in s.waiting)
  }

  /** A lock held for writing is held by no one else. */
  ghost predicate Exclusive(tasks: seq<Task>) {
    forall l, t, u | 0 <= t < |tasks| && 0 <= u < |tasks| && t != u && Holds(tasks[t], l) == Some(Write) ::
      Holds(tasks[u], l) == None
  }

  ghost predicate LocksOk(s: State) {
    Shaped(s) && Queued(s) && Exclusive(s.tasks)
  }

  /** A task that keeps or drops its locks leaves exclusion alone. */
  lemma ReleaseKeepsExclusive(tasks: seq<Task>, t: TaskId, task: Task)
    requires Exclusive(tasks) && t < |tasks|
    requires forall l :: Holds(task, l) == None || Holds(task, l) == Holds(tasks[t], l)
    ensures Exclusive(tasks[t := task])
  {}

  lemma RequestKeepsHolds(task: Task)
    requires AfterRequest(task).Some?
    ensures Wants(task) == None && Wants(AfterRequest(task).value).Some?
    ensures forall l :: Holds(AfterRequest(task).value, l) == Holds(task, l)
  {}

  lemma RequestKeepsLocks(s: State, t: TaskId)
    requires LocksOk(s) && Enabled(s, Request(t))
    ensures LocksOk(Next(s, Request(t)))
  {
    var s' := Next(s, Request(t));
    RequestKeepsHolds(s.tasks[t]);
    ReleaseKeepsExclusive(s.tasks, t, AfterRequest(s.tasks[t]).value);
    forall u | 0 <= u < |s'.tasks| && Wants(s'.tasks[u]).Some?
      ensures u in s'.waiting
    {
      if u == t { assert s'.waiting[|s.waiting|] == t; } else { assert u in s.waiting; }
    }
  }

  lemma GrantKeepsExclusive(tasks: seq<Task>, t: TaskId, task: Task, l: LockId, mode: Mode)
    requires Exclusive(tasks) && Free(tasks, l, mode) && t < |tasks|
    requires forall k: LockId :: Holds(task, k) == if k == l then Some(mode) else Holds(tasks[t], k)
    ensures Exclusive(tasks[t := task])
  {}

  lemma LeavesQueue(waiting: seq<TaskId>, i: nat, u: TaskId)
    requires i < |waiting| && u in waiting && u != waiting[i]
    ensures u in waiting[..i] + waiting[i + 1..]
  {
    var k :| 0 <= k < |waiting| && waiting[k] == u;
    if k < i { assert waiting[..i][k] == u; } else { assert waiting[i + 1..][k - i - 1] == u; }
  }

  lemma GrantGivesOneLock(task: Task)
    requires Wants(task).Some?
    ensures Wants(AfterGrant(task)) == None
    ensures forall l: LockId ::
              Holds(AfterGrant(task), l) == if l == Wants(task).value.0 then Some(Wants(task).value.1) else Holds(task, l)
  {}

  lemma GrantKeepsQueued(s: State, s': State, i: nat, task: Task)
    requires Shaped(s) && Queued(s) && i < |s.waiting| && Wants(task) == None
    requires s' == s.(tasks := s.tasks[s.waiting[i] := task], waiting := s.waiting[..i] + s.waiting[i + 1..])
    ensures Shaped(s') && Queued(s')
  {
    forall k | 0 <= k < |s'.waiting|
      ensures s'.waiting[k] != s.waiting[i] && s'.waiting[k] in s.waiting
    {}
    forall u | 0 <= u < |s'.tasks| && Wants(s'.tasks[u]).Some?
      ensures u in s'.waiting
    {
      LeavesQueue(s.waiting, i, u);
    }
  }

  lemma GrantKeepsLocks(s: State, i: nat)
    requires LocksOk(s) && Enabled(s, Grant(i))
    ensures LocksOk(Next(s, Grant(i)))
  {
    var t := s.waiting[i];
    var want := Wants(s.tasks[t]).value;
    GrantGivesOneLock(s.tasks[t]);
    GrantKeepsExclusive(s.tasks, t, AfterGrant(s.tasks[t]), want.0, want.1);
    GrantKeepsQueued(s, Next(s, Grant(i)), i, AfterGrant(s.tasks[t]));
  }

  /** A task that asks for nothing and at most drops locks leaves them in order. */
  lemma ReleaseKeepsLocks(s: State, s': State, t: TaskId, task: Task)
    requires LocksOk(s) && t < |s.tasks| && Wants(s.tasks[t]) == None && Wants(task) == None
    requires forall l :: Holds(task, l) == None || Holds(task, l) == Holds(s.tasks[t], l)
    requires s'.tasks == s.tasks[t := task] && s'.waiting == s.waiting
    requires |s'.sent| == |s.sent| && |s'.drained| == |s.drained| && s'.capacity == s.capacity
    requires s'.installed.Some? ==> s'.installed.value < |s.tasks|
    ensures LocksOk(s')
  {
    ReleaseKeepsExclusive(s.tasks, t, task);
  }

  lemma WorkReleases(s: State, t: TaskId, order: seq<Port>)
    requires Shaped(s) && t < |s.tasks| && CanWork(s, t, order)
    ensures Wants(s.tasks[t]) == None && Wants(WorkedTask(s, t, order)) == None
    ensures forall l :: Holds(WorkedTask(s, t, order), l) == None || Holds(WorkedTask(s, t, order), l) == Holds(s.tasks[t], l)
  {}

  lemma WorkKeepsLocks(s: State, t: TaskId, order: seq<Port>)
    requires LocksOk(s) && Enabled(s, Work(t, order))
    ensures LocksOk(Next(s, Work(t, order)))
  {
    WorkReleases(s, t, order);
    ReleaseKeepsLocks(s, Next(s, Work(t, order)), t, WorkedTask(s, t, order));
  }

  lemma NextKeepsLocks(s: State, step: Step)
    requires LocksOk(s) && Enabled(s, step)
    ensures LocksOk(Next(s, step))
  {
    match step
    case Request(t) => RequestKeepsLocks(s, t);
    case Grant(i) => GrantKeepsLocks(s, i);
    case Work(t, order) => WorkKeepsLocks(s, t, order);
    case Drain(t) =>
    case HangUp(t) => ReleaseKeepsLocks(s, Next(s, step), t, HungUp);
  }

  // ---- Registered tasks ---------------------------------------------------------------------

  /** What a listener has processed and what it has yet to process make up its task's stream. */
  predicate ListenerFits(registered: map<string, seq<EndpointEvent>>, processed: seq<Report>, task: Task) {
    && (IsListener(task) ==>
          && task.from in registered
          && Project(processed, task.from) + Tag(task.from, task.inbox) == Tag(task.from, registered[task.from]))
    && (task.AwaitingTable? || task.Updating? ==> task.inbox != [])
    && (task.Admitting? ==> task.from !in registered)
  }

  predicate ListenersFit(s: State) {
    forall t | 0 <= t < |s.tasks| :: ListenerFits(s.registered, s.processed, s.tasks[t])
  }

  /** No two listeners share a name. */
  predicate DistinctListeners(tasks: seq<Task>) {
    forall t, u | 0 <= t < u < |tasks| && IsListener(tasks[t]) && IsListener(tasks[u]) :: tasks[t].from != tasks[u].from
  }

  predicate ListenerOf(tasks: seq<Task>, t: nat, name: string) {
    t < |tasks| && IsListener(tasks[t]) && tasks[t].from == name
  }

  ghost predicate RegistryOk(s: State) {
    && ListenersFit(s) && DistinctListeners(s.tasks)
    && (forall i | 0 <= i < |s.processed| :: s.processed[i].from in s.registered)
    && (forall name | name in s.registered :: exists t :: ListenerOf(s.tasks, t, name))
  }

  /** The task goes on under the same name with the same inbox. */
  predicate SameListener(was: Task, task: Task) {
    && IsListener(task) == IsListener(was)
    && (IsListener(task) ==> task.from == was.from && task.inbox == was.inbox)
    && (task.AwaitingTable? || task.Updating? ==> task.inbox != [])
  }

  lemma SameListenersKeepRegistry(s: State, s': State, t: TaskId, task: Task)
    requires RegistryOk(s) && t < |s.tasks| && SameListener(s.tasks[t], task)
    requires task.Admitting? ==> task.from !in s.registered
    requires s'.tasks == s.tasks[t := task] && s'.registered == s.registered && s'.processed == s.processed
    ensures RegistryOk(s')
  {
    assert ListenerFits(s.registered, s.processed, s.tasks[t]);
    forall name | name in s'.registered
      ensures exists u :: ListenerOf(s'.tasks, u, name)
    {
      var u :| ListenerOf(s.tasks, u, name);
      assert ListenerOf(s'.tasks, u, name);
    }
  }

  lemma {:induction false} ForeignNameProjectsEmpty(log: seq<Report>, name: string)
    requires forall i | 0 <= i < |log| :: log[i].from != name
    ensures Project(log, name) == []
  {
    if log != [] {
      ForeignNameProjectsEmpty(log[..|log| - 1], name);
    }
  }

  /** The names lock makes the check and the insertion one: no one else was admitted meanwhile. */
  lemma AdmitKeepsRegistry(s: State, t: TaskId, order: seq<Port>)
    requires LocksOk(s) && RegistryOk(s) && Enabled(s, Work(t, order)) && s.tasks[t].Admitting?
    ensures RegistryOk(Next(s, Work(t, order)))
  {
    var from, stream := s.tasks[t].from, s.tasks[t].stream;
    var s' := Next(s, Work(t, order));
    assert ListenerFits(s.registered, s.processed, s.tasks[t]);
    ForeignNameProjectsEmpty(s.processed, from);
    assert [] + Tag(from, stream) == Tag(from, stream);
    forall u | 0 <= u < |s'.tasks|
      ensures ListenerFits(s'.registered, s'.processed, s'.tasks[u])
      ensures u != t && IsListener(s'.tasks[u]) ==> s'.tasks[u].from != from
    {
      assert ListenerFits(s.registered, s.processed, s.tasks[u]);
      assert Holds(s.tasks[t], Names) == Some(Write);
      assert u != t ==> Holds(s.tasks[u], Names) == None;
    }
    forall name | name in s'.registered
      ensures exists u :: ListenerOf(s'.tasks, u, name)
    {
      if name == from {
        assert ListenerOf(s'.tasks, t, name);
      } else {
        var u :| ListenerOf(s.tasks, u, name);
        assert ListenerOf(s'.tasks, u, name);
      }
    }
  }

  lemma ProjectOneMore(log: seq<Report>, r: Report, name: string)
    ensures Project(log + [r], name) == if r.from == name then Project(log, name) + [r] else Project(log, name)
  {
    assert (log + [r])[..|log|] == log;
  }

  lemma TagHead(from: string, inbox: seq<EndpointEvent>)
    requires inbox != []
    ensures Tag(from, inbox) == [Report(from, inbox[0])] + Tag(from, inbox[1..])
  {}

  lemma Regroup(a: seq<Report>, r: Report, b: seq<Report>)
    ensures a + ([r] + b) == a + [r] + b
  {}

  /** One report further, the listener that processed it has it behind it instead of before it. */
  lemma ProcessedOneMore(registered: map<string, seq<EndpointEvent>>, processed: seq<Report>, task: Task, was: Task, r: Report)
    requires ListenerFits(registered, processed, was) && IsListener(was) && IsListener(task) && task.from == was.from
    requires task.AwaitingTable? || task.Updating? ==> task.inbox != []
    requires if r.from == was.from then was.inbox != [] && r.event == was.inbox[0] && task.inbox == was.inbox[1..] else task.inbox == was.inbox
    ensures ListenerFits(registered, processed + [r], task)
  {
    ProjectOneMore(processed, r, task.from);
    if r.from == was.from {
      TagHead(task.from, was.inbox);
      Regroup(Project(processed, task.from), r, Tag(task.from, task.inbox));
    }
  }

  lemma AppliedKeepsRegistry(s: State, s': State, t: TaskId, task: Task, r: Report)
    requires RegistryOk(s) && t < |s.tasks| && ListenerOf(s.tasks, t, r.from) && s.tasks[t].inbox != [] && r.event == s.tasks[t].inbox[0]
    requires IsListener(task) && !task.AwaitingTable? && !task.Updating?
    requires task.from == r.from && task.inbox == s.tasks[t].inbox[1..]
    requires s'.tasks == s.tasks[t := task] && s'.registered == s.registered && s'.processed == s.processed + [r]
    ensures RegistryOk(s')
  {
    assert ListenerFits(s.registered, s.processed, s.tasks[t]);
    forall u | 0 <= u < |s'.tasks|
      ensures ListenerFits(s'.registered, s'.processed, s'.tasks[u])
    {
      assert ListenerFits(s.registered, s.processed, s.tasks[u]);
      if IsListener(s.tasks[u]) {
        ProcessedOneMore(s.registered, s.processed, s'.tasks[u], s.tasks[u], r);
      }
    }
    forall name | name in s'.registered
      ensures exists u :: ListenerOf(s'.tasks, u, name)
    {
      var u :| ListenerOf(s.tasks, u, name);
      assert ListenerOf(s'.tasks, u, name);
    }
  }

  lemma WorkKeepsRegistry(s: State, t: TaskId, order: seq<Port>)
    requires LocksOk(s) && RegistryOk(s) && Enabled(s, Work(t, order))
    ensures RegistryOk(Next(s, Work(t, order)))
  {
    var task, s' := s.tasks[t], Next(s, Work(t, order));
    if task.Updating? {
      AppliedKeepsRegistry(s, s', t, WorkedTask(s, t, order), Report(task.from, task.inbox[0]));
    } else if task.Admitting? {
      AdmitKeepsRegistry(s, t, order);
    } else {
      SameListenersKeepRegistry(s, s', t, WorkedTask(s, t, order));
    }
  }

  lemma RequestKeepsRegistry(s: State, t: TaskId)
    requires Shaped(s) && RegistryOk(s) && Enabled(s, Request(t))
    ensures RegistryOk(Next(s, Request(t)))
  {
    SameListenersKeepRegistry(s, Next(s, Request(t)), t, AfterRequest(s.tasks[t]).value);
  }

  lemma GrantKeepsRegistry(s: State, i: nat)
    requires Shaped(s) && RegistryOk(s) && Enabled(s, Grant(i))
    ensures RegistryOk(Next(s, Grant(i)))
  {
    assert ListenerFits(s.registered, s.processed, s.tasks[s.waiting[i]]);
    SameListenersKeepRegistry(s, Next(s, Grant(i)), s.waiting[i], AfterGrant(s.tasks[s.waiting[i]]));
  }

  lemma HangUpKeepsRegistry(s: State, t: TaskId)
    requires Shaped(s) && RegistryOk(s) && Enabled(s, HangUp(t))
    ensures RegistryOk(Next(s, HangUp(t)))
  {
    SameListenersKeepRegistry(s, Next(s, HangUp(t)), t, HungUp);
  }

  lemma NextKeepsRegistry(s: State, step: Step)
    requires LocksOk(s) && RegistryOk(s) && Enabled(s, step)
    ensures RegistryOk(Next(s, step))
  {
    match step
    case Request(t) => RequestKeepsRegistry(s, t);
    case Grant(i) => GrantKeepsRegistry(s, i);
    case Work(t, order) => WorkKeepsRegistry(s, t, order);
    case Drain(t) =>
    case HangUp(t) => HangUpKeepsRegistry(s, t);
  }

  // ---- The table and the subscribers --------------------------------------------------------

  /** The port events a listener has decided on but not sent yet. */
  function PendingOf(task: Task): seq<PortEvent> {
    if task.Updated? || task.AwaitingSender? || task.Sending? then task.pending else []
  }

  function Pending(tasks: seq<Task>): seq<PortEvent> {
    if tasks == [] then [] else Pending(tasks[..|tasks| - 1]) + PendingOf(tasks[|tasks| - 1])
  }

  function Elements(order: seq<Port>): set<Port> {
    set i | 0 <= i < |order| :: order[i]
  }

  predicate ChannelsOk(s: State)
    requires Shaped(s)
  {
    forall t | 0 <= t < |s.tasks| :: s.drained[t] <= |s.sent[t]| <= s.drained[t] + s.capacity
  }

  /** What is still to be removed from the table is in it, and is removed once: the unwrap in the
      source never fails. */
  predicate Tidy(table: PortMap, pending: seq<PortEvent>) {
    && (forall i | 0 <= i < |pending| && pending[i].Close? :: pending[i].port in table)
    && (forall i, j | 0 <= i < j < |pending| :: pending[i] != pending[j])
  }

  /** Up to what its writer has still to do, the table is that of the processed reports; up to what
      the writer has still to send, so is what the installed subscriber was sent. */
  ghost predicate LedgerOk(s: State, pending: seq<PortEvent>)
    requires Shaped(s)
  {
    && Tidy(s.table, pending) && Settle(s.table, pending) == Run(s.processed)
    && (s.installed.Some? ==>
          && s.tasks[s.installed.value].Subscribed?
          && Replay(map[], s.sent[s.installed.value] + pending) == Some(Protocols(Run(s.processed))))
  }

  /** What a subscriber was sent, by how far it has come. */
  ghost predicate SubscriberFits(table: PortMap, task: Task, sent: seq<PortEvent>) {
    if task.Snapshotting? then
      && Lists(task.todo, Elements(task.todo)) && Elements(task.todo) <= table.Keys
      && Replay(map[], sent) == Some(Protocols(table) - Elements(task.todo))
    else if task.SubscriberAwaitingSender? || task.Installing? then Replay(map[], sent) == Some(Protocols(table))
    else if task.Subscribed? || task.HungUp? then Replay(map[], sent).Some?
    else sent == []
  }

  ghost predicate SubscribersFit(s: State)
    requires Shaped(s)
  {
    forall t | 0 <= t < |s.tasks| :: SubscriberFits(s.table, s.tasks[t], s.sent[t])
  }

  ghost predicate LogsOk(s: State) {
    Shaped(s) && ChannelsOk(s) && LedgerOk(s, Pending(s.tasks)) && SubscribersFit(s)
  }

  lemma {:induction false} NothingPending(tasks: seq<Task>)
    requires forall t | 0 <= t < |tasks| :: PendingOf(tasks[t]) == []
    ensures Pending(tasks) == []
  {
    if tasks != [] {
      NothingPending(tasks[..|tasks| - 1]);
    }
  }

  lemma {:induction false} OnePending(tasks: seq<Task>, t: nat)
    requires t < |tasks| && forall u | 0 <= u < |tasks| && u != t :: PendingOf(tasks[u]) == []
    ensures Pending(tasks) == PendingOf(tasks[t])
  {
    var n := |tasks| - 1;
    if t == n {
      NothingPending(tasks[..n]);
    } else {
      OnePending(tasks[..n], t);
    }
  }

  lemma {:induction false} SamePending(tasks: seq<Task>, t: nat, task: Task)
    requires t < |tasks| && PendingOf(task) == PendingOf(tasks[t])
    ensures Pending(tasks[t := task]) == Pending(tasks)
  {
    var n := |tasks| - 1;
    if t < n {
      assert tasks[t := task][..n] == tasks[..n][t := task];
      SamePending(tasks[..n], t, task);
    } else {
      assert tasks[t := task][..n] == tasks[..n];
    }
  }

  /** A task that holds the table leaves the others nothing pending. */
  lemma OthersPendNothing(tasks: seq<Task>, t: TaskId)
    requires Exclusive(tasks) && t < |tasks| && Holds(tasks[t], PortServiceMap).Some?
    ensures forall u | 0 <= u < |tasks| && u != t :: PendingOf(tasks[u]) == []
    ensures Pending(tasks) == PendingOf(tasks[t])
  {
    forall u | 0 <= u < |tasks| && u != t
      ensures PendingOf(tasks[u]) == []
    {
      assert Holds(tasks[u], PortServiceMap) != Some(Write);
    }
    OnePending(tasks, t);
  }

  lemma HolderPends(tasks: seq<Task>, t: TaskId)
    requires Exclusive(tasks) && t < |tasks| && Holds(tasks[t], PortServiceMap).Some?
    ensures Pending(tasks) == PendingOf(tasks[t])
  {
    OthersPendNothing(tasks, t);
  }

  lemma HolderGoesOn(tasks: seq<Task>, t: TaskId, task: Task)
    requires Exclusive(tasks) && t < |tasks| && Holds(tasks[t], PortServiceMap).Some?
    ensures Pending(tasks[t := task]) == PendingOf(task)
  {
    OthersPendNothing(tasks, t);
    OnePending(tasks[t := task], t);
  }

  lemma SettledTable(s: State)
    requires LogsOk(s) && Pending(s.tasks) == []
    ensures s.table == Run(s.processed) && WellFormed(s.table)
    ensures s.installed.Some? ==> Replay(map[], s.sent[s.installed.value]) == Some(Protocols(s.table))
  {
    assert Settle(s.table, []) == s.table;
    RunKeepsWellFormed(map[], s.processed);
    if s.installed.Some? {
      assert s.sent[s.installed.value] + [] == s.sent[s.installed.value];
    }
  }

  /** Under a task that holds the table and has nothing pending, the ledger is settled. */
  lemma SettledFor(s: State, t: TaskId)
    requires LogsOk(s) && Exclusive(s.tasks) && t < |s.tasks|
    requires Holds(s.tasks[t], PortServiceMap).Some? && PendingOf(s.tasks[t]) == []
    ensures LedgerOk(s, []) && s.table == Run(s.processed) && WellFormed(s.table)
    ensures s.installed.Some? ==> Replay(map[], s.sent[s.installed.value]) == Some(Protocols(s.table))
  {
    OthersPendNothing(s.tasks, t);
    SettledTable(s);
  }

  /** Steps that neither send nor change the table. */
  lemma QuietKeepsLogs(s: State, s': State, t: TaskId, task: Task)
    requires LogsOk(s) && t < |s.tasks| && Shaped(s')
    requires PendingOf(task) == PendingOf(s.tasks[t]) && (s.tasks[t].Subscribed? ==> task.Subscribed?)
    requires SubscriberFits(s.table, task, s.sent[t])
    requires s'.tasks == s.tasks[t := task] && s'.table == s.table && s'.installed == s.installed && s'.sent == s.sent
    requires s'.drained == s.drained && s'.capacity == s.capacity && s'.processed == s.processed
    ensures LogsOk(s')
  {
    SamePending(s.tasks, t, task);
  }

  lemma RequestKeepsLogs(s: State, t: TaskId)
    requires LogsOk(s) && Enabled(s, Request(t)) && Shaped(Next(s, Request(t)))
    ensures LogsOk(Next(s, Request(t)))
  {
    assert SubscriberFits(s.table, s.tasks[t], s.sent[t]);
    if s.tasks[t] == Snapshotting([]) {
      assert Protocols(s.table) - Elements([]) == Protocols(s.table);
    }
    QuietKeepsLogs(s, Next(s, Request(t)), t, AfterRequest(s.tasks[t]).value);
  }

  lemma GrantKeepsLogs(s: State, i: nat)
    requires LogsOk(s) && Enabled(s, Grant(i)) && Shaped(Next(s, Grant(i)))
    ensures LogsOk(Next(s, Grant(i)))
  {
    var t := s.waiting[i];
    assert SubscriberFits(s.table, s.tasks[t], s.sent[t]);
    QuietKeepsLogs(s, Next(s, Grant(i)), t, AfterGrant(s.tasks[t]));
  }

  predicate Quiet(task: Task) {
    task.SubscriberReading? || task.Selecting? || task.BothHeld? || task.Admitting? || (task.Sending? && task.pending == [])
  }

  lemma QuietWorkKeepsLogs(s: State, t: TaskId, order: seq<Port>)
    requires LogsOk(s) && Enabled(s, Work(t, order)) && Quiet(s.tasks[t]) && Shaped(Next(s, Work(t, order)))
    ensures LogsOk(Next(s, Work(t, order)))
  {
    var s' := Next(s, Work(t, order));
    assert SubscriberFits(s.table, s.tasks[t], s.sent[t]);
    if s.tasks[t].SubscriberReading? {
      assert Elements(order) == s.table.Keys;
      assert Protocols(s.table) - s.table.Keys == map[];
    }
    QuietKeepsLogs(s, s', t, WorkedTask(s, t, order));
  }

  lemma InstalledIsFed(s: State, t: TaskId)
    requires LogsOk(s) && Pending(s.tasks) == [] && t < |s.tasks| && s.tasks[t].Subscribed?
    requires Replay(map[], s.sent[t]) == Some(Protocols(Run(s.processed)))
    ensures LogsOk(s.(installed := Some(t)))
  {
    assert s.sent[t] + [] == s.sent[t];
  }

  lemma InstallKeepsLogs(s: State, t: TaskId, order: seq<Port>)
    requires LogsOk(s) && Exclusive(s.tasks) && Enabled(s, Work(t, order)) && s.tasks[t].Installing?
    requires Shaped(Next(s, Work(t, order)))
    ensures LogsOk(Next(s, Work(t, order)))
  {
    var mid := s.(tasks := s.tasks[t := Subscribed]);
    assert SubscriberFits(s.table, s.tasks[t], s.sent[t]);
    OthersPendNothing(s.tasks, t);
    SettledFor(s, t);
    QuietKeepsLogs(s, mid, t, Subscribed);
    SamePending(s.tasks, t, Subscribed);
    InstalledIsFed(mid, t);
  }

  /** One event more for a subscriber that is not the installed one. */
  lemma SnapshotDelivered(s: State, s': State, t: TaskId, task: Task, event: PortEvent)
    requires LogsOk(s) && t < |s.tasks| && PendingOf(s.tasks[t]) == PendingOf(task) && !s.tasks[t].Subscribed?
    requires SubscriberFits(s.table, task, s.sent[t] + [event]) && Room(s, t)
    requires s' == s.(tasks := s.tasks[t := task], sent := s.sent[t := s.sent[t] + [event]]) && Shaped(s')
    ensures LogsOk(s')
  {
    SamePending(s.tasks, t, task);
  }

  lemma SnapshotOneMore(table: PortMap, todo: seq<Port>, sent: seq<PortEvent>)
    requires todo != [] && WellFormed(table) && SubscriberFits(table, Snapshotting(todo), sent)
    ensures todo[0] in table
    ensures SubscriberFits(table, Snapshotting(todo[1..]), sent + [Open(table[todo[0]].port, table[todo[0]].protocol)])
  {
    var p, rest := todo[0], todo[1..];
    assert p in Elements(todo);
    ListsTail(todo, Elements(todo));
    assert Elements(rest) == Elements(todo) - {p} by {
      forall x | x in Elements(todo) - {p}
        ensures x in Elements(rest)
      {
        assert x in rest;
      }
    }
    SnapshotStep(sent, Protocols(table), Elements(todo), p);
  }

  lemma SnapshotKeepsLogs(s: State, t: TaskId, order: seq<Port>)
    requires LogsOk(s) && Exclusive(s.tasks) && Enabled(s, Work(t, order)) && s.tasks[t].Snapshotting?
    requires Shaped(Next(s, Work(t, order)))
    ensures LogsOk(Next(s, Work(t, order)))
  {
    var todo := s.tasks[t].todo;
    var service := s.table[todo[0]];
    assert SubscriberFits(s.table, s.tasks[t], s.sent[t]);
    SettledFor(s, t);
    SnapshotOneMore(s.table, todo, s.sent[t]);
    SnapshotDelivered(s, Next(s, Work(t, order)), t, Snapshotting(todo[1..]), Open(service.port, service.protocol));
  }

  lemma SettleOneByOne(m: PortMap, pending: seq<PortEvent>)
    requires pending != [] && Tidy(m, pending)
    ensures Settle(Settle(m, pending[..1]), pending[1..]) == Settle(m, pending)
    ensures Tidy(Settle(m, pending[..1]), pending[1..])
  {
    assert ClosedBy(pending) == ClosedBy(pending[..1]) + ClosedBy(pending[1..]) by {
      forall p | p in ClosedBy(pending)
        ensures p in ClosedBy(pending[..1]) || p in ClosedBy(pending[1..])
      {
        var i :| 0 <= i < |pending| && pending[i].Close? && pending[i].port == p;
        if i == 0 { assert pending[..1][0] == pending[i]; } else { assert pending[1..][i - 1] == pending[i]; }
      }
    }
    forall i | 0 <= i < |pending[1..]| && pending[1..][i].Close?
      ensures pending[1..][i].port in Settle(m, pending[..1])
    {
      assert pending[1..][i] == pending[i + 1] && pending[0] != pending[i + 1];
    }
  }

  /** Who does not hold the table does not mind it changing. */
  lemma OthersIgnoreTable(s: State, t: TaskId, table: PortMap)
    requires LogsOk(s) && Exclusive(s.tasks) && t < |s.tasks| && Holds(s.tasks[t], PortServiceMap) == Some(Write)
    ensures forall u | 0 <= u < |s.tasks| && u != t :: SubscriberFits(table, s.tasks[u], s.sent[u])
    ensures s.sent[t] == []
  {
    forall u | 0 <= u < |s.tasks|
      ensures u == t || SubscriberFits(table, s.tasks[u], s.sent[u])
    {
      assert SubscriberFits(s.table, s.tasks[u], s.sent[u]);
      if u != t { assert Holds(s.tasks[u], PortServiceMap) == None; }
    }
    assert SubscriberFits(s.table, s.tasks[t], s.sent[t]);
  }

  lemma OthersStillFit(s: State, s': State, t: TaskId, task: Task)
    requires LogsOk(s) && Exclusive(s.tasks) && t < |s.tasks| && Holds(s.tasks[t], PortServiceMap) == Some(Write)
    requires Shaped(s') && s'.tasks == s.tasks[t := task] && IsListener(task) && s'.installed == s.installed
    requires s.installed.Some? ==> Replay(map[], s'.sent[s.installed.value]).Some?
    requires forall u | 0 <= u < |s.sent| && s.installed != Some(u) :: s'.sent[u] == s.sent[u]
    ensures SubscribersFit(s')
  {
    OthersIgnoreTable(s, t, s'.table);
    forall u | 0 <= u < |s'.tasks|
      ensures SubscriberFits(s'.table, s'.tasks[u], s'.sent[u])
    {}
  }

  /** The table's writer goes on as `task`, which leaves its pending events to do. */
  lemma WriterKeepsLogs(s: State, s': State, t: TaskId, task: Task)
    requires LogsOk(s) && Exclusive(s.tasks) && t < |s.tasks| && Holds(s.tasks[t], PortServiceMap) == Some(Write)
    requires Shaped(s') && ChannelsOk(s') && s'.tasks == s.tasks[t := task] && IsListener(task) && s'.installed == s.installed
    requires s.installed.Some? ==> Replay(map[], s'.sent[s.installed.value]).Some?
    requires forall u | 0 <= u < |s.sent| && s.installed != Some(u) :: s'.sent[u] == s.sent[u]
    requires LedgerOk(s', PendingOf(task))
    ensures LogsOk(s')
  {
    HolderGoesOn(s.tasks, t, task);
    OthersStillFit(s, s', t, task);
  }

  lemma SendKeepsLedger(s: State, s': State, pending: seq<PortEvent>)
    requires Shaped(s) && LedgerOk(s, pending) && pending != []
    requires Shaped(s') && s'.installed == s.installed && s'.processed == s.processed && s'.table == Settle(s.table, pending[..1])
    requires s.installed.Some? ==>
               && s'.tasks[s.installed.value] == s.tasks[s.installed.value]
               && s'.sent[s.installed.value] == s.sent[s.installed.value] + [pending[0]]
    ensures LedgerOk(s', pending[1..])
    ensures s.installed.Some? ==> Replay(map[], s'.sent[s.installed.value]).Some?
  {
    SettleOneByOne(s.table, pending);
    if s.installed.Some? {
      var u := s.installed.value;
      assert s.sent[u] + pending == s.sent[u] + [pending[0]] + pending[1..];
      ReplayConcat(map[], s.sent[u] + [pending[0]], pending[1..]);
    }
  }

  /** What sending the next pending event does, spelled out. */
  lemma SendEffect(s: State, t: TaskId, order: seq<Port>)
    requires LogsOk(s) && Enabled(s, Work(t, order)) && s.tasks[t].Sending? && s.tasks[t].pending != []
    ensures var task, s' := s.tasks[t], Next(s, Work(t, order));
            && s'.tasks == s.tasks[t := Sending(task.from, task.inbox, task.pending[1..])]
            && s'.table == Settle(s.table, task.pending[..1])
            && s'.installed == s.installed && s'.processed == s.processed
            && (s.installed.Some? ==> s'.sent[s.installed.value] == s.sent[s.installed.value] + [task.pending[0]])
            && |s'.sent| == |s.sent| && (forall u | 0 <= u < |s.sent| && s.installed != Some(u) :: s'.sent[u] == s.sent[u])
            && (forall u | 0 <= u < |s.sent| :: s'.drained[u] <= |s'.sent[u]| <= s'.drained[u] + s'.capacity)
  {}

  /** What is left to send as the new state's pending events. */
  lemma SendBooked(s: State, s': State, t: TaskId, order: seq<Port>)
    requires LogsOk(s) && Exclusive(s.tasks) && Enabled(s, Work(t, order)) && s.tasks[t].Sending? && s.tasks[t].pending != []
    requires s' == Next(s, Work(t, order)) && Shaped(s')
    ensures LedgerOk(s', s.tasks[t].pending[1..])
    ensures s.installed.Some? ==> Replay(map[], s'.sent[s.installed.value]).Some?
  {
    HolderPends(s.tasks, t);
    assert s.installed != Some(t);
    SendEffect(s, t, order);
    SendKeepsLedger(s, s', s.tasks[t].pending);
  }

  lemma SendKeepsLogs(s: State, s': State, t: TaskId, order: seq<Port>)
    requires LogsOk(s) && Exclusive(s.tasks) && Enabled(s, Work(t, order)) && s.tasks[t].Sending? && s.tasks[t].pending != []
    requires s' == Next(s, Work(t, order)) && Shaped(s')
    ensures LogsOk(s')
  {
    var pending := s.tasks[t].pending;
    SendBooked(s, s', t, order);
    SendEffect(s, t, order);
    WriterKeepsLogs(s, s', t, Sending(s.tasks[t].from, s.tasks[t].inbox, pending[1..]));
  }

  /** What applying the event in hand leaves pending is what `Emits` allows, and completes it. */
  lemma UpdateOwes(s: State, t: TaskId, order: seq<Port>)
    requires Shaped(s) && Enabled(s, Work(t, order)) && s.tasks[t].Updating?
    ensures var s' := Next(s, Work(t, order));
            var from, event := s.tasks[t].from, s.tasks[t].inbox[0];
            && Emits(s.table, from, event, PendingOf(s'.tasks[t]))
            && Tidy(s'.table, PendingOf(s'.tasks[t]))
            && Settle(s'.table, PendingOf(s'.tasks[t])) == Process(s.table, from, event)
  {
    var s' := Next(s, Work(t, order));
    var from, event := s.tasks[t].from, s.tasks[t].inbox[0];
    if event.Delete? {
      var emptied := Emptied(s.table, EndpointId(from, event.uid));
      assert ClosedBy(Closes(order)) == emptied by {
        forall p | p in emptied
          ensures p in ClosedBy(Closes(order))
        {
          var i :| 0 <= i < |order| && order[i] == p;
          assert Closes(order)[i] == Close(p);
        }
      }
    } else {
      assert ClosedBy(PendingOf(s'.tasks[t])) == {};
    }
  }

  lemma UpdateKeepsLedger(s: State, s': State, from: string, event: EndpointEvent, out: seq<PortEvent>)
    requires Shaped(s) && LedgerOk(s, []) && WellFormed(s.table) && s.table == Run(s.processed)
    requires Emits(s.table, from, event, out) && Tidy(s'.table, out) && Settle(s'.table, out) == Process(s.table, from, event)
    requires Shaped(s') && s'.installed == s.installed && s'.processed == s.processed + [Report(from, event)] && s'.sent == s.sent
    requires s.installed.Some? ==> s'.tasks[s.installed.value] == s.tasks[s.installed.value]
    ensures LedgerOk(s', out)
  {
    assert s'.processed[..|s.processed|] == s.processed;
    if s.installed.Some? {
      var u := s.installed.value;
      assert s.sent[u] + [] == s.sent[u];
      StepReplays(s.table, from, event, out);
      ReplayConcat(map[], s.sent[u], out);
    }
  }

  /** What applying the event in hand does, spelled out. */
  lemma UpdateEffect(s: State, t: TaskId, order: seq<Port>)
    requires Shaped(s) && ChannelsOk(s) && Enabled(s, Work(t, order)) && s.tasks[t].Updating? && Shaped(Next(s, Work(t, order)))
    ensures var s' := Next(s, Work(t, order));
            && s'.tasks == s.tasks[t := WorkedTask(s, t, order)] && IsListener(WorkedTask(s, t, order))
            && s'.installed == s.installed && s'.sent == s.sent && ChannelsOk(s')
  {}

  /** The owed events as the new state's pending ones. */
  lemma UpdateBooked(s: State, s': State, t: TaskId, order: seq<Port>)
    requires Shaped(s) && LedgerOk(s, []) && WellFormed(s.table) && s.table == Run(s.processed)
    requires Enabled(s, Work(t, order)) && s.tasks[t].Updating? && s' == Next(s, Work(t, order)) && Shaped(s')
    ensures LedgerOk(s', PendingOf(WorkedTask(s, t, order)))
  {
    UpdateOwes(s, t, order);
    UpdateKeepsLedger(s, s', s.tasks[t].from, s.tasks[t].inbox[0], PendingOf(WorkedTask(s, t, order)));
  }

  lemma UpdateKeepsLogs(s: State, s': State, t: TaskId, order: seq<Port>)
    requires LogsOk(s) && Exclusive(s.tasks) && Enabled(s, Work(t, order)) && s.tasks[t].Updating?
    requires s' == Next(s, Work(t, order)) && Shaped(s')
    ensures LogsOk(s')
  {
    SettledFor(s, t);
    UpdateBooked(s, s', t, order);
    UpdateEffect(s, t, order);
    WriterKeepsLogs(s, s', t, WorkedTask(s, t, order));
  }

  lemma NextKeepsLogs(s: State, step: Step)
    requires LogsOk(s) && LocksOk(s) && Enabled(s, step)
    ensures LogsOk(Next(s, step))
  {
    NextKeepsLocks(s, step);
    match step
    case Request(t) => RequestKeepsLogs(s, t);
    case Grant(i) => GrantKeepsLogs(s, i);
    case Drain(t) =>
    case HangUp(t) =>
      assert SubscriberFits(s.table, s.tasks[t], s.sent[t]);
      QuietKeepsLogs(s, Next(s, step), t, HungUp);
    case Work(t, order) =>
      var task := s.tasks[t];
      if task.Updating? { UpdateKeepsLogs(s, Next(s, step), t, order); }
      else if Quiet(task) { QuietWorkKeepsLogs(s, t, order); }
      else if task.Sending? { SendKeepsLogs(s, Next(s, step), t, order); }
      else if task.Snapshotting? { SnapshotKeepsLogs(s, t, order); }
      else { InstallKeepsLogs(s, t, order); }
  }

  // ---- All of it ----------------------------------------------------------------------------

  ghost predicate Inv(s: State) {
    LocksOk(s) && RegistryOk(s) && LogsOk(s)
  }

  lemma InitialLedger(s: State)
    requires Shaped(s) && s.table == map[] && s.installed == None && s.processed == []
    ensures LedgerOk(s, [])
  {
    assert Settle(s.table, []) == map[];
  }

  lemma InitialSubscribers(s: State)
    requires Initial(s)
    ensures SubscribersFit(s) && ChannelsOk(s)
    ensures forall t | 0 <= t < |s.tasks| :: PendingOf(s.tasks[t]) == []
  {}

  lemma InitialLogsOk(s: State)
    requires Initial(s)
    ensures LogsOk(s)
  {
    InitialSubscribers(s);
    NothingPending(s.tasks);
    InitialLedger(s);
  }

  /** `s` is reached by the steps of `run` from a new service manager. */
  ghost predicate Reached(s0: State, run: seq<Step>, s: State) {
    Initial(s0) && Leads(s0, run, s)
  }

  /** Every step keeps the invariant. */
  lemma NextKeepsInv(s: State, step: Step)
    requires Inv(s) && Enabled(s, step)
    ensures Inv(Next(s, step))
  {
    NextKeepsLocks(s, step);
    NextKeepsRegistry(s, step);
    NextKeepsLogs(s, step);
  }

  lemma InitialLocksOk(s: State)
    requires Initial(s)
    ensures LocksOk(s)
  {
    forall t, l | 0 <= t < |s.tasks|
      ensures Wants(s.tasks[t]) == None && Holds(s.tasks[t], l) == None
    {}
  }

  lemma InitialRegistryOk(s: State)
    requires Initial(s)
    ensures RegistryOk(s)
  {
    forall t | 0 <= t < |s.tasks|
      ensures !IsListener(s.tasks[t]) && ListenerFits(s.registered, s.processed, s.tasks[t])
    {}
  }

  lemma InitialInv(s: State)
    requires Initial(s)
    ensures Inv(s)
  {
    InitialLocksOk(s);
    InitialRegistryOk(s);
    InitialLogsOk(s);
  }

  /** Every reachable state satisfies the invariant. */
  lemma {:induction false} ReachedInv(s0: State, run: seq<Step>, s: State)
    requires Reached(s0, run, s)
    ensures Inv(s)
  {
    if run == [] {
      InitialInv(s);
    } else {
      var n := |run| - 1;
      var mid :| Leads(s0, run[..n], mid) && Shaped(mid) && Enabled(mid, run[n]) && Next(mid, run[n]) == s;
      ReachedInv(s0, run[..n], mid);
      NextKeepsInv(mid, run[n]);
    }
  }
}
