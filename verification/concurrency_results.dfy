// What follows for every reachable state of the state machine in concurrency.dfy: what subscribers
// are told, what the table holds, and that every set of calls comes to its end.
module ConcurrencyResults {
  import opened Wrappers
  import opened Endpoints
  import opened Services
  import opened PortLog
  import opened Histories
  import opened Concurrency
  import opened ConcurrencyInvariant

  // ---- Safety -------------------------------------------------------------------------------

  /** No one holds the table's write lock. */
  predicate TableReleased(tasks: seq<Task>) {
    forall t | 0 <= t < |tasks| :: Holds(tasks[t], PortServiceMap) != Some(Write)
  }

  lemma ReleasedMeansNonePending(tasks: seq<Task>)
    requires TableReleased(tasks)
    ensures Pending(tasks) == []
  {
    forall t | 0 <= t < |tasks|
      ensures PendingOf(tasks[t]) == []
    {
      assert Holds(tasks[t], PortServiceMap) != Some(Write);
    }
    NothingPending(tasks);
  }

  /** Snapshot, then deltas: whenever the table's write lock is free, the table is well formed and is
      what the processed reports make of it one after the other, and replaying what the installed
      subscriber was sent since it subscribed gives exactly its ports and protocols. Nothing opened
      or closed during the subscription was missed or sent twice. */
  lemma SnapshotThenDeltas(s0: State, run: seq<Step>, s: State)
    requires Reached(s0, run, s) && TableReleased(s.tasks)
    ensures s.table == Run(s.processed) && WellFormed(s.table)
    ensures s.installed.Some? ==>
              s.installed.value < |s.sent| && Replay(map[], s.sent[s.installed.value]) == Some(Protocols(s.table))
  {
    ReachedInv(s0, run, s);
    ReleasedMeansNonePending(s.tasks);
    SettledTable(s);
  }

  /** At every moment every subscriber, installed, replaced, under way or gone, has a log a strict
      receiver replays without failing: of each port, Open and Close alternate, from Open. */
  lemma NoSubscriberFails(s0: State, run: seq<Step>, s: State, t: TaskId, p: Port)
    requires Reached(s0, run, s) && t < |s.tasks|
    ensures t < |s.sent| && Replay(map[], s.sent[t]).Some?
    ensures Alternates(OfPort(s.sent[t], p), false)
  {
    ReachedInv(s0, run, s);
    assert SubscriberFits(s.table, s.tasks[t], s.sent[t]);
    ReplayedPortAlternates(map[], s.sent[t], p);
  }

  /** Locks exclude: who holds one for writing is alone with it. */
  lemma WritersAreAlone(s0: State, run: seq<Step>, s: State, l: LockId, t: TaskId, u: TaskId)
    requires Reached(s0, run, s) && t < |s.tasks| && u < |s.tasks|
    requires Holds(s.tasks[t], l) == Some(Write) && Holds(s.tasks[u], l).Some?
    ensures t == u
  {
    ReachedInv(s0, run, s);
  }

  /** `inbox` is what is left of `stream`, and the table holds (p, (name, uid)) as a new service
      manager would after the rest of the stream alone. */
  predicate IsShareOf(table: PortMap, name: string, inbox: seq<EndpointEvent>, stream: seq<EndpointEvent>, p: Port, uid: string) {
    && |inbox| <= |stream| && stream[|stream| - |inbox|..] == inbox
    && var done := Run(Tag(name, stream[..|stream| - |inbox|]));
       Lookup(table, p, EndpointId(name, uid)) == Lookup(done, p, EndpointId(name, uid))
  }

  lemma ListenerShare(s0: State, run: seq<Step>, s: State, t: TaskId)
    requires Reached(s0, run, s) && t < |s.tasks| && IsListener(s.tasks[t])
    ensures ListenerFits(s.registered, s.processed, s.tasks[t])
  {
    ReachedInv(s0, run, s);
  }

  lemma StreamSplit(name: string, done: seq<Report>, inbox: seq<EndpointEvent>, stream: seq<EndpointEvent>)
    requires done + Tag(name, inbox) == Tag(name, stream)
    ensures |inbox| <= |stream| && stream[|stream| - |inbox|..] == inbox
    ensures done == Tag(name, stream[..|stream| - |inbox|])
  {
    var k := |stream| - |inbox|;
    assert |done + Tag(name, inbox)| == |Tag(name, stream)|;
    forall i | 0 <= i < |inbox|
      ensures stream[k + i] == inbox[i]
    {
      assert Tag(name, stream)[k + i] == (done + Tag(name, inbox))[k + i];
    }
    forall i | 0 <= i < k
      ensures done[i] == Tag(name, stream[..k])[i]
    {
      assert Tag(name, stream)[i] == (done + Tag(name, inbox))[i];
    }
  }

  /** A registered name's endpoints are what the part of its own stream that its one listener has
      processed makes of a new service manager, however the listeners were interleaved. */
  lemma EndpointsOfListener(s0: State, run: seq<Step>, s: State, t: TaskId, p: Port, uid: string)
    requires Reached(s0, run, s) && TableReleased(s.tasks)
    requires t < |s.tasks| && IsListener(s.tasks[t])
    ensures s.tasks[t].from in s.registered
    ensures IsShareOf(s.table, s.tasks[t].from, s.tasks[t].inbox, s.registered[s.tasks[t].from], p, uid)
  {
    SnapshotThenDeltas(s0, run, s);
    ListenerShare(s0, run, s, t);
    var name := s.tasks[t].from;
    StreamSplit(name, Project(s.processed, name), s.tasks[t].inbox, s.registered[name]);
    OwnStreamDecides(s.processed, p, EndpointId(name, uid));
  }

  /** Two listeners never share a name: the second registration of a name is refused. */
  lemma NamesAreUnique(s0: State, run: seq<Step>, s: State, t: TaskId, u: TaskId)
    requires Reached(s0, run, s) && t < |s.tasks| && u < |s.tasks|
    requires IsListener(s.tasks[t]) && IsListener(s.tasks[u]) && s.tasks[t].from == s.tasks[u].from
    ensures t == u
  {
    ReachedInv(s0, run, s);
  }

  // ---- Progress -----------------------------------------------------------------------------

  /** Nothing left to do; a listener is done once its discovery task has nothing more to send. */
  predicate Done(task: Task) {
    task.Subscribed? || task.HungUp? || task.Answered? || task.Refused? || (task.Listening? && task.inbox == [])
  }

  predicate AllDone(s: State) {
    forall t | 0 <= t < |s.tasks| :: Done(s.tasks[t])
  }

  /** A step that does not rely on a receiver hanging up, and on one draining only where its channel
      is full. */
  predicate Ordinary(s: State, step: Step)
    requires Shaped(s)
  {
    !step.HangUp? && (step.Drain? && step.t < |s.tasks| ==> !Room(s, step.t))
  }

  predicate HasRoomToWork(s: State, t: TaskId)
    requires Shaped(s) && t < |s.tasks|
  {
    if s.tasks[t].Sending? then s.tasks[t].pending != [] && s.installed.Some? ==> Room(s, s.installed.value)
    else if s.tasks[t].Snapshotting? then s.tasks[t].todo != [] && Room(s, t)
    else true
  }

  /** A task that is neither done, nor about to ask for a lock, nor waiting for one, can work, or
      the channel it sends to is full and can be drained. */
  lemma WorkerMoves(s: State, t: TaskId) returns (step: Step)
    requires Inv(s) && t < |s.tasks| && !Done(s.tasks[t]) && AfterRequest(s.tasks[t]) == None && Wants(s.tasks[t]) == None
    ensures Enabled(s, step) && Ordinary(s, step)
  {
    var task := s.tasks[t];
    if !HasRoomToWork(s, t) {
      step := Drain(if task.Sending? then s.installed.value else t);
    } else {
      var order: seq<Port> := [];
      if task.Updating? {
        assert ListenerFits(s.registered, s.processed, task);
        order := ListingExists(Emptied(s.table, EndpointId(task.from, task.inbox[0].uid)));
      } else if task.SubscriberReading? {
        order := ListingExists(s.table.Keys);
      } else if task.Snapshotting? {
        assert SubscriberFits(s.table, task, s.sent[t]);
        assert task.todo[0] in Elements(task.todo);
      }
      step := Work(t, order);
    }
  }

  predicate WantsLock(s: State, t: TaskId, l: LockId) {
    t < |s.tasks| && Wants(s.tasks[t]).Some? && Wants(s.tasks[t]).value.0 == l
  }

  lemma OldestRequest(s: State, l: LockId, i: nat) returns (j: nat)
    requires Shaped(s) && i < |s.waiting| && WantsLock(s, s.waiting[i], l)
    ensures j <= i && WantsLock(s, s.waiting[j], l)
    ensures forall k | 0 <= k < j :: !WantsLock(s, s.waiting[k], l)
    decreases i
  {
    if k :| 0 <= k < i && WantsLock(s, s.waiting[k], l) {
      j := OldestRequest(s, l, k);
    } else {
      j := i;
    }
  }

  /** The oldest request for a lock nobody holds can be granted. */
  lemma UnheldLockIsGranted(s: State, t: TaskId, l: LockId) returns (step: Step)
    requires LocksOk(s) && WantsLock(s, t, l) && forall u | 0 <= u < |s.tasks| :: Holds(s.tasks[u], l) == None
    ensures Enabled(s, step) && Ordinary(s, step)
  {
    var i: nat :| i < |s.waiting| && s.waiting[i] == t;
    var j := OldestRequest(s, l, i);
    step := Grant(j);
    forall k | 0 <= k < j
      ensures Wants(s.tasks[s.waiting[k]]).value.0 != l
    {
      assert !WantsLock(s, s.waiting[k], l);
    }
  }

  /** When every unfinished task waits for a lock, one of them can be given it: whoever holds a lock
      waits for an inner one, table before sender and names before metrics, so an inner lock that is
      waited for is held by no one. */
  lemma SomeWaiterMoves(s: State, t: TaskId) returns (step: Step)
    requires LocksOk(s) && t < |s.tasks| && Wants(s.tasks[t]).Some?
    requires forall u | 0 <= u < |s.tasks| :: Done(s.tasks[u]) || Wants(s.tasks[u]).Some?
    ensures Enabled(s, step) && Ordinary(s, step)
  {
    forall u | 0 <= u < |s.tasks|
      ensures Holds(s.tasks[u], PortEventSender) == None && Holds(s.tasks[u], Metrics) == None
      ensures Holds(s.tasks[u], PortServiceMap).Some? ==> WantsLock(s, u, PortEventSender)
      ensures Holds(s.tasks[u], Names).Some? ==> WantsLock(s, u, Metrics)
    {
      assert Done(s.tasks[u]) || Wants(s.tasks[u]).Some?;
    }
    if u: TaskId :| WantsLock(s, u, PortEventSender) {
      step := UnheldLockIsGranted(s, u, PortEventSender);
    } else if u: TaskId :| WantsLock(s, u, Metrics) {
      step := UnheldLockIsGranted(s, u, Metrics);
    } else {
      step := UnheldLockIsGranted(s, t, Wants(s.tasks[t]).value.0);
    }
  }

  /** No deadlock: while any call is unfinished, some ordinary step is enabled. */
  lemma Progress(s: State) returns (step: Step)
    requires Inv(s) && !AllDone(s)
    ensures Enabled(s, step) && Ordinary(s, step)
  {
    var t: TaskId :| t < |s.tasks| && !Done(s.tasks[t]);
    if u: TaskId :| u < |s.tasks| && AfterRequest(s.tasks[u]).Some? {
      step := Request(u);
    } else if u: TaskId :| u < |s.tasks| && !Done(s.tasks[u]) && Wants(s.tasks[u]) == None {
      step := WorkerMoves(s, u);
    } else {
      step := SomeWaiterMoves(s, t);
    }
  }

  // ---- Termination --------------------------------------------------------------------------

  /** How many steps other than sends a task has before it at most. */
  function Coarse(task: Task): nat {
    if task.Listening? then 8 * |task.inbox|
    else if task.AwaitingTable? then if task.inbox == [] then 0 else 8 * |task.inbox| - 1
    else if task.Updating? then if task.inbox == [] then 0 else 8 * |task.inbox| - 2
    else if task.Updated? then 8 * |task.inbox| + 5
    else if task.AwaitingSender? then 8 * |task.inbox| + 4
    else if task.Sending? then 8 * |task.inbox| + 3
    else if task.Subscribing? then 6
    else if task.SubscriberAwaitingTable? then 5
    else if task.SubscriberReading? then 4
    else if task.Snapshotting? then 3
    else if task.SubscriberAwaitingSender? then 2
    else if task.Installing? then 1
    else if task.Querying? then 3
    else if task.QueryAwaitingTable? then 2
    else if task.Selecting? then 1
    else if task.Registering? then 8 * |task.stream| + 6
    else if task.AwaitingNames? then 8 * |task.stream| + 5
    else if task.NamesHeld? then 8 * |task.stream| + 4
    else if task.AwaitingMetrics? then 8 * |task.stream| + 3
    else if task.BothHeld? then 8 * |task.stream| + 2
    else if task.Admitting? then 8 * |task.stream| + 1
    else 0
  }

  /** How many sends a task has decided on. */
  function Fine(task: Task): nat {
    if task.Sending? then |task.pending| else if task.Snapshotting? then |task.todo| else 0
  }

  function Total(xs: seq<nat>): nat {
    if xs == [] then 0 else Total(xs[..|xs| - 1]) + xs[|xs| - 1]
  }

  lemma {:induction false} TotalUpdate(xs: seq<nat>, i: nat, x: nat)
    requires i < |xs|
    ensures Total(xs[i := x]) == Total(xs) - xs[i] + x
  {
    var n := |xs| - 1;
    if i < n {
      assert xs[i := x][..n] == xs[..n][i := x];
      TotalUpdate(xs[..n], i, x);
    } else {
      assert xs[i := x][..n] == xs[..n];
    }
  }

  function CoarseTotal(s: State): nat {
    Total(seq(|s.tasks|, t requires 0 <= t < |s.tasks| => Coarse(s.tasks[t])))
  }

  function FineTotal(s: State): nat {
    Total(seq(|s.tasks|, t requires 0 <= t < |s.tasks| => Fine(s.tasks[t])))
  }

  /** Events sent and not yet received. */
  function Undrained(s: State): nat
    requires Shaped(s) && ChannelsOk(s)
  {
    Total(seq(|s.sent|, t requires 0 <= t < |s.sent| => |s.sent[t]| - s.drained[t]))
  }

  lemma TaskTotals(s: State, s': State, t: TaskId, task: Task)
    requires t < |s.tasks| && s'.tasks == s.tasks[t := task]
    ensures CoarseTotal(s') == CoarseTotal(s) - Coarse(s.tasks[t]) + Coarse(task)
    ensures FineTotal(s') == FineTotal(s) - Fine(s.tasks[t]) + Fine(task)
  {
    var coarse := seq(|s.tasks|, u requires 0 <= u < |s.tasks| => Coarse(s.tasks[u]));
    var fine := seq(|s.tasks|, u requires 0 <= u < |s.tasks| => Fine(s.tasks[u]));
    TotalUpdate(coarse, t, Coarse(task));
    TotalUpdate(fine, t, Fine(task));
    assert seq(|s'.tasks|, u requires 0 <= u < |s'.tasks| => Coarse(s'.tasks[u])) == coarse[t := Coarse(task)];
    assert seq(|s'.tasks|, u requires 0 <= u < |s'.tasks| => Fine(s'.tasks[u])) == fine[t := Fine(task)];
  }

  lemma DrainTotals(s: State, s': State, t: TaskId)
    requires Shaped(s) && ChannelsOk(s) && Enabled(s, Drain(t)) && s' == Next(s, Drain(t)) && Shaped(s') && ChannelsOk(s')
    ensures Undrained(s') == Undrained(s) - 1 && CoarseTotal(s') == CoarseTotal(s) && FineTotal(s') == FineTotal(s)
  {
    var xs := seq(|s.sent|, u requires 0 <= u < |s.sent| => |s.sent[u]| - s.drained[u]);
    TotalUpdate(xs, t, xs[t] - 1);
    assert seq(|s'.sent|, u requires 0 <= u < |s'.sent| => |s'.sent[u]| - s'.drained[u]) == xs[t := xs[t] - 1];
  }

  /** `s'` has less ahead of it than `s`, lexicographically. */
  predicate Closer(s': State, s: State)
    requires Shaped(s) && ChannelsOk(s) && Shaped(s') && ChannelsOk(s')
  {
    CoarseTotal(s') < CoarseTotal(s) ||
    (CoarseTotal(s') == CoarseTotal(s) &&
     (FineTotal(s') < FineTotal(s) || (FineTotal(s') == FineTotal(s) && Undrained(s') < Undrained(s))))
  }

  lemma RequestComesCloser(s: State, t: TaskId)
    requires Shaped(s) && Enabled(s, Request(t))
    ensures CoarseTotal(Next(s, Request(t))) < CoarseTotal(s)
  {
    TaskTotals(s, Next(s, Request(t)), t, AfterRequest(s.tasks[t]).value);
  }

  lemma GrantCoarse(task: Task)
    requires Wants(task).Some? && (task.AwaitingTable? ==> task.inbox != [])
    ensures Coarse(AfterGrant(task)) < Coarse(task)
  {}

  lemma GrantComesCloser(s: State, i: nat)
    requires Shaped(s) && RegistryOk(s) && Enabled(s, Grant(i))
    ensures CoarseTotal(Next(s, Grant(i))) < CoarseTotal(s)
  {
    var t := s.waiting[i];
    assert ListenerFits(s.registered, s.processed, s.tasks[t]);
    GrantCoarse(s.tasks[t]);
    TaskTotals(s, Next(s, Grant(i)), t, AfterGrant(s.tasks[t]));
  }

  predicate Sends(task: Task) {
    (task.Sending? && task.pending != []) || task.Snapshotting?
  }

  lemma WorkCoarse(s: State, t: TaskId, order: seq<Port>)
    requires Shaped(s) && t < |s.tasks| && CanWork(s, t, order)
    ensures var was, task := s.tasks[t], WorkedTask(s, t, order);
            if Sends(was) then Coarse(task) == Coarse(was) && Fine(task) < Fine(was) else Coarse(task) < Coarse(was)
  {}

  lemma WorkComesCloser(s: State, t: TaskId, order: seq<Port>)
    requires Shaped(s) && Enabled(s, Work(t, order))
    ensures var s' := Next(s, Work(t, order));
            if Sends(s.tasks[t]) then CoarseTotal(s') == CoarseTotal(s) && FineTotal(s') < FineTotal(s)
            else CoarseTotal(s') < CoarseTotal(s)
  {
    WorkCoarse(s, t, order);
    TaskTotals(s, Next(s, Work(t, order)), t, WorkedTask(s, t, order));
  }

  lemma HangUpComesCloser(s: State, t: TaskId)
    requires Shaped(s) && Enabled(s, HangUp(t))
    ensures CoarseTotal(Next(s, HangUp(t))) < CoarseTotal(s)
  {
    TaskTotals(s, Next(s, HangUp(t)), t, HungUp);
  }

  /** Every step brings the end closer, so no run goes on for ever. */
  lemma StepsComeCloser(s: State, step: Step)
    requires Shaped(s) && ChannelsOk(s) && RegistryOk(s) && Enabled(s, step)
    requires Shaped(Next(s, step)) && ChannelsOk(Next(s, step))
    ensures Closer(Next(s, step), s)
  {
    match step
    case Request(t) => RequestComesCloser(s, t);
    case Grant(i) => GrantComesCloser(s, i);
    case Work(t, order) => WorkComesCloser(s, t, order);
    case Drain(t) => DrainTotals(s, Next(s, step), t);
    case HangUp(t) => HangUpComesCloser(s, t);
  }

  lemma ReachedOneMore(s0: State, run: seq<Step>, s: State, step: Step)
    requires Reached(s0, run, s) && Shaped(s) && Enabled(s, step)
    ensures Reached(s0, run + [step], Next(s, step))
  {
    assert (run + [step])[..|run|] == run;
  }

  lemma Advance(s0: State, run: seq<Step>, s: State) returns (step: Step)
    requires Reached(s0, run, s) && Inv(s) && !AllDone(s)
    ensures Enabled(s, step) && Reached(s0, run + [step], Next(s, step))
    ensures Inv(Next(s, step)) && Closer(Next(s, step), s)
  {
    step := Progress(s);
    ReachedOneMore(s0, run, s, step);
    ReachedInv(s0, run + [step], Next(s, step));
    StepsComeCloser(s, step);
  }

  ghost predicate CanStep(s: State, step: Step) {
    Shaped(s) && Enabled(s, step) && Ordinary(s, step)
  }

  /** A run stops only when all calls are done, and as every step comes closer to that, each run that
      goes on as long as it can stops. */
  lemma StuckMeansDone(s0: State, run: seq<Step>, s: State)
    requires Reached(s0, run, s)
    requires forall step :: !CanStep(s, step)
    ensures AllDone(s)
  {
    ReachedInv(s0, run, s);
    if !AllDone(s) {
      var step := Progress(s);
      assert CanStep(s, step);
    }
  }

  lemma CompletesFrom(s0: State, run: seq<Step>, s: State) returns (longer: seq<Step>, end: State)
    requires Reached(s0, run, s) && Inv(s)
    ensures run <= longer && Reached(s0, longer, end) && AllDone(end)
    decreases CoarseTotal(s), FineTotal(s), Undrained(s)
  {
    if AllDone(s) {
      longer, end := run, s;
    } else {
      var step := Advance(s0, run, s);
      longer, end := CompletesFrom(s0, run + [step], Next(s, step));
    }
  }

  /** Every call can finish: whatever has happened so far, the run can go on to a state in which all
      calls are done. */
  lemma Completes(s0: State, run: seq<Step>, s: State) returns (longer: seq<Step>, end: State)
    requires Reached(s0, run, s)
    ensures run <= longer && Reached(s0, longer, end) && AllDone(end)
  {
    ReachedInv(s0, run, s);
    longer, end := CompletesFrom(s0, run, s);
  }

  lemma ListenerExists(s0: State, run: seq<Step>, s: State, name: string) returns (t: TaskId)
    requires Reached(s0, run, s) && name in s.registered
    ensures ListenerOf(s.tasks, t, name) && ListenerFits(s.registered, s.processed, s.tasks[t])
  {
    ReachedInv(s0, run, s);
    t :| ListenerOf(s.tasks, t, name);
  }

  lemma FinishedListener(s0: State, run: seq<Step>, s: State, name: string)
    requires Reached(s0, run, s) && AllDone(s) && name in s.registered
    ensures Project(s.processed, name) == Tag(name, s.registered[name])
  {
    var t := ListenerExists(s0, run, s, name);
    assert Done(s.tasks[t]);
    assert Tag(name, []) == [];
    assert Project(s.processed, name) + [] == Project(s.processed, name);
  }

  lemma Unregistered(s0: State, run: seq<Step>, s: State, name: string)
    requires Reached(s0, run, s) && name !in s.registered
    ensures Project(s.processed, name) == []
  {
    ReachedInv(s0, run, s);
    ForeignNameProjectsEmpty(s.processed, name);
  }

  lemma FinalCells(s0: State, run: seq<Step>, s: State, p: Port, name: string, uid: string)
    requires Reached(s0, run, s) && AllDone(s) && name in s.registered
    ensures Lookup(Run(s.processed), p, EndpointId(name, uid)) == Lookup(Run(Tag(name, s.registered[name])), p, EndpointId(name, uid))
  {
    FinishedListener(s0, run, s, name);
    OwnStreamDecides(s.processed, p, EndpointId(name, uid));
  }

  lemma FinalShare(s0: State, run: seq<Step>, s: State, p: Port, name: string)
    requires Reached(s0, run, s) && AllDone(s)
    ensures p in Run(Project(s.processed, name)) <==> name in s.registered && p in Run(Tag(name, s.registered[name]))
  {
    if name in s.registered {
      FinishedListener(s0, run, s, name);
    } else {
      Unregistered(s0, run, s, name);
    }
  }

  lemma FinalPorts(s0: State, run: seq<Step>, s: State, p: Port)
    requires Reached(s0, run, s) && AllDone(s)
    ensures p in Run(s.processed) <==> exists name :: name in s.registered && p in Run(Tag(name, s.registered[name]))
  {
    OpenPortsAreUnion(s.processed, p);
    if p in Run(s.processed) {
      var name :| p in Run(Project(s.processed, name));
      FinalShare(s0, run, s, p, name);
      assert name in s.registered && p in Run(Tag(name, s.registered[name]));
    }
    if name :| name in s.registered && p in Run(Tag(name, s.registered[name])) {
      FinalShare(s0, run, s, p, name);
    }
  }

  /** Once all calls are done, each registered name's endpoints are what its whole stream alone makes
      of a new service manager, and the open ports are the union over the names. */
  lemma FinalTable(s0: State, run: seq<Step>, s: State, p: Port)
    requires Reached(s0, run, s) && AllDone(s)
    ensures forall name, uid | name in s.registered ::
              Lookup(s.table, p, EndpointId(name, uid)) == Lookup(Run(Tag(name, s.registered[name])), p, EndpointId(name, uid))
    ensures p in s.table <==> exists name :: name in s.registered && p in Run(Tag(name, s.registered[name]))
  {
    SnapshotThenDeltas(s0, run, s);
    FinalPorts(s0, run, s, p);
    forall name, uid | name in s.registered
      ensures Lookup(s.table, p, EndpointId(name, uid)) == Lookup(Run(Tag(name, s.registered[name])), p, EndpointId(name, uid))
    {
      FinalCells(s0, run, s, p, name, uid);
    }
  }
}
