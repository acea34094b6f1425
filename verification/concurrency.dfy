// src/backend/mod.rs under concurrency: listeners, subscribers, queries and registrations taking
// the service manager's locks, as a state machine over their steps.
//
// A step is what a task does between two points at which it may wait. The tokio locks are fair:
// requests for a lock are granted in the order they were made. A channel of `capacity` events sits
// between each subscriber and its receiver.
module Concurrency {
  import opened Wrappers
  import opened Endpoints
  import opened Services
  import opened PortLog
  import opened Histories

  type TaskId = nat

  datatype LockId = Names | Metrics | PortServiceMap | PortEventSender

  datatype Mode = Read | Write

  datatype Task =
    // listen_for_discovery_events; the event being processed is inbox[0] until it is applied
    | Listening(from: string, inbox: seq<EndpointEvent>)
    | AwaitingTable(from: string, inbox: seq<EndpointEvent>)
    | Updating(from: string, inbox: seq<EndpointEvent>)
    | Updated(from: string, inbox: seq<EndpointEvent>, pending: seq<PortEvent>)
    | AwaitingSender(from: string, inbox: seq<EndpointEvent>, pending: seq<PortEvent>)
    | Sending(from: string, inbox: seq<EndpointEvent>, pending: seq<PortEvent>)
    // send_port_events_to
    | Subscribing
    | SubscriberAwaitingTable
    | SubscriberReading
    | Snapshotting(todo: seq<Port>)
    | SubscriberAwaitingSender
    | Installing
    | Subscribed
    | HungUp
    // get_endpoint_for; `seen` is what its two loops see, the endpoints under the port if it is open
    | Querying(port: Port, index: nat)
    | QueryAwaitingTable(port: Port, index: nat)
    | Selecting(port: Port, index: nat)
    | Answered(port: Port, index: nat, seen: Option<map<EndpointId, Endpoint>>)
    // register_endpoint_discovery; `stream` is all the discovery task will ever send. A task that
    // is admitted goes on as its listener.
    | Registering(from: string, stream: seq<EndpointEvent>)
    | AwaitingNames(from: string, stream: seq<EndpointEvent>)
    | NamesHeld(from: string, stream: seq<EndpointEvent>)
    | AwaitingMetrics(from: string, stream: seq<EndpointEvent>)
    | BothHeld(from: string, stream: seq<EndpointEvent>)
    | Admitting(from: string, stream: seq<EndpointEvent>)
    | Refused

  /** `sent[t]` is all that subscriber t was sent, of which its receiver took `drained[t]`.
      `waiting` holds the tasks with an ungranted lock request, oldest first. The keys of `registered`
      are `registered_endpoint_discovery_names`; its values, and the applied reports in `processed`,
      are history that no step looks at. */
  datatype State = State(
    tasks: seq<Task>,
    waiting: seq<TaskId>,
    table: PortMap,
    installed: Option<TaskId>,
    sent: seq<seq<PortEvent>>,
    drained: seq<nat>,
    capacity: nat,
    registered: map<string, seq<EndpointEvent>>,
    processed: seq<Report>)

  // ---- Locks --------------------------------------------------------------------------------

  function Wants(task: Task): Option<(LockId, Mode)> {
    if task.AwaitingTable? then Some((PortServiceMap, Write))
    else if task.SubscriberAwaitingTable? || task.QueryAwaitingTable? then Some((PortServiceMap, Read))
    else if task.AwaitingSender? then Some((PortEventSender, Read))
    else if task.SubscriberAwaitingSender? then Some((PortEventSender, Write))
    else if task.AwaitingNames? then Some((Names, Write))
    else if task.AwaitingMetrics? then Some((Metrics, Write))
    else None
  }

  function Holds(task: Task, l: LockId): Option<Mode> {
    match l
    case PortServiceMap =>
      if task.Updating? || task.Updated? || task.AwaitingSender? || task.Sending? then Some(Write)
      else if task.SubscriberReading? || task.Snapshotting? || task.SubscriberAwaitingSender? || task.Installing? || task.Selecting?
      then Some(Read) else None
    case PortEventSender => if task.Sending? then Some(Read) else if task.Installing? then Some(Write) else None
    case Names => if task.NamesHeld? || task.AwaitingMetrics? || task.BothHeld? || task.Admitting? then Some(Write) else None
    case Metrics => if task.BothHeld? || task.Admitting? then Some(Write) else None
  }

  /** No task holds `l` in a mode that conflicts with `mode`. */
  predicate Free(tasks: seq<Task>, l: LockId, mode: Mode) {
    forall t | 0 <= t < |tasks| :: Holds(tasks[t], l) == None || (mode == Read && Holds(tasks[t], l) == Some(Read))
  }

  // ---- Steps --------------------------------------------------------------------------------

  /** `order` is the order in which the step sees a hash map iterated, where it iterates one. */
  datatype Step =
    | Request(t: TaskId)
    | Grant(i: nat)
    | Work(t: TaskId, order: seq<Port>)
    | Drain(t: TaskId)
    | HangUp(t: TaskId)

  /** What a task about to ask for a lock becomes by asking. */
  function AfterRequest(task: Task): Option<Task> {
    if task.Listening? && task.inbox != [] then Some(AwaitingTable(task.from, task.inbox))
    else if task.Updated? then Some(AwaitingSender(task.from, task.inbox, task.pending))
    else if task.Subscribing? then Some(SubscriberAwaitingTable)
    else if task == Snapshotting([]) then Some(SubscriberAwaitingSender)
    else if task.Querying? then Some(QueryAwaitingTable(task.port, task.index))
    else if task.Registering? then Some(AwaitingNames(task.from, task.stream))
    else if task.NamesHeld? then Some(AwaitingMetrics(task.from, task.stream))
    else None
  }

  function AfterGrant(task: Task): Task
    requires Wants(task).Some?
  {
    if task.AwaitingTable? then Updating(task.from, task.inbox)
    else if task.AwaitingSender? then Sending(task.from, task.inbox, task.pending)
    else if task.SubscriberAwaitingTable? then SubscriberReading
    else if task.SubscriberAwaitingSender? then Installing
    else if task.QueryAwaitingTable? then Selecting(task.port, task.index)
    else if task.AwaitingNames? then NamesHeld(task.from, task.stream)
    else BothHeld(task.from, task.stream)
  }

  predicate Room(s: State, t: TaskId)
    requires t < |s.sent| && |s.sent| == |s.drained|
  {
    |s.sent[t]| < s.drained[t] + s.capacity
  }

  predicate Shaped(s: State) {
    && |s.sent| == |s.tasks| && |s.drained| == |s.tasks| && s.capacity > 0
    && (s.installed.Some? ==> s.installed.value < |s.tasks|)
    && forall i | 0 <= i < |s.waiting| :: s.waiting[i] < |s.tasks| && Wants(s.tasks[s.waiting[i]]).Some?
  }

  ghost predicate CanWork(s: State, t: TaskId, order: seq<Port>)
    requires Shaped(s) && t < |s.tasks|
  {
    var task := s.tasks[t];
    if task.Updating? then
      task.inbox != [] && (task.inbox[0].Delete? ==> Lists(order, Emptied(s.table, EndpointId(task.from, task.inbox[0].uid))))
    else if task.Sending? then
      task.pending != [] && s.installed.Some? ==> Room(s, s.installed.value)
    else if task.SubscriberReading? then Lists(order, s.table.Keys)
    else if task.Snapshotting? then task.todo != [] && task.todo[0] in s.table && Room(s, t)
    else task.Installing? || task.Selecting? || task.BothHeld? || task.Admitting?
  }

  ghost predicate Enabled(s: State, step: Step)
    requires Shaped(s)
  {
    match step
    case Request(t) => t < |s.tasks| && AfterRequest(s.tasks[t]).Some?
    case Grant(i) =>
      && i < |s.waiting|
      && var want := Wants(s.tasks[s.waiting[i]]).value;
      && Free(s.tasks, want.0, want.1)
      && forall k | 0 <= k < i :: Wants(s.tasks[s.waiting[k]]).value.0 != want.0
    case Work(t, order) => t < |s.tasks| && CanWork(s, t, order)
    case Drain(t) => t < |s.tasks| && s.drained[t] < |s.sent[t]|
    case HangUp(t) => t < |s.tasks| && s.tasks[t].Snapshotting? && s.tasks[t].todo != []
  }

  function Deliver(s: State, t: TaskId, event: PortEvent): State
    requires Shaped(s) && t < |s.tasks|
  {
    s.(sent := s.sent[t := s.sent[t] + [event]])
  }

  function EndpointsOn(table: PortMap, p: Port): Option<map<EndpointId, Endpoint>> {
    if p in table then Some(table[p].endpoints) else None
  }

  /** What working makes of the task. */
  function WorkedTask(s: State, t: TaskId, order: seq<Port>): Task
    requires Shaped(s) && t < |s.tasks| && CanWork(s, t, order)
  {
    var task := s.tasks[t];
    if task.Updating? then
      var event, rest := task.inbox[0], task.inbox[1..];
      if event.Delete? then Updated(task.from, rest, Closes(order))
      else if event.Add? && event.externalPort !in s.table
      then Updated(task.from, rest, [Open(event.externalPort, event.externalProtocol)])
      else Listening(task.from, rest)
    else if task.Sending? then
      if task.pending == [] then Listening(task.from, task.inbox) else Sending(task.from, task.inbox, task.pending[1..])
    else if task.SubscriberReading? then Snapshotting(order)
    else if task.Snapshotting? then Snapshotting(task.todo[1..])
    else if task.Installing? then Subscribed
    else if task.Selecting? then Answered(task.port, task.index, EndpointsOn(s.table, task.port))
    else if task.BothHeld? then if task.from in s.registered then Refused else Admitting(task.from, task.stream)
    else Listening(task.from, task.stream)
  }

  function ClosedBy(pending: seq<PortEvent>): set<Port> {
    set i | 0 <= i < |pending| && pending[i].Close? :: pending[i].port
  }

  /** The table once the ports of the pending Closes have been removed from it. */
  function Settle(m: PortMap, pending: seq<PortEvent>): PortMap {
    m - ClosedBy(pending)
  }

  /** What working does to everything else. A listener applies the event in hand: an Add on an open
      port, a Suspend and a Resume end there; an Add that opens a port and a Delete leave port events
      to send first, and a Delete removes an emptied service only as it closes its port. */
  function Worked(s: State, t: TaskId, order: seq<Port>): State
    requires Shaped(s) && t < |s.tasks| && CanWork(s, t, order)
  {
    var task := s.tasks[t];
    var s' := s.(tasks := s.tasks[t := WorkedTask(s, t, order)]);
    if task.Updating? then
      var event := task.inbox[0];
      s'.(processed := s.processed + [Report(task.from, event)],
          table := if event.Delete? then Strip(s.table, EndpointId(task.from, event.uid)) else Process(s.table, task.from, event))
    else if task.Sending? && task.pending != [] then
      var s' := s'.(table := Settle(s.table, task.pending[..1]));
      if s.installed.Some? then Deliver(s', s.installed.value, task.pending[0]) else s'
    else if task.Snapshotting? then
      var service := s.table[task.todo[0]];
      Deliver(s', t, Open(service.port, service.protocol))
    else if task.Installing? then s'.(installed := Some(t))
    else if task.Admitting? then s'.(registered := s.registered[task.from := task.stream])
    else s'
  }

  function Next(s: State, step: Step): State
    requires Shaped(s) && Enabled(s, step)
  {
    match step
    case Request(t) => s.(tasks := s.tasks[t := AfterRequest(s.tasks[t]).value], waiting := s.waiting + [t])
    case Grant(i) =>
      var t := s.waiting[i];
      s.(tasks := s.tasks[t := AfterGrant(s.tasks[t])], waiting := s.waiting[..i] + s.waiting[i + 1..])
    case Work(t, order) => Worked(s, t, order)
    case Drain(t) => s.(drained := s.drained[t := s.drained[t] + 1])
    case HangUp(t) => s.(tasks := s.tasks[t := HungUp])
  }

  // ---- Runs ---------------------------------------------------------------------------------

  predicate IsListener(task: Task) {
    task.Listening? || task.AwaitingTable? || task.Updating? || task.Updated? || task.AwaitingSender? || task.Sending?
  }

  predicate Starting(task: Task) {
    task.Subscribing? || task.Querying? || task.Registering?
  }

  /** A new service manager, and any number of calls to it, none of which has moved. */
  predicate Initial(s: State) {
    && Shaped(s)
    && (forall t | 0 <= t < |s.tasks| :: Starting(s.tasks[t]) && s.sent[t] == [] && s.drained[t] == 0)
    && s.waiting == [] && s.table == map[] && s.installed == None && s.registered == map[] && s.processed == []
  }

  /** `s` is reached from `s0` by the steps of `run`, each of which was enabled. */
  ghost predicate Leads(s0: State, run: seq<Step>, s: State) {
    if run == [] then s == s0 else
    exists mid :: Leads(s0, run[..|run| - 1], mid) && Shaped(mid) && Enabled(mid, run[|run| - 1]) && Next(mid, run[|run| - 1]) == s
  }
}
