# Discovery, port announcement and endpoint selection: a verified model

State Proxy learns from discovery tasks which pods ask to be proxied and on which ports. This
project models that pipeline in Dafny and proves what it keeps:

1. the Kubernetes discovery task turns a pod watch stream (Applied, Deleted, Restarted) into
   endpoint events, remembering the uids it knows (`kubernetes.dfy`, `kubernetes_runtime.dfy`), after
   parsing the service annotation of each new pod (`annotations.dfy`, `announcement.dfy`);
2. the service manager folds the events of all discovery tasks into a nested table
   port -> service -> endpoint id -> endpoint, and tells a subscriber which ports to open and close
   (`services.dfy`, `backend.dfy`, `portlog.dfy`, `histories.dfy`, `port_protocols.dfy`);
3. subscribers attach in mid run with "snapshot, then deltas", and connections pick an endpoint from
   the same table (`backend.dfy`, `selection.dfy`), while all of these take the manager's locks
   concurrently (`concurrency.dfy`, `concurrency_invariant.dfy`, `concurrency_results.dfy`, and
   `concurrency_calls.dfy` on what becomes of each call).

`watch_effects.dfy` says what each watch event makes the task send, on the pods' fields alone,
`discovery_runs.dfy` proves what every history of watch events keeps, over what `discovery_lists.dfy`
says of one list of pods. `discovery_exact.dfy` says when exactly the known pods are the announced
ones, and `discovery_hangup.dfy` what a receiver that hangs up breaks. `resync.dfy` joins the task to
the table, `task_endpoints.dfy` says which pod's services the table then holds, `watch_phases.dfy` which
of them are available, and `end_to_end.dfy` joins all of it to the concurrent manager. `refill.dfy` is
the bounded refill loop of the endpoint protocol. `wrappers.dfy` and `endpoints.dfy` hold the shared
types.

How the model stands to the code:

- `ServiceManager`, `KubernetesDiscoveryRuntime`, the read buffer and its reader are classes whose
  methods update fields as the code does. Each method is proved equal to a function of the old state
  (`Services.Process`, `Kubernetes.Handle`, `Refill.Overlay`), and the lemmas are about those
  functions. The concurrent state machine applies the same functions.
- A hash map or set is iterated in an arbitrary order: methods pick elements one by one with nothing
  known about the pick, functions take an `order` that lists the keys once each (`Wrappers.Lists`).
- Each state of a task in `concurrency.dfy` is a point where the code may wait. Locks are tokio's:
  fair, granted in request order, readers sharing. A channel of any positive capacity lies between a
  subscriber and its receiver, and a full one blocks the sender.
- The watch stream is any sequence of events. IP address parsing is any partial function. A discovery
  task's channel accepts any number of further events and then refuses (`Runtime.life`).
- `Runtime.log` is a history of sent events, begun announcements and phases acted on. No step reads
  it; properties are stated about it.

Where the code departs from its evident intent, the code is modelled as it is, next to the intent:

- The wrap-around scan of `get_endpoint_for` takes n - index positions where index is meant
  (src/backend/mod.rs:120-121). It finds an endpoint whenever there is one exactly when
  2 * (index mod n) <= n (`Selection.ScanCompleteIff`; a connection that is turned
  away is `Backend.AvailableEndpointMissed`).
- A completed Restarted puts every listed uid into `known_pod_uids`
  (src/kubernetes/mod.rs:181-190), including pods skipped as incomplete and pods deleted as Succeeded.
  Announced pods are always known. When a known pod's announcement has at least begun is the
  condition of `DiscoveryExact.ExactIff`; when an Add of it stands, so that the manager can have heard
  of it, that of `DiscoveryExact.SilentIff` and `StandingIff`: a pod without the services annotation,
  or whose first item does not parse, is known all the same (`DiscoveryExact.KnownWithoutAdd`).
- An error ends the discovery task, and one at a Delete comes after the uid was forgotten
  (src/kubernetes/mod.rs:171-172, 190-193, 237-238). When that leaves an Add standing for a forgotten
  pod is the condition of `DiscoveryHangUp.LeaksIff`. The task's invariant, which also speaks of
  announcements begun and of Resumes, breaks under the wider one of `HangUpBreaksIff`
  (`DiscoveryHangUp.BrokenWithoutLeak`).
- Two tasks that open one port under different protocols are not refused: the port keeps the protocol
  of whichever came first. The interleaving matters exactly when more than one task opens the port and
  the openings ask for different protocols (`PortProtocols.ProtocolIndependentIff`).
- `fill_buffer_from` advances its slice by the total count (src/protocol/proxy/endpoint.rs:761). It
  panics exactly when the slice would start behind the end of a buffer that is not full
  (`Refill.PanicsIff`, `Refill.PanicExample`), says "end of stream" too early exactly when the slice has
  run out at the end of a buffer that is not full (`Refill.EarlyTrueIff`, `Refill.EarlyTrueExample`), and
  gets the bytes right exactly when every byte after the first non-empty read, or the first two into an
  empty buffer, is zero (`Refill.RightIff`, `Refill.AsWrittenWrongExample`). `Refill.AsIntendedIff` puts
  these together for a given run, `Refill.AlwaysAsIntendedIff` for given sizes of the reads.
- The comment at src/kubernetes/mod.rs:298-303 puts protocol before port in an annotation; the code
  (and tests/kubernetes.rs:103) reads port first, and so does the model.

## Model

| member | source | states |
|---|---|---|
| Services.ProcessKeepsWellFormed | src/backend/mod.rs:201-363 | Whenever the table's write lock is free every service is filed under its own port and has an endpoint, so `index %= n_endpoints` never divides by zero |
| Services.OpenIffServed | src/backend/mod.rs:218-301 | A port is open exactly when some endpoint is registered on it |
| Services.ProcessActsOnCells | src/backend/mod.rs:201-363 | The nested table refines independent cells: each event acts on every (port, endpoint id) by a small automaton of that cell alone |
| Services.DeleteClosesExactly | src/backend/mod.rs:270-301 | For every hash map order a Delete closes exactly the ports whose only endpoint was the deleted one, each once |
| Services.CellsDetermineTable | src/backend/mod.rs:396-401 | Well-formed tables with equal cells have the same ports and the same endpoints under each |
| PortLog.StepReplays | src/backend/mod.rs:218-301 | The port events of one step carry a strict subscriber from the old port-to-protocol table to the new one, for every iteration order |
| PortLog.OnlyChangesAreSent | src/backend/mod.rs:218-301 | Of each port one event sends one Open if it opened, one Close if it closed, and nothing otherwise, whatever happened to its endpoints |
| PortLog.ReplayIffAlternating | src/matchmaking/mod.rs:117-146 | A log never trips a consumer that asserts a port is not yet open iff per port Open and Close strictly alternate, and a port ends open iff its last event opened it |
| Histories.LastWriterWins | src/backend/mod.rs:201-363 | For any history the table holds (port, id) iff the last of Add(port, id) and Delete(id) is the Add; address and protocol are that Add's, availability is the last later Suspend or Resume, else the Add's flag |
| Histories.ProtocolOfOpener | src/backend/mod.rs:218-268 | A port's protocol is that of the Add that opened it since its last Close, whatever later Adds say |
| Histories.OwnStreamDecides | src/backend/mod.rs:201-363 | For any interleaving, a task's endpoints equal those its own stream alone would produce |
| Histories.OpenPortsAreUnion | src/backend/mod.rs:201-363 | The open ports are the union over the tasks of the ports each would open alone |
| Histories.InterleavingIndependence | src/backend/mod.rs:174-193 | Two interleavings of the same streams give the same ports and the same endpoints |
| PortProtocols.ProtocolIndependentIff | src/backend/mod.rs:218-268 | All interleavings of the tasks' streams record the same protocol for an open port iff one task alone opens it or all openings, each within its own stream, ask for one protocol |
| PortProtocols.UndisputedIsIndependent | src/backend/mod.rs:218-268 | If one task opens the port, or all openings ask for one protocol, any two interleavings agree on its protocol |
| PortProtocols.EveryOpeningIsPossible | src/backend/mod.rs:218-268 | If two tasks open a port that ends open, each opening's protocol is recorded by some interleaving |
| PortProtocols.OnlyTaskDecides | src/backend/mod.rs:218-268 | A port only one task adds to is open, and under the protocol, that this task's own stream makes it |
| PortProtocols.FirstComeFirstServed | src/backend/mod.rs:218-268 | Of two streams that each end with the port open, the one that runs first decides the protocol |
| PortProtocols.ProtocolDependsOnOrder | src/backend/mod.rs:218-268 | Two concrete interleavings of the same streams that record different protocols |
| Backend.ServiceManager.constructor | src/backend/mod.rs:61-70 | A new manager has an empty table, no subscriber and no registered names |
| Backend.ServiceManager.ProcessEvent | src/backend/mod.rs:201-363 | The table becomes `Process` of the old one; the installed subscriber is sent what `Emits` allows, and replaying all it was sent still gives the table's ports and protocols |
| Backend.ServiceManager.AddEndpoint | src/backend/mod.rs:204-269 | An Add inserts or replaces one endpoint, and sends an Open only when it creates the service |
| Backend.ServiceManager.DeleteEndpoint | src/backend/mod.rs:270-309 | A Delete removes the endpoint everywhere, then drops and closes exactly the emptied services |
| Backend.ServiceManager.StripEndpoint | src/backend/mod.rs:270-287 | The first loop removes the endpoint from every service and collects each emptied port once |
| Backend.ServiceManager.CloseServices | src/backend/mod.rs:289-301 | Every collected port is still present when it is removed, so the unwrap never fails, and a Close is sent for it |
| Backend.ServiceManager.SetAvailable | src/backend/mod.rs:310-361 | Suspend and Resume set the availability of the endpoint in every service and change nothing else |
| Backend.ServiceManager.SendEvent | src/backend/mod.rs:365-371 | An event is sent to the installed subscriber, and dropped if there is none |
| Backend.ServiceManager.SendPortEventsTo | src/backend/mod.rs:76-96 | The new subscriber is sent a snapshot that replays to exactly the table's ports and protocols, and is then installed; if, and only if, it hangs up meanwhile, it was sent one of a part of the table, and nothing is installed |
| Backend.ServiceManager.GetEndpointFor | src/backend/mod.rs:103-133 | With n endpoints and i = index % n, the answer is None iff no endpoint at a position from i on or below n - i is available, and else the address and protocol of the first available one from i on, going round; None for an unknown port |
| Backend.AnswerIsFirstUp | src/backend/mod.rs:103-133 | Any answer is that of an available endpoint, the first going round |
| Backend.AnswersSpreadEvenly | src/matchmaking/mod.rs:159-170 | While all n endpoints are available, any n consecutive calls are answered with each of them exactly once |
| Backend.ServiceManager.FirstAvailable | src/backend/mod.rs:112-129 | One of the two early-exit loops: the first available position of a range |
| Backend.ServiceManager.RegisterEndpointDiscovery | src/backend/mod.rs:136-172 | Succeeds iff the name is new; names and metrics stay in step |
| Backend.ServiceManager.ListenForDiscoveryEvents | src/backend/mod.rs:174-193 | Processing a task's whole stream leaves the table of running that stream |
| Selection.FirstIn | src/backend/mod.rs:112-119 | The first available position of a range, or none |
| Selection.ScanFindsCyclicFirst | src/backend/mod.rs:103-133 | Any answer is the first available endpoint in cyclic order from i; there is none exactly when nothing in [i, n) or [0, n - i) is available |
| Selection.ScanCompleteIff | src/backend/mod.rs:120-121 | The written scan finds an endpoint whenever one is available, for every availability, iff 2i <= n |
| Selection.ScanMissesIff | src/backend/mod.rs:120-121 | It misses iff all available endpoints lie in the unprobed positions [n - i, i) |
| Selection.ScanMissesExample | src/backend/mod.rs:120-121 | A concrete input on which the written scan finds nothing and the intended one does |
| Backend.AvailableEndpointMissed | src/backend/mod.rs:103-133 | Three Adds and a Resume after which an endpoint on port 80 is available and index 2 finds none |
| Selection.IntendedScanComplete | src/backend/mod.rs:98-102 | With the wrap-around scan taking i positions the search is complete for every i, and agrees with the written one wherever that answers |
| Selection.EvenSpreading | src/matchmaking/mod.rs:159-170 | With all n endpoints available, any n consecutive indices select each of them exactly once |
| ConcurrencyInvariant.NextKeepsLocks | src/backend/mod.rs:48-56 | Every step keeps: requests are queued once, and a lock held for writing is held by no one else |
| ConcurrencyInvariant.NextKeepsRegistry | src/backend/mod.rs:143-171 | Every step keeps: each registered name has exactly one listener, and what it has processed and has yet to process make up its stream |
| ConcurrencyInvariant.AdmitKeepsRegistry | src/backend/mod.rs:144-166 | The names lock makes the duplicate check and the insertion one |
| ConcurrencyInvariant.NextKeepsLogs | src/backend/mod.rs:80-95 | Every step keeps: up to what the writer has pending, the table is that of the processed reports and the subscriber's log replays to it; snapshots under way lack exactly the ports still to send; no channel overflows |
| ConcurrencyInvariant.ReachedInv | src/backend/mod.rs:48-56 | Every state reachable from any set of calls on a new manager satisfies the whole invariant |
| ConcurrencyResults.SnapshotThenDeltas | src/backend/mod.rs:80-95 | Under every interleaving, whenever the table's write lock is free, replaying what the installed subscriber was sent gives exactly the port-to-protocol table: nothing is lost or doubled |
| ConcurrencyResults.NoSubscriberFails | src/matchmaking/mod.rs:117-146 | At every moment the log of every subscriber, installed, replaced or under way, replays strictly, and per port Open and Close alternate from Open |
| ConcurrencyResults.WritersAreAlone | src/backend/mod.rs:48-56 | Mutual exclusion on all four locks |
| ConcurrencyResults.NamesAreUnique | src/backend/mod.rs:149-153 | No two listeners ever run under one name |
| ConcurrencyResults.EndpointsOfListener | src/backend/mod.rs:174-193 | A name's endpoints are what the part of its own stream processed so far makes of a new manager, however listeners are interleaved |
| ConcurrencyResults.Progress | src/backend/mod.rs:47 | No deadlock: while any call is unfinished some step is enabled, given only that full channels are drained |
| ConcurrencyResults.StepsComeCloser | src/backend/mod.rs:47 | Every step decreases a lexicographic measure, so no run goes on for ever |
| ConcurrencyResults.StuckMeansDone | src/backend/mod.rs:47 | A reachable state in which no step is enabled, hanging up and reading from a channel with room aside, is one in which all calls are done |
| ConcurrencyResults.Completes | src/backend/mod.rs:47 | From every reachable state the run can be continued until all calls are done |
| ConcurrencyResults.FinalTable | src/backend/mod.rs:174-193 | When all calls are done each name's endpoints are those of its whole stream alone, and the open ports are the union over the names |
| ConcurrencyCalls.FinalTableOfCalls | src/backend/mod.rs:136-193 | The same over the calls: the endpoints of each admitted call's name are those of the stream it was called with, the open ports are the union over the admitted calls, and the table holds nothing of other names |
| ConcurrencyCalls.EveryNameIsAdmitted | src/backend/mod.rs:149-171 | When all calls are done, of those that register a name exactly one was admitted and became its listener, with its own stream; the others were refused |
| ConcurrencyCalls.RefusedForAnother | src/backend/mod.rs:149-153 | At any time a refused call has another one of its name that was admitted |
| ConcurrencyCalls.DistinctNamesAreAllAdmitted | src/backend/mod.rs:149-171 | If no two calls register one name, none is refused |
| ConcurrencyCalls.SubscribersAreServed | src/backend/mod.rs:76-96 | When all calls are done and some subscriber's receiver did not hang up, a subscriber is installed, and what it was sent replays to exactly the table's ports and protocols |
| ConcurrencyCalls.OnlySubscriberIsServed | src/backend/mod.rs:76-96 | With one subscriber, it is that one |
| ConcurrencyCalls.SubscribedIsInstalled | src/backend/mod.rs:94-94 | Finishing a subscription installs it, and it stays installed until another one finishes |
| ConcurrencyCalls.ReachedInstalled | src/backend/mod.rs:94-94 | As soon as any subscription has finished, a finished one is installed |
| ConcurrencyCalls.HangUpMissesPorts | src/backend/mod.rs:83-93 | A subscriber that hangs up has been sent a part of the table as it is, and not all of it |
| ConcurrencyCalls.QuerySeesWholeTable | src/backend/mod.rs:108-130 | A query sees the table as some number of processed events make it, never one half way through an event, and no service without endpoints |
| ConcurrencyCalls.AnswerIsFromBetween | src/backend/mod.rs:103-133 | Queries are linearizable: what one sees is under its port after some number of events processed between its start and its answer |
| ConcurrencyCalls.QueriesAreAnswered | src/backend/mod.rs:103-133 | When all calls are done each query was answered for its own port and index |
| ConcurrencyCalls.OldestRequestFirst | src/backend/mod.rs:48-56 | No request for a lock is granted before an older one |
| Annotations.JoinSplit | src/kubernetes/mod.rs:275-275 | Splitting loses nothing, and no piece contains a separator |
| Annotations.SplitJoin | src/kubernetes/mod.rs:318-320 | Splitting gives back the joined pieces |
| Annotations.PortAcceptedIff | src/kubernetes/mod.rs:353-356 | A port is accepted iff its digits, with or without a plus sign before them, have a value of at most 65535, and then it is that value |
| Annotations.PortReadIff | src/kubernetes/mod.rs:353-356 | A string is read as port n iff it, or what follows one leading plus sign, is a non-empty string of digits of value n, and n <= 65535 |
| Annotations.StrayCharacterIsRefused | src/kubernetes/mod.rs:353-356 | A string with any other character, a plus sign elsewhere included, is no port |
| Annotations.PrintedPortParses | src/kubernetes/mod.rs:353-356 | Every 16-bit port survives printing and parsing |
| Annotations.ServiceReadIff | src/kubernetes/mod.rs:311-341 | An item is a service iff it has at least four fields and the first and the third denote 16-bit ports, and then it is exactly these with the second and the fourth |
| Annotations.ServiceRefusedIff | src/kubernetes/mod.rs:311-341 | It fails as invalid iff it has fewer than four fields, and else with the first of the two that is no port |
| Annotations.TrailingFieldsIgnored | src/kubernetes/mod.rs:311-327 | Fields after the fourth change nothing |
| Annotations.ValidPrefixIsLongest | src/kubernetes/mod.rs:275-288 | The valid prefix is the longest: the item after it does not parse |
| Annotations.AnnotationRoundTrip | src/kubernetes/mod.rs:266-343 | Parsing a printed annotation gives back exactly its services in order, whatever follows each after a ':' |
| Annotations.EmptyAnnotationIsInvalid | src/kubernetes/mod.rs:275-341 | An empty annotation is one item, and not a valid one |
| Announcement.AnnounceSendsPrefix | src/kubernetes/mod.rs:266-350 | Exactly the longest valid prefix is announced, as far as the receiver accepts, as unavailable Adds with matching fields, and the error returned is that of the first item that fails |
| Announcement.AnnounceOkIff | src/kubernetes/mod.rs:266-350 | Announcing succeeds iff every item is valid and accepted |
| Announcement.PrintedAnnotationAnnounces | src/kubernetes/mod.rs:266-343 | A pod annotated with printed services is announced by exactly the matching Adds in order |
| Announcement.NothingToAnnounce | src/kubernetes/mod.rs:273-295 | Without the annotation nothing is sent and the task goes on; with an empty one nothing is sent and the task fails |
| KubernetesRuntime.KubernetesDiscoveryRuntime.constructor | src/kubernetes/mod.rs:153-160 | A new task knows no pod and has sent nothing |
| KubernetesRuntime.KubernetesDiscoveryRuntime.HandlePodEvent | src/kubernetes/mod.rs:162-200 | State and result are those of `Handle`, for some order of the stale uids |
| KubernetesRuntime.KubernetesDiscoveryRuntime.Restart | src/kubernetes/mod.rs:180-197 | Both loops of a Restarted, with the replacement of the known uids between them |
| KubernetesRuntime.KubernetesDiscoveryRuntime.DeleteStale | src/kubernetes/mod.rs:189-195 | A Delete is sent for each old uid no longer listed, once, in hash set order, up to the first refusal |
| KubernetesRuntime.KubernetesDiscoveryRuntime.ApplyPod | src/kubernetes/mod.rs:202-264 | State and result are those of `Kubernetes.ApplyPod` |
| KubernetesRuntime.KubernetesDiscoveryRuntime.FollowPhase | src/kubernetes/mod.rs:232-259 | What each pod phase sends and forgets |
| KubernetesRuntime.KubernetesDiscoveryRuntime.DiscoverServices | src/kubernetes/mod.rs:266-296 | State and result are those of `Discover` |
| KubernetesRuntime.KubernetesDiscoveryRuntime.SendServiceFromString | src/kubernetes/mod.rs:304-343 | An item is announced iff it parses |
| KubernetesRuntime.KubernetesDiscoveryRuntime.Send | src/kubernetes/mod.rs:345-350 | An event is sent unless the receiver has hung up |
| WatchEffects.KnownPodIsTold | src/kubernetes/mod.rs:232-259 | A known pod with uid, name, annotations, status, address and phase makes the task send exactly Resume for Running, Delete for Succeeded, nothing for Pending and Suspend for any other phase |
| WatchEffects.NewPodIsTold | src/kubernetes/mod.rs:222-259 | A new one is told of by one Add for each service of its annotation, in order, and then by its phase |
| WatchEffects.NewPodFails | src/kubernetes/mod.rs:222-230 | If an item is no service, those before it are announced, the pod fails with that item's error, its phase is not told, and it counts as known |
| WatchEffects.PartialPodIsSkipped | src/kubernetes/mod.rs:203-214 | A pod that lacks one of the six fields changes nothing |
| WatchEffects.UnreadableAddressFails | src/kubernetes/mod.rs:215-220 | One whose address cannot be read fails with that address and changes nothing |
| WatchEffects.DeletedIsTold | src/kubernetes/mod.rs:169-179 | A deletion sends its Delete and forgets the uid, known or not; without a uid it changes nothing |
| WatchEffects.RestartedIsTold | src/kubernetes/mod.rs:180-197 | After a Restarted that succeeds exactly the uids of listed pods are known, whole pods or not; after what its pods are told of by it sent one Delete for each other uid known by then, and nothing else |
| WatchEffects.ListIsAppliedInOrder | src/kubernetes/mod.rs:181-187 | A list is applied pod by pod in its order, up to the first that fails |
| DiscoveryRuns.DiscoverKeepsSound | src/kubernetes/mod.rs:222-230 | A first announcement keeps the task's invariant whatever the annotation holds, even if it fails half way |
| DiscoveryRuns.HandleKeepsSound | src/kubernetes/mod.rs:162-264 | Every handled watch event, including one that ends in a parse error, keeps: announced pods are known, announcements start only for unannounced pods, and an announced pod is up iff its latest phase is Running |
| DiscoveryRuns.HistoryKeepsSound | src/kubernetes/mod.rs:115-122 | So does every history |
| DiscoveryRuns.NoLeakedPods | src/kubernetes/mod.rs:162-264 | A uid with an Add not yet followed by a Delete is always among the known uids |
| DiscoveryRuns.NoDoubleAnnouncement | src/kubernetes/mod.rs:222-230 | Between two announcements of one uid a Delete of it was sent |
| DiscoveryRuns.NoSecondAnnouncement | src/kubernetes/mod.rs:222-230 | As sent: two Adds of one uid with another event between them have a Delete of that uid between them |
| DiscoveryLists.ApplyPodOkIff | src/kubernetes/mod.rs:202-264 | Applying a pod succeeds iff its address and, if it is new, all its items can be read and the receiver accepts what it costs; then the cost is spent and the uid is known unless Succeeded |
| DiscoveryLists.ApplyAllOkIff | src/kubernetes/mod.rs:181-187 | Applying a list succeeds iff every pod can be read when its turn comes and the receiver accepts the sum of the costs; then the known uids are those whose last complete pod is not Succeeded, or that were known and have none |
| DiscoveryExact.ExactIff | src/kubernetes/mod.rs:180-197 | From known = announcement begun, a step ends so iff, for a Restarted whose pods can all be read, every listed uid is one that applying the list leaves known |
| DiscoveryExact.KnownNotAnnounced | src/kubernetes/mod.rs:181-190 | A concrete list after which a known pod's announcement has not begun |
| DiscoveryExact.CompleteListsKeepExact | src/kubernetes/mod.rs:162-264 | Known = announcement begun on all runs whose Restarted lists hold only complete, not Succeeded pods |
| DiscoveryExact.SilentIff | src/kubernetes/mod.rs:162-264 | From any sound state, which uids a step leaves known without an Add that stands: those made known by a pod whose first item is no service, those already so and not deleted, and those listed by a Restarted that its pods leave unknown |
| DiscoveryExact.StandingIff | src/kubernetes/mod.rs:162-264 | A step ends with known = Add stands iff no uid is of that kind |
| DiscoveryExact.AnnounceableRunsStand | src/kubernetes/mod.rs:162-264 | Known = Add stands on all runs whose complete pods each have a service as first item and whose Restarted lists hold only complete, not Succeeded pods |
| DiscoveryExact.KnownWithoutAdd | src/kubernetes/mod.rs:222-235 | A run after which a pod is known and its announcement begun, but all that was sent is a Resume |
| DiscoveryHangUp.HangUpBreaksIff | src/kubernetes/mod.rs:162-264 | A step that meets a receiver that has hung up breaks the task's invariant iff what goes missing is the Delete of a uid still live or up: the one refused, or one of the stale uids after it |
| DiscoveryHangUp.PodHangUp | src/kubernetes/mod.rs:222-259 | For one pod: iff it is Succeeded, and it was known and live or up, or its announcement used up what the receiver accepts |
| DiscoveryHangUp.DeletesHangUp | src/kubernetes/mod.rs:189-195 | For the deletions of a Restarted: iff one of the stale uids after those the receiver took is still live or up |
| DiscoveryHangUp.LeaksIff | src/kubernetes/mod.rs:162-264 | A step that meets a receiver that has hung up leaves an Add of a uid standing and the uid forgotten iff the refused event, or for a Restarted one of the stale deletions not taken, is the Delete of that uid and it has a standing Add; for a pod announced in the same step: its annotation is there, all valid, and used up what the receiver accepts |
| DiscoveryHangUp.RunLeaksIff | src/kubernetes/mod.rs:162-264 | The same after any history, over the sent events |
| DiscoveryHangUp.PodLeaksIff | src/kubernetes/mod.rs:222-259 | For one pod: iff it is Succeeded, and it was known with a standing Add, or it has services, all valid, whose announcement used up what the receiver accepts |
| DiscoveryHangUp.BrokenWithoutLeak | src/kubernetes/mod.rs:169-173 | A run whose last step breaks the invariant although only a Resume was ever sent |
| DiscoveryHangUp.AnnouncedPodLeaks | src/kubernetes/mod.rs:169-173 | A run that ends with an Add standing and its pod forgotten |
| Resync.TableFollowsLog | src/kubernetes/mod.rs:329-336 | The endpoints the manager holds for the task are of announced pods, available iff the last event about the pod was a Resume |
| TaskEndpoints.AnnouncedIffServed | src/kubernetes/mod.rs:329-336 | The manager holds an endpoint of a pod for the task iff an Add of it was sent and no Delete since |
| Resync.RestartedResyncs | src/kubernetes/mod.rs:180-197 | After any history, once a Restarted returns Ok and its events are processed in order among any others, every endpoint of the task has its pod listed, and other tasks' endpoints are their own streams' |
| TaskEndpoints.RestartedServes | src/kubernetes/mod.rs:180-264 | Completeness: then each pod the list announces has on each port of its annotation the endpoint of its last service there, at its address; pods known throughout keep their endpoints but for availability; all others have none |
| TaskEndpoints.KeptIff | src/kubernetes/mod.rs:180-264 | These are all cases: applying a list leaves a uid known iff it was known and no pod of it succeeded, or some pod of it is announced and none after it succeeded |
| TaskEndpoints.EndpointsAreOfOnePod | src/kubernetes/mod.rs:202-343 | After any history and under any interleaving, all endpoints of a uid of the task are the services of one pod that was applied or listed, at that pod's address |
| TaskEndpoints.HistoryComesFrom | src/kubernetes/mod.rs:162-264 | Every history keeps: a uid's endpoints are exactly the readable services of one such pod, or there are none |
| TaskEndpoints.AnnounceServes | src/kubernetes/mod.rs:266-343 | Announcing leaves on each port the endpoint of the last readable service there, and none on other ports |
| Resync.PhaseDrivesAvailability | src/kubernetes/mod.rs:232-259 | Once all events are processed an endpoint is available iff the latest non-Pending phase the task acted on since its pod's announcement is Running |
| WatchPhases.StreamDrivesAvailability | src/kubernetes/mod.rs:162-264 | On the watch stream itself: an endpoint is available iff the last non-Pending phase that an applied or listed pod of its uid with all six fields carried since it was announced is Running |
| WatchPhases.HistoryTracks | src/kubernetes/mod.rs:162-264 | Every history keeps: for a pod whose announcement has begun the task has acted on the last phase the watch stream gave it |
| Resync.ResyncIsIdempotent | src/kubernetes/mod.rs:180-197 | Handling the same list with distinct uids twice leaves the table as once, and no event of the second pass changes it or opens or closes a port, from any table and any task state |
| EndToEnd.RestartedReachesTable | src/backend/mod.rs:174-193 | The resynchronisation holds of the concurrently used table as soon as the task's listener has caught up |
| EndToEnd.RestartedFillsTable | src/backend/mod.rs:174-193 | So is its completeness: each pod the list announces has exactly its services' endpoints in the table |
| EndToEnd.AvailableIffRunning | src/kubernetes/mod.rs:232-259 | Under any concurrent use, once the listener has caught up, an endpoint of the task in the table is available iff the last non-Pending phase the watch stream gave its pod is Running |
| EndToEnd.SelectedPodIsRunning | src/backend/mod.rs:103-133 | Once the listener has caught up, an endpoint picked for a connection belongs to a pod whose last non-Pending phase in the watch stream is Running |
| EndToEnd.SelectedAddressIsOfPod | src/backend/mod.rs:103-133 | And it is given that pod's address, with the backend port and protocol of the last service its annotation has on the port connected to |
| EndToEnd.CaughtUpInTheEnd | src/backend/mod.rs:174-193 | The listener of the only call that registers a name has caught up with that call's stream when all calls are done |
| Refill.FillBufferAsIntended | src/protocol/proxy/endpoint.rs:742-767 | With the slice advanced by what was read: old bytes, then as much of the stream as fits, whatever the reads; true exactly at the end of the stream; an I/O error leaves the buffer padded |
| Refill.RefillComposes | src/protocol/proxy/endpoint.rs:742-767 | Repeated refills equal one refill from the joined streams, in the bytes, in what is left in the reader and in the answer |
| Refill.FillBufferFrom | src/protocol/proxy/endpoint.rs:742-767 | As written: when it panics, how many bytes it keeps and which, never more than 1025, and what it answers |
| Refill.PanicsIff | src/protocol/proxy/endpoint.rs:758-763 | A run without I/O error panics iff the offset is behind the end of the buffer and the count is not |
| Refill.PanicExample | src/protocol/proxy/endpoint.rs:758-763 | 600 bytes held and one read of one byte panic |
| Refill.EarlyTrueIff | src/protocol/proxy/endpoint.rs:753-766 | With bytes still pending the answer is true iff the offset is at the end of the buffer and the count is not |
| Refill.EarlyTrueExample | src/protocol/proxy/endpoint.rs:753-766 | One byte held and one read of 1023 answer true whatever is pending |
| Refill.Offset | src/protocol/proxy/endpoint.rs:753-761 | The write offset is never behind the byte count |
| Refill.OneSizeMore | src/protocol/proxy/endpoint.rs:756-761 | Each read moves the slice by the whole count reached then, and has to fit behind the slice's start |
| Refill.AsWrittenRightIff | src/protocol/proxy/endpoint.rs:753-767 | For given sizes of non-empty reads the bytes up to the count are right for all contents iff there was at most one read, or the buffer was empty and there were at most two |
| Refill.RightIff | src/protocol/proxy/endpoint.rs:753-767 | For given contents the bytes up to the count are right iff every byte of the later reads is zero |
| Refill.AsIntendedIff | src/protocol/proxy/endpoint.rs:742-767 | A run without I/O error leaves the bytes, the rest of the stream and the answer intended iff it filled the buffer or ended with the stream and without a panic, and every byte of the later reads is zero |
| Refill.AlwaysAsIntendedIff | src/protocol/proxy/endpoint.rs:742-767 | For given sizes of non-empty reads all such runs, whatever the bytes and whatever is pending, do as intended iff there were at most one, or two into an empty buffer, and they filled the buffer or left the slice room |
| Refill.AsWrittenWrongExample | src/protocol/proxy/endpoint.rs:753-767 | Three reads of one byte into an empty buffer give the caller a zero for the third |

## Left out

- Backend.ServiceManager.SendEvent: does not model the panic when an installed subscriber has hung up (src/backend/mod.rs:367-369), which ends the run. A subscriber that hangs up during its snapshot is modelled.
- Backend.ServiceManager.RegisterEndpointDiscovery: the channel and the start of the discovery task and its listener are not part of this method; `Concurrency.Admitting` has them, as one step.
- Backend.ServiceManager.ListenForDiscoveryEvents: neither the early return when the manager is gone (src/backend/mod.rs:181-185), as there is then no table left to speak of, nor the panic when the discovery task has disconnected (src/backend/mod.rs:195-198).
- The bound of 1024 events between a discovery task and its listener (src/backend/mod.rs:38): a task here is never held up by a slow listener.
- The two early-exit loops of `get_endpoint_for` are one method called with two ranges.
- Wrap-around of the 64-bit connection index: `EvenSpreading` is about indices that do not wrap.
- Releasing several locks at the end of a call is one step, as is the insertion of a name with the start of its listener; nothing waits between them.
- The contents of the read buffer after a panic in `fill_buffer_from`.
- `ConcurrencyResults.Completes` and `StuckMeansDone` speak of finite sets of calls and finite streams; fairness of an endless system is not modelled.
- src/protocol/proxy/endpoint.rs outside `fill_buffer_from`: no message is ever received to completion and the connection methods are not implemented.
- src/matchmaking: disabled and unfinished; used only for what a consumer expects of port events.
- src/state.rs, src/protocol/mod.rs, src/http.rs, src/handover.rs and src/bin/main.rs: not in the module tree, declarations, stubs or plumbing.
- Cluster connection, logging, metrics values and JSON are not modelled.
- Splitting, `u16::from_str` and tokio's locks and channels are library code, not part of the repository; the model follows their documentation.
