# Trace context in the OpenStack instrumentations

This project models how the instrumentation packages for oslo.service, oslo.messaging,
keystonemiddleware, keystoneauth1, openstacksdk, TaskFlow and oslo.log move trace context
between threads, worker pools, messages and HTTP hops, and how they open and close spans on
the way. It proves that the claims the packages make about concurrency and about whole runs
follow from what the wrappers do.

## What is modelled

- `Spans`, `Programs`: spans (id, trace, parent, kind), the current context, carriers, and a
  small language of instrumented code: sequencing, raising and catching, spans, leaked
  attaches, log records, spawns and submits, traced sends, and the wrappers around received
  work. `Programs.Eval` is the reference semantics, a recursion in which handed-off work is
  simply a subtree. A span id is the position in that tree of the operation that opened it.
- `Scheduler`, `Schedules`: any number of workers, each with its own context and its own stack
  of unfinished work with the `finally` parts on it, interleaved by an arbitrary scheduler
  that also chooses which idle worker picks which queued item.  Runs are bounded and end only
  when everything is done, so the statements about complete runs are about something.
- `Propagation`, `Lifetimes`, `Enclosure`, `Causality`, `Traces`, `Requests`: context restoration,
  the life of spans and what happens inside them, parent links, what keeps work in its trace,
  and whole requests.
- `Runtime`: the wrappers as methods over mutable threads, thread objects, atoms and
  dictionaries, each proved against the reference semantics.
- `TaskflowHistory`, `TaskflowNames`, `TaskflowHandoff`, `TaskflowListener`: the TaskFlow trace
  listeners. First as a state machine with one step per lock section and one per span ended
  after the lock; then with the atoms, the names they are found by and the bodies that find
  their context on them; then one listener as an object.
- `OsloLog`, `Patching`, `EventletPatch`, `WsgiHeaders`: the life of the log handler and record
  factory, the patching and unpatching of functions, the `PYTHONPATH` block, and WSGI header
  names.

## Assumptions

- Calls of the span API do not raise, every span records, and new span ids are unique: queued
  work sits at positions of its own, and no span known from outside has an id below them.
  `detach(token)` restores what was current at the matching attach. `use_span` and
  `start_as_current_span` detach and end the span on every way out.
- Inject and extract are inverse to each other (the wire form of a span is a constructor, so
  it is injective), injecting replaces `traceparent` and nothing else, and extracting from a
  carrier without a well-formed `traceparent` gives the empty context.
- A started thread runs once. A queued item is picked by one worker, and workers are shared.
- TaskFlow delivers an atom's start notification before its body begins and its finish
  notification after the body; an atom is in one phase at a time, and atoms of one engine have
  different uuids and names (`TaskflowHandoff.NamesDecide` is what the names are for). A thread
  ends the span it took out before it handles another notification.
- `BaseInstrumentor.instrument` and `uninstrument` do nothing when there is nothing to do.
- `unwrap` takes the outermost wrapper off if it is a proxy, and does nothing otherwise.
- Case folding of header names is ASCII, and the path separator is `:`.

## What the proofs found

- Schedule independence needs no assumption on the workers if every hand-off carries its
  context; otherwise the workers must be alike. `Requests.HandoffIndependentIff` says exactly
  which hand-offs do: spawns with a positional callable, and messages whose context is a
  mapping. A server behind HTTP is the exception: it prefers a span that is already active on
  the worker to the one on the wire, as documented for upstream instrumentors.  So it continues
  the caller's trace exactly if nothing is active there, or something of that trace
  (`Requests.HttpContinuesIff`); `Requests.LeakedWorkerTakesOver` is a request that is lost.
- `openstacksdk`'s wrapper copies the headers with `dict(kwargs.get("headers", {}))`. With an
  explicit `headers=None` this raises `TypeError` inside the client span, and the wrapped call
  is never made; keystoneauth1's wrapper accepts it (`Runtime.NoneHeaders`).
- The flow span of a TaskFlow engine is a child of whatever is current on the thread that runs
  the engine; it is a root only if nothing is.
- An atom keeps a stashed context after its phase exactly if its body ran in another process.
- A log-record factory that an application installs while oslo.log is instrumented is lost
  when the instrumentation is taken off (`OsloLog.NewestKeptIff`). If oslo.log's `setup`
  raises after it has dropped the handlers, nothing is exported until the next `setup`
  (`OsloLog.OsloLogInstrumentor.ExportLost`).
- Uninstalling the concurrency patches takes off the outermost wrapper of each entry point if
  it is a proxy, whosever it is.  It is exact if and only if nobody has wrapped one of those
  entry points since (`Patching.UninstallExactIff`).
- Uninstrumenting TaskFlow puts the saved functions back, so it drops whatever others have put on
  those functions since (`Patching.RestoreExactIff`).
- A TaskFlow atom is found by name.  Were two atoms of one engine to share a name, a body could
  begin inside the other's span (`TaskflowHandoff.OtherNameMisleads`).

## Model

| member | source | states |
|---|---|---|
| Schedules.ScheduleIndependence | instrumentation/opentelemetry-instrumentation-oslo-service/src/opentelemetry/instrumentation/oslo_service/_propagation.py:98-161 | Every complete run, under any interleaving and any assignment of work to workers, shows exactly the events of the recursive reference semantics: the same spans with the same parents, traces, kinds and ends, and the same log stamps. The workers are alike, or nothing queued looks at them. |
| Schedules.NothingElseObserved | instrumentation/opentelemetry-instrumentation-oslo-service/src/opentelemetry/instrumentation/oslo_service/_propagation.py:112-135 | At no point of any run has anything been observed that the reference semantics does not have. |
| Schedules.RunsAgree | instrumentation/opentelemetry-instrumentation-oslo-service/src/opentelemetry/instrumentation/oslo_service/_propagation.py:122-133 | Two complete runs of work that carries its context agree on any two sets of workers with any contexts of their own. |
| Scheduler.StepKeeps | instrumentation/opentelemetry-instrumentation-oslo-service/src/opentelemetry/instrumentation/oslo_service/_propagation.py:124-130 | One step of a worker conserves: what it shows, what it hands off and what it has left to do are together what it had left to do, and its final context and outcome do not change. |
| Schedules.RunKeeps | instrumentation/opentelemetry-instrumentation-oslo-service/src/opentelemetry/instrumentation/oslo_service/_propagation.py:98-161 | Over a whole run, what has been observed and what is still to come add up to a constant. |
| Propagation.ContextRestored | instrumentation/opentelemetry-instrumentation-oslo-service/src/opentelemetry/instrumentation/oslo_service/_propagation.py:125-130 | A program whose leaks and raises all happen inside wrappers leaves the context it was entered with. |
| Propagation.NestTransparent | instrumentation/opentelemetry-instrumentation-oslo-messaging/src/opentelemetry/instrumentation/oslo_messaging/decorators.py:407-431 | For any nesting of re-attaching, consumer, entry and span wrappers around any body, raising or leaking attaches: the context on exit is that on entry, the body's outcome is the outcome, and the body runs in the innermost wrapper's context. |
| Propagation.BaseIrrelevant | instrumentation/opentelemetry-instrumentation-oslo-service/src/opentelemetry/instrumentation/oslo_service/_propagation.py:122-130 | Work all of whose hand-offs carry their context gives the same result whatever the workers' own context. |
| Schedules.IdleWorkersRestored | instrumentation/opentelemetry-instrumentation-oslo-messaging/src/opentelemetry/instrumentation/oslo_messaging/decorators.py:407-431 | At every moment of every run, on workers with any contexts of their own, a worker with nothing to do has the context it started with, whatever ran, leaked or raised on it. |
| Schedules.DispatchIsolated | instrumentation/opentelemetry-instrumentation-oslo-messaging/src/opentelemetry/instrumentation/oslo_messaging/decorators.py:467-496 | Whenever a worker picks a message, at any point of any run on any workers, the next thing it shows is a consumer span under the message's own wire context, or under the context the worker had before its first message. |
| Schedules.PoolIsolation | instrumentation/opentelemetry-instrumentation-oslo-messaging/src/opentelemetry/instrumentation/oslo_messaging/decorators.py:398-431 | Over a complete run on workers that began alike, every queued message has its consumer span, parented by its own wire context or by the context the workers began with. |
| Lifetimes.SpansCloseOnce | instrumentation/opentelemetry-instrumentation-oslo-messaging/src/opentelemetry/instrumentation/oslo_messaging/decorators.py:274-279 | At every moment of every run, on any workers and whatever leaks or raises: each position names at most one span or record; each span started has ended once or has one frame that will end it; none has ended before it started. In a complete run all have ended. |
| Enclosure.SpansEncloseTheirWork | instrumentation/opentelemetry-instrumentation-keystonemiddleware/src/opentelemetry/instrumentation/keystonemiddleware/__init__.py:438-459 | In every run, whatever raises, leaks or is interleaved: once a span has ended, nothing inside it is left on any stack or in the queue; and everything at or below its position comes after its start and, unless it was handed off inside the span, before its end. |
| Causality.ParentsPrecede | README.md:31-65 | In every reachable state each span's parent was started earlier in the log, or was known before, and is not started again or later; each span has its parent's trace; stamps name spans that exist. |
| Causality.NoCycles | README.md:31-65 | In every reachable state the ancestors of a span, over any number of parent links, are strictly earlier in the log: no span is its own ancestor. |
| Causality.RootsSeparate | instrumentation/opentelemetry-instrumentation-keystonemiddleware/src/opentelemetry/instrumentation/keystonemiddleware/__init__.py:142-160 | In every run, no two spans without a parent are in the same trace. |
| Causality.DescendantsShareTrace | README.md:31-65 | Everything that descends from a span through parent links, over any number of hops, is in its trace. |
| Traces.StaysInTrace | README.md:53-65 | In the reference semantics, work run in a context of a request, with all that it hands off through threads, pools, messages and HTTP, stays in the request's trace, opened spans and log stamps alike. |
| Traces.RunTogether | instrumentation/opentelemetry-instrumentation-oslo-messaging/src/opentelemetry/instrumentation/oslo_messaging/decorators.py:274-278 | Under any schedule and beside any other work, everything at or below a position, seen or still to come, stays in its trace; with HTTP hops, as long as the workers' own contexts are harmless. |
| Causality.StepCaused | instrumentation/opentelemetry-instrumentation-oslo-messaging/src/opentelemetry/instrumentation/oslo_messaging/decorators.py:274-278 | A step names no span that its worker did not have, except the one it starts. |
| Requests.RequestIsOneTrace | instrumentation/opentelemetry-instrumentation-keystonemiddleware/src/opentelemetry/instrumentation/keystonemiddleware/__init__.py:134-160 | Every request, whether a client, an entry point or a consumer opens its first span, with or without a trace on the wire, and whenever it was queued, is one trace: under every schedule and beside any other work that gives its worker back, all its spans and log records, over any number of thread, pool, RPC and HTTP hops. The trace is the one that its first span gets from the worker that picks it; on workers without a context, that of the wire or its own. |
| Requests.RequestsSeparate | instrumentation/opentelemetry-instrumentation-keystonemiddleware/src/opentelemetry/instrumentation/keystonemiddleware/__init__.py:142-160 | Two requests that bring no trace along, on workers without a context, share no trace: no span or record at or below the one is seen in a trace that anything at or below the other is seen in. |
| Requests.DocumentedIsOneTrace | README.md:31-65 | The pipeline of the documentation, SDK over session over HTTP to a service that sends a message to another which spawns work, is one trace from the first span to the last record, in every run. |
| Requests.RunningStays | README.md:53-58 | At any point of any run, when a worker is about to run work that begins in a trace, all that the work does and hands off stays in it: under every schedule and beside any other work; without HTTP hops, whatever the contexts of the workers are and whatever that other work does to them. |
| Requests.RemoteTraceContinues | instrumentation/opentelemetry-instrumentation-oslo-messaging/src/opentelemetry/instrumentation/oslo_messaging/decorators.py:398-431 | A message or HTTP request in the queue with a trace on the wire, whenever and by whom it was sent, continues exactly that trace, under every schedule and beside any other work; a message on any workers, whatever their contexts. |
| Requests.TravellersStay | instrumentation/opentelemetry-instrumentation-oslo-service/src/opentelemetry/instrumentation/oslo_service/_propagation.py:122-130 | Queued work that brings its context along, whenever it was queued, stays in its trace with all that it hands off: under every schedule, beside any other work, and, without HTTP hops, whatever that work does to the workers. |
| Requests.HttpContinuesIff | instrumentation/opentelemetry-instrumentation-keystonemiddleware/src/opentelemetry/instrumentation/keystonemiddleware/__init__.py:153-160 | An HTTP request continues its client's trace, in all that it causes, if and only if the worker that serves it has no span current or one of that trace. |
| Requests.PickedRequestContinuesIff | instrumentation/opentelemetry-instrumentation-keystonemiddleware/src/opentelemetry/instrumentation/keystonemiddleware/__init__.py:153-160 | In runs: an HTTP request that a worker picks continues the trace on its wire, in every continuation, if and only if that worker's own context is empty or of that trace. |
| Requests.LeakedWorkerTakesOver | instrumentation/opentelemetry-instrumentation-keystonemiddleware/src/opentelemetry/instrumentation/keystonemiddleware/__init__.py:153-155 | A request that a worker with a leaked span takes out of its trace. |
| Requests.OneServerSpan | instrumentation/opentelemetry-instrumentation-keystonemiddleware/src/opentelemetry/instrumentation/keystonemiddleware/__init__.py:134-160 | A request opens exactly one span at its entry: INTERNAL under the active span if there is one, else SERVER under the headers' context. Every other span of it, at any nesting and over any hops, is opened under an active span, and is SERVER only as the receiving end of an HTTP hop, under the CLIENT span that sent it. |
| Requests.EachHopServed | instrumentation/opentelemetry-instrumentation-keystonemiddleware/src/opentelemetry/instrumentation/keystonemiddleware/__init__.py:204-213 | Each HTTP hop to a worker with no span current opens exactly one span there, a SERVER span under the CLIENT span that sent it. |
| Requests.NestStarts | instrumentation/opentelemetry-instrumentation-keystonemiddleware/src/opentelemetry/instrumentation/keystonemiddleware/__init__.py:434-459 | In any nesting of wrappers each opens exactly one span, of the kind and under the parent that the context at its own depth decides. |
| Requests.InnerEntryIsInternal | instrumentation/opentelemetry-instrumentation-keystonemiddleware/src/opentelemetry/instrumentation/keystonemiddleware/__init__.py:501-521 | An entry point inside another wrapper opens exactly one INTERNAL span, under the very span that the wrapper around it opened. |
| Requests.HandoffIndependentIff | instrumentation/opentelemetry-instrumentation-oslo-messaging/src/opentelemetry/instrumentation/oslo_messaging/decorators.py:275-277 | A hand-off of traced work, whose own hand-offs carry their context, is independent of the receiving worker's context if and only if the callable is positional, or the message context is a mapping and the receiver is a dispatcher. |
| Runtime.Thread.SpanAround | instrumentation/opentelemetry-instrumentation-keystonemiddleware/src/opentelemetry/instrumentation/keystonemiddleware/__init__.py:438-459 | A span around a call: on the log it is started first and ended last, on every way out; the context and the outcome come back, and the events are those of the reference semantics. |
| Runtime.Thread.RunCaptured | instrumentation/opentelemetry-instrumentation-oslo-service/src/opentelemetry/instrumentation/oslo_service/_propagation.py:124-130 | The re-attaching wrapper does what the reference semantics says and restores the context whenever it attached one. |
| Runtime.Thread.SpawnWrapper | instrumentation/opentelemetry-instrumentation-oslo-service/src/opentelemetry/instrumentation/oslo_service/_propagation.py:112-135 | A spawn or submit queues work that will run under the context captured now if the callable is positional, and untouched work if not. |
| Runtime.Thread.ThreadStart | instrumentation/opentelemetry-instrumentation-oslo-service/src/opentelemetry/instrumentation/oslo_service/_propagation.py:138-147 | Starting a thread leaves the starter's context on it; the thread runs as handed-off work of the starter. |
| Runtime.Thread.ThreadRun | instrumentation/opentelemetry-instrumentation-oslo-service/src/opentelemetry/instrumentation/oslo_service/_propagation.py:150-161 | The thread body runs under the stashed context if there is one, and the context comes back. |
| Runtime.Thread.AtomBody | instrumentation/opentelemetry-instrumentation-taskflow/src/opentelemetry/instrumentation/taskflow/listener.py:281-291 | The atom body runs under the stashed context if there is one; the stash is gone afterwards on every way out, and the context comes back. |
| Runtime.Thread.Dispatch | instrumentation/opentelemetry-instrumentation-oslo-messaging/src/opentelemetry/instrumentation/oslo_messaging/decorators.py:398-431 | RPC and notification dispatch: one CONSUMER span under the wire's context, else under the worker's, started before and ended after all that the handler shows; context restored and the handler's outcome returned. |
| Runtime.Thread.EntryWrapper | instrumentation/opentelemetry-instrumentation-keystonemiddleware/src/opentelemetry/instrumentation/keystonemiddleware/__init__.py:434-459 | Entry point: INTERNAL under an active span, else SERVER under the headers' context, started before and ended after all that the wrapped call shows; context restored, outcome returned. |
| Runtime.Thread.InjectWrapper | instrumentation/opentelemetry-instrumentation-oslo-messaging/src/opentelemetry/instrumentation/oslo_messaging/decorators.py:274-279 | A send opens a PRODUCER span, writes it and nothing else into the message's own context mapping (if it is one), queues exactly that mapping for the receiver, ends the span, and passes on the call's exception. |
| Runtime.Thread.Request | instrumentation/opentelemetry-instrumentation-openstacksdk/src/opentelemetry/instrumentation/openstacksdk/__init__.py:237-251 | For any depth of stacked client wrappers: what is sent agrees with the caller's headers on every key but `traceparent`, which carries the innermost of the nested CLIENT spans; the receiver gets exactly what is sent; the caller's dictionary is unchanged; nothing is sent exactly for an explicit `None` at the SDK layer; the call's exception is passed on; and the events are those of the reference semantics. |
| Runtime.NoneHeaders | instrumentation/opentelemetry-instrumentation-openstacksdk/src/opentelemetry/instrumentation/openstacksdk/__init__.py:244-248 | With an explicit `headers=None` the SDK layer raises `TypeError` after opening its span, and nothing goes out; without the argument, or at the session layer, it does. |
| Runtime.OuterInjectionInvisible | instrumentation/opentelemetry-instrumentation-keystoneauth1/src/opentelemetry/instrumentation/keystoneauth1/__init__.py:275-294 | Headers that already carry an outer layer's span change nothing in what an inner layer and everything behind it do. |
| Runtime.Thread.Call | instrumentation/opentelemetry-instrumentation-oslo-service/src/opentelemetry/instrumentation/oslo_service/_propagation.py:124-130 | Any program, run by the wrappers on one thread, has the outcome, final context and events of the reference semantics, counting what its handed-off work will add. |
| TaskflowHistory.SpansConserved | instrumentation/opentelemetry-instrumentation-taskflow/src/opentelemetry/instrumentation/taskflow/listener.py:152-175 | After any notifications from any threads, each span ever started is in exactly one place: a flow slot or atom table, one thread's hands, or among the ended, where it occurs once. |
| TaskflowHistory.TablesMatchLog | instrumentation/opentelemetry-instrumentation-taskflow/src/opentelemetry/instrumentation/taskflow/listener.py:235-269 | The tables kept up incrementally are what matching starts and finishes of each key over the whole log gives: open phases are those the log leaves open, and phases taken out, with their failure marks, are those it closes. |
| TaskflowHistory.FlowParentage | instrumentation/opentelemetry-instrumentation-taskflow/src/opentelemetry/instrumentation/taskflow/listener.py:237-251 | Each atom span's parent is the span of its engine's flow that was open when the atom started, and the ambient context only if none was. |
| TaskflowHistory.SpansJoinTheTrace | instrumentation/opentelemetry-instrumentation-taskflow/src/opentelemetry/instrumentation/taskflow/listener.py:156-164 | An atom's span is in the trace of the flow span open at its start, and a flow span in the trace current when the flow runs, if there is one. |
| TaskflowHistory.ResumeOpensNewFlow | instrumentation/opentelemetry-instrumentation-taskflow/src/opentelemetry/instrumentation/taskflow/listener.py:85-92 | In every run, whatever comes between: a flow that was finished or suspended and runs again gets a span of its own, all earlier flow spans of the engine are closed by then, and the atoms started until its next closing state are under the new span. |
| TaskflowHistory.OpenIff | instrumentation/opentelemetry-instrumentation-taskflow/src/opentelemetry/instrumentation/taskflow/listener.py:239-241 | A key is open for a span if and only if the log leaves that span's phase open, so at most one flow span is open per engine. |
| TaskflowHistory.FlowStates | instrumentation/opentelemetry-instrumentation-taskflow/src/opentelemetry/instrumentation/taskflow/listener.py:85-92 | In every reachable state, with the states written out: RUNNING leaves a flow span open; SUCCESS and SUSPENDED, and FAILURE, REVERTED and REVERT_FAILURE, leave none and hand the one there was out unfailed or failed; any other state changes nothing. |
| TaskflowHistory.AtomStates | instrumentation/opentelemetry-instrumentation-taskflow/src/opentelemetry/instrumentation/taskflow/listener.py:71-83 | The same for the six atom states and the execute and revert phases they open and close, with their failure marks. |
| TaskflowHistory.OpenByLastWord | instrumentation/opentelemetry-instrumentation-taskflow/src/opentelemetry/instrumentation/taskflow/listener.py:71-92 | In every run, a flow or phase is open if and only if one of its opening states was notified and none of its closing states since, the states being written out. |
| TaskflowHistory.SuspendedResumes | instrumentation/opentelemetry-instrumentation-taskflow/src/opentelemetry/instrumentation/taskflow/listener.py:85-92 | A flow that runs, is suspended and runs again: the first span is handed out unfailed and a second one opened. |
| TaskflowHistory.NewOpens | instrumentation/opentelemetry-instrumentation-taskflow/src/opentelemetry/instrumentation/taskflow/listener.py:240-251 | A start opens a phase, by the log, exactly when the listener does not ignore it. |
| TaskflowHistory.RunsSound | instrumentation/opentelemetry-instrumentation-taskflow/src/opentelemetry/instrumentation/taskflow/listener.py:152-175 | Conservation, agreement with the log, parentage and the pairing of flow span and flow context hold in every state of every run. |
| TaskflowHandoff.BodiesSeeTheirSpan | instrumentation/opentelemetry-instrumentation-taskflow/src/opentelemetry/instrumentation/taskflow/listener.py:253-291 | In every interleaving of any engines and threads, if no name leads to another atom, each body begins with exactly the span that its own phase's start opened, or with nothing exactly if its name leads nowhere. |
| TaskflowHandoff.NodesSeeTheirSpan | instrumentation/opentelemetry-instrumentation-taskflow/src/opentelemetry/instrumentation/taskflow/listener.py:228-291 | In terms of the graphs alone, with unique names: a body begins with exactly its own phase's span if its atom is a node of its engine's graph and with nothing otherwise, and between phases the atom carries something exactly if it is such a node and its last body ran elsewhere. |
| TaskflowHandoff.KnownIff | instrumentation/opentelemetry-instrumentation-taskflow/src/opentelemetry/instrumentation/taskflow/listener.py:228-233 | With unique names, an atom is found by its name if and only if it is a node of its engine's graph. |
| TaskflowHandoff.BodiesJoinTheFlow | instrumentation/opentelemetry-instrumentation-taskflow/src/opentelemetry/instrumentation/taskflow/listener.py:281-291 | A body that runs under what it finds on its atom is, with all that it does and hands off, in the trace of the flow span open when its atom started, and the thread's context comes back. |
| TaskflowHandoff.NamesDecide | instrumentation/opentelemetry-instrumentation-taskflow/src/opentelemetry/instrumentation/taskflow/listener.py:201-233 | Bodies never see another phase's span, in any run, if and only if no name in an engine's graph leads to another atom. |
| TaskflowHandoff.OtherNameMisleads | instrumentation/opentelemetry-instrumentation-taskflow/src/opentelemetry/instrumentation/taskflow/listener.py:228-233 | If a name leads to another atom, there is a run in which that atom's body begins with the wrong span. |
| TaskflowHandoff.UniqueNamesAreOwn | instrumentation/opentelemetry-instrumentation-taskflow/src/opentelemetry/instrumentation/taskflow/listener.py:228-233 | If the atoms of an engine have different names, no name leads to another atom. |
| TaskflowHandoff.StashIsOwn | instrumentation/opentelemetry-instrumentation-taskflow/src/opentelemetry/instrumentation/taskflow/listener.py:257-259 | In every state, what an atom carries is a span of that atom, and the one of its most recent start unless the body of the phase before ran elsewhere. |
| TaskflowHandoff.NoStashLeftBehind | instrumentation/opentelemetry-instrumentation-taskflow/src/opentelemetry/instrumentation/taskflow/listener.py:257-291 | Between phases an atom carries a context if and only if its name leads to it and its last body ran in another process, and then that of its most recent start. |
| TaskflowHandoff.ActKeeps | instrumentation/opentelemetry-instrumentation-taskflow/src/opentelemetry/instrumentation/taskflow/listener.py:235-269 | Every lock section, hand-over, body and ending keeps every atom's stash right, for its own atom and for all others. |
| TaskflowListener.TraceListener.StartFlow | instrumentation/opentelemetry-instrumentation-taskflow/src/opentelemetry/instrumentation/taskflow/listener.py:152-164 | The object's flow slot follows the state machine, and the tracer sees exactly its spans. |
| TaskflowListener.TraceListener.FinishFlow | instrumentation/opentelemetry-instrumentation-taskflow/src/opentelemetry/instrumentation/taskflow/listener.py:166-175 | Flow span and flow context are cleared together; the span that was there, if any, is ended with the state's failure mark. |
| TaskflowListener.TraceListener.FlowReceiver | instrumentation/opentelemetry-instrumentation-taskflow/src/opentelemetry/instrumentation/taskflow/listener.py:139-150 | Any flow notification does to the object what it does to the state machine; and, state by state, opens, ends with its failure mark or leaves alone the span of the slot. |
| TaskflowListener.TraceListener.AtomReceiver | instrumentation/opentelemetry-instrumentation-taskflow/src/opentelemetry/instrumentation/taskflow/listener.py:185-199 | Any atom notification does to the object what it does to the state machine; state by state, it opens a span under the flow's (else under what is current) or ends one with its failure mark; and it leaves a context on exactly the resolved atom, and only for a start that is not ignored. |
| TaskflowListener.TraceListener.StartAtom | instrumentation/opentelemetry-instrumentation-taskflow/src/opentelemetry/instrumentation/taskflow/listener.py:235-259 | An atom's start opens its span under the flow span and leaves the span's context on the atom of that name; a repeated start touches nothing. |
| TaskflowListener.TraceListener.FinishAtom | instrumentation/opentelemetry-instrumentation-taskflow/src/opentelemetry/instrumentation/taskflow/listener.py:261-269 | A finish ends the span of its key with its failure mark; an unmatched one does nothing. |
| TaskflowListener.TraceListener.AtomByName | instrumentation/opentelemetry-instrumentation-taskflow/src/opentelemetry/instrumentation/taskflow/listener.py:201-233 | Lookup by name, cached with its misses, gives the last atom of the graph that has the name, and nothing if there is none or no graph. |
| TaskflowNames.NamesResolve | instrumentation/opentelemetry-instrumentation-taskflow/src/opentelemetry/instrumentation/taskflow/listener.py:228-233 | A name resolves if and only if some atom of the graph has it, and then to the last such atom. |
| TaskflowListener.TraceListener.OtherEngines | instrumentation/opentelemetry-instrumentation-taskflow/src/opentelemetry/instrumentation/taskflow/listener.py:115-135 | Notifications of other engines leave a listener's slots right. |
| OsloLog.OsloLogInstrumentor.Run | instrumentation/opentelemetry-instrumentation-oslo-log/src/opentelemetry/instrumentation/oslo_log/__init__.py:137-176 | After any sequence of instrument, uninstrument, `setup` and the application's own changes: the current exporter is on the root logger exactly once while instrumented (unless the last `setup` raised) and no exporter is otherwise; other handlers are undisturbed; the factory is the application's own whenever not instrumented. |
| OsloLog.OnIff | instrumentation/opentelemetry-instrumentation-oslo-log/src/opentelemetry/instrumentation/oslo_log/__init__.py:94-157 | Instrumented means: instrumented at some point and not uninstrumented since. |
| OsloLog.InterruptedIff | instrumentation/opentelemetry-instrumentation-oslo-log/src/opentelemetry/instrumentation/oslo_log/__init__.py:171-176 | Interrupted means: a `setup` raised while instrumented, and since then there was neither another `setup` nor an uninstrumentation. |
| OsloLog.OwnFactoryIff | instrumentation/opentelemetry-instrumentation-oslo-log/src/opentelemetry/instrumentation/oslo_log/__init__.py:157-160 | The factory an application ends up with is the one it installed last among those installed while not instrumented. |
| OsloLog.OsloLogInstrumentor.ExportsIff | instrumentation/opentelemetry-instrumentation-oslo-log/src/opentelemetry/instrumentation/oslo_log/__init__.py:166-176 | After any sequence of operations an exporter is on the root logger if and only if oslo.log is instrumented and its last `setup` since did not raise. |
| OsloLog.OsloLogInstrumentor.ExportLost | instrumentation/opentelemetry-instrumentation-oslo-log/src/opentelemetry/instrumentation/oslo_log/__init__.py:171-176 | A `setup` after which nothing is exported. |
| OsloLog.OsloLogInstrumentor.AttachHandler | instrumentation/opentelemetry-instrumentation-oslo-log/src/opentelemetry/instrumentation/oslo_log/__init__.py:166-169 | Attaching is idempotent: afterwards the current handler is there once and no other handler has moved. |
| OsloLog.NewestKeptIff | instrumentation/opentelemetry-instrumentation-oslo-log/src/opentelemetry/instrumentation/oslo_log/__init__.py:157-160 | Uninstrumenting leaves the application's newest record factory in place if and only if it was installed while not instrumented. |
| OsloLog.FactoryLost | instrumentation/opentelemetry-instrumentation-oslo-log/src/opentelemetry/instrumentation/oslo_log/__init__.py:157-160 | A run in which the newest factory is lost. |
| OsloLog.RecordFactory.MakeRecords | instrumentation/opentelemetry-instrumentation-oslo-log/src/opentelemetry/instrumentation/oslo_log/_factory.py:37-62 | Every record carries the `service.name` that the provider had at the first record, empty if it had none, whatever it says later; and the trace and span ids of the span current when it was made, or none; a raising hook changes nothing. |
| OsloLog.HandedOffRecordsCorrelated | instrumentation/opentelemetry-instrumentation-oslo-log/src/opentelemetry/instrumentation/oslo_log/_factory.py:48-56 | At any point of any run, when a worker hands off a callable: under every schedule from there, on any workers and beside any other work, every record made in the callable, and in what it hands off in turn, is stamped with the trace current at the hand-off. |
| Patching.InstallThenUninstall | instrumentation/opentelemetry-instrumentation-oslo-service/src/opentelemetry/instrumentation/oslo_service/_propagation.py:164-193 | Unwrapping what was wrapped, in the same order and even with repeated targets, restores every attribute. |
| Patching.UninstallExactIff | instrumentation/opentelemetry-instrumentation-oslo-service/src/opentelemetry/instrumentation/oslo_service/_propagation.py:190-193 | Uninstalling takes off exactly our wrappers and leaves everybody else's if and only if nobody has wrapped one of our targets since; wrappers on other attributes do not matter. |
| Patching.CollidingWrappers | instrumentation/opentelemetry-instrumentation-oslo-service/src/opentelemetry/instrumentation/oslo_service/_propagation.py:190-193 | Where somebody has wrapped a target since: a proxy comes off instead of our wrapper, and anything else keeps our wrapper on. |
| Patching.EntryPoints.Install | instrumentation/opentelemetry-instrumentation-oslo-service/src/opentelemetry/instrumentation/oslo_service/_propagation.py:164-187 | The loop wraps every target once, in order, and reports exactly those. |
| Patching.EntryPoints.InstallAndUninstall | instrumentation/opentelemetry-instrumentation-oslo-service/src/opentelemetry/instrumentation/oslo_service/_propagation.py:164-193 | Installing and uninstalling leaves no trace. |
| Patching.TaskflowInstrumentor.Cycle | instrumentation/opentelemetry-instrumentation-taskflow/src/opentelemetry/instrumentation/taskflow/__init__.py:73-122 | Over any sequence of calls, `Engine.__init__` and the atom-body functions are each wrapped exactly once, or are all the originals, as the last call decides. |
| Patching.RestoreExactIff | instrumentation/opentelemetry-instrumentation-taskflow/src/opentelemetry/instrumentation/taskflow/__init__.py:105-122 | Putting TaskFlow's originals back leaves everybody else's wrappers as they are if and only if none of them is on the engine's initialiser or an atom body. |
| Patching.TaskflowInstrumentor.AmongOthers | instrumentation/opentelemetry-instrumentation-taskflow/src/opentelemetry/instrumentation/taskflow/__init__.py:73-122 | Instrumenting and uninstrumenting with other wrappers put on in between is exact under the same condition, and restores the initialiser in any case. |
| Patching.TaskflowInstrumentor.PatchAtomBodies | instrumentation/opentelemetry-instrumentation-taskflow/src/opentelemetry/instrumentation/taskflow/listener.py:296-307 | The loop puts one wrapper on each of the four named functions and on no other, and returns exactly their originals. |
| Patching.TaskflowInstrumentor.UnpatchAtomBodies | instrumentation/opentelemetry-instrumentation-taskflow/src/opentelemetry/instrumentation/taskflow/listener.py:310-317 | In whatever order the map is gone through, exactly its names get their originals back. |
| EventletPatch.SplitOfJoin | instrumentation/opentelemetry-instrumentation-oslo-service/src/opentelemetry/instrumentation/auto_instrumentation/_oslo_service_eventlet.py:144-146 | Splitting a joined path gives the entries back, for any entries without a separator. |
| EventletPatch.JoinOfSplit | instrumentation/opentelemetry-instrumentation-oslo-service/src/opentelemetry/instrumentation/auto_instrumentation/_oslo_service_eventlet.py:137-138 | Joining a split path gives the path back, for every string, and no entry contains a separator. |
| EventletPatch.StrippedPath | instrumentation/opentelemetry-instrumentation-oslo-service/src/opentelemetry/instrumentation/auto_instrumentation/_oslo_service_eventlet.py:136-146 | What a process started meanwhile reads from `PYTHONPATH`: exactly the other entries in order (the empty one if there are none), and never this directory. |
| EventletPatch.Process.TryPatch | instrumentation/opentelemetry-instrumentation-oslo-service/src/opentelemetry/instrumentation/auto_instrumentation/_oslo_service_eventlet.py:153-187 | Nothing happens unless opted in; else the block hides this directory, the original `PYTHONPATH` is back on every way out, also where a step after pinning the backend raises; the backend is pinned exactly if eventlet was patched, and the fork handler is on at most once. |
| EventletPatch.OptedInIff | instrumentation/opentelemetry-instrumentation-oslo-service/src/opentelemetry/instrumentation/auto_instrumentation/_oslo_service_eventlet.py:162-164 | Opted in is a value that reads "true" in any case, with or without white space around it. |
| EventletPatch.Process.RegisterForkhook | instrumentation/opentelemetry-instrumentation-oslo-service/src/opentelemetry/instrumentation/auto_instrumentation/_oslo_service_eventlet.py:31-67 | Over any number of calls the handler is registered at most once, and the result says whether it is. |
| WsgiHeaders.Keys | instrumentation/opentelemetry-instrumentation-keystonemiddleware/src/opentelemetry/instrumentation/keystonemiddleware/__init__.py:175-180 | The names listed are those of the header keys of the environ, all of them and no others, in order. |
| WsgiHeaders.KeyRoundTrip | instrumentation/opentelemetry-instrumentation-keystonemiddleware/src/opentelemetry/instrumentation/keystonemiddleware/__init__.py:171-180 | A listed name leads back to its key if and only if the key is upper-case and hyphen-free; listed names are always lower-case and underscore-free. |
| WsgiHeaders.NameRoundTrip | instrumentation/opentelemetry-instrumentation-keystonemiddleware/src/opentelemetry/instrumentation/keystonemiddleware/__init__.py:171-180 | A header name survives the trip through its environ key if and only if it is lower-case and underscore-free. |
| WsgiHeaders.HeadersReadBack | instrumentation/opentelemetry-instrumentation-keystonemiddleware/src/opentelemetry/instrumentation/keystonemiddleware/__init__.py:171-180 | For every environ with canonical header keys and values that are not `None`, the names listed are exactly the canonical names that can be read, and reading one gives the value of the key it came from. |
| WsgiHeaders.TraceArrives | instrumentation/opentelemetry-instrumentation-keystonemiddleware/src/opentelemetry/instrumentation/keystonemiddleware/__init__.py:171-173 | What a client injects into its headers is what is extracted from the environ of the service, under `HTTP_TRACEPARENT`; without that key nothing is. |
| WsgiHeaders.NamesDistinct | instrumentation/opentelemetry-instrumentation-keystonemiddleware/src/opentelemetry/instrumentation/keystonemiddleware/__init__.py:175-180 | Distinct canonical keys are never listed under one name. |

## Left out

- Span names and attributes, recorded exceptions and statuses other than TaskFlow's failure
  marks, and the HTTP status code: single reads that no other part depends on.
- Return values of wrapped calls: every wrapper returns what the wrapped call returned; the
  model keeps only whether it returned or raised what.
- Sampling, disabled instrumentation (a plain pass-through), baggage and exporters. With
  baggage on the wire but no trace, a consumer would start a trace of its own.
- The internals of OpenTelemetry, wrapt, TaskFlow, oslo.messaging, webob and eventlet, beyond
  the assumptions above; the layout of `traceparent`; URL parsing.
- Forking itself, hub resets, `unpatch_sdk`, import order and the selection of the
  oslo.service backend.
- Waiting for results: a caller never blocks on work it handed off, which only allows more
  interleavings.
- Thread subclasses that override `run`, stdlib pools, starting a thread twice, and what a
  keyword callable does to a worker it leaks on (`Propagation.Contained` excludes it).
- The body of a WSGI response after `__call__` returns: the span covers the call only.
- The level of the log handler and the effect of a log hook on its record.
- Sends that fail before their message is queued: such a call is a span around a raise, which
  the language has; `Post` is a send whose message is delivered, whatever the call reports.
- Schedules.ScheduleIndependence: asks of workers that differ that no queued work looks at
  them (`Anchored`); without that the claim is false, which is what
  `Requests.HandoffIndependentIff` shows.
- Requests.RequestIsOneTrace: asks, for requests with HTTP hops only, that the workers' own
  contexts are empty or of the request's trace; `Requests.HttpContinuesIff` shows why.  Work that
  leaves attaches behind on shared workers can give a request the trace it leaked; what holds
  then, from the context the request begins in, is `Requests.RunningStays`.
- TaskflowHandoff.BodiesSeeTheirSpan: an atom whose start arrives while its phase is open
  already cannot occur under the phase order assumed, so it is not described there; the
  listener's answer to it is in `TaskflowHistory`.
- TaskflowListener.TraceListener.AtomReceiver: one notification at a time per object; the
  interleavings of lock sections are those of `TaskflowHistory`.
