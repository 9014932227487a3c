# pysdl core, modelled in Dafny

pysdl is a small in-process actor runtime in the style of SDL (Specification and
Description Language). Processes are finite-state machines. They talk only by
sending signals: typed messages with a source pid and a destination pid. One
system object owns three things: the registry of live processes (pid to process),
one FIFO signal queue, and one table of running timers for each owner pid. The
system's loop takes signals off the queue and dispatches each one to its
destination's handler for (current state, signal type), with two fallbacks, the
wildcard state `*` and the wildcard signal. A signal sent to a pid that is not
registered comes back to its sender as a `ProcessNotExist` signal.
On every tick, timers whose deadline has passed are delivered to their owners as
signals and are removed from the table.

The model keeps the runtime's own shape:

* `SdlSystem` and `SdlProcess` are classes (`Runtime.System`, `Runtime.Process`).
  Their methods update fields in place. The queue, the ready list, the process map
  and the timer table are fields.
* A process class's instance counter and singleton slot are fields of
  `Runtime.ProcessClass`.
* The shared id counter (`IdGenerator.SdlIdGenerator`) and each type's lazily
  allocated id (`IdGenerator.TypeIds`) are objects.
* The children book (`Children.ChildrenManager`) and the process-wide registry
  (`Registry.RegistryClass` / `Registry.SdlRegistry`) are objects.
* Signals and timers are values (`Signals.Signal`, `Timers.Timer`). Python mutates
  a signal in place with `set_src`/`set_dst`; the model returns an updated copy.
* The timer table is the value `TimerTables.TimerTable`. It holds the per-owner
  lists, plus the owner order that a Python dict keeps by insertion.
* Delivery is a pure function, `Runtime.Send`: it gives the result and the signals
  queued. The methods are proved to perform exactly that delivery.
* The expiry sweep is specified by `TimerTables.Observe`, `Due` and `Swept`. The
  methods that walk the table are proved equal to those functions, and lemmas prove
  what the functions promise. After the sweep only timers whose deadline lies in
  the future remain; every expired timer was sent, in owner order.
* Handler lookup is `StateMachines.Lookup`: four candidate keys in a fixed order.
  Lemmas prove the order of precedence.
* Error paths are `Result` values that carry the framework's exception kinds
  (`Exceptions.SdlError`), with the exact default messages.
* The clock is a parameter (`now`, in milliseconds). Handler bodies are opaque
  `HandlerId`s.

## Model

| member | source | states |
|---|---|---|
| Text.NatToString | pysdl/process.py:136-137 | the decimal text of a number is non-empty, made of digits, and ends with the last digit |
| Text.NatToStringInjective | pysdl/process.py:136-137 | distinct numbers print differently (by induction on the number) |
| Text.IntToString | pysdl/process.py:230-237 | negative numbers print as '-' followed by their magnitude, as an f-string does |
| Exceptions.ProcessNotFoundError | pysdl/exceptions.py:43-53 | keeps the pid; an explicit message wins, otherwise "Process not found: <pid>" |
| Exceptions.SignalDeliveryError | pysdl/exceptions.py:69-86 | the default message names the signal only when one is given; an explicit message wins |
| Exceptions.StateTransitionError | pysdl/exceptions.py:103-128 | the default message names the process only when one is given, then the signal and the state |
| Exceptions.TimerError | pysdl/exceptions.py:143-156 | an explicit message wins; otherwise "Timer error: <timer>" when a timer is given, else the fixed text |
| Exceptions.InvalidStateError | pysdl/exceptions.py:170-180 | an explicit message wins; otherwise "Invalid state: <state>" |
| Exceptions.QueueError | pysdl/exceptions.py:193-199 | the message is kept as given; the default applies only when it is omitted |
| Exceptions.ValidationError | pysdl/exceptions.py:213-223 | an explicit message wins; otherwise "Validation error: invalid <parameter>" |
| IdGenerator.SdlIdGenerator.Id | pysdl/id_generator.py:35-46 | returns the current counter unchanged |
| IdGenerator.SdlIdGenerator.Next | pysdl/id_generator.py:49-64 | increments by one and returns the new value, which exceeds every id handed out before |
| IdGenerator.TypeIds.IdOf | pysdl/signal.py:33-45 | a type's id is drawn from the shared counter on first use and cached; later calls change nothing; ids of distinct types stay distinct |
| States.State.Name | pysdl/state.py:57-63 | returns the state's name |
| States.State.Id | pysdl/state.py:49-55 | the id is the name |
| States.State.ToString | pysdl/state.py:30-36 | the printed form is the name, which is also the id |
| States.State.SetName | pysdl/state.py:65-74 | renames in place; name, id and printed form all follow |
| States.PredefinedStates.constructor | pysdl/state.py:78-85 | start, wait and `*` are three distinct state objects with those names |
| Signals.Signal.WithSrc | pysdl/signal.py:153-163 | sets the source and changes nothing else |
| Signals.Signal.WithDst | pysdl/signal.py:173-183 | sets the destination and changes nothing else |
| Signals.Signal.WithName | pysdl/signal.py:134-143 | sets the instance name; the class, and so the type id, stays |
| Signals.Signal.Describe | pysdl/signal.py:102-108 | the printed form lists name, class id, source and destination, with None for a missing pid |
| Signals.NewSignal | pysdl/signal.py:66-82 | a new signal is named after its class and has neither source nor destination |
| Signals.SignalId | pysdl/signal.py:33-45 | a class's id is allocated on first use and is the same ever after; no other type's id changes |
| Signals.Create | pysdl/signal.py:48-64 | creates an unaddressed signal and makes sure its class has an id |
| Signals.SameClassSameId | pysdl/signal.py:33-45 | two signals of one class get one id, even with other allocations in between; another class gets a different id |
| SystemSignals.ProcessNotExistSignal | pysdl/system_signals.py:165-181 | the error signal carries the original signal, the destination and the source, readable through `get_data` |
| SystemSignals.GetData | pysdl/system_signals.py:182-191 | the three known keys give their values; any other key gives "" |
| SystemSignals.BracketedText | pysdl/system_signals.py:63-65 | the start, stopping, stop and star signals print the plain form inside brackets |
| SystemSignals.ProcessNotExistText | pysdl/system_signals.py:193-197 | the error signal prints the plain form followed by the destination it missed |
| Timers.NewTimer | pysdl/timer.py:48-53 | a new timer has correlator, deadline and observation time 0 |
| Timers.SetAppcorr | pysdl/timer.py:97-103 | sets the correlator and nothing else |
| Timers.Start | pysdl/timer.py:105-112 | sets the deadline and clears the last observation; the correlator is kept |
| Timers.Expire | pysdl/timer.py:122-128 | records the observation time; the timer is then expired iff its deadline is at or before that time |
| Timers.Compare | pysdl/timer.py:130-150 | returns 0 iff class ids and correlators are equal; a smaller class id gives -1; with equal ids, unequal correlators always give -1 |
| Timers.CompareNotAntisymmetric | pysdl/timer.py:142-150 | two timers of one class with different correlators each compare below the other |
| Timers.CompareZeroIffSameTimer | pysdl/timer.py:67-70 | once both classes have ids, timer equality holds iff class and correlator are equal |
| Timers.Dumpdata | pysdl/timer.py:59-65 | the data text shows the correlator |
| Timers.TimerText | pysdl/timer.py:55-57 | the printed form is the plain signal text plus the correlator, in brackets |
| TimerTables.Empty | pysdl/system.py:42-48 | the new table is valid and every owner's list is empty |
| TimerTables.RemoveOwner | pysdl/system.py:298-302 | drops exactly one owner and keeps the others' order and distinctness |
| TimerTables.Put | pysdl/system.py:121-124 | replaces one owner's list and leaves every other list as it was |
| TimerTables.FirstSame | pysdl/system.py:294-298 | gives the first position holding a timer equal to the given one, or the length |
| TimerTables.RemoveFirstSameValid | pysdl/system.py:294-298 | removing the first equal timer leaves no equal timer behind and shrinks the list by one iff there was one |
| TimerTables.Stop | pysdl/system.py:283-304 | reports a removal iff the timer has a source that owns an equal timer, removes only from that owner's list, and leaves the table alone otherwise |
| TimerTables.StopValid | pysdl/system.py:268-304 | stopping keeps the table well formed |
| TimerTables.Start | pysdl/system.py:252-266 | replaces any equal timer of the owner by the new one, placed at the end; other owners are untouched |
| TimerTables.StartKeepsOneEqual | pysdl/system.py:255-266 | after a start the owner holds exactly one timer equal to the new one, and that timer is the new one |
| TimerTables.ObserveList | pysdl/system.py:427-429 | every timer of a list is observed at the given time, in order |
| TimerTables.Observe | pysdl/system.py:425-437 | every owner's list is observed; owners and their order are kept |
| TimerTables.ObserveValid | pysdl/system.py:425-437 | observing keeps the table well formed |
| TimerTables.ObserveOwnersAll | pysdl/system.py:425-437 | observing owner by owner, through all owners, equals observing the whole table |
| TimerTables.FiredMembers | pysdl/system.py:429-433 | the fired timers of a list are exactly its expired timers |
| TimerTables.UnfiredMembers | pysdl/system.py:439-451 | the kept timers of a list are exactly its unexpired timers |
| TimerTables.ObservedSplit | pysdl/system.py:425-451 | after observation at `now`, the fired timers are those whose deadline is at or before `now`, and the kept ones those whose deadline is later |
| TimerTables.DueSnoc | pysdl/system.py:425-437 | the due timers of owners `os + [o]` are those of `os` followed by o's fired timers |
| TimerTables.StopAllAppend | pysdl/system.py:439-451 | stopping a concatenation is stopping the parts in turn |
| TimerTables.StopDueOwners | pysdl/system.py:439-451 | stopping every due timer, one by one, leaves exactly the unexpired timers of each owner and touches no other owner |
| TimerTables.ExpireKeepsPending | pysdl/system.py:411-451 | after the sweep each owner keeps exactly the unexpired part of its observed list, and the table stays well formed |
| TimerTables.SweptKeepsPending | pysdl/system.py:411-451 | a timer survives the sweep iff it was in the owner's observed list with a deadline after `now` |
| StateMachines.Candidates | pysdl/state_machine.py:163-194 | four keys are tried: (state, signal), (`*`, signal), (state, star signal), (`*`, star signal) |
| StateMachines.Lookup | pysdl/state_machine.py:142-194 | returns the handler of the first bound candidate key, or none iff none is bound |
| StateMachines.ExactBindingWins | pysdl/state_machine.py:163-170 | an exact (state, signal) binding always wins |
| StateMachines.StarStateBeatsStarSignal | pysdl/state_machine.py:172-180 | without an exact binding, the wildcard state beats the wildcard signal |
| StateMachines.CatchAllIsLastResort | pysdl/state_machine.py:182-194 | (`*`, star signal) is used only when nothing else is bound; lookup fails iff no candidate is bound |
| StateMachines.Bind | pysdl/state_machine.py:119-128 | binds one (state, event) pair and keeps every other binding |
| StateMachines.BuildTableLastWriteWins | pysdl/state_machine.py:99-128 | after a setup sequence a pair is bound iff some step bound it, and the last such step's handler is the one kept |
| StateMachines.StateMachine.constructor | pysdl/state_machine.py:39-44 | the table is empty and no state or event is selected |
| StateMachines.StateMachine.SetState | pysdl/state_machine.py:46-68 | None is a Validation error; otherwise the state is selected and recorded |
| StateMachines.StateMachine.SetEvent | pysdl/state_machine.py:70-97 | None is a Validation error; otherwise the signal class's id is selected and recorded |
| StateMachines.StateMachine.SetHandler | pysdl/state_machine.py:99-128 | without a state, or without an event, it is a Validation error naming the missing part; otherwise the handler is bound at the selected pair |
| StateMachines.StateMachine.Done | pysdl/state_machine.py:131-140 | always reports completion |
| StateMachines.StateMachine.Find | pysdl/state_machine.py:142-194 | None arguments are Validation errors; otherwise the result is `Lookup` over the four candidates; a tier 1 or 2 hit allocates no id, and at most the Star signal's id is ever allocated |
| StateMachines.BindingIsPerStateObject | pysdl/state_machine.py:119-128 | for every table, binding a handler on a state object other than the wildcard leaves every lookup from any other state object unchanged, whatever the two states' names |
| Runtime.BuildPid | pysdl/process.py:136-137 | a pid ends in ')' and is never the system's own name |
| Runtime.PidDeterminesProcess | pysdl/process.py:136-137 | class name, class id and instance number are recoverable from the pid: equal pids mean equal triples |
| Runtime.Notice | pysdl/system.py:212-234 | the bounce notice goes from the system back to the sender and names the lost signal's class, destination and source |
| Runtime.Send | pysdl/system.py:175-234 | None and a missing destination are Validation errors; a registered destination gets the signal and a True result; otherwise False, with a notice to a registered sender and nothing queued for anyone else |
| Runtime.NoticeIsNeverBounced | pysdl/system.py:212-234 | a notice sent to a vanished process is dropped; it never causes another notice |
| Runtime.BroadcastAppend | pysdl/system.py:425-437 | delivering two batches in turn is delivering their concatenation |
| Runtime.BroadcastToRegistered | pysdl/system.py:199-204 | signals to registered processes are queued unchanged, in order, each with its destination made ready |
| Runtime.ForwardedAll | pysdl/process.py:182-191 | when every saved signal has a destination, each one is re-sent with this process as source |
| Runtime.Without | pysdl/system.py:126-133 | removes every occurrence of the process from the ready list and keeps all others |
| Runtime.RemoveFirstKeepsOthers | pysdl/system.py:126-133 | removing one occurrence first does not change the result of removing all |
| Runtime.RemoveAll | pysdl/system.py:126-133 | the loop that drops a process from the ready list computes `Without` |
| Runtime.StartSignal | pysdl/process.py:295 | the start signal is addressed from the process to itself |
| Runtime.StoppingSignal | pysdl/process.py:282-283 | the stopping signal is addressed from the process to itself |
| Runtime.System.constructor | pysdl/system.py:42-48 | the system starts with no processes, no timers, an empty queue and an empty ready list |
| Runtime.System.Register | pysdl/system.py:63-88 | None and an empty pid are Validation errors; otherwise the result is True iff the pid was new, and a new pid is filed under its process |
| Runtime.System.Unregister | pysdl/system.py:90-137 | None and an empty pid are Validation errors; otherwise the pid, its timers and its ready-list entries are removed and the result is True |
| Runtime.System.Enqueue | pysdl/system.py:139-156 | None is a Validation error; otherwise the signal is appended to the queue |
| Runtime.System.LookupProcMap | pysdl/system.py:158-173 | a missing or empty pid is a Validation error; otherwise the process filed under the pid, if any |
| Runtime.System.Output | pysdl/system.py:175-234 | the queue and ready list grow by exactly what `Send` delivers, and the result is `Send`'s |
| Runtime.System.StartTimer | pysdl/system.py:236-266 | None is a Validation error and a timer without a source a Timer error; otherwise the table becomes `TimerTables.Start` of the old one |
| Runtime.System.StopTimer | pysdl/system.py:268-304 | None is a Validation error; otherwise the result and new table are `TimerTables.Stop`'s |
| Runtime.System.GetNextSignal | pysdl/system.py:306-319 | takes the head of the queue, in FIFO order, and leaves the rest |
| Runtime.System.ProcessSignal | pysdl/system.py:321-345 | a missing destination is a Validation error; an unknown destination is ignored; otherwise the handler found is `Lookup` in the destination's current state; at most the signal's and the Star signal's ids are allocated, and none when nothing is dispatched |
| Runtime.System.Stop | pysdl/system.py:407-409 | sets the stop flag and nothing else |
| Runtime.System.Expire | pysdl/system.py:411-451 | the table becomes `Swept` (only unexpired timers are kept) and every due timer is delivered in owner order |
| Runtime.System.ObserveAll | pysdl/system.py:424-437 | the walk observes every owner's timers and queues the fired ones, which are exactly `Due` of the observed table |
| Runtime.System.ObserveAndSend | pysdl/system.py:426-437 | one owner's timers are observed in order and its fired timers delivered |
| Runtime.System.StopEach | pysdl/system.py:439-451 | stopping the fired timers one by one yields `StopAll` |
| Runtime.System.RunStep | pysdl/system.py:347-405 | one loop pass: the head signal is dispatched, then the timers are swept and due timers are queued behind the rest; only the head signal's and the Star signal's ids can be allocated |
| Runtime.ProcessClass.constructor | pysdl/process.py:30-47 | a class starts with instance count 0 and no singleton |
| Runtime.Process.constructor | pysdl/process.py:77-121 | a plain process takes the next instance number and a singleton takes 0; it starts in `start` with no handlers and nothing saved; its class has an id |
| Runtime.Process.Input | pysdl/process.py:349-361 | the signal is appended to the system queue |
| Runtime.Process.SaveSignal | pysdl/process.py:363-364 | the signal is appended to the saved buffer; the state is kept |
| Runtime.Process.Output | pysdl/process.py:193-214 | a missing destination is a Validation error; otherwise the signal is stamped with this pid as source and delivered as `Send` says |
| Runtime.Process.NextState | pysdl/process.py:167-191 | None is a Validation error; a move to another state re-sends every saved signal with this pid as source; the buffer is kept |
| Runtime.Process.ResendSaved | pysdl/process.py:186-191 | the loop delivers exactly the `Forwarded` saved signals, in order |
| Runtime.Process.StartTimer | pysdl/process.py:216-237 | a negative duration is a Timer error; otherwise the timer, addressed to and from this process, is started with deadline `now + msec` |
| Runtime.Process.StartTimerAbs | pysdl/process.py:239-259 | a non-positive absolute time is a Timer error; otherwise the timer is started with that deadline in milliseconds |
| Runtime.Process.StopTimer | pysdl/process.py:261-280 | the timer, addressed to and from this process, is stopped in the table |
| Runtime.Process.Stop | pysdl/process.py:282-283 | a stopping signal is sent from the process to itself |
| Runtime.Process.StopProcess | pysdl/process.py:285-287 | the process is unregistered: its pid, timers and ready entries go |
| Runtime.Process.RunSetup | pysdl/process.py:311-314 | the class's setup is bound into the handler table in order, with each signal class given an id |
| Runtime.Process.Register | pysdl/process.py:290-295 | the table is built, the process is filed, and a start signal to itself is queued |
| Runtime.Process.LookupTransition | pysdl/process.py:316-347 | None is a Validation error; otherwise the handler is `Lookup` for the current state and the signal's class id; besides that class id only the Star signal's id can be allocated, and not on a tier 1 or 2 hit |
| Runtime.Process.Create | pysdl/process.py:49-75 | without a system it is a Validation error; otherwise a new registered process with the next instance number |
| Runtime.Process.CreateSingleton | pysdl/process.py:384-410 | an existing singleton is returned as is; otherwise a new one with instance 0 is made and cached |
| Runtime.ResolveStable | pysdl/process.py:297-305 | once every setup signal class has an id, later id allocations do not change the resolved bindings |
| Children.FirstWithPid | pysdl/children_manager.py:162-174 | the first position holding the pid, or the length |
| Children.FirstMatching | pysdl/children_manager.py:135-147 | the first position whose keys match the query, or the length |
| Children.ChildrenManager.constructor | pysdl/children_manager.py:47-49 | the book starts empty |
| Children.ChildrenManager.Register | pysdl/children_manager.py:59-76 | the child is appended with its pid and keys, and the process is returned |
| Children.ChildrenManager.AddToFront | pysdl/children_manager.py:117-133 | the child is put first |
| Children.ChildrenManager.SetKeysByPid | pysdl/children_manager.py:78-92 | reports True iff some child has the pid; the first such child's keys are merged with the new ones |
| Children.ChildrenManager.GetKeysByPid | pysdl/children_manager.py:94-107 | keys are found iff some child has the pid; they are the first such child's |
| Children.ChildrenManager.GetByPid | pysdl/children_manager.py:162-174 | returns the first child with the pid, if any |
| Children.ChildrenManager.GetChildList | pysdl/children_manager.py:109-115 | returns all children in order |
| Children.ChildrenManager.GetCount | pysdl/children_manager.py:176-182 | returns the number of children |
| Children.ChildrenManager.GetFirstChildWithKeys | pysdl/children_manager.py:135-147 | a child is found iff one matches; it is the first match |
| Children.ChildrenManager.GetChildListWithKeys | pysdl/children_manager.py:149-160 | returns every matching child, in order |
| Children.ChildrenManager.UnregisterByKeys | pysdl/children_manager.py:184-193 | removes the first matching child only |
| Children.ChildrenManager.CheckKeysMatch | pysdl/children_manager.py:195-208 | true iff every query key is present with an equal value |
| Children.RegisteredIsFound | pysdl/children_manager.py:59-76 | after registering, lookup by pid finds the new child unless an earlier child has the same pid |
| Children.AddedToFrontIsFound | pysdl/children_manager.py:117-133 | a child added at the front is what lookup by its pid finds |
| Children.MergedChildMatches | pysdl/children_manager.py:78-92 | after a merge the child matches the new keys, keeps its other keys, and every other child is unchanged |
| Children.AllMatchingAppend | pysdl/children_manager.py:149-160 | matching distributes over concatenation |
| Children.AllMatchingMembers | pysdl/children_manager.py:149-160 | a child is in the filtered list iff it is a child and matches |
| Children.FirstMatchHeadsAll | pysdl/children_manager.py:135-160 | a first match exists iff the filtered list is non-empty, and it heads that list |
| Children.UnregisterDropsFirstMatch | pysdl/children_manager.py:184-193 | after removal the matching children are the old ones minus the first, and the count drops by one iff there was a match |
| Children.EmptyQueryMatchesAll | pysdl/children_manager.py:195-208 | an empty query matches every child, so the first match is the first child |
| Registry.RegistryClass.New | pysdl/registry.py:53-61 | the first call creates the instance; every later call returns that same instance; the store is kept |
| Registry.SdlRegistry.Add | pysdl/registry.py:63-74 | stores the value under the key, overwriting any earlier one |
| Registry.SdlRegistry.Get | pysdl/registry.py:76-93 | returns the value stored under the key, or a KeyError naming it |
| Registry.Lookup | pysdl/registry.py:76-93 | succeeds iff the key is stored, with its value; a miss is a KeyError naming the key |
| Registry.AddThenGet | pysdl/registry.py:63-93 | a value just added is what a get returns; other keys are unaffected |
| Registry.AddTwice | pysdl/registry.py:63-74 | the second add of a key overrides the first |
| Registry.HandlesShareOneStore | pysdl/registry.py:50-61 | two handles are the same object, so a value added through one is read through the other |

## Left out

- The `run` loop's asyncio machinery: `run()` abandons the wait for the next signal after 10 ms (the get itself blocks), `asyncio.sleep`, and cancellation. `Runtime.System.RunStep` models one pass of the loop; the loop itself and its exit are not modelled.
- The wall clock: `time.time()` becomes the parameter `now` (milliseconds), so `expire` and the timer starts are deterministic.
- Logging (`pysdl/logger.py` is not part of this model) and every `SdlLogger` call.
- `asyncio.Queue` internals. The queue is a sequence, so the QueueError path (a failing `put`) and the SignalDeliveryError path that wraps it do not arise. `Exceptions.QueueError` and `Exceptions.SignalDeliveryError` model only the messages.
- Python's `isinstance` checks on arguments of the wrong type. The model's types exclude them, and only the `None` cases are modelled.
- Runtime.System.GetNextSignal: an empty queue gives None. In Python the get itself blocks until a signal arrives; `run()` abandons that wait after 10 ms.
- Runtime.System.Expire: stated through `TimerTables.Swept`. Which timers survive is stated by `TimerTables.SweptKeepsPending` and `TimerTables.ExpireKeepsPending`, not in the method's own contract.
- Runtime.System.StartTimer: the list after a start is stated by `TimerTables.StartKeepsOneEqual`, not in the method's own contract.
- Timer ids in comparisons: `_compare` reads ids that may be allocated on first use. The model compares ids that are already allocated (`Timers.CompareZeroIffSameTimer` requires both).
- Signal payloads (`data`/`dumpdata` of user signals) and `__format__`. Only the ProcessNotExist data and the timer correlator are kept.
- Handler bodies: a handler is an opaque `HandlerId`, and dispatch stops at finding it. What a handler does is user code.
- Aliasing of signals: Python stamps the saved signal's source in place when it re-sends it. The model re-sends a stamped copy, so the stored signal itself is unchanged.
- Timers.Start, Timers.Expire, Timers.SetAppcorr: these are value updates, so a timer already filed in the table is not changed by later calls on the caller's copy. In Python the filed entry is the caller's object: `set_appcorr` after `start_timer` changes the filed timer too, so a later `stop_timer` still finds and removes it, where the model keeps the old copy, which fires later. One timer object started by two processes also stays in both owners' lists in Python, with its source restamped; the model cannot reach that state.
- IdGenerator.TypeIds: a type's id is keyed by its class name (`SignalType`/`ProcessType`), so the model assumes one class per name. In Python two distinct classes with one `__name__` get two ids. The model gives them one id, so a handler bound for one dispatches the other, their timers compare equal, and their processes can share pids.
- The ready list is appended to by delivery and pruned by `unregister`. Nothing in the runtime consumes it, and the model does not either.
- `SdlChildrenManager.__iter__` and the aliasing of the keys dict that `get_keys_by_pid` returns (a caller may mutate it). The model returns the keys by value.
- Value is a closed set of kinds (string, integer, boolean, None). Python keys and registry values may be of any type, compared with `==`.
- `SdlRegistry` keeps its store on the class object. The model holds it in `Registry.RegistryClass`, which every handle refers to.
