# Synca in Dafny

A model of Synca, a C++ library of journeys: stackful coroutines that run on thread pools and strands, and
the channels, joins and data pipelines built on them. One idea runs through all of it. A suspended journey
has exactly one outstanding right to be resumed, and every primitive hands this right on through different
state: a task queue, a waiter in a list under a mutex that is held across a context switch, a use count, an
atomic counter. The project proves that the right is never lost and never used twice, and what the
primitives and the pipelines promise on top of that.

The concurrent parts are machines whose steps interleave freely, and the theorems hold for every run of any
length, with any number of threads, journeys, channels and workers. The objects whose fields the code
updates in place are classes, with methods proved against the functions that the machines use.

| files | contents |
|---|---|
| `Runtime`, `Tokens`, `Lifecycle`, `Delivery`, `Misuse`, `WaitForAll`, `Affinity` | the machine of threads, schedulers and journeys; the single right, and its misuse; deletion; when events are taken; `waitForAll`; schedulers and Alone |
| `Journey`, `Coro`, `Portal` | the journey and goer objects, the coroutine object and `t_coro`, portals |
| `Channel`, `ChannelMachine`, `ChannelSafety`, `ChannelFifo`, `ChannelProgress` | the channel on the heap, and many journeys using one channel on top of the runtime machine |
| `Joins`, `JoinTheorems`, `Barrier`, `JoinHeap`, `JoinRuntime`, `BarrierRuntime` | `goWait`, `goAnyWait`, `goAnyResult`, the reusable `Waiter`, each also on top of the runtime machine |
| `Network`, `NetworkSafety`, `Shutdown`, `Closing` | any finite network of workers and channels; draining and closing it; closing it at any moment |
| `Potential`, `Feedback`, `Chain`, `Stages`, `Pipes` | cost accounting over schedules; the feedback network of the tests; chains of stages, and what they put; the worker loops on channel objects |
| `UrlFilter`, `Crawl`, `CrawlEnds` | the crawler of the examples |
| `ThreadPool`, `PoolProgress`, `PoolTasks`, `PoolHeap` | the worker loop, `wait` and the destructor of the pool; what happens to its tasks |
| `CloseAndWait` | a pool whose tasks are the segments of a network's workers: `closeAndWait` from end to end |

How the layers meet: `ChannelMachine` embeds the state of `Runtime` and moves it only by `Runtime` steps, and
so do `JoinRuntime` and `BarrierRuntime`, which prove that the joins and the waiter only ever use a right that
they hold. `ChannelMachine` changes the channel only by the functions of `ChannelValue`. The methods of
`ChannelHeap.Channel` are proved against the same functions, and a `Network` uses them as atomic steps.
`CloseAndWait` moves a `ThreadPool` and a `Network` together. `JourneyHeap` proves that the methods of a
journey object are exactly the machine's steps.

Assumptions about Boost: an `io_service` is a bag of tasks with a count of outstanding work and a stopped
flag, and `run` returns when it is stopped; a strand runs its handlers one at a time in posting order; a
context switch is one step; `make_shared` and copies of a `shared_ptr` count exactly; increments of atomics
and critical sections of a mutex are single steps.

## What the code does not promise

Places where the code and its documentation, or a natural expectation, differ. Each has a run from the
initial state that shows it, and a condition that is proved exact.

- `ThreadPool::wait` is documented (README.md:77) to block until all handlers complete. It does so exactly if
  nothing is pending at the call, or the service is not stopped and no worker is between its return from
  `run()` and the lock (`WaitIsSoundIff`). Under the same condition, and only then, it returns only after the
  pool has come to rest, handlers that post more handlers included (`WaitQuiescesIff`). `StaleWorker` breaks
  it with two threads and one caller. With one thread and one call at a time the condition always holds
  (`OneThreadWaitIsSound`).
- `closeAndWait` waits twice. It shuts a network down completely if that condition holds at both calls
  (`CloseAndWaitTheorem`; exact for each call by `WaitRestsIff`), and always on a pool of one thread
  (`OneThreadCloseAndWait`). With two threads it can return while a worker still has a channel to close
  (`TooEarly`).
- `waitForAll` compares two counters, and the expression fixes no order of the two reads. With the counter of
  destroyed journeys read first the answer is right at both moments (`DetectsQuiescence`). With the other
  order it is right at the second one exactly if no journey was created between the reads (`OtherOrderIff`,
  `WrongOrder`). No journey appears later exactly if no deferred handler is at work that may still spawn
  (`StaysEmptyIff`); that of `goAnyWait` can be one (`LateSpawn`).
- `teleport` changes the scheduler before its first check for events. Affinity is kept exactly by the steps
  in which no event is thrown there (`AffinityStep`, `EventBreaksAffinity`).
- `Waiter::wait` calls `defer`, which throws a deliverable event before it yields. A call of `wait` is a barrier
  for the journeys launched before it exactly if they are gone already or no event is deliverable at the call
  (`CallIsBarrierIff`, `EarlyEvent`).
- `Waiter::wait` makes its new pointer after the yield. An event thrown at the end of a sleep leaves the pointer
  empty. A later wait that sleeps can return exactly if no earlier sleep was ended by an event
  (`SleepReturnsIff`, `LateEvent`).
- A proceed handler that is called by somebody who has no right to it can make a check of the library fail
  (`DoubleProceed`); with two free threads in the journey's pool, exactly if the journey is deleted or its right
  is not lost (`StrayFaultsIff`). The lifecycle theorems assume at most one call for each deferred handler, which
  `JoinsAreDisciplined` and `WaiterIsDisciplined` prove of the library's own joins, and `ChannelMachine` by its
  steps of the channel.

## Model

| member | source | states |
|---|---|---|
| Tokens.StepKeeps | src/journey.cpp:40-178 | every step of a thread, a deferred handler, a holder of a proceed handler or an outside caller keeps the invariant: each live journey has its right to run in exactly one place, and its coroutine flags and deferred handler agree with that place |
| Lifecycle.SingleRight | src/coro.cpp:57-102 | in every run from the start in which each deferred handler arranges at most one proceed, each live journey has exactly one of a queued start or continuation, a thread that works on it, a stored proceed handler, or a handler that has dropped it; start and resume never meet their failing checks and no deleted journey is used |
| Lifecycle.TouchNeedsRight | src/journey.cpp:155-178 | a step by anybody that does not hold a journey's right behaves the same whatever the fields of that journey are, even if it is deleted, and does not write them |
| Lifecycle.NoRace | src/journey.cpp:155-178 | two enabled steps that both touch a journey are steps of the same actor |
| Lifecycle.NoTouchAfterHandOff | src/journey.cpp:165-178 | once the deferred handler has handed the right on, its thread can only spawn or leave, and neither reads nor writes the journey |
| Lifecycle.DeletedIffFinished | src/journey.cpp:165-178 | a journey disappears in a step if and only if its thread is in onExit0 and the coroutine body has ended |
| Lifecycle.RightCanBeUsed | src/journey.cpp:40-60 | wherever the right of a live journey is, it can be used: a queued segment can be taken by any free thread that may and goes into its body, a thread that works for the journey can go on, a deferred handler can use or store the right, a stored one can be used, and using it posts the continuation to the scheduler the journey is on |
| Lifecycle.SuspendRun | src/journey.cpp:54-60 | the steps of a defer without event end with the deferred handler running after the context switch, on the thread that resumed the journey |
| Lifecycle.FinishRun | src/coro.cpp:109-124 | the steps after the end of a body delete the journey and free its thread |
| Delivery.StatusStep | src/goer.cpp:57-81 | in every step a pending event goes away if and only if a call of its journey's own body looks for events, outside an unwinding, with events allowed or being enabled; a second event leaves a pending one as it is; one is accepted while none is pending |
| Delivery.MaskedEventStays | src/journey.cpp:81-101 | over every run, whatever all threads do: while a journey does not enable its events, none of its calls takes one, and the pending event, or else the first that is raised, is pending at the end |
| Delivery.GuardDefersEvents | src/core.cpp:93-101 | from disableEvents to enableEvents of the same body, with any run in between: an event is taken at enableEvents if and only if one was pending or raised, and it is the first one |
| Misuse.StrayFaultsIff | src/coro.cpp:57-70 | in any state of a run without events in teleports: after a proceed handler is called by somebody without the right, some continuation in which nobody else does so ends in a failing check, if and only if the journey is deleted or its right is not lost; its pool has two free threads if it is alive |
| Lifecycle.SecondProceedFaults | src/coro.cpp:65-70 | the case of a stored right with the run written out: the same proceed handler called twice makes resume meet a running coroutine |
| Lifecycle.DoubleProceed | src/coro.cpp:65-70 | a run from the start with one undisciplined call, which ends in that failing check |
| WaitForAll.CountersCountLive | src/journey.cpp:30-38 | created minus destroyed is the number of live journeys in every state of every run |
| WaitForAll.DetectsQuiescence | src/journey.cpp:186-191 | if the destroyed counter is read no later than the created counter and they are equal, no journey lives at either moment and none was created between |
| WaitForAll.StaysEmptyIff | src/journey.cpp:186-191 | with no journey alive, no run without an outside go ever has one again, if and only if no deferred handler that may spawn is at work |
| WaitForAll.LateSpawn | src/core.cpp:145-168 | a run from the start in which both counters agree, no journey is alive, and a deferred handler can still spawn one |
| WaitForAll.OtherOrderIff | src/journey.cpp:186-191 | with the created counter read first and equal to the destroyed counter read later: no journey is alive then if and only if none was created in between |
| WaitForAll.WrongOrder | src/journey.cpp:186-191 | a run from the start in which they are equal and a journey is alive |
| Affinity.AffinityStep | src/journey.cpp:69-79 | a step keeps "bodies run, and continuations are queued, on the journey's current scheduler" if and only if no event is thrown inside a real teleport |
| Affinity.EventBreaksAffinity | src/journey.cpp:69-79 | a run from the start in which an event in a teleport breaks it |
| Affinity.BodiesExcludeEachOther | src/core.cpp:170-178 | in every run without such events: user code runs on its journey's scheduler, and two journeys on one Alone never run their bodies at once |
| Affinity.StrandedRun | src/core.cpp:175-178 | a busy thread works for its own pool, and a strand occupies at most one thread, in every run |
| Affinity.YieldReleases | src/journey.cpp:165-178 | after a yield a thread frees the strand within four own steps unless it spawns; the next one is always possible and nobody can interfere |
| Affinity.QueuedTaskNeverStuck | src/core.cpp:170-178 | in every run, with a queued task and a free thread of its pool: a pool's task can be taken at once; for an Alone, its oldest task can be taken if the strand is free, an occupant can always step, and after a yield at most four steps of the occupant alone lead to a state in which the oldest task can be taken: no deadlock among Alones |
| Affinity.PostingOrder | src/core.cpp:175-178 | in every run the handlers of an Alone run in the order in which they were posted |
| JourneyHeap.Goer.SetStatus | src/goer.cpp:74-81 | an event is accepted if and only if none is pending; accepted events are the delivered ones followed by the pending one |
| JourneyHeap.Goer.Cancel | src/goer.cpp:64-67 | the same for cancel |
| JourneyHeap.Goer.Timedout | src/goer.cpp:69-72 | the same for a timeout |
| JourneyHeap.Goer.Reset | src/goer.cpp:57-62 | takes the pending event out once, in the order of acceptance |
| JourneyHeap.MachineStep | src/journey.cpp:54-101 | the machine's step of a body is exactly the call's effect on its own journey and goer, and the thread switches back just when the call yields |
| JourneyHeap.Journey.HandleEvents | src/journey.cpp:81-89 | throws if and only if events are allowed, no exception is in flight and an event is pending; then it is that event, taken out, and otherwise the goer is as before; implements its machine step |
| JourneyHeap.Journey.DisableEvents | src/journey.cpp:91-95 | throws if and only if events were allowed, no exception is in flight and an event was pending, with events still allowed; otherwise events are disabled and a pending event stays; implements its machine step |
| JourneyHeap.Journey.EnableEvents | src/journey.cpp:97-101 | events are allowed afterwards in any case; throws the pending event unless there is none or an exception is in flight; implements its machine step |
| JourneyHeap.Journey.Defer | src/journey.cpp:54-58 | throws like handleEvents, with the field as before; otherwise the handler is stored and the call yields; implements its machine step |
| JourneyHeap.Journey.AfterYield | src/journey.cpp:59-60 | the rest of defer after the resumption: throws like handleEvents |
| JourneyHeap.Journey.Teleport | src/journey.cpp:69-79 | up to the switch: returns if and only if the destination is the journey's scheduler; otherwise the scheduler is written, and then it throws or yields as defer does; implements its machine step |
| JourneyHeap.Journey.OnExit | src/journey.cpp:165-178 | deletes the journey exactly if there is no deferred handler; otherwise the handler is called, and finds the field empty |
| JourneyHeap.MachineExit | src/journey.cpp:165-178 | the machine's step at the end of a segment is exactly that action, with the counter of destroyed journeys and the thread's next state |
| CoroStack.AlwaysSound | src/coro.cpp:57-124 | over all sequences of start, resume, yield and end on one thread, failing ones included, the active coroutines form a stack without repetitions, all of them begun and not ended |
| CoroStack.ControlComesBack | src/coro.cpp:92-124 | whatever runs nested between a start or resume and its return: the same coroutine gives control back, to its caller, which finds its own current coroutine again and sees an exception exactly if the body ended by it |
| CoroStack.WhoCanRun | src/coro.cpp:57-75 | after every run on one thread: a coroutine that is not active can be resumed if and only if its body has begun and not ended, and started if and only if not; it gets control on top of the unchanged stack; an active one can be neither; control can be given back inside a coroutine and only there |
| CoroStack.StartYieldResume | src/coro.cpp:57-102 | start, yield, resume ends in the coroutine, on the stack of its start |
| CoroHeap.OsThread.JumpInto | src/coro.cpp:92-97 | keeps the chain of saved contexts and pending jumps intact with the new coroutine on top |
| CoroHeap.OsThread.Start | src/coro.cpp:57-62 | refused if and only if the coroutine is started or running, and then nothing changes; otherwise control is in it, on top of the active ones; refines the stack's start |
| CoroHeap.OsThread.Resume | src/coro.cpp:65-70 | refused if and only if the coroutine is not started or is running, and then nothing changes; otherwise control is in it, on top of the active ones; refines the stack's resume |
| CoroHeap.OsThread.JumpBack | src/coro.cpp:87-102 | following the saved context and the caller's local variables restores the previous current coroutine and clears the running flag of the right one |
| CoroHeap.OsThread.Yield | src/coro.cpp:28-32 | refused if and only if no coroutine is active; otherwise control is in the context that resumed this one, which stays started; refines the stack's yield |
| CoroHeap.OsThread.Finish | src/coro.cpp:109-124 | control is in the context that resumed the coroutine, which gets the exception of the body, if there is one; refines the end of a body |
| Portal.PortalsAreLexical | src/portal.cpp:23-33 | in any body whose teleports are all portals, with any nesting of throws and catches, the scheduler is restored on every exit, and every piece of user code runs on the scheduler of the innermost portal written around it |
| Portal.ExceptionsPass | src/portal.cpp:30-33 | for every body and from every scheduler: whether an exception leaves it, and which user code runs in which order, follow from its throws, sequences and catches alone; so a portal passes an exception on, and a handler runs exactly if an exception reaches it |
| Portal.ErasureKeeps | src/portal.cpp:23-33 | taking all portals and teleports out of a body changes neither the user code that runs nor how the body ends |
| Portal.BareTeleportLeaks | src/journey.cpp:69-79 | a teleport outside portals to another scheduler breaks that |
| Portal.Trip.Teleport | src/journey.cpp:69-79 | teleport of the journey object of `Journey`, with the switch and the resumption: the journey leaves its thread exactly if the destination differs, and is on the destination afterwards |
| Portal.Trip.CrossOver | src/journey.cpp:57-60 | the way between: onExit0 moves the journey's own proceed handler out, and the resumption throws nothing |
| Portal.Trip.Run | src/portal.cpp:23-33 | the execution has the meaning of the body, and yields exactly as often as the scheduler really changes |
| Portal.Trip.RunThen | src/portal.cpp:23-33 | a sequence, and a catch: the second body runs exactly if the first one ends in the right way, and the records of both add up |
| Portal.Trip.RunScope | src/portal.cpp:23-33 | at scope exit, normal or by an exception, the scheduler is the one at entry, whatever the body does, bare teleports included |
| ChannelHeap.Waiter.Proceed | include/channel.h:39-43 | a waiting reader is told a value, once, and finds it in its variable |
| ChannelHeap.Waiter.ProceedEmpty | include/channel.h:45-49 | a waiting reader is told the end, once, and finds no value |
| ChannelHeap.Waiters.Pop | include/channel.h:69-76 | takes the newest waiter off the linked list, which stays well formed |
| ChannelHeap.Waiters.PopAll | include/channel.h:78-84 | moves the whole list out |
| ChannelHeap.Waiters.Push | include/channel.h:86-90 | links a waiter in front |
| ChannelHeap.Waiters.ProceedAll | include/channel.h:178-179 | every waiter of the list proceeds exactly once without a value, although the link of a waiter is lost when it proceeds |
| ChannelHeap.Channel.Put | include/channel.h:115-128 | the newest waiter gets the value and one proceed, or the queue gets it last; the invariant "waiters only while empty and open" is kept |
| ChannelHeap.Channel.Get | include/channel.h:130-143 | up to the yield: the oldest value, or end if closed, or a new waiter in front of the list with the mutex kept locked |
| ChannelHeap.Channel.GetResumed | include/channel.h:144-149 | after the wait get returns the value of the put that woke the reader, or the end if a close did |
| ChannelHeap.Channel.Arm | include/channel.h:144-147 | the deferred handler stores proceed and unlocks: afterwards every listed waiter can proceed |
| ChannelHeap.Channel.Open | include/channel.h:164-168 | only the flag changes |
| ChannelHeap.Channel.Close | include/channel.h:170-180 | a second close does nothing; the first leaves no waiter and each one proceeded once, empty |
| ChannelSafety.StructStep | include/channel.h:115-180 | every step of any mix of puts, gets, closes, opens and runtime steps keeps: a reader is in at most one of list, hand-off and closing list; its proceed handler is stored unless its thread still holds the mutex; the mutex belongs to that thread, which is on its way to the deferred handler of get |
| ChannelSafety.HolderStep | include/channel.h:143-147 | while the mutex is held across a yield, each step of its holder is one of at most four that lead to the unlock, and steps of others change nothing about that |
| ChannelFifo.RefinesStep | include/channel.h:115-180 | each step is matched by operations of a plain queue |
| ChannelFifo.FifoOrder | include/channel.h:115-180 | in any history of the plain queue: values put are values given followed by the queue |
| ChannelFifo.ChannelIsFifo | include/channel.h:115-180 | in every run: the critical sections in their order are a history of a plain queue that ends in the channel's content; values ever put are values given, in order, followed by the queue; and what a journey's calls of get returned is exactly what its operations on that queue gave it, one answer at most being on its way (which arrives, by NobodyIsForgotten and PoppedReaderReturns). A get fails only where the queue is empty and closed |
| ChannelFifo.LockAcrossYield | include/channel.h:130-149 | whenever the mutex is free every listed waiter has its proceed handler and the queue is empty and open if there is one; while it is taken it belongs to the thread that switches or has just armed, whose next step is always possible; after at most four own steps it has unlocked, once, and no other thread can unlock it or stand in its way; no check fails |
| ChannelProgress.NobodyIsForgotten | include/channel.h:115-180 | in every reachable state: a thread that is inside put, get or close can take its next step there, each of its own steps brings it one nearer to the end, and no step of others changes that; and the next step of a put or close that has popped a reader tells that reader its value or the end |
| ChannelProgress.PoppedReaderReturns | include/channel.h:118-148 | from every such state in which a reader was popped, with a free thread in the reader's pool and no event for it: four steps lead to the return of its get with the value of the put, or with the end for a close |
| ChannelProgress.NoCallIsLost | include/channel.h:115-180 | in every run: the arguments of the calls of put, in order, are the values given followed by the queue; and each call of get of a journey has an answer of the queue, except the one that is in the list |
| ChannelProgress.CallsArePossible | include/channel.h:115-180 | while the mutex is free, every body that is not inside get, every deferred handler and every other thread that is not inside the channel may put, close and open, whether it is open or closed, and every such body without a deliverable event may get |
| ChannelProgress.ReturnIsPossible | include/channel.h:148-149 | a reader that was told and runs again returns, unless an event is deliverable |
| JoinTheorems.StepKeeps | src/core.cpp:80-168 | every step of the spawn loop, of any child and of the destructor keeps the join's invariant: copies are counted, one increment wins, the caller's variable and proceed are used only while it is suspended |
| JoinTheorems.DestroyedLast | src/core.cpp:83-89 | the shared object is destroyed only after the spawn loop and every child have released it |
| JoinTheorems.AtMostOnce | include/core.h:69-111 | for all three functions, every list of handlers and every interleaving: proceed is called at most once, and neither it nor a write to the caller's variable happens while the caller is not suspended |
| JoinTheorems.GoWaitTheorem | src/core.cpp:80-91 | goWait resumes only after the spawn loop and all handlers have ended, normally or by an exception, and exactly once |
| JoinTheorems.GoAnyWaitTheorem | src/core.cpp:145-168 | goAnyWait resumes exactly once if some handler returns normally and never otherwise, with the index of the handler whose increment produced 1; so the check after the yield never fails, and the check for an empty list keeps a caller from sleeping for ever |
| JoinTheorems.GoAnyResultTheorem | include/core.h:69-111 | goAnyResult resumes exactly once for every list, the empty one included; its result is a value that some handler returned, that of the first increment, and empty if and only if every handler threw or returned nothing |
| JoinTheorems.EveryReportCounts | include/core.h:83-107 | in every state of every run of every join the counter is the number of handlers with something to report that are past their increment, and one more once the destructor of goAnyResult has counted |
| JoinTheorems.RestIsOver | src/core.cpp:80-168 | a join can take no step if and only if its shared object is destroyed: nothing gets stuck |
| JoinTheorems.RunsEnd | src/core.cpp:80-168 | no run of a join is longer than a bound fixed by its state |
| CounterHeap.FirstValueIsFirst | include/core.h:83-87 | the value that wins is the first one in the order of the increments |
| CounterHeap.Counter.TryProceed | include/core.h:83-87 | the first call writes the result and proceeds, every later one only counts |
| CounterHeap.Counter.Serve | include/core.h:75-109 | the increments in any order, and then the destructor: one proceed, with the first value or none |
| JoinRuntime.JoinsKeepTheRight | include/core.h:69-111 | any number of joins of all kinds amid everything else journeys do, in every run: whenever a join calls proceed, its caller's right is stored, for this join alone; whenever it proceeds or writes the caller's variable, the caller is alive and suspended; no check of the runtime fails |
| JoinRuntime.JoinsAreDisciplined | src/core.cpp:80-168 | the runtime's part of every such run is one in which no right is used twice: the assumption of the lifecycle theorems holds for the joins |
| JoinRuntime.ProceedPosts | include/core.h:94-109 | the one step after which a caller counts as resumed posts the rest of its journey to the scheduler it is on; steps that neither spawn nor proceed leave the runtime alone |
| JoinRuntime.ParticipantsCanStep | src/core.cpp:80-168 | whatever else goes on, the thread in the deferred handler and the children's bodies can take each step that the join has for them |
| Barrier.StepKeeps | src/core.cpp:103-143 | every step of the owner, of the deferred handler, of any child and of the deleter keeps the use count and the place of the pointer in agreement, an event at the beginning of wait included; an event at the end of a sleep empties the pointer |
| Barrier.EmptiedStep | src/core.cpp:121-132 | an empty pointer stays empty: no wait is fast, no deleter runs, a sleeping owner stays asleep |
| Barrier.EmptiedRun | src/core.cpp:121-132 | no run leaves such a state, and an owner that sleeps in it sleeps for ever |
| Barrier.WaitIsBarrier | src/core.cpp:114-143 | over any number of rounds, events included: a wait that returns at once, and a sleep that ends, by an event or not, find every journey launched before gone; proceed is called at most once for each wait that sleeps and only while the owner sleeps in it; a wait can end by an event before it sleeps exactly while a journey is left or after an event has ended a sleep |
| Barrier.CallIsBarrierIff | src/core.cpp:121-132 | in every run: a call of wait lets the owner go on only when every journey launched before it is gone, in all continuations, if and only if they are gone at the call or no event is deliverable at the call |
| Barrier.EarlyEvent | src/core.cpp:121-132 | a run from the start after which a call of wait with a deliverable event is no barrier |
| Barrier.SleepEnds | src/core.cpp:121-132 | while the pointer is in order a sleeping owner is never stuck, and every step of anybody brings the end of its wait nearer |
| Barrier.SleepReturnsIff | src/core.cpp:121-132 | in every run: an owner that sleeps in a wait can return if and only if no earlier sleep was ended by an event |
| Barrier.LateEvent | src/core.cpp:121-132 | a run from the start in which an event ends a sleep and the next wait that sleeps never returns |
| BarrierRuntime.WaiterKeepsTheRight | src/core.cpp:134-143 | over any number of rounds on the runtime machine: whenever the deleter runs, the owner's right is stored and the owner is alive and suspended |
| BarrierRuntime.WaiterIsDisciplined | src/core.cpp:103-143 | the runtime's part of every such run is one in which no right is used twice |
| BarrierRuntime.EventsDecide | src/journey.cpp:54-60 | the owner's events decide how a wait goes on: it yields exactly if none is deliverable at the call; a throw at the beginning or at the end of a sleep takes the event out |
| BarrierRuntime.DeletePosts | src/core.cpp:134-143 | the deleter posts the rest of the owner's journey to the scheduler it is on |
| BarrierRuntime.ParticipantsCanStep | src/core.cpp:103-143 | in every state the owner's body may call go, and wait, which returns, throws or yields as the pointer and its events say; and handlers, children and the deleter can go on |
| WaiterHeap.Waiter.constructor | src/core.cpp:103-107 | one pointer, to the owner's proceed handler |
| WaiterHeap.Waiter.Go | src/core.cpp:114-119 | the new journey captures a copy of the current pointer, empty or not |
| WaiterHeap.Waiter.Begin | src/core.cpp:121-128 | the call returns at once if and only if every journey launched before is gone and no event has emptied the pointer; otherwise it throws if an event is deliverable, the pointer in place, and else yields |
| WaiterHeap.Waiter.MoveOut | src/core.cpp:128-130 | the deferred handler empties the member |
| WaiterHeap.Waiter.DropLocal | src/core.cpp:128-130 | its local copy is the last one if and only if all children are gone |
| WaiterHeap.Waiter.Release | src/core.cpp:116-117 | a child's copy is the last one if and only if all children are gone and the owner sleeps |
| WaiterHeap.Waiter.Delete | src/core.cpp:134-143 | the deleter proceeds once |
| WaiterHeap.Waiter.Renew | src/core.cpp:131-136 | a fresh pointer for the next round |
| WaiterHeap.Waiter.SkipRenew | src/core.cpp:128-131 | an event instead: the member stays empty |
| NetworkSafety.StepKeeps | include/data.h:47-110 | in any network every step keeps: each item ever put is at exactly one place (queue, one worker, processed), items are handed out in order, and the lists of the channels hold exactly the parked readers |
| Shutdown.FirstRest | include/data.h:24-30 | at rest before the close every worker waits on an empty open source and each item of a consumed channel was processed exactly once |
| Shutdown.CascadeStep | include/data.h:32-54 | after the close at rest, every step is the run of a closer, and keeps the state of the cascade |
| Shutdown.DrainAndClose | include/data.h:24-54 | on any finite network, cycles, several workers and several closers included: after the close of a channel no put and no processing happens; at rest again exactly the channels reachable from it are closed, exactly the workers that read them have exited, and each item ever put into a consumed channel was processed exactly once |
| Shutdown.CascadeEnds | include/data.h:32-54 | the cascade takes a bounded number of steps |
| Shutdown.RestOrStep | include/data.h:47-54 | a network is at rest if and only if no worker can step; puts and closes from outside are possible at any moment, on closed channels too |
| Closing.CloseAtAnyTime | include/data.h:32-54 | on any finite network, with any puts and closes from outside at any moments, workers busy or not: at rest the closed channels are exactly those closed from outside and those reachable from them, and exactly the workers that read them have exited, with their closers run |
| Closing.ItemsAtAnyTime | include/channel.h:130-149 | in the same runs, for every channel that is read: at rest each item ever put was processed exactly once or is in the queue, and exactly as many are there as were put after the last reader had left: a worker does not end before the queue of its closed source is empty |
| Potential.StepTotal | include/data.h:56-72 | with prices balanced for the stages' functions, each step costs exactly what it takes off the total over queues, hand-offs and items in work |
| Potential.RunTotal | include/data.h:56-72 | the same for whole runs with items from outside at any moment |
| Potential.WholeRun | include/data.h:56-72 | the cost of a run is bounded by what came in, and equal to it at rest, for every schedule |
| Feedback.Terminates | tests/data_tests.cpp:82-102 | under every schedule the feedback network takes at most a computed number of steps from one item, and exactly that number when it is at rest |
| Feedback.RecordsFibonacci | tests/data_tests.cpp:82-102 | from one item v >= 1 at most, and at rest exactly, 2 * Fib(v + 2) - 2 values are recorded |
| Feedback.AggrRecordsFib | tests/data_tests.cpp:93-97 | the recursion of the recorded values in closed form |
| Chain.MultisetAtRest | include/data.h:74-110 | a chain with any number of workers for each stage: at rest every channel got, as a multiset, the items of the head mapped through the stages, throwing and empty results skipped |
| Chain.SequenceAlways | include/data.h:74-110 | with one worker a stage: at every moment of every schedule each channel holds a prefix of the mapped items of the channel before, and at rest exactly the composed map of the items of the head |
| Chain.LineStep | include/channel.h:99-110 | a stage's worker handles its items in order and its puts match a prefix of them, in every step |
| Stages.MapIsPassing | include/data.h:74-110 | the output of a stage is, one for each and in order, the values of the items for which the function neither throws nor, in a 1-to-0/1 stage, gives an empty result |
| Stages.MapMembers | include/data.h:92-110 | a value comes out of a stage if and only if such an item has it, and none behind a 1-to-0/1 stage is empty |
| Stages.LosslessMap | include/data.h:74-110 | a stage all of whose items pass puts as many values as it gets, each at the place of its item |
| Stages.OutputsAtRest | include/data.h:74-110 | the same of the channels of a chain at rest, any number of workers, any schedule; and if every stage passes everything, as many values reach each channel as came in |
| Stages.OutputsAlways | include/data.h:74-110 | with one worker a stage, at every moment: each channel holds the values of the first passing items of the channel before it, in order, and no empty one behind a 1-to-0/1 stage |
| Pipes.PutAllServesThenQueues | include/channel.h:115-128 | a series of puts serves the waiting readers, newest first, and queues the rest in order |
| Pipes.Turn | include/data.h:96-107 | one turn of the loop: if the function throws, or gives an empty result to a 1-to-0/1 stage, nothing is put; any other result is put, once |
| Pipes.Loop | include/data.h:77-88 | the loop, with nobody else at the two channels meanwhile, handles all items in order until get brings no value |
| Pipes.Drain | include/data.h:92-110 | from the first get to the end of the loop, with nobody else there meanwhile: the source is empty, the destination has got everything the stage makes of it |
| Pipes.Stretch | include/data.h:47-54 | from getting control to losing it: all items go through the stage into the destination, then the worker waits with the source's mutex locked, or its closer closes the destination |
| UrlFilter.Filter.Call | examples/data.cpp:140-151 | the result and the new set of one call |
| UrlFilter.Filter.Pipe | include/data.h:92-110 | the loop with the filter, over the items in the order in which they come: exactly the first maxUrls different URLs that contain the filter, in the order of their first appearance, the empty one left out |
| UrlFilter.ContainsIff | examples/data.cpp:142-143 | the filter may stand anywhere in the URL |
| UrlFilter.ChosenNext | examples/data.cpp:140-151 | how that selection grows with one more URL |
| UrlFilter.OutputBound | examples/data.cpp:136-157 | at most maxUrls results, all different, all containing the filter; and all of them, while fewer than maxUrls are accepted |
| Crawl.CrawlStepKeeps | examples/data.cpp:247-262 | every step of the crawler's network keeps: what is in filteredUrl was accepted, once |
| Crawl.AtMostMaxUrls | examples/data.cpp:247-262 | whatever the pages link to and under every schedule, at most maxUrls URLs enter filteredUrl, all different, all containing the filter |
| Crawl.CrawlIsComplete | examples/data.cpp:247-262 | at rest every accepted URL but the empty one has entered filteredUrl; and while it could take more, so has every URL but the empty one that was ever put into url and contains the filter |
| CrawlEnds.CrawlDescends | examples/data.cpp:247-262 | each step uses up a place of the filter or lowers the work left |
| CrawlEnds.CrawlComesToRest | examples/data.cpp:247-262 | with finitely many links on each page, every schedule that does not idle reaches a state of rest |
| ThreadPool.StepKeeps | src/mt.cpp:57-109 | every step keeps: the service is stopped only without outstanding work, the work object means not stopped, and no wake-up is lost |
| ThreadPool.WaitIsSoundIff | src/mt.cpp:98-109 | wait returns only after every task posted before it has completed, in all runs, if and only if nothing is pending at the call or the service is not stopped and no worker is between run() and the lock |
| ThreadPool.OneThreadWaitIsSound | src/mt.cpp:62-77 | with one thread and one call at a time every call of wait is sound |
| ThreadPool.StaleWorker | src/mt.cpp:62-77 | a run of two threads and one caller after which wait is not sound |
| PoolProgress.NeverStuck | src/mt.cpp:62-109 | for any number of threads and callers: while somebody sleeps in wait, or the destructor waits for a thread, some step other than outside activity or a wake-up without notification is possible |
| PoolProgress.StepUsesUp | src/mt.cpp:62-109 | every such step lowers a measure of the state |
| PoolProgress.WaitReturns | src/mt.cpp:98-109 | once nothing more is posted, every schedule comes to rest in a bounded number of steps, and there all waits have returned and all threads of a destroyed pool have ended |
| PoolProgress.WaitQuiescesIff | include/data.h:24-30 | if only handlers post, wait returns only when nothing at all is left to do, in all runs, if and only if the pool is idle at the call or the service is not stopped and no worker is between run() and the lock |
| PoolProgress.DestructorDrainsIff | src/mt.cpp:81-91 | the destructor runs every pending task before the threads end, in all runs, if and only if nothing is pending or the service is not stopped and some worker is not between run() and the lock |
| PoolProgress.DestructorAlwaysDrains | src/mt.cpp:81-91 | in every run of every pool with a thread this condition holds when nobody waits: the destructor always runs all tasks first |
| PoolTasks.EveryTaskOnce | src/mt.cpp:57-96 | in every run of every pool: each posted task is in the queue or was given to a handler, exactly once, nothing else was, and every handler that was given a task is at it or has returned |
| CloseAndWait.StepTied | include/data.h:24-54 | a pool whose tasks are the segments of a network's workers: in every step each worker with something to do has a pending task |
| CloseAndWait.WaitRestsIff | include/data.h:24-30 | a call of wait returns only to a network at rest, in all runs, if and only if the network is at rest at the call or the service is not stopped and no thread is between run() and the lock |
| CloseAndWait.SystemNeverStuck | include/data.h:24-30 | while a caller sleeps in wait, the pool or a worker of the network can take a step |
| CloseAndWait.WorkerHasTask | include/data.h:47-54 | a worker with something to do has a pending task, and every thread that is given the task can let it go on |
| CloseAndWait.CloseAndWaitTheorem | include/data.h:24-30 | wait, close, wait from end to end: with that condition at both calls, at the end exactly the reachable channels are closed, their workers have exited, and each item ever put into a consumed channel was processed exactly once |
| CloseAndWait.OneThreadCloseAndWait | include/data.h:24-30 | on a pool of one thread the same without any condition |
| CloseAndWait.TooEarly | include/data.h:24-30 | a run of two threads in which closeAndWait returns before a reachable channel is closed |
| PoolHeap.Pool.Schedule | src/mt.cpp:93-96 | one more unit of outstanding work and one more task; refines the machine's post |
| PoolHeap.Pool.CompleteTask | src/mt.cpp:65 | one unit less, and the service is stopped exactly if none is left; refines the end of a task |
| PoolHeap.Pool.AfterRun | src/mt.cpp:66-75 | leaves exactly if the pool is being destroyed, renews the work and restarts the service exactly if there is no work object, runs again otherwise; refines the locked block |
| PoolHeap.Pool.WaitEnter | src/mt.cpp:98-104 | the work object goes, and the service stops exactly if it was the last work; refines the beginning of wait |
| PoolHeap.Pool.WaitTest | src/mt.cpp:102-108 | back exactly if the work object is there; refines the test after a wake-up |
| PoolHeap.Pool.Stop | src/mt.cpp:81-86 | the flag is set, the work object goes, and the service stops exactly if it was the last work; refines the beginning of the destructor |

## Left out

- Sockets, acceptor, resolver, HTTP loading and the example client and server: input and output over Boost.Asio. Loading is a function that may throw.
- The regular expressions of the crawler's parsers: what a stage makes of an item is an arbitrary function.
- Real time and timers: a timeout is a step that may happen at any moment.
- Events inside `Channel::get`: ChannelMachine has no run in which one is thrown there. After `defer` throws, the guard that was released no longer unlocks, or a value that was delivered is dropped.
- ChannelIsFifo: says nothing about such runs, nor about waiters that are destroyed while they are listed.
- PoppedReaderReturns: written out for a reader whose journey is on a thread pool; NobodyIsForgotten, TellsReader and ReturnIsPossible do not depend on the scheduler, and QueuedTaskNeverStuck has the way through an Alone.
- A simulation of the atomic channels of a Network by ChannelMachine: the two share the functions of ChannelValue, and each is proved to hand values out in order, but no lemma maps runs of the one to runs of the other.
- CrawlComesToRest: pages are a function of their URL; a URL is loaded once, so this is no loss for the loads themselves.
- CloseAtAnyTime: the channels of a Network are not opened again; ChannelMachine has open.
- WaitIsSoundIff: for pools of at least one thread; with none, nothing ever runs.
- CloseAndWaitTheorem: the pool runs nothing but the network, and only one thread calls wait.
- Loop: one worker's stretch with nobody else at either channel meanwhile; Network and Chain interleave all workers.
- Drain: the same.
- Stretch: the same.
- Pipe: the loop over the items that get brings, without the other users of the channels; Crawl interleaves them.
- Serve: the children one after the other; JoinTheorems interleaves all their steps.
- StrayFaultsIff: assumes two free threads in the pool of a live journey, and no Alone.
- WaiterKeepsTheRight: one waiter, amid any other use of the runtime.
- Handlers of a pool that throw: the exception would end the thread in createThread. Journeys catch theirs.
- The destructor of `EventsGuard` is taken as the call of `enableEvents` that it makes; that C++11 ends the program if a destructor throws is not modelled.
- Exceptions other than std::exception, and exceptions thrown by destructors or by a deferred handler itself.
- The spawn loops of goN, goWait and goAnyWait and the body of Alone::schedule are steps of machines, not methods of classes: what matters in them is how their statements interleave with other threads. Aliasing between the captured references of such handlers is not modelled.
- Events in goWait, goAnyWait and goAnyResult: one at the beginning is thrown before the join begins, one at the end after it has resumed its caller; the joins begin at the deferred handler and end there.
- The lifetime of the handler lists: handlers are taken by value, although goAnyWait and goAnyResult may resume the caller while children still use its list.
- Creating a journey and posting its first segment is one step; each deferred handler is one program that may spawn, publish its right and proceed.
- Programs that call coro::yield directly inside a journey, defer a null handler, or destroy a Waiter or a channel while others use it.
- Workers of a Network are a fixed set that is there from the beginning; the journey that spawns them for n > 1 is not modelled.
- With several workers each has its own copy of UrlFilter; Crawl has one, as the example does.
- Channel::empty, the get that returns a default value at the end, Iterator copies, Goer getters and status texts, GC, the attach wrappers of schedulers and services, logging and singletons: easy members only.
- Stack memory, sizes and allocation of coroutine contexts.
