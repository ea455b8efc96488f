# rex-sm: the state machine kernel, modelled and proved

rex-sm runs hierarchical state machines. A dispatcher takes signals from a two-lane
queue and hands each to the machine of its kind; machines keep their states in shared
trees, signal each other, and ask a timeout manager for timers and for held items to be
given back later. This project models those parts in Dafny and proves what they
promise, alone and together.

## How it is laid out

| file | part of the system |
|---|---|
| `Base.dfy` | ids, signals, optional values |
| `Node.dfy` | the state tree with its cache of descendant ids, and the plain recursive functions that the cached tree must agree with |
| `Zipper.dfy` | the cursor: swap-remove on the way down, push and swap on the way up |
| `SharedTree.dfy` | trees changed in place; any history of changes against a flat map of states |
| `Timers.dfy`, `TimerHistory.dfy` | the doubly indexed timeout ledger, and its meaning over every history |
| `TimeoutManager.dfy` | the tick loop |
| `Queue.dfy`, `QueueRuns.dfy`, `QueueOrder.dfy` | the queue and its sleeping receivers; wakeups and order over every run |
| `Storage.dfy`, `Manager.dfy` | the store of trees and what a machine does through its context |
| `Notify.dfy`, `Pipeline.dfy` | the topic table and fan-out; the way of a timeout request to the ledger |
| `PingPong.dfy` | the Menu/Ping/Pong system of the repository's tests as one state machine |
| `PingPongTree.dfy`, `Weights.dfy`, `PingPongSafety.dfy`, `PingPongSteps.dfy`, `PingPongRuns.dfy` | its invariant, kept by every step of every run |
| `PingPongProgress.dfy`, `PingPongBounds.dfy`, `PingPongFinish.dfy`, `PingPongDispatch.dfy` | how much it can do, that it can always finish, and what dispatching alone achieves |
| `PingPongBlame.dfy`, `PingPongTimes.dfy`, `PingPongLate.dfy` | which failure is recorded, and the tests in which one player sleeps on the packet |
| `PingPongWitness.dfy` | runs that exist: paced games that end as those tests expect, and a done Pong that fails |
| `PingPongAtomic.dfy`, `PingPongEffects.dfy` | handlers split into their effects, with the other loops acting in between, and the order of the effects |
| `GameMachines.dfy`, `GameDispatch.dfy`, `GameTimeouts.dfy` | the handlers and the loops around them, in place, each shown to perform a run of that state machine |

A class or method is used where the source changes something in place. Its contract
gives the new state as a function of the old one, and the lemmas are about that
function. Time is an integer, in the game a number of nanoseconds; a task waker is a mark
on the task, and a section of code under a lock is one step. Where the source would panic,
a model function answers `None`, and the proofs show when that does not happen.

## Main results

* **Tree.** The zipper refines plain recursion: `into_insert` and `into_update` equal
  `Inserted` and `Mapped` for every well-formed tree, and the answer is missing exactly
  where the source panics. Any history of fresh inserts and updates keeps ids unique and
  caches exact, and answers like a flat map (`SharedTrees.RunRefinesMap`).
* **Timers.** Over every history an id is armed for `d` if and only if its last Set or
  Cancel was `Set(d)` and no tick since was past `d`; it fires once per Set, in deadline
  order, within one tick interval. Held items are released exactly once, at the first
  tick past their instant.
* **Queue.** In any run in which a waiting receiver is neither dropped nor polled again
  before it is woken, no receiver waits for a value unless enough others have had their
  tasks woken. That discipline is exact: a step breaks it if and only if some disciplined
  continuation leads to a value queued with every receiver asleep
  (`QueueRuns.DisciplineIsExact`, over runs `QueueRuns.FreshRunDisciplineIsExact`);
  `DroppedWaiterLosesWakeup` and `SpuriousPollStalls` give failing runs. For one
  long-lived receiver no condition is needed.
* **Store and routing.** Every id of a tree indexes that same tree, and `new_child`,
  `create_tree` and `remove_ref` keep it so exactly when no other node still needs the id;
  every registration gets every message of its topic once, in queue order; a drained
  ledger is the fold of the requests in issue order.
* **Menu/Ping/Pong.** In every run from one Play, with dispatching, routing, receiving,
  ticking and emitting interleaved in any way: no unwrap or assertion fails, there is at
  most one packet, each hand-off adds five and there are at most six, a finished menu has
  finished players and a failed one failed players, at most 117 steps take anything out
  of a queue, and every run can go on to a standstill in which the game is decided and no
  timer is armed. What a failed game records is the failure of the player whose timeout
  was the first to reach an undecided player (`PingPongBlame.FailureIsFirstTimeout`). In
  every run that keeps pace it is the one who does not hold the packet, whatever a tick
  finds in flight (`PingPongLate.OtherPlayerFails`); at the tests' tick rate it is recorded
  by the time at which the tests look, and there are such runs
  (`PingPongWitness.TimingTest`). Dispatching alone finishes the game if and only if
  neither player holds the packet. Taking a dispatch as one step loses nothing: with a
  handler split into its effects and the other loops acting between them, every run
  still reduces to a run of atomic dispatches (`PingPongAtomic.HandlersActAtomically`), and
  the packet is let go last (`PingPongEffects.PacketGoesLast`).
* **In place.** The handlers, the dispatch loop, the routing loop and the tick do what that
  state machine does, and whatever they queue wakes a receiver: `k` values take the first
  `k` that wait off the list, or all of them (`StreamQueue.GrownAwakes`).

## Where the code and its comments differ

* src/timeout.rs:340 speaks of instants `<= now`. `split_off(&now)` keeps `now` itself,
  so a tick releases strictly earlier deadlines only. The model does the same.
* src/timeout.rs:348-349 and 361-362 say that later timeouts end up on top. `push_front`
  appends to the priority lane (src/queue.rs:94-99), so they come out in release order.
* src/lib.rs:49 calls a terminal state one that will no longer change. A failing Menu
  fails all three machines (src/manager.rs:630-638), so a Pong that was done becomes
  failed: `PingPongWitness.DonePongCanFail` is such a run, and
  `PingPongRuns.TerminalChangesIff` says exactly when it happens.
* src/queue.rs:172 says that a dropped stream notifies the next receiver. It does so only
  if the flag of its last poll is set, and it leaves the notifiers of its polls in the
  list, where one of them takes a later wake-up for nothing (`QueueRuns.SpuriousPollStalls`).

## Model

| member | source | states |
|---|---|---|
| StateTree.FirstHolding | src/node.rs:69-83 | the child that a lookup continues in is the first that is or caches the id, and there is none exactly when no child does |
| StateTree.GuidedChild | src/node.rs:56-59 | for every strict descendant the child lookup succeeds, so the unwrap cannot fail, and the search goes on in the right child |
| StateTree.Get | src/node.rs:48-61 | cache-guided lookup equals an exhaustive search that ignores the cache, for ids present or absent |
| StateTree.FindPresent | src/node.rs:48-66 | the exhaustive search succeeds exactly on the tree's ids and returns the node with that id |
| StateTree.GetParentId | src/node.rs:117-133 | the guided parent lookup equals an exhaustive search for the parent |
| StateTree.ParentUnique | src/node.rs:117-133 | that parent is the one node with the id among its children; it is missing exactly for the root and for ids outside the tree |
| StateTree.MappedShape | src/node.rs:166-177 | a state-only update of all nodes keeps ids, caches and well-formedness |
| StateTree.FindMapped | src/node.rs:166-177 | after it, every id is found with its old state mapped, and no other id is found |
| StateTree.InsertedShape | src/node.rs:101-114 | a fresh insert keeps ids unique and every cache exact, and adds just the new id |
| StateTree.FindInserted | src/node.rs:101-114 | after a fresh insert the new id finds the new leaf and every other id what it found before |
| StateTree.InsertKeepsShapeIff | src/node.rs:101-114 | an insert keeps ids unique and caches exact if and only if the id is new to the tree |
| TreeZipper.UpDown | src/node.rs:225-275 | moving down and up restores the exact cursor for every valid index, and so does moving up and down |
| TreeZipper.FocusInPlug | src/node.rs:199-203 | the focus is a well-formed subtree of the plugged tree and answers its own ids like the whole tree |
| TreeZipper.Child | src/node.rs:225-238 | the swap-remove detaches the child in a way that moving up undoes |
| TreeZipper.Parent | src/node.rs:250-275 | push and swap put the focus back at its index, and the cursor gets less deep |
| TreeZipper.ById | src/node.rs:211-223 | the cursor finds every contained id, rebuilding always gives the original tree, and the assertion fails exactly for ids outside the tree |
| TreeZipper.FinishUpdate | src/node.rs:289-295 | rebuilding after a state change gives the original tree with exactly that state overwritten |
| TreeZipper.FinishUpdateParentId | src/node.rs:298-301 | the same, together with the true parent |
| TreeZipper.FinishInsert | src/node.rs:278-286 | rebuilding after a push gives the tree with the leaf appended and its id in the caches of the parent and its ancestors only |
| TreeZipper.IntoInsert | src/node.rs:101-114 | insertion through the cursor equals the recursive insertion; it panics exactly without a parent id or for a parent outside the tree |
| TreeZipper.IntoUpdate | src/node.rs:180-185 | update through the cursor equals the recursive update; it panics exactly for ids outside the tree |
| TreeZipper.FinishUpdateFn | src/node.rs:304-315 | a closure that sets a node's state from its id, its state and its children's states sets every state from the children's new ones, and ids, order and caches stay; the nodes are met children first |
| TreeZipper.RebuiltChildrenFirst | src/node.rs:304-315 | the same for any such closure and any tree |
| TreeZipper.RebuiltMaps | src/node.rs:304-315 | a closure that changes states only maps every state and keeps ids, caches and order |
| SharedTrees.PostOrderOnce | src/node.rs:304-315 | a children-first walk meets every id of a tree exactly once |
| SharedTrees.SharedTree.Insert | src/node.rs:85-97 | the in-place insert ends with the recursively inserted tree |
| SharedTrees.SharedTree.Update | src/node.rs:135-143 | the in-place update ends with the recursively updated tree |
| SharedTrees.SharedTree.UpdateAndGetParentId | src/node.rs:146-163 | it does the same update and returns the true parent |
| SharedTrees.SharedTree.UpdateAllFn | src/node.rs:166-177 | the same in place: the closure sees the children as it left them |
| SharedTrees.AppliedRefinesMap | src/node.rs:63-66 | one change of the tree is the same change of the flat map of states |
| SharedTrees.RunRefinesMap | src/node.rs:85-177 | so is every history of fresh inserts and updates, and it keeps ids unique and caches exact |
| SharedTrees.ReachableTree | src/node.rs:29-36 | the same from a newly created tree |
| Timers.TimeoutLedger.constructor | src/timeout.rs:78-84 | a new ledger has nothing armed and nothing held |
| Timers.TimeoutLedger.SetTimeout | src/timeout.rs:108-127 | both indexes stay in step and the id is armed for the new instant only |
| Timers.TimeoutLedger.CancelTimeout | src/timeout.rs:131-147 | both indexes stay in step and the id is no longer armed; nothing else changes |
| Timers.TimeoutLedger.Retain | src/timeout.rs:100-103 | the item joins the end of its instant's items; timers do not change |
| Timers.TimeoutLedger.Receive | src/timeout.rs:304-325 | one pass of the input loop applies the request to the ledger's meaning |
| Timers.FlatSplit | src/timeout.rs:356-359 | splitting the held items at a tick loses, adds and reorders none |
| TimerHistory.ArmedIff | src/timeout.rs:108-147 | over any history an id is armed for d iff its last Set or Cancel was Set(d) and no later tick was past d |
| TimerHistory.FiresIff | src/timeout.rs:338-354 | a tick releases a timer iff its deadline is strictly before and it was neither renewed, cancelled nor released before |
| TimerHistory.FiresOncePerSet | src/timeout.rs:338-354 | between two releases of one id there is a Set of that id |
| TimerHistory.FiresInTime | src/timeout.rs:338-354 | with ticks at most R apart, an untouched timer fires exactly once, after d and no later than d + R |
| TimerHistory.HeldIsPending | src/timeout.rs:100-103 | what is held for an instant is what the unreleased Retains asked for, oldest first |
| TimerHistory.TickReturnsDue | src/timeout.rs:356-367 | a tick hands back exactly the due Retains, by instant and then by request order |
| TimerHistory.ReleasedIff | src/timeout.rs:356-367 | a Retain is released by the first tick past its instant and by no other, whatever Sets and Cancels there are |
| TimerHistory.ReleasedOnce | src/timeout.rs:356-367 | every Retain is released exactly once when a tick gets past its instant |
| TimeoutManagers.TimeoutManager.Tick | src/timeout.rs:335-368 | a tick releases exactly the deadlines before now, keeps only keys from now on, and pushes one priority signal per supported id in deadline order, then those of the held items; every signal wakes one receiver |
| TimeoutManagers.TimeoutManager.ReleaseTimers | src/timeout.rs:341-354 | the timers' half of a tick, with both indexes left in step |
| TimeoutManagers.TimeoutManager.ReturnItems | src/timeout.rs:356-367 | the held items' half: every due item is offered back once, in order, and wakes a receiver |
| TimeoutManagers.TimeoutManager.QueuedAwakes | src/timeout.rs:347-350 | k released signals take the first k waiting receivers off the list, or all of them, flag and wake them, and touch no other |
| TimeoutManagers.TimeoutsInOrder | src/timeout.rs:344-354 | where every id supports timeouts the signals are exactly one per expired id, in release order |
| TimeoutManagers.ReturnsInOrder | src/timeout.rs:359-367 | and one per due item, in the order they were held |
| StreamQueue.StreamableDeque.NotifyRx | src/queue.rs:59-64 | wakes exactly the first registered notifier, if there is one |
| StreamQueue.StreamableDeque.PushFront | src/queue.rs:94-99 | the item joins the end of the priority lane and one waiter is woken |
| StreamQueue.StreamableDeque.PushBack | src/queue.rs:102-107 | the item joins the end of the normal lane and one waiter is woken |
| StreamQueue.StreamableDeque.PopFront | src/queue.rs:118-124 | takes the oldest priority item, else the oldest normal one, else nothing |
| StreamQueue.StreamReceiver.PollNext | src/queue.rs:145-168 | delivers like a pop, or registers a fresh notifier at the end of the list |
| StreamQueue.StreamReceiver.Drop | src/queue.rs:171-185 | a woken receiver hands its wake-up to the next waiter; one that was not woken leaves its notifier behind |
| StreamQueue.GrownAwakes | src/queue.rs:59-107 | pushing k values takes the first k registered receivers off the list, or all of them, flags and wakes exactly these, and keeps the others |
| QueueRuns.StepKeepsWakeups | src/queue.rs:94-185 | a disciplined step keeps the waiter list exact, flags and wake marks in agreement, and, while a receiver waits, at least as many tasks woken as values are queued |
| QueueRuns.DisciplineIsExact | src/queue.rs:145-185 | polling or dropping a waiting receiver is exactly what can lose a wakeup: a step does it iff a disciplined continuation starves a receiver, and iff one leaves a value queued with everybody asleep |
| QueueRuns.FreshRunDisciplineIsExact | src/queue.rs:145-185 | a run of the queue is disciplined iff none of its states can come to such a stall |
| QueueRuns.NobodySleepsOnValues | src/queue.rs:94-185 | in every disciplined run, if a receiver waits then the tasks of at least as many others as there are queued values have been woken, and its own has not |
| QueueRuns.PushWakesIff | src/queue.rs:59-64 | in any state a push wakes the task of a waiting receiver iff the first registered notifier belongs to one |
| QueueRuns.DroppedWaiterLosesWakeup | src/queue.rs:171-185 | after the first waiter is dropped unwoken, the next push wakes no receiver: the next in line waits, neither flagged nor woken |
| QueueRuns.SpuriousPollStalls | src/queue.rs:145-185 | a run with one spurious poll ends with a value queued and the only receiver asleep |
| QueueRuns.SoloNeverStuck | src/queue.rs:145-168 | with one receiver and any spurious polls, pending and not woken implies that both lanes are empty and a notifier is registered |
| QueueOrder.LanesAreFifo | src/queue.rs:94-124 | in every run, what left a lane followed by what is in it is what was pushed to it |
| QueueOrder.PriorityFirst | src/queue.rs:145-155 | a normal item is delivered only when every priority item pushed so far has been |
| QueueOrder.DrainOrder | src/queue.rs:118-124 | draining gives the priority lane and then the normal one |
| Storage.StateStore.RemoveRef | src/storage.rs:61-64 | only that id is no longer indexed, and a valid store stays valid iff the id was not stored or was alone in its tree |
| Storage.StateStore.GetTree | src/storage.rs:69-73 | the shared tree of an indexed id, nothing for others; in a valid store its nodes are exactly the ids that index it |
| Storage.StateStore.DistinctTreesDisjoint | src/storage.rs:8-14 | distinct stored trees have no id in common |
| Manager.GetState | src/manager.rs:145-149 | the state of the caller's own node, missing exactly when the id is not stored |
| Manager.GetParent | src/manager.rs:159-164 | the caller's true parent, none when it is a root or not stored |
| Manager.CreateTree | src/manager.rs:314-318 | a fresh single-node tree is stored under the id, and the store stays valid iff the id was in no tree or alone in one |
| Manager.IndexChild | src/manager.rs:288-290 | between the two steps of new_child every node is still indexed iff no other tree needs the child's id |
| Manager.NewChild | src/manager.rs:287-296 | the child joins the tree below the caller and is indexed to that same tree, and the store stays valid iff its id was in no tree or alone in another |
| Manager.Update | src/manager.rs:299-305 | exactly the caller's state changes in the shared tree |
| Manager.UpdateStateAndSignal | src/manager.rs:335-351 | the same, the true parent is returned, and at most one signal is appended: to that parent, when its kind maps the state to an input, waking one receiver |
| Manager.SignalStateChange | src/manager.rs:120-124 | one normal-lane signal, which wakes one receiver, when the kind maps the state to an input, else none |
| Manager.SetTimeout | src/manager.rs:357-361 | one priority request to arm the caller's own id at now + duration, waking one waiter |
| Manager.ReturnIn | src/manager.rs:363-367 | one priority request to hold the item for the caller until now + duration |
| Manager.CancelTimeout | src/manager.rs:369-372 | one priority request to cancel the caller's own timer |
| Manager.UpdateIsLocal | src/manager.rs:335-351 | all other states are unchanged; there is no parent exactly for the root |
| Notify.RegistrationsCount | src/notification.rs:91-102 | the topic table holds each processor once per registration of the topic |
| Notify.DeliveriesFilter | src/notification.rs:115-129 | with every topic registered once, a processor receives the stream filtered to its topics |
| Notify.NotificationManager.constructor | src/notification.rs:86-107 | the fold builds the subscriber table without losing or repeating a registration, and without empty entries |
| Notify.NotificationManager.Route | src/notification.rs:117-132 | one notification reaches every processor once per registration, and nobody else |
| Notify.NotificationManager.FanOut | src/notification.rs:119-129 | cloning for all subscribers but the last and moving for the last sends each exactly one copy per entry |
| Notify.NotificationManager.Drain | src/notification.rs:115-133 | draining delivers to each processor its messages in queue order, priority lane first, and leaves the loop registered for the next |
| Pipeline.ReachedInOrder | src/notification.rs:72-74 | in every interleaving the requests seen by the ledger, followed by those on their way, are those issued, in order |
| Pipeline.DrainedIsFold | src/timeout.rs:304-319 | once everything has arrived the ledger is the fold of the issued requests in order |
| Pipeline.ExpectedStep | src/timeout.rs:304-346 | routing and receiving never change whether an id will be armed; only a Set starts it and only a Cancel or a tick ends it |
| Pipeline.CancelledLastUnarmed | src/manager.rs:369-372 | an id whose last Set or Cancel is a Cancel is not armed once everything has arrived |
| Pipeline.CancelledTreeUnarmed | src/manager.rs:629-641 | after one Cancel per node of a tree no id of it is armed once everything has arrived, unless set again later |
| PingPongTree.GameTreeBuilt | src/manager.rs:612-618 | Play builds the menu with ping and pong below it, all in their new states |
| InFlight.TotalTick | src/timeout.rs:335-368 | a tick only moves weight from the ledger to what it emits, whatever the weights |
| PingPongRuns.PlayBegins | src/manager.rs:612-624 | Play does not panic and starts a game in which the invariant holds |
| PingPongRuns.PlayingStep | src/manager.rs:598-806 | every enabled step keeps the invariant, panics nowhere, and leaves terminal states terminal |
| PingPongRuns.EveryRun | src/manager.rs:592-806 | in every run: no panic, at most one packet, Menu Done implies both players Done, Menu Failed implies both Failed and a recorded failure, and at a standstill the game is decided with no timer armed |
| PingPongRuns.TerminalChangesIff | src/lib.rs:49-53 | a terminal state changes in a step iff it is that of a done Pong and the step tells an undecided Menu that Ping failed |
| PingPongWitness.DonePongCanFail | src/lib.rs:49-53 | from one Play that nobody delays, a run ends with Pong done, and one dispatch more fails it |
| PingPongRuns.TerminalStays | src/lib.rs:49-53 | over any run terminal states stay as they are, but for a done Pong in a game that fails |
| PingPongBounds.WorkBounded | src/manager.rs:592-806 | at most 117 steps of any run take something out of a queue |
| PingPongBounds.EveryHandOffAddsFive | src/manager.rs:690-780 | after n packets the one in the queue carries 5 * (n - 1), and no run sends more than six |
| PingPongFinish.EveryRunCanFinish | src/manager.rs:592-806 | every run from Play can go on to a standstill with the menu decided and no timer armed: no deadlock |
| PingPongBlame.StepBlame | src/manager.rs:598-644 | a step never changes which failure is or will be recorded; it settles it when it times an undecided player out |
| PingPongBlame.FailureIsFirstTimeout | src/manager.rs:629-641 | in every run a recorded failure is that of the player whose timeout was first dispatched while undecided, and a standstill is a failed one iff there was such a timeout |
| PingPongLate.OtherPlayerFails | src/manager.rs:853-931 | when one player holds the packet, ticks come at most a gap apart and what they set going is done within a lag as far as ticks see, the game never completes, the only failure recorded is the other player's, and it is recorded with all three failed once the system has settled after a tick later than `LastDeadline` |
| PingPongWitness.PacedGameIsRecorded | src/manager.rs:853-931 | for either holder and any such pace with ticks at least 117 ns apart, a run from Play keeps it and ends with that failure recorded |
| PingPongWitness.TimingTest | src/manager.rs:853-931 | with ticks at half of TEST_TICK_RATE, every run that has settled after 4 * TEST_TIMEOUT has recorded what the test asserts, for either holder |
| PingPongDispatch.DispatchAloneFinishesIff | src/manager.rs:808-851 | without notifications or ticks the game finishes, with both players done, iff neither player holds the packet |
| PingPongAtomic.PlanAgrees | src/manager.rs:598-806 | done one by one in source order, the effects of a handler lead where the atomic step leads, and there is no such list exactly where the step panics |
| PingPongAtomic.EffectsCommute | src/manager.rs:335-372 | a routing, receiving, ticking or emitting step can change places with what a handler has still to do |
| PingPongAtomic.HandlersActAtomically | src/manager.rs:257-267 | however the other loops interleave with the effects of the handlers, nothing panics and the result, with the current handler run to its end, is reached by a run of atomic dispatches |
| PingPongEffects.PacketGoesLast | src/manager.rs:645-790 | in every state of every interleaved run, a handler has set its timer before anything else, stores states before it signals, and lets the packet go last: until then the packet is nowhere else in the system |
| GameMachines.PingProcess | src/manager.rs:663-720 | the Ping handler takes exactly the step of the state machine, and its unwrap and assertion hold where that step does not panic; each value it queues wakes one receiver, and no tree but its own changes |
| GameMachines.PongProcess | src/manager.rs:731-790 | the same for Pong |
| GameMachines.MenuStateMachine.Process | src/manager.rs:598-644 | the same for Menu, with its table of failures; only a Play changes what is stored, and only for the three ids; a Play for a menu that is still undecided gives it and two new players a new tree, leaves the old one with the first players, and so leaves a valid store only if there were none |
| GameMachines.ReturnPacket | src/manager.rs:795-806 | the packet goes back to its sender with the own id as the new sender |
| GameMachines.FailAll | src/manager.rs:630-638 | every state of the tree fails and one Cancel per node is issued, in children-first order, each waking one receiver |
| GameMachines.HeardAwakes | src/manager.rs:357-372 | what a handler queues takes as many of the first waiting receivers off each queue's list, or all of them, flags and wakes them, and touches no other |
| GameDispatch.DispatchSafe | src/manager.rs:257-267 | whatever is at the head of the queue, its handler accepts it, does not panic, and leaves less to do |
| GameDispatch.StateMachineManager.Process | src/manager.rs:258-264 | routing by the kind of the id takes the state machine's step; trees and index entries of others are untouched |
| GameDispatch.StateMachineManager.Pass | src/manager.rs:257-267 | one pass of the loop extends the run by one dispatch and strictly lowers the remaining cost |
| GameDispatch.StateMachineManager.DispatchAll | src/manager.rs:249-270 | the loop performs a run of dispatches, the i-th of which reads the instants 2i and 2i + 1 of the clock, and ends with an empty queue and the dispatcher registered; one receiver was woken per signal that joined, and these are the dispatches less what was queued before |
| GameDispatch.StateMachineManager.PlayGame | src/manager.rs:808-851 | from one Play the loop leaves all three ids indexed to one tree, all Done when nobody holds the packet and with the menu undecided when somebody does |
| GameTimeouts.RouteAll | src/notification.rs:115-133 | draining the notification queue performs one routing step per request, moves them all to the channel in order, and leaves the loop registered |
| GameTimeouts.ReceiveAll | src/timeout.rs:304-325 | the input loop performs one receiving step per request |
| GameTimeouts.TickGame | src/timeout.rs:335-368 | afterwards exactly the deadlines and held packets from now on are left, the priority lane has got one timeout per expired id in deadline order and then the due packets, each waking a receiver, and all this is one tick event and the emission of what it released |

## Left out

- `src/ingress.rs` and `src/builder.rs`: network plumbing and wiring with conversions supplied by the user; no state of their own worth a proof.
- Logging, tracing, `lint_instant`, `hms_string`, `Display` and error reports: no effect on state.
- Two handlers that read the same nanosecond, and waits beyond the pace that `PingPongLate.OtherPlayerFails` names: excluded there by hypothesis, and in no other theorem.
- Tokio tasks, join sets, intervals, real clocks and atomics' memory ordering: time is an integer, a wake is a mark, a locked section is one step, and `mpsc` channels are lossless first-in-first-out sequences with a live receiver.
- Messages that do not convert to a timeout request, signals of a kind without a machine, and sends on closed channels: the source logs and drops them.
- The assertion in `StateMachineManager::new` that kinds are distinct, and id generation: fresh, distinct, non-nil ids are preconditions.
- A second game on the same menu id: `GameMachines.MenuStateMachine.Process` says what such a Play does, but the runs of the `PingPong` state machine start from one Play.
- Lookups through an index that a call has left invalid (an id inserted twice, a tree stored over another, an index removed): the contracts say exactly when a store stays valid, and later operations require it.
- Several games in one dispatcher: the store may hold other trees, but the queues of a `PingPong` world carry one game's messages.
- Waking order against the flag store inside `notify_rx` and `Drop`, and the allocation of a new flag per pending poll: a flag is an index that is never reused.
- Overflow of the packet's `u64` counter: it is a natural number here, and by `PingPongBounds.EveryHandOffAddsFive` it never exceeds 25 in the queue.
- `StreamableDeque::pop_back`: compiled for tests only.
