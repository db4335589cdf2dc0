# Futures, promises and the machinery behind them

portable_concurrency implements futures and promises on top of one lock-free data structure,
a stack of callbacks that can be consumed once. A shared state is a storage and such a stack;
`next` and `then` create shared states that subscribe to their parent weakly and own it
strongly; a continuation that returns a future makes its own state delegate to that future;
`when_all` and `when_any` subscribe to many inputs; executors and a thread pool run what is
posted to them. This project models these parts and proves what they promise over every run
and every interleaving.

A concurrent part is a state machine: a `State`, a `Step` that is one atomic operation, one
critical section or one reference-count change, `Enabled`/`Apply`, and `Run` over an arbitrary
list of steps (a step that is not enabled is passed over, so every list is a schedule). Atomic
operations are sequentially consistent. The parts the program writes as objects and loops are
also given as classes; their methods are proved against specification functions, and what other
threads do in between appears as a list of turns.

| file | part |
|---|---|
| `StackProtocol.dfy`, `StackTheorems.dfy` | the once-consumable stack: load, compare-exchange, exchange, node memory with address reuse |
| `OnceConsumableStack.dfy` | the stack as heap objects with its compare-exchange loop |
| `Network.dfy`, `NetworkLedger.dfy`, `NetworkSafety.dfy`, `NetworkSteps.dfy` | the network of shared states with explicit strong counts, and its invariant |
| `Denotation.dfy`, `Confluence.dfy`, `MonadLaws.dfy` | what a network means, that every schedule yields it, and the laws of `next` |
| `Progress.dfy` | every run uses itself up, and held results arrive |
| `Futures.dfy` | how many futures are held on a state, and what their holders may do |
| `Ownership.dfy`, `SelfReference.dfy` | cancellation, `detach`, who is alive, and the one way to leak |
| `SharedStateObject.dfy` | `shared_state` and `future` as heap objects that execute each other recursively |
| `ContinuationActions.dfy` | `cnt_state` and the `cnt_action` handed to executors |
| `Owners.dfy`, `OwnerObjects.dfy` | promises and packaged tasks over their whole life |
| `Combinators.dfy`, `CombinatorObjects.dfy` | `when_all` and `when_any` |
| `Latch.dfy`, `LatchObject.dfy` | the latch and its waiting destructor |
| `ThreadPool.dfy`, `ClosableQueue.dfy`, `ExitBarrier.dfy` | the pool, its queue and the barrier its threads leave through |
| `PoolLife.dfy` | the three together from constructor to destructor, with threads of the pool and guests |
| `Sequences.dfy`, `Outcomes.dfy` | reversal; values shared by all parts |
| `EndToEnd.dfy` | packaged tasks posted to a pool that is then destroyed |

## What is assumed

* `unwrap` writes the storage without looking whether it is empty
  (`portable_concurrency/bits/shared_state.h:102`), so a packaged task must not call itself
  while it runs; `SharedState.Unwrap` and `SharedState.SetStateValue` ask for an empty storage.
* That reachability alone decides who is alive assumes `Ownership.Ranked`: no continuation
  delegates, for an outcome its parent really has, to something derived from its own result.
  `Ownership.AliveExactly` needs no assumption and says who else is alive, namely what a cycle of
  owners holds; `SelfReference.SelfReferenceLeaks` is a run with such a cycle. Confluence,
  delegation and everything else about the network holds without it, and a state that waits for
  itself never becomes ready (`SelfReference.NeverReady`).
* A set on a promise whose future is gone does nothing and reports nothing
  (`portable_concurrency/bits/promise.h:88-92`), so "the second set throws" is stated for states
  that are alive.
* Callers of the latch keep the counter from going below zero, call one destructor, and begin no
  call after it. User functions may throw; notifications do not.
* `EndToEnd.HeldFuturesSettle` asks that the pool had a thread to join and that guests which call
  `attach` did so before it was told to stop, or that there were no guests (`PoolLife.Prudent`).
* A function can return only a future it holds. A running `then` function holds the one it was
  handed until it drops or moves it. `Progress.ResultsArrive` asks that functions that end in a future
  have that future (`Progress.Provided`), and that promises meant to be completed are.
* Tasks of the pool end.

## Where the code falls short

* `cnt_action` has a move assignment that forgets what it referred to
  (`portable_concurrency/bits/then.hpp:186-189`). An executor that assigns over an action it has
  not run loses the result: it is never completed, although its future is still held.
  `ContinuationActions.OverwrittenNeverCompletes` is the run, and
  `ContinuationActions.CompletedUnlessOverwritten` the exact condition.
* `latch::count_down` notifies after it has released the mutex
  (`portable_concurrency/bits/portable_concurrency.cpp:119-129`), and the destructor waits only for
  `wait` and `count_down_and_wait`. `Latch.OutlivedByCalls` and `Latch.TouchedAfter` say when the
  notification can come after the destructor has returned: exactly when what some other calls take,
  added to what this count_down takes, is the count. `Latch.CountDownOutlived` is the case of a
  program that counts all of it in one call.
* `closable_queue::pop` destroys the worker's previous function object while it holds the mutex
  (`portable_concurrency/bits/closable_queue.hpp:10-15`). If that posts to the same pool, because the
  function owned a promise whose future continues on the pool, the worker waits for the mutex it holds.
  From then on the queue is out of service (`ThreadPool.LockedForGood`) and the destructor of the pool
  does not return (`PoolLife.DestructorHangs`). `ThreadPool.StrandsExactly` is the exact condition: a task
  with such a function object is accepted and is not the last one accepted; two tasks and one thread
  are enough (`ThreadPool.PosterStrands`). Packaged tasks and the actions of continuations let go of
  their function within the call (`portable_concurrency/bits/packaged_task.h:34`,
  `portable_concurrency/bits/then.hpp:209-210`), so what a program posts through them is not concerned.
* Reassociating `next` is not a law for a function that returns an invalid future: unwrapping it
  gives broken_promise (`portable_concurrency/bits/shared_state.h:98-101`), calling `next` on it
  throws no_state (`portable_concurrency/bits/future.hpp:191-192`). `MonadLaws.NotAssociative` is the
  input and `MonadLaws.Associativity` the exact condition.
* The destructor of the pool joins its own threads only. A thread that called `attach` itself may
  still be in there when it returns: `PoolLife.DestructorExactly` says when, for the loop over the
  queue and for the rest of `attach`.
* The comment on the destructor of the pool promises to wait for work to drain
  (`portable_concurrency/bits/thread_pool.h:47`); the code stops the workers first. The model
  follows the code: `ThreadPool.StopLeavesTasks` is a run that leaves a task behind, and
  `EndToEnd.HeldFuturesSettle` says what its future then shows.

## Model

| member | source | states |
|---|---|---|
| `StackTheorems.Linearizable` | portable_concurrency/bits/once_consumable_stack.hpp:75-105 | with any number of producers and one consumer interleaved at single atomic operations, the stack refines an abstract object that is either open with a sequence of items or consumed |
| `StackTheorems.AnswersMatch` | portable_concurrency/bits/once_consumable_stack.hpp:75-91 | what a push returns is what the abstract object answered at its linearization point, which occurs in the run exactly once if the push has its answer and not at all otherwise |
| `StackTheorems.ExactlyOnce` | portable_concurrency/bits/portable_concurrency.cpp:30-39 | every item is at every moment in exactly one place: with its caller, in the node of the push under way, or once among the pushed; what the consumer was handed is the front of the pushed in reverse order of the exchanges, and in the end all of it |
| `StackTheorems.NoAba` | portable_concurrency/bits/once_consumable_stack.hpp:82-88 | the head never holds the same value twice in a run, although addresses of freed nodes are reused |
| `StackTheorems.EveryNodeFreed` | portable_concurrency/bits/once_consumable_stack.hpp:13-22 | no node is read or freed after it was freed, and once everything is over every allocated node has been freed |
| `StackTheorems.RetryBound` | portable_concurrency/bits/once_consumable_stack.hpp:82-88 | the lost compare-exchanges of one push are at most the pushes of others that succeeded since its load, plus one if the stack was consumed |
| `StackTheorems.PushAlone` | portable_concurrency/bits/once_consumable_stack.hpp:75-91 | in every state of the protocol a push that is left alone is through within three atomic steps of its own, and succeeds, its item being then the last pushed, exactly if the stack has not been consumed |
| `StackTheorems.ConsumeAlone` | portable_concurrency/bits/portable_concurrency.cpp:35-39 | a consume left alone is through within two steps for each pushed node and three more, and has then handed out everything pushed before its exchange, latest first |
| `StackTheorems.TearAlone` | portable_concurrency/bits/once_consumable_stack.hpp:62-69 | when its users are through the destructor can run, ends within a step for each node left, and leaves nothing allocated |
| `StackTheorems.ChainIs` | portable_concurrency/bits/once_consumable_stack.hpp:29-34 | following `next` from the head visits exactly the published nodes, so the chain is finite and has no cycle |
| `StackTheorems.MemoryHoldsChain` | portable_concurrency/bits/once_consumable_stack.hpp:29-34 | the published nodes are different cells of memory, so a walk as long as the memory sees all of them |
| `StackTheorems.StepRefines` | portable_concurrency/bits/once_consumable_stack.hpp:75-105 | each concrete step is one abstract push, refused push or consume, or invisible |
| `StackProtocol.RunInv` | portable_concurrency/bits/once_consumable_stack.hpp:62-105 | the invariant tying head, links, private nodes and the consumer's list holds in every run |
| `OnceConsumableStack.Stack.CompareExchange` | portable_concurrency/bits/once_consumable_stack.hpp:82-83 | succeeds exactly when the head equals the node's `next`, and otherwise loads the head into it |
| `OnceConsumableStack.Stack.Push` | portable_concurrency/bits/once_consumable_stack.hpp:75-91 | succeeds exactly when the stack was still open after the turns the others took, puts the node on top, restores `next` on failure, and loses no more exchanges than the others changed the head |
| `OnceConsumableStack.Stack.PushItem` | portable_concurrency/bits/once_consumable_stack.h:95-101 | the caller's value moves into the node on success and comes back unchanged on failure |
| `OnceConsumableStack.Stack.Consume` | portable_concurrency/bits/once_consumable_stack.hpp:98-105 | hands over the whole list, leaves the stack consumed, and yields nothing a second time |
| `OnceConsumableStack.Walk` | portable_concurrency/bits/portable_concurrency.cpp:35-39 | the loop calls every element of the consumed list once, in order |
| `OnceConsumableStack.ConsumedForGood` | portable_concurrency/bits/once_consumable_stack.h:65-69 | no push succeeds after the consume, whatever else happens |
| `OnceConsumableStack.OpenWithoutConsume` | portable_concurrency/bits/once_consumable_stack.h:65-69 | the stack stays open exactly as long as nobody consumes it |
| `NetworkSteps.StepSafe` | portable_concurrency/bits/shared_state.h:28-47 | every step keeps the invariant: explicit strong counts equal the references that exist, and one token carries each unready state |
| `NetworkSteps.ReachableSafe` | portable_concurrency/bits/then.hpp:199-243 | so in every run every `assert`, `get` of an `either` and access to a parent finds what it needs |
| `Denotation.DenotesUnique` | portable_concurrency/bits/then.hpp:80-110 | the meaning of a network, given without any schedule, assigns at most one outcome to a state |
| `Denotation.PromiseDenotes` | portable_concurrency/bits/promise.h:146-165 | a promise stands for what it is completed with, and for nothing if it never is |
| `Denotation.ThenDenotes` | portable_concurrency/bits/then.hpp:31-38 | the result of `then` stands for exactly what its function makes of the outcome of its parent, be that a value or an exception: a value, the exception thrown, broken_promise for an invalid future, or what the returned future stands for |
| `Denotation.DroppedDenotes` | portable_concurrency/bits/then.hpp:193-203 | a continuation whose task is destroyed stands for broken_promise once its parent stands for anything |
| `Denotation.DenotesInner` | portable_concurrency/bits/async.h:94-106 | a state that delegates stands for what the inner state stands for |
| `Confluence.DelegationEnds` | portable_concurrency/bits/shared_state.h:49-91 | from every ready state the recursion of value_ref/exception ends in a value or an exception, because each inner state became ready strictly earlier; no acyclicity is assumed |
| `Confluence.ReadyDenotes` | portable_concurrency/bits/shared_state.h:95-107 | at every moment of every run a ready state shows exactly what it stands for |
| `Confluence.Confluent` | portable_concurrency/bits/then.hpp:199-243 | when nothing moves any more, a live state is ready if and only if it stands for an outcome, and then it shows that outcome |
| `Confluence.PromiseShows` | portable_concurrency/bits/shared_state.h:28-40 | when nothing moves any more, the live state of a promise shows an outcome if and only if the promise was completed with it |
| `Confluence.ThenShows` | portable_concurrency/bits/then.hpp:31-52 | and the live result of `then` shows an outcome if and only if its function, called with what the parent stands for, ends in it |
| `Confluence.DroppedShows` | portable_concurrency/bits/then.hpp:193-203 | and a continuation that was destroyed instead of run shows broken_promise |
| `Confluence.SchedulesAgree` | portable_concurrency/bits/then.hpp:80-110 | any two schedules that come to rest agree on every state alive in both |
| `Confluence.NotStuck` | portable_concurrency/bits/then.hpp:205-225 | in every reachable state anything under way has a step of its own, so only real rest stops a run; a running function can return if and only if it has not let go of the future it is to return |
| `Confluence.ThenIsHandedParent` | portable_concurrency/bits/then.hpp:31-52 | in every reachable state the function of `then` starts with the future of its ready parent in its hands, may attach any continuation to it, and when it returns that very future nothing holds it up |
| `Progress.StepLowers` | portable_concurrency/bits/then.hpp:199-243 | every step, births and destructions included, lowers one measure; only copying a future or detaching it raises it, by at most two |
| `Progress.RunsAreBounded` | portable_concurrency/bits/portable_concurrency.cpp:30-41 | in every run, whatever the executors do, at most 17 steps for each state and two for each copy or detach are taken besides copies and detaches, so no network keeps itself busy for ever |
| `Progress.ComesToRest` | portable_concurrency/bits/then.hpp:199-243 | whatever steps the threads choose, the way to rest that is left is no longer than the measure, and no future held is lost on it |
| `Progress.ResultsArrive` | portable_concurrency/bits/then.hpp:199-243 | from every reachable state, however the threads go on, every held future that stands for an outcome becomes ready and shows it, if functions that return a future have it |
| `Progress.ThenReturnsArgument` | portable_concurrency/bits/then.hpp:40-52 | for every outcome of the parent and every function that returns its argument for it, on unique and shared futures, the result of `then` becomes ready and shows that outcome |
| `Futures.FuturesHeld` | portable_concurrency/bits/future.hpp:184-206 | in every run the futures held on a state are those made, copied, returned by `next` and `then`, and handed to functions of `then`, less those dropped and those moved into continuations; a shared one stays |
| `MonadLaws.NextDenotes` | portable_concurrency/bits/then.hpp:93-110 | `next` passes an exception on and otherwise binds the value, in both directions |
| `MonadLaws.LeftIdentity` | portable_concurrency/bits/then.hpp:93-110 | a ready value followed by `next(f)` yields what f of the value stands for |
| `MonadLaws.RightIdentity` | portable_concurrency/bits/then.hpp:93-110 | `next` with a function that returns a ready future of its argument changes nothing |
| `MonadLaws.Associativity` | portable_concurrency/bits/then.hpp:93-110 | chaining two `next` and one `next` of the composed function yield the same, outcome or none, if and only if the first function does not return an invalid future for the value there is |
| `MonadLaws.InvalidBreaks` | portable_concurrency/bits/future.hpp:185-198 | for such a function the one shows broken_promise and the other no_state |
| `MonadLaws.NotAssociative` | portable_concurrency/bits/future.hpp:185-198 | the smallest network on which they differ |
| `MonadLaws.AlikeObserved` | portable_concurrency/bits/shared_state.h:95-107 | states the laws equate cannot be told apart at rest by whoever holds both |
| `Ownership.AliveExactly` | portable_concurrency/bits/then.hpp:205-243 | in any network, once due destructors have run, a state is alive, and its promise awaited, exactly when it is reached from a handle, a running call or a detach over child-to-parent and outer-to-inner references, or its owners run into a cycle |
| `Ownership.RankedHasNoCycle` | portable_concurrency/bits/shared_state.h:102-106 | no cycle closes if no continuation delegates to something derived from its own result |
| `Ownership.AliveIffReached` | portable_concurrency/bits/then.hpp:205-243 | so in such a network a state is alive, and its promise awaited, exactly when it is reached |
| `Ownership.CascadeEnds` | portable_concurrency/bits/then.hpp:227-229 | the cascade of destructors ends after at most one destructor per live state |
| `Ownership.Cancelled` | portable_concurrency/bits/promise.h:94-122 | dropping a future, after the cascade that follows, destroys exactly the states neither reached nor held by a cycle; none of their functions runs and none of them is completed afterwards |
| `Ownership.DeadForever` | portable_concurrency/bits/then.hpp:205-225 | a state without references is never revived, called or completed |
| `Ownership.DetachPins` | portable_concurrency/bits/future.hpp:200-206 | `detach` of a future not ready leaves one more reference to its state, on the stack of that very state, and the future itself; on a ready one it does nothing |
| `Ownership.DetachKeeps` | portable_concurrency/bits/future.hpp:200-206 | in every run, from a `detach` on the state is alive until it is executed, and so is everything it waits for, whichever futures are dropped |
| `Ownership.RunFinal` | portable_concurrency/bits/shared_state.h:28-40 | a stored result and readiness are final in every run |
| `Ownership.NothingLeaks` | portable_concurrency/bits/future.hpp:200-206 | at rest, with no future held and every detached state able to complete, a state is alive exactly if a cycle of owners holds it, and none is in a ranked network |
| `Ownership.CalledOnce` | portable_concurrency/bits/then.hpp:205-225 | a continuation's function starts at most once and not before its parent is ready; a ready continuation was completed by its function or, its task destroyed, by broken_promise |
| `SelfReference.SelfReferenceLeaks` | portable_concurrency/bits/shared_state.h:95-107 | a run in which a continuation returns its own future and its state is left behind for good |
| `SelfReference.NeverReady` | portable_concurrency/bits/shared_state.h:49-91 | states that wait for each other over parents and delegations never become ready, in any run |
| `SharedStateObject.SharedState.Exchange` | portable_concurrency/bits/portable_concurrency.cpp:35-36 | after the exchange the callbacks in hand cover every outer state that became ready to be executed |
| `SharedStateObject.SharedState.Execute` | portable_concurrency/bits/portable_concurrency.cpp:35-39 | execution settles the state and every live outer state that delegates to it through any number of levels; every user callback on the way runs once, in stack order; outer states that died are passed over |
| `SharedStateObject.SharedState.RunAll` | portable_concurrency/bits/portable_concurrency.cpp:37-38 | the loop over the callbacks, which may execute other states recursively, terminates and misses none |
| `SharedStateObject.SharedState.Emplace` | portable_concurrency/bits/shared_state.h:28-33 | stores and publishes a value in an empty state, refuses otherwise and then changes nothing |
| `SharedStateObject.SharedState.SetException` | portable_concurrency/bits/shared_state.h:35-40 | the same for an exception |
| `SharedStateObject.SharedState.Abandon` | portable_concurrency/bits/shared_state.h:42-47 | broken_promise exactly if nothing is stored; a pending inner state is left alone |
| `SharedStateObject.SharedState.Unwrap` | portable_concurrency/bits/shared_state.h:95-107 | an invalid future becomes broken_promise; otherwise the state is ready exactly if the inner one is; the callbacks registered on it have run once each, in stack order, if it is ready, and are all still there if not, when the inner stack has one callback more, for this state |
| `SharedStateObject.SharedState.SetStateValue` | portable_concurrency/bits/utils.h:12-26 | a returned value, a thrown exception or a returned future becomes the outcome shown; every callback registered before runs once if that makes the state ready, and none is lost if it does not |
| `SharedStateObject.SharedState.Push` | portable_concurrency/bits/portable_concurrency.cpp:30-33 | a callback is stacked while the state is not ready and called at once otherwise |
| `SharedStateObject.SharedState.Release` | portable_concurrency/bits/shared_state.h:103-106 | when the last reference to a state goes, everybody else stays settled |
| `SharedStateObject.Delegation` | portable_concurrency/bits/shared_state.h:103-106 | between calls a live outer state is ready exactly when its inner state is, and shows the same outcome |
| `SharedStateObject.SeenNow` | portable_concurrency/bits/shared_state.h:49-91 | the recursion of value_ref ends after as many steps as there are inner states, and one more |
| `SharedStateObject.OutcomeFinal` | portable_concurrency/bits/shared_state.h:49-91 | an outcome once shown through any chain of inner states is shown for ever, unless the value was moved out of the very state the chain ends in, as `get` and `next` on a unique future do; an exception is shown even then |
| `SharedStateObject.MovedOut` | portable_concurrency/bits/future.hpp:19-24 | moving the value out of one storage changes what a state shows if and only if its chain ends there |
| `SharedStateObject.Future.Get` | portable_concurrency/bits/future.hpp:19-24 | yields the outcome and leaves the future invalid; a value is moved out of the state its own chain ends in, nothing else changes, and a ready state shows the change if and only if its chain ends there too |
| `SharedStateObject.Future.Attach` | portable_concurrency/bits/future.hpp:184-198 | moves the state into the continuation and subscribes it, or calls it at once |
| `SharedStateObject.Future.Detach` | portable_concurrency/bits/future.hpp:200-206 | moves the future on and leaves on the stack of a state not ready a callback that holds that very state; a ready state is left alone |
| `ContinuationActions.AtMostOnce` | portable_concurrency/bits/then.hpp:178-225 | whatever an executor does with the action objects, the function runs at most once and the result is written at most once, by the function or as broken_promise |
| `ContinuationActions.CallStores` | portable_concurrency/bits/then.hpp:205-215 | in every run, calling an action whose result is still awaited stores what the function makes of its argument, publishes it unless it is delegated, and touches no other result |
| `ContinuationActions.DestroyBreaks` | portable_concurrency/bits/then.hpp:193-203 | destroying such an action instead stores and publishes broken_promise, and the function has not been called |
| `ContinuationActions.RanBy` | portable_concurrency/bits/then.hpp:191-215 | a function that was started was started by a call of an action referring to its state, and what that call made of its argument is the result at the end of the run |
| `ContinuationActions.DroppedNeverRuns` | portable_concurrency/bits/then.hpp:205-208 | once the last reference to a result is gone its function never starts |
| `ContinuationActions.InnerPublishes` | portable_concurrency/bits/shared_state.h:102-106 | a delegated result is ready for good from the moment the inner one is |
| `ContinuationActions.CompletedUnlessOverwritten` | portable_concurrency/bits/then.hpp:186-197 | once no action refers to a state still awaited, its result was written if and only if its action was not assigned over |
| `ContinuationActions.CompletedWithoutAssign` | portable_concurrency/bits/then.hpp:178-197 | an executor that never assigns over actions has completed every result still awaited once it holds no action of it |
| `ContinuationActions.OverwrittenNeverCompletes` | portable_concurrency/bits/then.hpp:186-189 | the run in which an assignment loses a result for good |
| `ContinuationActions.CntState.Schedule` | portable_concurrency/bits/then.hpp:217-225 | moves the executor out once and posts an action; a dead state posts nothing |
| `ContinuationActions.CntState.Execute` | portable_concurrency/bits/then.hpp:205-215 | moves the function out and stores what it makes of its argument, published unless it is delegated; does nothing if the result is not awaited |
| `ContinuationActions.CntState.Abandon` | portable_concurrency/bits/then.hpp:200-203 | breaks the promise of a state without result and drops its function |
| `ContinuationActions.CntAction.Invoke` | portable_concurrency/bits/then.hpp:191-191 | runs the state once, which then holds what the function made of its argument; the action is empty afterwards |
| `ContinuationActions.CntAction.Destroy` | portable_concurrency/bits/then.hpp:193-196 | abandons what was not run |
| `ContinuationActions.CntAction.MoveFrom` | portable_concurrency/bits/then.hpp:186-189 | takes the other's pointer and forgets its own |
| `ContinuationActions.AssignOver` | portable_concurrency/bits/then.hpp:186-189 | the failing use as a program: after everything was run and destroyed the first result is still awaited |
| `Owners.LifeCycle` | portable_concurrency/bits/promise.h:24-27 | over any sequence of constructions, moves, assignments, sets, calls and destructions: one write, one call, and the cancel action runs exactly once iff the state dies unexecuted |
| `Owners.BrokenExactly` | portable_concurrency/bits/promise.h:59-78 | broken_promise appears exactly when an owner disappears with nothing set and no inner pending |
| `Owners.StoredExactly` | portable_concurrency/bits/promise.h:146-165 | what an empty state holds after any operation: the value set through its promise, what the function of its task produced, broken_promise if its owner ended while it lived, or nothing |
| `Owners.ExecutedExactly` | portable_concurrency/bits/shared_state.h:28-47 | a state is executed by the operation that stores its result, or, when that is delegated, by the inner state, and by nothing else |
| `Owners.SetForGood` | portable_concurrency/bits/promise.h:146-165 | the first value set on a promise whose state is alive is what the state holds, executed, whatever follows |
| `Owners.CallForGood` | portable_concurrency/bits/packaged_task.h:30-38 | and so is what the function of a task produced when it was called |
| `Owners.FirstIsFinal` | portable_concurrency/bits/shared_state.h:28-40 | the first effective completion is final; a later set is refused while the state is alive and ignored afterwards |
| `Owners.FinalInEveryRun` | portable_concurrency/bits/shared_state.h:28-40 | and stays so whatever follows |
| `Owners.OwnersFit` | portable_concurrency/bits/packaged_task.h:109-134 | no owner ever meets a state of the wrong shape, so every operation the code offers is possible in every reachable world |
| `Owners.StepInv` | portable_concurrency/bits/promise.h:59-109 | every operation keeps: strong counts are the owners and futures that exist, and a live state without result still has its owner |
| `OwnerObjects.Promise.GetFuture` | portable_concurrency/bits/promise.h:80-86 | the strong pointer turns weak and the future takes its count; a second call is refused |
| `OwnerObjects.Promise.Set` | portable_concurrency/bits/promise.h:88-92 | an empty live state holds the value afterwards and is executed; a set one refuses and keeps its own; a dead one is left alone without a word |
| `OwnerObjects.Promise.IsAwaiten` | portable_concurrency/bits/promise.h:111-122 | false exactly when the state was freed |
| `OwnerObjects.Promise.Destroy` | portable_concurrency/bits/promise.h:59-78 | abandons what a future may still see, and frees the state if none was given out |
| `OwnerObjects.Promise.Assign` | portable_concurrency/bits/promise.h:62-66 | abandons the old state and takes the other's |
| `OwnerObjects.PackagedTask.GetFuture` | portable_concurrency/bits/packaged_task.h:91-98 | the strong pointer turns weak; a second call is refused |
| `OwnerObjects.PackagedTask.Call` | portable_concurrency/bits/packaged_task.h:30-38 | runs the function once, stores what it produced and drops it; refuses a second call, and is silent when the state is gone |
| `OwnerObjects.PackagedTask.Destroy` | portable_concurrency/bits/packaged_task.h:61-64 | drops the function and breaks the promise of a task never run |
| `OwnerObjects.PackagedTask.Assign` | portable_concurrency/bits/packaged_task.h:80-85 | does so to the old state and takes the other's |
| `OwnerObjects.Block.Release` | portable_concurrency/bits/promise.h:24-27 | the last reference of a cancellable state never executed calls the cancel action |
| `Combinators.CounterExact` | portable_concurrency/bits/when_all.h:24-41 | the counter equals un-notified subscriptions plus make's own notify, and is zero exactly when the continuations were executed or one thread is about to |
| `Combinators.NeverEarly` | portable_concurrency/bits/when_all.h:37-41 | the continuations never run before every input is ready and `make` is through |
| `Combinators.AllReadyIff` | portable_concurrency/bits/when_all.h:66-75 | at rest the result of `when_all` is ready if and only if every input is |
| `Combinators.SingleWinner` | portable_concurrency/bits/when_any.h:43-48 | one notification wins, the result is executed at most once, and the index is that of the winner, in range and ready, or there is no input and it is size_t(-1) |
| `Combinators.FirstWins` | portable_concurrency/bits/when_any.h:43-48 | the winner is the input whose notification came first |
| `Combinators.IndexFinal` | portable_concurrency/bits/when_any.h:64-67 | the published index never changes, even after `get` and late notifications |
| `Combinators.AnyReadyIff` | portable_concurrency/bits/when_any.h:50-62 | at rest the result of `when_any` is ready if and only if some input is or there is none |
| `Combinators.CycleEnds` | portable_concurrency/bits/when_all.h:28-35 | at rest a combinator without futures is destroyed exactly when every input has executed or died, and then owns none of them |
| `Combinators.InputsKept` | portable_concurrency/bits/when_all.h:28-35 | until a source has executed nothing the caller drops destroys an input of `when_all`, so its promise can still be kept |
| `Combinators.RestIsNear` | portable_concurrency/bits/when_all.h:28-41 | threads left to themselves come to rest in a bounded number of steps, however scheduled |
| `Combinators.StepInv` | portable_concurrency/bits/when_any.h:43-62 | the joint invariant of both combinators is kept by every step |
| `CombinatorObjects.WhenAllState.Notify` | portable_concurrency/bits/when_all.h:37-41 | decrements and executes exactly at zero |
| `CombinatorObjects.WhenAllState.Make` | portable_concurrency/bits/when_all.h:28-35 | whatever inputs others complete between subscriptions, repeated ones included, afterwards exactly those are ready, the counter is the number of unready positions and the result is executed exactly if all inputs are ready |
| `CombinatorObjects.WhenAllState.Complete` | portable_concurrency/bits/when_all.h:30-32 | a completed input notifies once per position it was passed at |
| `CombinatorObjects.WhenAnyState.Notify` | portable_concurrency/bits/when_any.h:43-48 | the first notification sets the index and executes; later ones change nothing |
| `CombinatorObjects.WhenAnyState.Make` | portable_concurrency/bits/when_any.h:50-62 | afterwards exactly the inputs completed by others are ready, the result is executed exactly if some position is ready or there is none, and the index is that of the first notification, which came from a ready position |
| `CombinatorObjects.Completing` | portable_concurrency/bits/when_all.h:30-32 | completing a source settles exactly the positions it was passed at |
| `Latch.WaitsAreSafe` | portable_concurrency/bits/portable_concurrency.cpp:105-142 | waits return only at counter zero, waiters_ counts the threads inside a wait, and none sleeps at zero without a pending notify_all |
| `Latch.DestructorSafe` | portable_concurrency/bits/portable_concurrency.cpp:100-103 | the destructor sleeps only while some thread is still counted, and returns only when none is |
| `Latch.LastOneWakes` | portable_concurrency/bits/portable_concurrency.cpp:114-116 | when the last waiting thread leaves, its single notify_one can only reach the destructor, and does |
| `Latch.EveryoneReturns` | portable_concurrency/bits/portable_concurrency.cpp:100-142 | when no thread can move on and the counter is zero, every call that was begun has returned |
| `Latch.SafeWithoutCountDown` | portable_concurrency/bits/portable_concurrency.cpp:100-117 | in programs without count_down no thread has a step left once the destructor has returned |
| `Latch.OutlivedByCalls` | portable_concurrency/bits/portable_concurrency.cpp:119-129 | a latch can be destroyed under a count_down that has yet to notify if and only if some of the other calls of the program together leave exactly the count it takes |
| `Latch.TouchedAfter` | portable_concurrency/bits/portable_concurrency.cpp:100-129 | that is also exactly when a thread can have any step left inside the latch after the destructor has returned |
| `Latch.OutlivedExactly` | portable_concurrency/bits/portable_concurrency.cpp:119-129 | in terms of runs: exactly if some run comes to a point where count_down is called with what is left, before the destructor is called |
| `Latch.CriticalOutlives` | portable_concurrency/bits/portable_concurrency.cpp:119-129 | from every such point of every run, whoever else is waiting, the destructor can get ahead |
| `Latch.CountDownOutlived` | portable_concurrency/bits/portable_concurrency.cpp:119-129 | every program that takes the whole count in one count_down has that run |
| `Latch.ReadyForGood` | portable_concurrency/bits/portable_concurrency.cpp:131-134 | the counter never goes up |
| `LatchObject.Latch.CountDown` | portable_concurrency/bits/portable_concurrency.cpp:119-129 | subtracts n and notifies all exactly when the counter reaches zero |
| `LatchObject.Latch.SleepUntilZero` | portable_concurrency/bits/portable_concurrency.cpp:114-114 | evaluating the predicate only when awake misses nothing: whatever count-downs, waits and departures of others come in between, a sleeper at counter zero is awake or a notify_all is still owed, and it comes back at its next look |
| `LatchObject.Latch.Wait` | portable_concurrency/bits/portable_concurrency.cpp:136-142 | comes back only at counter zero, and then at its next look, whoever else enters or leaves meanwhile; no longer counted then, it notifies exactly if it was the last |
| `LatchObject.Latch.CountDownAndWait` | portable_concurrency/bits/portable_concurrency.cpp:105-117 | the caller that reaches zero wakes everybody and does not wait; the others wait like `wait` |
| `LatchObject.Latch.Destroy` | portable_concurrency/bits/portable_concurrency.cpp:100-103 | comes back only when no waiter is left, and is awake whenever none is: the one notification of the last to leave suffices |
| `ThreadPool.Conservation` | portable_concurrency/bits/closable_queue.hpp:9-25 | accepted tasks are taken in order; each taken one is finished or in the hand of exactly one worker that runs it or is stuck before it, never both; the rest is the queue |
| `ThreadPool.StartsOnce` | portable_concurrency/bits/closable_queue.hpp:14-16 | a pop hands out the oldest queued task, never taken before |
| `ThreadPool.Drained` | portable_concurrency/bits/portable_concurrency.cpp:87-94 | closed but not stopped, once at least one worker was attached and nobody is in its loop any more, every accepted task was run |
| `ThreadPool.RunsAPrefix` | portable_concurrency/bits/portable_concurrency.cpp:198-201 | stopped or not, once nobody is in its loop the tasks run are a prefix of the accepted ones |
| `ThreadPool.StopLeavesTasks` | portable_concurrency/bits/portable_concurrency.cpp:179-182 | whatever was accepted and not taken stays in the queue when the pool is stopped: its worker leaves at the next test |
| `ThreadPool.NoLostWakeup` | portable_concurrency/bits/closable_queue.hpp:9-31 | at rest with the mutex free nobody sleeps next to a queued task; after close everybody has left the loop if and only if no worker is stuck, and none is unless a task other than the last posts when it is destroyed |
| `ThreadPool.StuckExactly` | portable_concurrency/bits/closable_queue.hpp:10-16 | a worker gets stuck exactly when it pops a queued task with a finished one in its hand whose destruction posts to the queue; no way out of the loop does it |
| `ThreadPool.StrandsExactly` | portable_concurrency/bits/closable_queue.hpp:10-25 | a program that has certain tasks accepted has a run with a stuck worker if and only if one of them, not the last, posts when it is destroyed |
| `ThreadPool.PosterStrands` | portable_concurrency/bits/closable_queue.hpp:10-25 | the smallest such program: of two accepted tasks the first posts when it is destroyed |
| `ThreadPool.LockedForGood` | portable_concurrency/bits/closable_queue.hpp:9-31 | with a stuck worker nothing is accepted, taken or closed in any continuation of the run |
| `ThreadPool.ClosedForGood` | portable_concurrency/bits/closable_queue.hpp:19-31 | nothing is accepted after close |
| `ClosableQueue.Queue.Pop` | portable_concurrency/bits/closable_queue.hpp:9-17 | returns the front of the queue at the first moment there is one, false at the first moment the queue is closed and empty, and destroys the caller's previous value with the front slot |
| `ClosableQueue.Queue.Push` | portable_concurrency/bits/closable_queue.hpp:19-25 | appends, or drops the value if the queue is closed |
| `ClosableQueue.Queue.ProcessQueue` | portable_concurrency/bits/portable_concurrency.cpp:87-94 | among any other workers and producers a worker runs accepted tasks in the order they were accepted, each once; what left the queue is what it ran and what the others took, so while they take none it misses none; it leaves for the stop flag or when the queue is closed and empty, and destroys every function object it took |
| `ClosableQueue.ClosedShrinks` | portable_concurrency/bits/closable_queue.hpp:19-31 | a closed queue only loses elements from the front |
| `ExitBarrier.LeavesTogether` | portable_concurrency/bits/portable_concurrency.cpp:190-194 | a thread gets past the wait exactly at a moment when no attached thread is processing |
| `ExitBarrier.EveryoneGone` | portable_concurrency/bits/portable_concurrency.cpp:184-196 | at rest every thread that ever attached has gone, also when others attached while it slept |
| `ExitBarrier.StepInv` | portable_concurrency/bits/portable_concurrency.cpp:184-196 | the counter is the number of processing threads, and nobody sleeps at zero unless some thread is about to notify |
| `PoolLife.DestructorSafe` | portable_concurrency/bits/portable_concurrency.cpp:179-196 | in every run of a pool with a thread of its own whose guests attached before the stop, or without guests, the queue is out of use when the destructor passes; without guests every thread has returned |
| `PoolLife.DestructorExactly` | portable_concurrency/bits/portable_concurrency.cpp:179-210 | with guests in time the destructor can pass over a thread in its loop if and only if the pool has no thread; with a late guest it always can; it can pass over a thread still inside attach if and only if there is a guest |
| `PoolLife.DestructorReturns` | portable_concurrency/bits/portable_concurrency.cpp:179-210 | when no thread of a stopped, prudently used pool has a step left, the destructor has everybody it joins if and only if no worker is stuck |
| `PoolLife.DestructorHangs` | portable_concurrency/bits/portable_concurrency.cpp:179-210 | in no continuation of a run in which a thread of the pool is stuck does the destructor return |
| `PoolLife.GuestOwesNotification` | portable_concurrency/bits/portable_concurrency.cpp:184-196 | for any number of own threads, the run in which a guest in time still owes its notify_all |
| `PoolLife.LateGuestInLoop` | portable_concurrency/bits/portable_concurrency.cpp:184-196 | for any number of own threads, the run in which a late guest is in the loop |
| `PoolLife.StepInv` | portable_concurrency/bits/portable_concurrency.cpp:184-210 | each step keeps: who has passed the barrier was past its loop, and once one has passed no timely guest is in the loop |
| `EndToEnd.HeldFuturesSettle` | portable_concurrency/bits/portable_concurrency.cpp:179-182 | after the destructor of a prudently used pool a held future of any task ever posted is ready with its result if it ran, with broken_promise if it was left queued or refused, or delegates to an inner future; the tasks run are a prefix |
| `EndToEnd.ResultIsWhatRan` | portable_concurrency/bits/packaged_task.h:30-38 | the result on record for a task is what its function produced in the one run of it |
| `EndToEnd.PostRecords` | portable_concurrency/bits/closable_queue.hpp:19-25 | a posted task is known by the state of its packaged_task ever after |
| `EndToEnd.UnsettledExactly` | portable_concurrency/bits/portable_concurrency.cpp:179-182 | without that prudence a held future of an accepted task shows nothing if and only if some thread is running the task at that moment, or stuck before it |
| `EndToEnd.NeverBlocked` | portable_concurrency/bits/packaged_task.h:100-106 | joining pool and owners excludes no step of the pool's life but a post |
| `EndToEnd.ClearNeverBlocked` | portable_concurrency/bits/portable_concurrency.cpp:179-182 | the queue of a destroyed pool can always be cleared |
| `EndToEnd.CallDoes` | portable_concurrency/bits/packaged_task.h:30-38 | running a posted task stores its result if anybody can still see it |
| `EndToEnd.DestroyDoes` | portable_concurrency/bits/packaged_task.h:44-64 | destroying a posted task that was not run breaks its promise |

## Left out

- Memory order: acquire and release are modelled as sequentially consistent steps; nothing is proved about weaker orders.
- `then` with a function that takes a promise (`portable_concurrency/bits/future.hpp:132-163`): the promise handed out is an owner like any other.
- Futures captured by user functions are held handles of the network; returning one copies the handle, which can be dropped next.
- `either`, `small_unique_function`, `unique_function`: tagged values and opaque functions; raw storage and placement new would only add bookkeeping.
- Value types: one integer type stands for all; references, void, type traits, `decay_for_future` and custom allocators are compile-time dispatch. In the network a value moved out by `get`, or into a function by `next`, stays readable; who sees a move is the subject of `SharedStateObject.dfy`.
- `shared_future`: it mirrors `future`; states with several handles and several children cover it.
- `wait`, `wait_for`, `wait_until`, `timed_waiter`: a callback that wakes the caller, and wall-clock time.
- Coroutine hooks and everything that connects to other event loops.
- A task of the pool that exits by an exception: the process terminates.
- Node memory in the network: the stack refinement replaces nodes and addresses by the abstract stack there.
- Combinators inside the network: `when_all` and `when_any` are a machine of their own, with their sources as inputs that become ready or die; the network's cells are not their sources.
- Self move-assignment of promises, packaged tasks and actions.
- OwnerObjects.Promise.Assign: asks that the two promises do not own the same state, which no sequence of operations produces.
- The classes in `CombinatorObjects.dfy` number the shared states behind the inputs instead of pointing at them.
- CombinatorObjects.WhenAnyState.Make: which of several ready inputs wins is the order of notifications and not fixed.
- ClosableQueue.Queue.Pop: destroying the caller's previous value does nothing else there; that it may post to the same queue is the subject of `ThreadPool.dfy`.
- ThreadPool.LockedForGood: what threads outside the queue do once a worker is stuck is not followed; those that post or leave with such a function object wait for the mutex too.
- Tasks that post from their own bodies appear as posts by anybody.
- Continuations of a queued task whose promise is broken while the queue itself is destroyed, if they post to that same queue.
- SharedStateObject.OutcomeFinal: what it asks of the states that were ready is what the contract of each operation says of them, ready for good with their storage kept unless its value is moved out.
