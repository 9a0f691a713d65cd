# bexec in Dafny

A model of the concurrent core of bexec, a C++ library of senders and receivers, and proofs about it. Each of its small
lock-free protocols is a transition system whose steps are single atomic accesses, critical sections or uses of a shared
field, taken by any number of threads in any order. What a protocol promises is proved for every reachable state or every
run. The pointer work and the loops of the same headers are classes and methods on the heap, proved against plain
specifications. The completion-signature calculus is pure functions over sender trees.

| component | files | form |
|---|---|---|
| stop token | `StopToken`, `StopTokenInv`, `StopTokenTheorems`, `StopTokenCalls`; `StopList` | protocol with call stacks; list on the heap |
| counting scope, associations, spawn | `ScopeWord`; `Scope`, `ScopeInv`, `ScopeTheorems`, `ScopeCalls`; `Association` | packed word; protocol; handles on the heap |
| run loop | `RunLoop`, `RunLoopInv`, `RunLoopTheorems`, `RunLoopShutdown`, `RunLoopCalls`; `RunLoopQueue` | protocol; queue on the heap |
| repeat_until | `RepeatUntil`, `RepeatUntilTheorems`, `RepeatUntilRounds`; `RepeatUntilLoop` | protocol; the loop in its own form |
| when_all | `WhenAll`, `WhenAllInv`, `WhenAllTheorems`, `WhenAllProgress`, `WhenAllRuns`, `WhenAllTermination`; `WhenAllState` | protocol; the shared state in its own form |
| completion signatures | `Signatures`, `SignatureLists`, `SignatureTheorems`, `SignatureLaws`, `SignatureExactness`; `RepeatUntilSends`, `WhenAllSends` | functions over type lists and sender trees; what they say of the two protocols against their runs |

`Runs` defines finite runs and the inductions over them; `Lists` is about sequences, `Links` about the intrusive lists
that the scope and the run loop push on.

How the protocols are written. A state holds the atomic words, the plain fields they guard, and a map from calls to
program counters. `Next` gives the state after a step, or `None` when the step is not enabled. A compare-exchange that
fails, spuriously or not, is a step that reloads. Auxiliary fields, named as such in each file, record history that
the theorems speak about. Steps consult them only where callers owe something (an operation is not enqueued twice at a
time, a call made from inside execute returns before execute does), and the batch that the run loop takes is read off the
auxiliary stack, which `StackIsLinked` shows to be the list hanging off `head_`. `Inv` is the invariant, `Keeps` proves
that every step keeps it, and `InvHolds` carries it to every reachable state.

Where the code and its documentation disagree, the model follows the code. `docs/stop-token.md:208` says that a record
is in the list if and only if its back link is not null; an unlinked record keeps its old back link
(`include/bexec/stop_token.hpp:175-182`), so `BackLinksTell` says it only of records whose destructor has not unlinked
them. `docs/design.md:490` speaks of a mutex in when_all; the code is atomic. The destructor of the scope accepts more
states than the C++26 contract does (`include/bexec/counting_scope.hpp:99-107`).

Three things the proofs brought out. let_* catches what connecting the child throws but declares `exception_ptr` only
for the callable: `LetMissesConnect` is such a sender, `LetSoundIff` and `SoundExactlyWhenCovered` say exactly when the
declared list is sound. repeat_until can declare an `exception_ptr` that no path produces:
`RepeatUntilCountsIdlePredicate`, and `RepeatUntilExactIff` says exactly when; when_all never does (`WhenAllExact`). Both
can end the program instead of completing. when_all does where an error or the values are moved outside a `try`:
`WhenAllTermination.TerminatesExactlyWhen`, and `LvalueSendersEndIt` for the two senders of
`tests/basic/when_all_extraction.cpp:228-251`, whose comments take the declared `exception_ptr` for a remedy.
repeat_until does where a copy is moved into place outside a `try`, or where connecting throws and nothing else can:
`RepeatUntilTheorems.TerminatesExactlyWhen`.

## Model

| member | source | states |
|---|---|---|
| StopTokenInv.Keeps | include/bexec/stop_token.hpp:107-202 | every step of every thread keeps lock word, list, call stacks, record lifetimes and notification state consistent |
| StopTokenTheorems.MutualExclusion | include/bexec/stop_token.hpp:107-152 | two calls that hold the lock are the same call; the lock bit is set, and nothing runs above it on that stack |
| StopTokenTheorems.LockedByOne | include/bexec/stop_token.hpp:107-127 | the lock bit is never set without a holder |
| StopTokenTheorems.NoLockWhileRunningOrWaiting | include/bexec/stop_token.hpp:350-365 | a thread that runs a callback or waits for one holds the lock nowhere on its stack |
| StopTokenTheorems.RequestIsSticky | include/bexec/stop_token.hpp:125-152 | no unlock and no store of 1 loses the requested bit |
| StopTokenTheorems.OneWinner | include/bexec/stop_token.hpp:331-371 | at most one request_stop returns true; exactly one once stop is requested and all calls have returned |
| StopTokenTheorems.Dichotomy | include/bexec/stop_token.hpp:331-397 | a callback runs at most once; each constructed one is listed, being destroyed or destroyed before its turn, the requester's (run exactly once and completed when the winner has returned), or run once inline by the thread that constructed it |
| StopTokenTheorems.RegisteredBeforeOrAfterClaim | include/bexec/stop_token.hpp:132-170 | what was pushed before the claim is never fired inline, what was not pushed by then never enters the list, over every run |
| StopTokenTheorems.ListShrinks | include/bexec/stop_token.hpp:132-169 | after the claim no step lengthens the list, and a pop shortens it |
| StopTokenTheorems.DrainIsBounded | include/bexec/stop_token.hpp:340-365 | in any run after the claim the drain pops at most as many records as were listed |
| StopTokenTheorems.GoneIsUntouched | include/bexec/stop_token.hpp:173-202 | no step changes a record whose destructor has returned |
| StopTokenTheorems.GoneIsNotRunning | include/bexec/stop_token.hpp:354-362 | the only call that can still be about a destroyed record is the notification whose body destroyed it, with its flag set |
| StopTokenTheorems.Quiescence | include/bexec/stop_token.hpp:173-202 | after the destructor returns, in every run: never listed, never run again, and not running unless it was destroyed on the requesting thread |
| StopTokenTheorems.GoneIsNotRead | include/bexec/stop_token.hpp:173-202 | whatever is written over a record whose destructor has returned, every step is enabled as before and does the same to everything else |
| StopTokenTheorems.NoUseAfterDestroy | include/bexec/stop_token.hpp:334-365 | the records whose memory a step uses, neighbours in the list included, are constructed and not yet destroyed |
| StopTokenCalls.CallsStay | include/bexec/stop_token.hpp:107-202 | a call is the same call until it returns, and only a call begins one |
| StopTokenCalls.CallReturns | include/bexec/stop_token.hpp:107-202 | what holds when a call returns: a constructed callback is listed and has not run, or has run inline once, on this thread, with stop requested; a destroyed one is off the list and never ran, or was popped and is completed or this thread's own; a request_stop, whatever it returns, finds stop requested |
| StopTokenCalls.InlineIsDestroyed | include/bexec/stop_token.hpp:228-232 | destroying a callback that ran inline ends its life and touches nothing else |
| StopTokenCalls.EveryRequestIsHeard | include/bexec/stop_token.hpp:132-152 | once a request_stop was called and all calls have returned, in every run, stop is requested and exactly one request_stop has returned true |
| StopTokenCalls.TrueOnlyWhenDrained | include/bexec/stop_token.hpp:331-371 | the one request_stop that returns true is the requester's, and the list is empty then |
| StopTokenCalls.ListMoves | include/bexec/stop_token.hpp:157-180 | the list changes only in the hands of the lock's owner, and as its call says: a registration in front while stop is not requested, an unlink of its own record, the requester's pop of the head, which it notifies next |
| StopTokenCalls.NeverStuck | include/bexec/stop_token.hpp:107-202 | every thread inside a call can take a step, or waits for a notification while the requester, another thread, can |
| StopTokenCalls.SpinsOnLocked | include/bexec/stop_token.hpp:107-152 | a thread spins only on a value that has the lock bit |
| StopTokenCalls.AloneReturns | include/bexec/stop_token.hpp:107-202 | a call left alone returns within a number of its own steps, or comes to wait for another thread's notification |
| StopList.CallbackList.SlotNamesRecord | include/bexec/stop_token.hpp:162-167 | the slot a linked record's back link names holds that record, and no two records name the same slot |
| StopList.CallbackList.Push | include/bexec/stop_token.hpp:157-170 | the list is the record in front of the old list, both directions of linkage intact |
| StopList.CallbackList.Unlink | include/bexec/stop_token.hpp:175-180 | the list loses exactly that record wherever it stands, touching only its two neighbours |
| StopList.CallbackList.Pop | include/bexec/stop_token.hpp:341-346 | the list loses its head, whose back link becomes null |
| StopList.RemoveCallback | include/bexec/stop_token.hpp:173-202 | a listed record is taken out; of a popped one the notifier is told, exactly if it is being notified |
| StopList.WhileOpen | include/bexec/stop_token.hpp:350-356 | callbacks destroyed while the lock is open leave the list, and the flag says whether the current one is among them |
| StopList.StopState.TryAddCallback | include/bexec/stop_token.hpp:157-170 | pushes if and only if stop was not requested, else leaves the list alone |
| StopList.StopState.PopArmed | include/bexec/stop_token.hpp:340-348 | the head is off the list and is the one record that points at the flag |
| StopList.StopState.Invoke | include/bexec/stop_token.hpp:350-362 | the callback runs with the lock open; the record is completed unless destroyed meanwhile |
| StopList.StopState.NotifyOne | include/bexec/stop_token.hpp:340-365 | one round: the head is notified, the destroyed records are gone, and the head is completed unless destroyed |
| StopList.StopState.DrainLoop | include/bexec/stop_token.hpp:340-365 | the loop ends with an empty list and has notified exactly the sequence Drain, in order |
| StopList.StopState.RequestStop | include/bexec/stop_token.hpp:331-371 | wins if and only if stop was not requested; then drains everything, else changes nothing |
| StopList.DrainIsFromList | include/bexec/stop_token.hpp:340-365 | what a drain notifies comes from the list, each record once |
| StopList.DrainSkipsDestroyed | include/bexec/stop_token.hpp:340-365 | no record is notified after a round that destroyed it |
| StopList.NotDrainedWasDestroyed | include/bexec/stop_token.hpp:340-365 | a listed record that is not notified was destroyed in one of the rounds |
| ScopeWord.UnpackPack | include/bexec/counting_scope.hpp:64-93 | for counts that fit, unpacking a packed scope gives it back |
| ScopeWord.PackUnpack | include/bexec/counting_scope.hpp:64-93 | every 64-bit word is the packing of what it unpacks to |
| ScopeWord.AssociatedRefines | include/bexec/counting_scope.hpp:109-123 | the new word stands for one more association with join needed, without overflow; refused exactly when closed or full |
| ScopeWord.DisassociatedRefines | include/bexec/counting_scope.hpp:125-143 | the new word stands for one association less, or the joined scope, without touching other bits |
| ScopeWord.JoinStartedRefines | include/bexec/counting_scope.hpp:145-166 | the new word stands for the joined scope when empty, else for the same scope with the join running |
| ScopeWord.OrClosedRefines | include/bexec/counting_scope.hpp:55-57 | fetch_or sets the closed flag of the scope and nothing else |
| ScopeWord.StateBits | include/bexec/counting_scope.hpp:64-66 | the state bits of a possible word are 0, 1, 2, 3, 6 or 7 |
| ScopeWord.WordOkAfterAssociate | include/bexec/counting_scope.hpp:115-117 | associating keeps the word possible: a running join implies a positive count |
| ScopeWord.WordOkAfterDisassociate | include/bexec/counting_scope.hpp:128-139 | disassociating keeps the word possible, and produces the joined word exactly when it ends a running join |
| ScopeWord.WordOkAfterJoin | include/bexec/counting_scope.hpp:148-162 | starting a join keeps the word possible, and the result is joined if the count is zero and has the join running otherwise |
| ScopeWord.WordOkAfterClose | include/bexec/counting_scope.hpp:55-57 | closing keeps the word possible and a joined word joined |
| ScopeWord.JoinedIsTerminal | include/bexec/counting_scope.hpp:91-107 | a joined word refuses associations, is not changed by join or close, and is destructible |
| ScopeInv.Keeps | include/bexec/counting_scope.hpp:109-199 | every step of every activation keeps word, waiter list, associations, joins and spawns consistent |
| ScopeTheorems.JoinCompletesOnce | include/bexec/counting_scope.hpp:145-199 | a join completes at most once, and then the count is zero and the scope destructible |
| ScopeTheorems.JoinedForGood | include/bexec/counting_scope.hpp:91-143 | once joined, the scope stays joined and without associations in every run |
| ScopeTheorems.NoJoinStranded | include/bexec/counting_scope.hpp:145-199 | with nobody under way and count zero, every started join has completed, exactly once |
| ScopeTheorems.CountIsLiveAssociations | include/bexec/counting_scope.hpp:109-143 | the count is the number of engaged or releasing associations |
| ScopeTheorems.JoinWaitsForSpawns | include/bexec/detail/associate.hpp:422-452 | when a join has completed, every accepted spawn has returned from start, completed and freed its storage; the others never started |
| ScopeTheorems.SpawnRendezvous | include/bexec/detail/associate.hpp:422-452 | a rejected spawn never starts its child; an accepted one gives its count back only after both arrivals |
| ScopeTheorems.SpawnStorage | include/bexec/detail/associate.hpp:422-452 | no activation that has still to use a spawn operation finds it freed |
| ScopeTheorems.LinkReadBeforeCompletion | include/bexec/counting_scope.hpp:185-199 | the link of a waiter is read before that waiter is completed |
| ScopeTheorems.TeardownIsSafe | include/bexec/counting_scope.hpp:135-199 | when all started joins have completed, nobody is between its winning exchange and the list exchange, nor has a waiter to touch |
| ScopeTheorems.DrainedOnce | include/bexec/counting_scope.hpp:185-199 | in any run the waiter list is exchanged at most once |
| ScopeCalls.ClosedStays | include/bexec/counting_scope.hpp:109-166 | no step opens a closed scope |
| ScopeCalls.LifeStep | include/bexec/counting_scope.hpp:109-143 | an association goes from trying to refused or engaged, to releasing, to released; engaged only on an open scope |
| ScopeCalls.CloseCloses | include/bexec/counting_scope.hpp:55-57 | after close, in every run: the scope is closed, nothing is engaged that was not at the close, every attempt under way ends refused, a spawn not yet accepted never starts its child |
| ScopeCalls.OpenRefusesNobody | include/bexec/counting_scope.hpp:109-123 | in a run during which the scope is neither closed nor full no association is refused, whatever exchanges fail |
| ScopeCalls.CallEnds | include/bexec/counting_scope.hpp:55-183 | when a call has ended, in every run: the association was engaged or refused, the count given back, the join completed or its waiter registered, the scope closed |
| ScopeCalls.SpawnEnds | include/bexec/detail/associate.hpp:422-432 | when start of a spawn has returned it has started its child and recorded its return, or was refused and has freed its storage |
| ScopeCalls.ChildEnds | include/bexec/detail/associate.hpp:439-443 | when the completion of a spawned child has returned, the spawn is completed |
| ScopeCalls.SpawnIsReleased | include/bexec/detail/associate.hpp:422-452 | with nobody under way, a spawn that has returned and completed has freed its storage and given its count back |
| ScopeCalls.AloneEnds | include/bexec/counting_scope.hpp:109-199 | no activation waits for another: left alone it ends within a number of its own steps |
| Associations.CountingScope.TryAssociate | include/bexec/counting_scope.hpp:109-123 | takes one count or, exactly when refused, changes nothing |
| Associations.CountingScope.Disassociate | include/bexec/counting_scope.hpp:125-143 | gives one count back |
| Associations.Association.Move | include/bexec/counting_scope.hpp:218-219 | the count passes from one handle to the other, the word unchanged |
| Associations.Association.MoveAssign | include/bexec/counting_scope.hpp:221-227 | the old count is given up and the other's taken over; self-assignment changes nothing |
| Associations.Association.Reset | include/bexec/counting_scope.hpp:248-254 | the handle gives its count up, once |
| Associations.Association.TryAssociate | include/bexec/counting_scope.hpp:235-240 | a new engaged handle with one more count, or a disengaged one |
| RunLoopInv.Keeps | include/bexec/run_loop.hpp:75-270 | every step of producers, finishers and runner keeps queue, mutex, counters and wake protocol consistent |
| RunLoopTheorems.NoLostWakeup | include/bexec/run_loop.hpp:141-197 | a runner asleep or about to sleep means no work and no finish request, or a notification on its way |
| RunLoopTheorems.NotificationArrives | include/bexec/run_loop.hpp:141-160 | a notification on its way is not elided: it takes the mutex, and then the runner is awake |
| RunLoopTheorems.NobodySleepsOnWork | include/bexec/run_loop.hpp:162-197 | asleep with nobody under way: the queue is empty and everything accepted has been executed |
| RunLoopTheorems.RetriesAwake | include/bexec/run_loop.hpp:178-197 | after a finish request the runner on its way back to the queue comes closer with each own step and never parks |
| RunLoopTheorems.RetryReachesPop | include/bexec/run_loop.hpp:178-197 | so in any run with enough of its steps it looks at the queue again |
| RunLoopTheorems.FailedCloseRetries | include/bexec/run_loop.hpp:178-228 | a failed try_finish_empty never leads to a sleep: the runner pops again within six of its steps |
| RunLoopTheorems.FirstInFirstOut | include/bexec/run_loop.hpp:118-256 | pushed == executed ++ batch ++ reverse(stack) in every reachable state |
| RunLoopTheorems.StackIsLinked | include/bexec/run_loop.hpp:123-135 | the list hanging off head_ is the stack, however often operations were popped and pushed again since head_ was read |
| RunLoopTheorems.AcceptsAndExecutes | include/bexec/run_loop.hpp:118-256 | only a winning exchange accepts, only the runner executes, always the first of the batch |
| RunLoopTheorems.NothingLeftBehind | include/bexec/run_loop.hpp:75-86 | when run has returned, everything accepted is executed and nothing is accepted ever after |
| RunLoopShutdown.KeepsContract | include/bexec/run_loop.hpp:88-113 | callers that keep the contract of finish stay within the stronger invariant |
| RunLoopShutdown.FinishWins | include/bexec/run_loop.hpp:96-113 | the exchanges of finish succeed: from starting at once, from running at the second |
| RunLoopShutdown.SafeToDestroy | include/bexec/run_loop.hpp:70-86 | when run returns, producers_ is zero, nobody is inside, the stack is closed, the state finished, all work done |
| RunLoopShutdown.NothingHappensAfter | include/bexec/run_loop.hpp:70-86 | and no step that the contract allows is enabled after that |
| RunLoopShutdown.NothingRefused | include/bexec/run_loop.hpp:96-228 | no operation and no finish request is refused and the close never fails: no assertion of the loop can fail |
| RunLoopCalls.EnqueueEnds | include/bexec/run_loop.hpp:118-139 | a call of enqueue stays with its operation until that is appended to the accepted ones, or the stack is sealed |
| RunLoopCalls.EveryEnqueueIsAccepted | include/bexec/run_loop.hpp:118-139 | in every run that keeps the contract an operation has been accepted as often as enqueue was called with it, less the call under way |
| RunLoopCalls.EveryEnqueueIsExecuted | include/bexec/run_loop.hpp:75-86 | when run has returned, an operation has been executed as often as enqueue was called with it |
| RunLoopCalls.FinishIsHeard | include/bexec/run_loop.hpp:96-113 | when finish has returned the loop is finishing or finished |
| RunLoopCalls.AloneReturns | include/bexec/run_loop.hpp:96-160 | enqueue and finish return within nine of their own steps when nobody interferes: they wait for nothing but the mutex |
| RunLoopCalls.HolderMoves | include/bexec/run_loop.hpp:141-197 | whoever holds the mutex can take a step |
| RunLoopCalls.RunSettles | include/bexec/run_loop.hpp:75-228 | with nobody else under way the runner executes everything accepted within a number of its own steps, then returns if finish was called and sleeps if not |
| RunLoopQueues.Reverse | include/bexec/run_loop.hpp:236-246 | the links of the list are turned around in place |
| RunLoopQueues.RunLoopQueue.Enqueue | include/bexec/run_loop.hpp:123-135 | the operation is in front of the stack and last among the accepted |
| RunLoopQueues.RunLoopQueue.PopAll | include/bexec/run_loop.hpp:199-211 | the stack is empty and its reverse is handed out as a linked list |
| RunLoopQueues.RunLoopQueue.Arrive | include/bexec/run_loop.hpp:118-139 | several operations enqueued one by one stand reversed on the stack and in order among the accepted |
| RunLoopQueues.RunLoopQueue.Execute | include/bexec/run_loop.hpp:250-255 | the operation is executed; whatever arrives meanwhile is on the stack, and the rest of the batch is still linked |
| RunLoopQueues.RunLoopQueue.ExecuteFirst | include/bexec/run_loop.hpp:250-255 | one round of the loop carries out one step of the plain queue's plan, though the operation itself may be linked into the stack meanwhile |
| RunLoopQueues.RunLoopQueue.ExecuteAll | include/bexec/run_loop.hpp:248-256 | the batch is executed in order while operations arrive, the ones just executed among them, as a plain queue would execute it |
| RunLoopQueues.RunLoopQueue.RunBatch | include/bexec/run_loop.hpp:79-85 | one round leaves the plain queue's plan unchanged |
| RunLoopQueues.RunLoopQueue.Run | include/bexec/run_loop.hpp:75-86 | batches off a reversed stack execute exactly what a plain first-in first-out queue executes, whatever arrives meanwhile |
| RunLoopQueues.FifoStep | include/bexec/run_loop.hpp:248-256 | executing the front of batch and stack is one step of the plain queue, and nothing is queued twice at a time |
| RunLoopQueues.FifoExecutesAll | include/bexec/run_loop.hpp:248-256 | the plain queue executes what was in it and then what arrived, in the order of acceptance, nothing left out |
| RepeatUntilTheorems.Keeps | include/bexec/detail/repeat_until.hpp:125-300 | every step keeps ownership, epoch, stored completion and result consistent |
| RepeatUntilTheorems.RefinesLoop | include/bexec/detail/repeat_until.hpp:179-300 | the operation has delivered exactly what the sequential loop delivers on the same rounds, in every interleaving |
| RepeatUntilRounds.StepSimulates | include/bexec/detail/repeat_until.hpp:179-300 | every step of the protocol is an answer to what the sequential loop asks at that point, or leaves the loop where it stands |
| RepeatUntilRounds.EveryRoundIsAsked | include/bexec/detail/repeat_until.hpp:248-300 | in every run the answers are those the loop asks for, in its order: each child is connected after the stop check of its own round, completes once after that and is judged once; the rounds are what they spell |
| RepeatUntilRounds.EveryAnswerIsTaken | include/bexec/detail/repeat_until.hpp:248-300 | in every reachable state the answer the loop asks for, whichever it may be, is taken after at most two steps: stop can be seen in every round |
| RepeatUntilRounds.EpochCountsRounds | include/bexec/detail/repeat_until.hpp:179-294 | the epoch is the number of rounds raced for, modulo 2^64 |
| RepeatUntilTheorems.NoRoundAfterTheLast | include/bexec/detail/repeat_until.hpp:248-300 | no step is enabled once the loop has ended |
| RepeatUntilTheorems.CompletesOnce | include/bexec/detail/repeat_until.hpp:205-236 | at most one completion, after which no activation is left to touch the operation |
| RepeatUntilTheorems.OneOwner | include/bexec/detail/repeat_until.hpp:179-300 | whoever uses the fields of the operation is alone with it |
| RepeatUntilTheorems.ChildStoresAlone | include/bexec/detail/repeat_until.hpp:125-157 | while the child runs nothing is stored, and nobody else is using the operation |
| RepeatUntilTheorems.OneLoserPerRound | include/bexec/detail/repeat_until.hpp:179-190 | the first to the epoch exchange leaves, the second fails it and owns the operation |
| RepeatUntilTheorems.EarlyCompletionLeaves | include/bexec/detail/repeat_until.hpp:179-185 | a completion that comes before the drain's exchange, as a synchronous one does, never processes or drains |
| RepeatUntilTheorems.NeverStuck | include/bexec/detail/repeat_until.hpp:248-300 | until the loop has ended some step is enabled |
| RepeatUntilTheorems.TerminatesExactlyWhen | include/bexec/detail/repeat_until.hpp:125-287 | std::terminate is reachable if and only if connect may throw and nothing else may, or a copy made outside a try may throw when moved into place |
| RepeatUntilLoops.RepeatUntilOperation.ProcessStored | include/bexec/detail/repeat_until.hpp:192-234 | goes on exactly when the sequential loop does, else delivers what it delivers |
| RepeatUntilLoops.RepeatUntilOperation.Drain | include/bexec/detail/repeat_until.hpp:248-300 | ends with the loop's result, or leaves a child running with the same result still owed |
| RepeatUntilLoops.RepeatUntilOperation.FinishChild | include/bexec/detail/repeat_until.hpp:179-185 | the child loses exactly if the drain has already made its exchange of this round; otherwise the drain will |
| RepeatUntilLoops.RepeatUntilOperation.FinishRound | include/bexec/detail/repeat_until.hpp:289-294 | the drain loses exactly if the child has already made its exchange of this round |
| RepeatUntilLoops.RepeatUntilOperation.ChildCompletes | include/bexec/detail/repeat_until.hpp:179-203 | a late child processes its completion and drains on to the same result |
| RepeatUntilLoops.RunToEnd | include/bexec/detail/repeat_until.hpp:123-300 | for every mixture of synchronous and later completions, the result is the sequential loop's |
| WhenAllInv.KeepsStep | include/bexec/detail/when_all.hpp:193-352 | every step of starter and children keeps counter, winner, slots and result consistent |
| WhenAllInv.DeliversAllowed | include/bexec/detail/when_all.hpp:283-300 | what finish_one delivers is what the first unsuccessful child, or all children, ask for; it ends the program only if moving that may throw |
| WhenAllTheorems.CompletesOnceAfterAll | include/bexec/detail/when_all.hpp:223-300 | at most one completion or end of the program, only after every child has arrived and is done |
| WhenAllTheorems.NothingForgotten | include/bexec/detail/when_all.hpp:223-300 | when all children are done there is exactly one completion, or the program has ended |
| WhenAllTheorems.FirstOutcomeWins | include/bexec/detail/when_all.hpp:283-352 | the completion is the first winner's stop or error, and the joined values exactly when every child sent one; the program ends only where that error or those values may throw when moved |
| WhenAllTermination.TerminatesOnlyIf | include/bexec/detail/when_all.hpp:283-300 | the program ends only if an error that some child can send, or the values that all can send, may throw when moved |
| WhenAllTermination.TerminatesExactlyWhen | include/bexec/detail/when_all.hpp:283-300 | some run ends the program if and only if some child can send such an error, or all children such values; that exception_ptr is declared does not prevent it |
| WhenAllTermination.LvalueSendersEndIt | tests/basic/when_all_extraction.cpp:228-251 | an error, or a value, stored by a copy that cannot throw and moved with one that can: some run ends the program |
| WhenAllTheorems.WinnerIsFirst | include/bexec/detail/when_all.hpp:245-281 | the winner is the first at the terminal exchange and is never replaced |
| WhenAllTheorems.OrderDoesNotMatter | include/bexec/detail/when_all.hpp:326-358 | the same values sent give the same values delivered, in argument order, whatever the order of arrival, unless joining them throws |
| WhenAllTheorems.JoinedSplits | include/bexec/detail/when_all.hpp:354-358 | the values of a child stand after those of the children before it |
| WhenAllTheorems.ErrorSlotWritten | include/bexec/detail/when_all.hpp:245-265 | a step that changes the error slot is the winner's, and finds it empty |
| WhenAllTheorems.ErrorSlotRead | include/bexec/detail/when_all.hpp:288-290 | when the error slot is read it is full and nobody is writing it |
| WhenAllTheorems.DeliveryIsReady | include/bexec/detail/when_all.hpp:283-300 | finish_one never reads an empty slot |
| WhenAllTheorems.NoFinishBeneathRequest | include/bexec/detail/when_all.hpp:245-281 | while a child is inside its stop request the counter is positive and nothing finishes |
| WhenAllTheorems.NoFinishBeforeLastStart | include/bexec/when_all.hpp:107-157 | while a child has not been started the counter is positive and nothing finishes |
| WhenAllTheorems.LosersAreStopped | include/bexec/detail/when_all.hpp:264-277 | when the winner arrives the others have been asked to stop |
| WhenAllTheorems.RemainingCounts | include/bexec/detail/when_all.hpp:240-280 | the counter is the number of children that have not arrived |
| WhenAllProgress.ListensThroughout | include/bexec/detail/when_all.hpp:193-286 | the stop callback exists exactly from its registration until the last child resets it, and never when the operation has completed |
| WhenAllProgress.DownstreamIsHeard | include/bexec/detail/when_all.hpp:193-212 | while any child has not arrived a downstream stop request is taken, and does nothing but ask the children to stop |
| WhenAllProgress.WhoRequestsStop | include/bexec/detail/when_all.hpp:245-281 | stop is requested by the winner alone, or from downstream, and never taken back |
| WhenAllProgress.ChildEnds | include/bexec/detail/when_all.hpp:223-300 | a child that has completed is done within a number of its own steps: nothing there waits |
| WhenAllProgress.NeverStuck | include/bexec/when_all.hpp:107-157 | until the operation has completed, start can go on, or some child is running or can go on |
| WhenAllStates.WhenAllState.ChildValue | include/bexec/detail/when_all.hpp:223-243 | the slot is filled, the arrival counted, and the completion delivered if it was the last |
| WhenAllStates.WhenAllState.ChildError | include/bexec/detail/when_all.hpp:245-269 | the first error is kept and stop requested, a later one dropped, the arrival counted |
| WhenAllStates.WhenAllState.ChildStopped | include/bexec/detail/when_all.hpp:271-281 | stopped is kept and stop requested if it comes first, the arrival counted |
| WhenAllStates.WhenAllState.FinishOne | include/bexec/detail/when_all.hpp:283-300 | delivers the completion, or ends the program, as the order of arrivals and the moves that throw determine |
| WhenAllStates.WhenAllState.JoinValues | include/bexec/detail/when_all.hpp:354-358 | concatenates the slots in argument order |
| WhenAllStates.LogGrows | include/bexec/detail/when_all.hpp:223-281 | one more arrival changes the first failure only if there was none, and its own slot only |
| SignatureLists.UniqueKeepsFirsts | include/bexec/completion_signatures.hpp:156-175 | unique drops exactly what occurs earlier: same members, no repetition |
| SignatureLists.UniqueKeepsOrder | include/bexec/completion_signatures.hpp:156-175 | members stand in the order of their first occurrences |
| SignatureTheorems.ThenDeclares | include/bexec/detail/type_traits.hpp:85-166 | a signature is declared exactly if it is an upstream one passed or replaced by the callable's result, or exception_ptr when some selected call may throw |
| SignatureTheorems.LetDeclares | include/bexec/detail/type_traits.hpp:177-234 | a signature is declared exactly if it is an unselected upstream one, one of a reachable branch's sender, or exception_ptr when some selected call may throw |
| SignatureTheorems.IntoVariantDeclares | include/bexec/detail/type_traits.hpp:611-646 | a signature is declared exactly if it is the variant, an upstream error or stop, or exception_ptr when storing or wrapping may throw |
| SignatureTheorems.WhenAllDeclares | include/bexec/detail/when_all.hpp:87-173 | a signature is declared exactly if it is the joined values of children with one value each, a child's error or stop, or exception_ptr when storing, moving or registering may throw |
| SignatureTheorems.RepeatUntilDeclares | include/bexec/repeat_until.hpp:41-65 | a signature is declared exactly if it is stopped, a child's value or error, or exception_ptr when storing, predicate or factory may throw |
| SignatureLaws.VariantLaw | include/bexec/detail/type_traits.hpp:604-613 | the alternatives repeat nothing, are exactly the argument lists that some value signature declares, in the order of first declaration; moving may throw exactly when moving an alternative may |
| SignatureLaws.DeclaresTheVariant | include/bexec/detail/type_traits.hpp:611-619 | the one value signature that into_variant declares carries that variant of what its child declares |
| SignatureLaws.VariantHoldsTheValue | include/bexec/into_variant.hpp:44-74 | every value a sound child sends is sent on in a declared variant with an alternative for it |
| SignatureLaws.VariantComesFromAValue | include/bexec/into_variant.hpp:44-74 | every variant into_variant sends has an alternative for some value that its child can send |
| SignatureLaws.SelectedLaw | include/bexec/detail/type_traits.hpp:85-147 | then and let select by tag: value, error, stopped |
| SignatureLaws.CaseLaw | include/bexec/detail/type_traits.hpp:101-133 | the case applied to a signature is the first for that very signature |
| SignatureLaws.BranchLaw | include/bexec/detail/type_traits.hpp:177-201 | the branch applied to a signature is the first for that very signature |
| SignatureLaws.ThenMaps | include/bexec/detail/type_traits.hpp:85-166 | what the tag does not name passes, what it names becomes the result of its own case, with exception_ptr if that call may throw |
| SignatureLaws.ThenHandles | include/bexec/detail/type_traits.hpp:85-166 | and nothing else is declared, exception_ptr apart |
| SignatureLaws.LetMaps | include/bexec/detail/type_traits.hpp:177-234 | what the tag does not name passes, what it names becomes all that its own branch's sender declares |
| SignatureLaws.LetHandles | include/bexec/detail/type_traits.hpp:177-234 | and nothing else is declared, exception_ptr apart |
| SignatureLaws.FlatSplits | include/bexec/detail/type_traits.hpp:397-405 | in a concatenation the arguments of a child stand between those of its neighbours |
| SignatureLaws.WhenAllValues | include/bexec/detail/type_traits.hpp:418-437 | values are declared exactly if each child declares one value completion, and are theirs in order |
| SignatureLaws.HeldLaw | include/bexec/into_variant.hpp:94-101 | moving a sender may throw exactly when moving one of the parts it holds may |
| SignatureLaws.MovedLaw | include/bexec/then.hpp:92-112 | connecting a sender may throw exactly when moving one of the parts it moves may |
| SignatureLaws.NoexceptLaw | include/bexec/just.hpp:63-78 | connect is declared noexcept exactly where it carries a condition and moves nothing that may throw |
| SignatureTheorems.ThenSound | include/bexec/detail/then.hpp:43-92 | on a sound child, then and upon_* deliver only what they declare |
| SignatureTheorems.LetSound | include/bexec/detail/let.hpp:154-286 | on sound senders whose connects are covered, let_* delivers only what it declares |
| SignatureTheorems.IntoVariantSound | include/bexec/into_variant.hpp:44-74 | on a sound child, into_variant delivers only what it declares |
| SignatureTheorems.WhenAllSound | include/bexec/detail/when_all.hpp:66-164 | on sound children, when_all delivers only what it declares |
| SignatureTheorems.RepeatUntilSound | include/bexec/repeat_until.hpp:41-65 | on a sound child, repeat_until delivers only what it declares |
| SignatureTheorems.SignaturesAreSound | include/bexec/detail/type_traits.hpp:98-646 | every completion that the receivers of a sender tree can deliver is declared |
| SignatureTheorems.NoexceptIsTrue | include/bexec/just.hpp:63-78 | where connect is declared noexcept, nothing that it moves may throw, through the whole tree |
| SignatureTheorems.EverySenderCompletes | include/bexec/detail/type_traits.hpp:98-646 | every sender that compiles can deliver something |
| SignatureTheorems.NothingDeclaredTwice | include/bexec/detail/type_traits.hpp:160-646 | no declared list repeats a signature |
| SignatureExactness.SignaturesAreExact | include/bexec/detail/type_traits.hpp:98-646 | a tight tree can deliver all it declares: exception_ptr is declared only if some path produces it |
| SignatureExactness.RepeatUntilExactIff | include/bexec/repeat_until.hpp:41-65 | repeat_until declares nothing too much if and only if it counts no predicate that is never asked |
| SignatureExactness.WhenAllExact | include/bexec/detail/when_all.hpp:87-113 | on exact children, when_all can deliver all it declares |
| SignatureExactness.LetSoundIff | include/bexec/detail/let.hpp:256-286 | let_* declares all it delivers if and only if the exception is declared anyway or no reachable connect may throw |
| SignatureExactness.SoundExactlyWhenCovered | include/bexec/detail/type_traits.hpp:98-646 | a tight tree is sound throughout if and only if every let_* in it is covered |
| SignatureExactness.LetMissesConnect | include/bexec/detail/let.hpp:256-286 | a let_value whose undeclared exception_ptr is delivered |
| SignatureExactness.RepeatUntilCountsIdlePredicate | include/bexec/repeat_until.hpp:45-56 | a repeat_until whose declared exception_ptr is never delivered |
| RepeatUntilSends.RunsSend | include/bexec/detail/repeat_until.hpp:123-300 | everything that a run of the protocol delivers is what the calculus lets the sender send, children completing as they can |
| RepeatUntilSends.RepeatUntilRuns | include/bexec/detail/repeat_until.hpp:123-300 | a repeat_until can send a completion if and only if some run of the protocol delivers it |
| WhenAllSends.RunsSend | include/bexec/detail/when_all.hpp:193-352 | everything that a run of the protocol delivers is what the calculus lets the sender send, children completing as they can |
| WhenAllSends.WhenAllRunsExactly | include/bexec/detail/when_all.hpp:193-352 | a when_all can send a completion if and only if some run of the protocol delivers it |

## Left out

- Weak memory: the protocols are sequentially consistent interleavings; the acquire and release choices are not modelled.
- Progress under an unfair scheduler, spin pauses and yields: waiting is a step that is not enabled, or a step that changes nothing.
- Null stop tokens, and the drain in the destructor of inplace_stop_source concurrent with other calls, which its contract excludes.
- The reuse of the address of a destroyed record, waiter or operation for another; an operation of the run loop may be enqueued again.
- The scheduler that a deferred join completes on: completing a waiter is one step.
- spawn_future, abandon and try_cancel: their lifetime argument rests on orderings the file does not fix. token::disassociate without a matching association.
- A downstream stop that completes the last child of when_all from inside its own callback: a downstream stop sets the shared flag.
- More than one call of run on a run loop, and the internals of std::mutex and std::condition_variable.
- when_all without a receiver environment, whose alias does not ask whether constructing the stop callback may throw; the model asks, as the environment-aware list does.
- Reference types and value categories in completion signatures: argument types are decayed and passed as rvalues. What copies of lvalues do is in WhenAll and RepeatUntil, whose configurations tell storing from moving.
- Coroutines, sync_wait, on, starts_on, environments, allocators, byte storage of operation states, concepts and customization points.
- StopList.RemoveCallback: runs on the requesting thread or on a linked record; the wait of another thread for a popped one is in StopToken.
- StopList.WhileOpen: what happens while the lock is open comes as a script of destructions, in order, on one thread. Registration is refused by then, and an unlink on another thread writes the same fields; the interleavings are in StopToken.
- RunLoopQueues.RunLoopQueue.Execute: operations arrive while one executes, never between a load of the stack and the exchange on it, which is in RunLoop.
- WhenAllStates.WhenAllState.ChildError: its stop request sets the flag; that siblings may complete beneath it is in WhenAll.
