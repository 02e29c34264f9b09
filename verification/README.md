# Verification of the synchronisation library

The library implements POSIX threads on a kernel that offers `gsync`: compare-and-sleep, wake, requeue and store-and-wake
on an address. This project models its protocols as step machines and proves what they promise, over every run.

A protocol has a `State`: the shared words, one program counter per thread for any finite set of threads, and history
that the code does not keep (who was granted the lock, how often a barrier opened, what a thread's waits returned).
`Step(s, e)` makes one atomic access to a word, or one `gsync` call, of one thread; the event `e` says which thread moves
and how everything the code does not decide turns out: which call an idle thread makes, whether a compare-and-swap fails
spuriously, whether a deadline has passed, whether a sleeper is woken for no reason, interrupted or cancelled, and which
sleeper a wake picks. `Run(s, es, s')` is any finite sequence of such steps, so a lemma about `Run` is a statement about
every interleaving.

Each protocol has a module with the machine and its invariants (`Rwlock`, `Cond`, `Sem`, `Mutex`, `Robust`, `Barrier`,
`Once`, `Specific`), modules with the proofs (`…Proofs`, `…Runs`, and those named below), and a module with
the C object (`…Object`): a class whose fields are the words. Its methods make the accesses of the C functions in place;
each is proved to do what the machine's step does, and `Interleave` to carry out any run. `Threads` counts threads
by program point, `Runs` says what a run of any machine is, `Reltime` converts deadlines.

What a call answers is tied to what happened, in the `…Answers` modules: `Cause` lists the events that can decide a call,
`CauseOf` recognises them by the history (the caller's holds grew, the abstract mutex changed, a unit was taken out) and,
for refusals, by the point where the caller found the lock held or its deadline past; `Answered` says that every call that
is back was decided by exactly one of them, and that its answer is that event's. That calls come to an answer is shown for
a thread that moves alone, with a bound on its steps (there, in `RobustTakeover`, and in the `…Progress` modules).

## What the proofs found

The model follows the code; where the code does less than its interface promises, the exact condition is proved.

- A reader in `timedrdlock` that times out as the last thread the count knows of leaves the lock marked as read-owned
  with nobody in it. Writers then sleep, or time out, until a reader comes: nobody gets the lock in any run in which no
  read call begins (`RwlockDeserted.DesertionStrands`), and any thread that reads and unlocks sets the writers going
  again (`RwlockDeserted.ReaderFreesWriter`). `RwlockStranded.TimedReaderStrandsWriter` is a run that gets there.
  Without such a step no wake-up is lost (`RwlockRuns.NoLostWakeup`), and only `timedrdlock` makes it
  (`RwlockRuns.OnlyTimedReadersDesert`).
- A condition waiter that is delayed by exactly a multiple of 2^32 broadcasts sleeps through them; that, and nothing
  else, undoes a broadcast (`CondRuns.BroadcastIsComplete`), and `CondLapped.BroadcastsMissed` is a run for each
  multiple.
- The wait releases the mutex before it registers. A signal or broadcast after the release is missed exactly if it comes
  before the registration, short of 2^32 bumps (`CondMissed.BumpMissedBeforeEntry`), even if its sender took the mutex
  after the release (`CondMissed.SignalMissed`).
- An interrupted waiter is not taken off the waiter count, so `pthread_cond_destroy` answers `EBUSY` with nobody waiting
  exactly if some waiter was interrupted (`CondMissed.BusyForGood`, `CondMissed.InterruptedStaysCounted`).
- When a robust mutex becomes unrecoverable, a thread blocked on it can be told so exactly if no live thread keeps the
  word (`RobustBlocked.ToldUnlessKept`). One that is told keeps it (`RobustBlocked.TheToldKeep`), so the others wait until
  its process dies; `RobustBlocked.OneToldOneBlocked` is a run.
- Robust mutexes compare the owner id and the process in two reads. A thread that finds its own id in the first, as a
  namesake in another process has the mutex or died with it, and its own process in the second, as another thread of
  that has locked it since, is taken for the owner, though it holds nothing. In lock that is a false `EDEADLK`
  (`RobustRuns.WrongDeadlock`; `RobustBlocked.StrangerToldDeadlock` and `RobustBlocked.StrangerToldDeadlockAlive` are
  runs). In unlock
  it releases the other thread's lock (`RobustRuns.WrongUnlock`), and two live threads may then have the mutex
  (`RobustBlocked.IntruderLetsTwoIn`). Mutual exclusion and the rest hold in every run without such an intruding step,
  and so in every run at all if no two threads of any processes share an id (`RobustRuns.NoNamesakesNoIntrusion`); but
  every main thread has id 1 (`pthread/init.c:48`).
- A holder's `pthread_mutex_consistent` is refused if a contender sets the waiters flag between its two accesses
  (`RobustRuns.Verdicts`, `RobustBlocked.HolderRefusedConsistent`).
- The teardown of thread-specific data looks up the destructor of the wrong key exactly for the values above the first
  absent block, as long as that stays absent (`SpecificGap.RightExactlyBelowGap`): line 142 of `pthread/specific.c`
  advances the index by the number of blocks, not by the size of a block. For a lone value from key 272 on the index is
  beyond the table's end (`SpecificGap.LoneValue`). A thread that creates 49 keys and sets the value of key 32 alone has
  key 48's destructor run on it (`SpecificGap.WrongDestructorRuns`).
- A deadline more than 2^31 milliseconds away may count as passed (`Reltime.ComputeReltime`).
- `sem_timedwait` gives `ETIMEDOUT`, not `EINVAL`, for a malformed deadline, exactly if it reads the value 0 as a
  registered waiter (`SemRuns.MalformedDeadline`, `SemRuns.MalformedTimesOut`).

## Model

| member | source | states |
|---|---|---|
| RwlockRuns.ExclusionAndAccounting | pthread/rwlock.c:59-89 | In every run of plain, `try` and timed calls: never a writer with another holder; the owner word is a thread's id exactly while it holds the write lock; the reader count is holders plus queued readers, the writer count the queued writers |
| RwlockRuns.LastReaderIsAlone | pthread/rwlock.c:362-371 | Clearing the owner word when the count is 1 never takes the lock from a reader, although the count mixes holders with queued readers |
| RwlockRuns.NoLostWakeup | pthread/rwlock.c:335-381 | In every run without a deserting timed reader: when no thread is awake inside the lock code, a sleeper sleeps on a held lock, and a sleeping reader on a writer |
| RwlockRuns.NoLostWakeupUntimed | pthread/rwlock.c:128-162 | The same for every run without `timedrdlock`, whatever else is called |
| RwlockRuns.OnlyTimedReadersDesert | pthread/rwlock.c:187-229 | Only a timed read can desert the lock |
| RwlockRuns.SleepersAtRest | pthread/rwlock.c:231-263 | With timed calls too: a sleeper at rest sleeps on a held lock if and only if the words are not "read-owned, count 0"; a sleeping reader always has a writer to wait for |
| RwlockDeserted.DesertionStrands | pthread/rwlock.c:217-223 | A reader that deserts leaves the lock unheld and marked as read-owned; unless another thread is inside a read call, nobody gets it in any later run until a read call begins |
| RwlockDeserted.DesertedLasts | pthread/rwlock.c:231-263 | A read-owned lock with count 0 and nobody inside a read call keeps its words and stays unheld through every run in which no read call begins |
| RwlockDeserted.ReaderFreesWriter | pthread/rwlock.c:361-378 | From such a state any thread outside can read and unlock, which frees the lock and wakes any given sleeping writer |
| RwlockStranded.TimedReaderStrandsWriter | pthread/rwlock.c:187-229 | A run of three threads from a fresh lock that ends with a writer asleep, nobody awake, and the lock unheld and deserted |
| RwlockRuns.Verdicts | pthread/rwlock.c:114-118 | A holder's unlock is never refused; the deadlock error goes to the write holder and to nobody else |
| RwlockAnswers.Answered | pthread/rwlock.c:128-381 | In every run, a call that is back was decided by exactly one event, and answers accordingly: OK if and only if its caller was granted the lock or gave it back, and then holds one more or one less; `EDEADLK` if it had the lock for writing; `EBUSY` if a try found it taken (written, for tryrdlock; not free at its first look, or its compare-and-swap failed, for trywrlock); `EINVAL` if the deadline is malformed and the lock could not be taken at a load; `ETIMEDOUT` if the deadline passed while the call was queued |
| RwlockAnswers.StrangersRefused | pthread/rwlock.c:340-360 | An unlock by a thread without the lock is refused, and changes nothing, while another has it for writing or no reader is counted |
| RwlockAnswers.NoIdleWakes | pthread/rwlock.c:305-374 | In every run, a call goes on to a wake only if a writer is queued, or readers are counted, for it; a late writer only as the last one queued, on a free lock that readers are queued for |
| RwlockAnswers.NeverSpins | pthread/rwlock.c:128-381 | Any thread in any call that moves alone, without spurious failures, is outside or asleep after at most 20 steps |
| RwlockAnswers.TakesFree | pthread/rwlock.c:138-157 | A read or write call of any kind that finds the lock available and moves alone is granted it and answers OK |
| RwlockProofs.StepSafe | pthread/rwlock.c:138-161 | Every step of every call keeps the accounting and ownership invariant |
| RwlockProofs.StepCovered | pthread/rwlock.c:350-356 | Every step, timed ones included, leaves every sleeper on a free or read-owned lock a thread that will wake it |
| RwlockProofs.StepBacked | pthread/rwlock.c:366-369 | Every step but a desertion leaves a read-owned lock a reader that is in it or on its way in |
| RwlockObject.RwlockT.constructor | pthread/rwlock.c:94-103 | A new lock is unowned with no reader or writer counted |
| RwlockObject.RwlockT.Rdlock | pthread/rwlock.c:128-229 | Each access of rdlock, tryrdlock and timedrdlock makes the machine's read step on the words |
| RwlockObject.RwlockT.Wrlock | pthread/rwlock.c:231-333 | The same for wrlock, trywrlock and timedwrlock |
| RwlockObject.RwlockT.Unlock | pthread/rwlock.c:335-381 | The same for unlock |
| RwlockObject.RwlockT.Access | pthread/rwlock.c:128-381 | One access of a thread takes the whole state of the object to the machine's next state |
| RwlockObject.RwlockT.Interleave | pthread/rwlock.c:128-381 | Any run of the machine, carried out on the object, takes it where the machine goes, and keeps it valid |
| CondRuns.ExclusionAndAccounting | pthread/lowlevellock.c:89-147 | At most one thread holds the mutex; the word is 0 exactly when none does; the waiter count is the registered waiters plus those that were interrupted |
| CondRuns.NobodyStranded | pthread/cond.c:103-117 | Whoever sleeps on the mutex word, as a contender or moved there by a broadcast, is covered by the value 2, a pending wake, a thread about to store 2, or one returning from a wait; at rest the mutex is held and the word 2 |
| CondRuns.BroadcastIsComplete | pthread/cond.c:239-259 | Once a broadcast is carried out, in any continuation: nobody who registered before its bump is asleep on the condition variable, then or at any later time, if and only if no such waiter compares its number with a sequence that has become equal to it again |
| CondRuns.SleepsAfterFullWrap | pthread/cond.c:162-174 | In every run, a waiter goes to sleep exactly if the bumps since it registered are a multiple of 2^32; so it misses a later broadcast only after 2^32 bumps or more |
| CondLapped.BroadcastsMissed | pthread/cond.c:159-174 | For every multiple of 2^32, a run from a fresh mutex in which that many broadcasts are carried out before a waiter compares, and it then sleeps with nobody left to wake it |
| CondMissed.BumpMissedBeforeEntry | pthread/cond.c:154-174 | In every run: a signal's or broadcast's bump after a waiter's release of the mutex is behind the waiter's number if and only if the waiter had not registered yet; with no further bump, and fewer than 2^32 since it registered, it sleeps in exactly that case |
| CondMissed.SignalMissed | pthread/cond.c:154-160 | A run in which a thread takes the mutex that a waiter has released, signals while it holds it, and the waiter then sleeps with nobody left to wake it |
| CondMissed.BusyForGood | pthread/cond.c:261-264 | With nobody registered, destroy answers EBUSY if and only if some waiter was interrupted |
| CondMissed.InterruptedStaysCounted | pthread/cond.c:169-174 | A run that ends with every thread outside, nobody registered, and the count at 1 |
| CondRuns.SignalGetsToWake | pthread/cond.c:229-237 | A signal sent while a waiter is asleep always gets to its wake |
| CondRuns.SignalWakesOne | pthread/cond.c:232-234 | That wake takes exactly one waiter off the condition variable |
| CondRuns.SignalServesWaiters | pthread/cond.c:229-237 | Whatever happens between a signal's bump and its wake, as long as no earlier waiter then finds the sequence gone full circle: of the threads asleep when it was sent, fewer sleep on when the wake is done, and none has joined them, unless the wake went to a waiter that registered after the bump |
| CondRuns.WaitReturnsHolding | pthread/cond.c:144-227 | A wait returns with the mutex held by the caller alone and marked as contended |
| CondAnswers.Answered | pthread/cond.c:144-259 | In every run, a call that is back was decided by exactly one event, and answers accordingly. A wait: `ETIMEDOUT` if its deadline passed at its comparison or its own uncut end of sleep; OK if another's wake took it off the queue, or it found the sequence changed, or its sleep ended uncut before the deadline, or an untimed one was interrupted; cancelled, `EINTERRUPTED` (timed) and `EINVAL` (malformed deadline) likewise; it is back with the mutex held. Lock and trylock: OK if and only if the call was granted the mutex; `EBUSY` if it was held at the peek or the compare-and-swap did not succeed |
| CondAnswers.NeverSpins | pthread/lowlevellock.c:89-147 | Any thread in any call that moves alone, without spurious failures, is outside or asleep after at most 12 steps |
| CondAnswers.GoesOnToTake | pthread/cond.c:177-177 | A thread that contends for a free mutex, or comes back from a wait while it is free, and moves alone, is outside with the mutex taken |
| CondAnswers.TakesFree | pthread/lowlevellock.c:89-130 | Lock of any kind and trylock of a mutex that nobody holds are granted it and answer OK when the caller moves alone |
| CondNotify.BroadcastRequeues | pthread/cond.c:247-255 | In every run, a registered waiter has saved the mutex, and a broadcast requeues to a saved mutex only |
| CondNotify.BroadcastSparesTheHerd | pthread/cond.c:239-259 | So a broadcast that finds waiters asleep goes on to requeue, which wakes one of them and moves every other to the mutex |
| CondNotify.CancelledPassesOn | pthread/cond.c:130-138 | In every run, a cancelled waiter goes on to a broadcast exactly if the bumps since it registered are not a multiple of 2^32 |
| CondNotify.CancelledWakesAll | pthread/cond.c:137-141 | That broadcast leaves nobody asleep on the condition variable |
| CondProofs.StepSafe | pthread/lowlevellock.c:89-147 | Every step keeps exclusion and the exact waiter count |
| CondProofs.StepCovered | pthread/cond.c:239-259 | Every step, requeues included, leaves the sleepers on the mutex word covered |
| CondProofs.StepEarly | pthread/cond.c:162-174 | No step but a waiter's comparison with a sequence that has gone full circle adds to those asleep since before a bump; that comparison does |
| CondProofs.StepFlushes | pthread/cond.c:239-259 | Carrying out a broadcast leaves nobody asleep on the condition variable |
| CondProofs.StepDated | pthread/cond.c:159-174 | The numbers that waiters and broadcasters carry never run ahead of the sequence |
| CondObject.MutexAndCond.constructor | pthread/cond.c:85-95 | A free mutex and a condition variable that nobody waits on |
| CondObject.MutexAndCond.LllLock | pthread/lowlevellock.c:89-123 | Each access of the plain and the timed lock makes the machine's step on the word |
| CondObject.MutexAndCond.LllUnlock | pthread/lowlevellock.c:143-147 | The same for unlock |
| CondObject.MutexAndCond.CondWait | pthread/cond.c:144-227 | The same for the condition wait, its cancellation handler included |
| CondObject.MutexAndCond.CondWaitOver | pthread/cond.c:162-174 | How a sleeping waiter comes back: woken, timed out, interrupted or cancelled |
| CondObject.MutexAndCond.TryOrNotify | pthread/cond.c:229-259 | The same for trylock, signal and broadcast |
| CondObject.MutexAndCond.Access | pthread/cond.c:103-259 | One access takes the whole state to the machine's next state |
| CondObject.MutexAndCond.Interleave | pthread/cond.c:103-259 | Any run of the machine, carried out on the object, takes it where the machine goes, and keeps it valid |
| SemRuns.Conservation | pthread/sem.c:45-137 | Value plus successful waits is the initial value plus successful posts; the value stays within its maximum; the waiter limb is the number of registered waiters, although one path compares 32 bits and the others 64 |
| SemRuns.WakeUpBound | pthread/sem.c:92-195 | While a waiter sleeps, the value is at most the pending wakes plus the awake waiters that have not seen 0, through timeouts, interruptions and cancellations; at rest a sleeper means an empty semaphore |
| SemRuns.StepConserves | pthread/sem.c:53-64 | Every step keeps conservation |
| SemRuns.StepPromises | pthread/sem.c:102-137 | Every step keeps the wake-up bound |
| SemRuns.MalformedDeadline | pthread/sem.c:148-195 | A wait with a malformed deadline takes the semaphore or answers ETIMEDOUT, and never sleeps; it answers ETIMEDOUT if and only if it reads the value 0 as a registered waiter |
| SemRuns.MalformedTimesOut | pthread/sem.c:169-178 | A run in which it does |
| SemRuns.NeverSleepsMalformed | pthread/sem.c:169-178 | In no state of any run is a thread asleep, or about to be, in a wait with a malformed deadline |
| SemAnswers.Answered | pthread/sem.c:45-195 | In every run, a call that is back was decided by exactly one event, and answers accordingly: a post OK if and only if it put a unit in, `EOVERFLOW` if it found the maximum; trywait OK if and only if it took one out, `EAGAIN` if it found none; a wait OK if and only if it took one out, `ETIMEDOUT` if its deadline passed or is malformed and the value 0, `EINTR` if interrupted, or cancelled |
| SemAnswers.AnswersBalance | pthread/sem.c:45-195 | Conservation by the answers given: the value and the waits and trywaits that answered OK make up the initial value, the posts that answered OK and those about to |
| SemAnswers.NeverSpins | pthread/sem.c:45-195 | Any thread in any call that moves alone, without spurious failures, is outside or asleep after at most 13 steps |
| SemAnswers.GoesOnToSucceed | pthread/sem.c:105-117 | A woken waiter that finds a unit and moves alone takes it |
| SemAnswers.Succeeds | pthread/sem.c:45-84 | A post to a semaphore that is not full, and a wait or trywait on one that is not empty, answer OK when the caller moves alone |
| SemObject.SemT.constructor | pthread/sem.c:34-43 | A new semaphore has the given value and no waiter |
| SemObject.SemT.SemPost | pthread/sem.c:45-71 | Each access of post makes the machine's step on the word |
| SemObject.SemT.TryOnce | pthread/sem.c:73-84 | The same for the half-word try |
| SemObject.SemT.SlowWait | pthread/sem.c:92-195 | The same for registration, the slow path and its clean-up |
| SemObject.SemT.Access | pthread/sem.c:45-195 | One access takes the whole state to the machine's next state |
| SemObject.SemT.Interleave | pthread/sem.c:45-195 | Any run of the machine, carried out on the object, takes it where the machine goes, and keeps it valid |
| MutexRuns.Refines | pthread/mutex.c:201-411 | Every step of lock, timedlock, trylock, unlock and transfer of a recursive or error-checking mutex is a step of an abstract (owner, depth) mutex that allows it, or leaves that alone |
| MutexRuns.OwnIdMeansOwner | pthread/mutex.c:183-186 | Where the code compares ids, a thread finds its own exactly if it owns the abstract mutex; the count is then the depth |
| MutexRuns.Verdicts | pthread/mutex.c:353-387 | Unlock and transfer refuse exactly the non-owners and change nothing; relocks fail for the owner of an error-checking mutex only, deeper ones at the last depth only |
| MutexRuns.WordsAtRest | pthread/mutex.c:119-138 | With every thread outside, the words are the abstract mutex; free means all zero |
| MutexRuns.OwnerMoves | pthread/mutex.c:201-234 | A step of the owner keeps words and depth in agreement; the word is released only at depth 0; a transfer keeps the depth |
| MutexRuns.OthersMove | pthread/mutex.c:250-351 | A step of anyone else takes a free mutex, or changes nothing of the abstract one |
| MutexRuns.Handed | pthread/mutex.c:431-476 | The receiver of a transfer finds the words as an owner should, wherever it is |
| MutexAnswers.Answered | pthread/mutex.c:201-476 | In every run, a call that is back was decided by exactly one event, and answers accordingly: lock, timedlock and trylock OK if and only if they took a free mutex, then the caller's at depth 1, or deepened the caller's own; `EDEADLK`, `EAGAIN`, `EBUSY` (owned at the peek, or the compare-and-swap failed), `EINVAL` (malformed, at a swap that found it owned), `ETIMEDOUT` (a timed call past its deadline), `EPERM` and `ESRCH` (an invalid target) if and only if that event occurred, the abstract mutex being left alone by the call |
| MutexAnswers.ReleaseWakes | pthread/lowlevellock.c:143-147 | A release is followed by a wake exactly if the word says that others may sleep |
| MutexAnswers.NeverSpins | pthread/mutex.c:201-476 | Any thread in any call that moves alone is outside, or waits on a word that is not free, after at most 9 steps |
| MutexAnswers.Succeeds | pthread/mutex.c:201-476 | Locks of a free mutex, deeper locks by the owner of a recursive one, and its owner's unlock and transfer, answer OK when the caller moves alone |
| MutexRuns.StepSafe | pthread/mutex.c:201-476 | Every step keeps the words in agreement with the abstract mutex, and is allowed by it |
| MutexObject.MutexT.constructor | pthread/mutex.c:119-138 | A new mutex is free |
| MutexObject.MutexT.LockAccess | pthread/mutex.c:201-351 | Each access of the lock calls makes the machine's step on the fields |
| MutexObject.MutexT.UnlockAccess | pthread/mutex.c:353-476 | The same for unlock and transfer |
| MutexObject.MutexT.Access | pthread/mutex.c:201-476 | One access takes the whole state to the machine's next state |
| MutexObject.MutexT.Interleave | pthread/mutex.c:201-476 | Any run of the machine, carried out on the object, takes it where the machine goes, and keeps it valid |
| RobustRuns.Handover | pthread/lowlevellock.c:181-291 | Through deaths of processes, in every run without an intruding unlock: at most one live thread has the mutex; the owner field is the holder's process; the word is 0 exactly when there is none; takeovers and deaths of holders pair off, one each |
| RobustRuns.OnlyWaitersFlag | pthread/lowlevellock.c:188-214 | Without intrusion, whoever is not the holder takes a free word, takes over a dead process's, or at most sets the waiters flag |
| RobustRuns.UnrecoverableForGood | pthread/mutex.c:147-179 | Once unlocked in an inconsistent state, the mutex is never granted again, in any continuation without an intruding unlock, not even to threads already blocked in it |
| RobustRuns.Verdicts | pthread/mutex.c:389-429 | Lock calls return EOWNERDEAD exactly if the state is inconsistent; the holder's unlock is never refused, anybody else's of a recoverable mutex at its tests exactly unless it intrudes; consistent is refused to its holder exactly if the state is consistent, the compare-and-swap fails for no reason, or a contender set the waiters flag in between; EDEADLK at the second test exactly if the holder is of the caller's process |
| RobustRuns.BlockedAreNotTold | pthread/lowlevellock.c:199-214 | While a live thread keeps the word of an unrecoverable mutex, and nobody intrudes, every other thread blocked in the lock stays blocked |
| RobustBlocked.ToldUnlessKept | pthread/lowlevellock.c:199-214 | In every reached unrecoverable state, a thread blocked in the lock can be told so, without the death of the holder's process or its own and without an intruding unlock, if and only if no live thread keeps the word: it is free, its owner dead, or about to be released |
| RobustBlocked.TheToldKeep | pthread/mutex.c:165-168 | A thread that wins the lock of an unrecoverable mutex and is told so keeps the word, for good unless its process dies |
| RobustBlocked.OneToldOneBlocked | pthread/mutex.c:165-168 | A run from a new mutex: an owner dies, its heir unlocks without consistent, one of two blocked threads is told, and the other cannot be |
| RobustRuns.WrongDeadlock | pthread/mutex.c:150-163 | A thread that does not hold the mutex, with any steps of others between its two reads: it is told of a deadlock exactly if the mutex is error-checking, the first read gave its own id, and at the second the holder is another thread of its process |
| RobustRuns.WrongDeadlockAtOnce | pthread/mutex.c:150-163 | With nothing in between: exactly while a thread of its process has taken over from a dead one with its id, and not yet stored its own |
| RobustRuns.WrongUnlock | pthread/mutex.c:389-393 | The same for unlock: called without holding a recoverable mutex it is refused with EPERM, unless the first read gives the caller's id and at the second the holder is another thread of its process |
| RobustRuns.NoNamesakesNoIntrusion | pthread/mutex.c:389-393 | If no two threads share an id, no run has an intruding unlock |
| RobustAnswers.Answered | pthread/mutex.c:147-179 | In every run without an intruding unlock, a call that is back was decided by exactly one event, and answers accordingly: lock, timedlock and trylock OK if and only if they took the word when nobody had it, `EOWNERDEAD` if and only if they took it over from a dead process, `ENOTRECOVERABLE` if the mutex is past recovery at the first test or when the word is taken; `EBUSY` from trylock only, on a live owner or a failed comparison; `ETIMEDOUT` from timedlock only, at a poll; the answers of unlock and consistent likewise. The caller has the mutex afterwards exactly in the first two cases, or if it had it before and did not release it |
| RobustTakeover.TakesOver | pthread/lowlevellock.c:197-276 | For every kind of lock and every reached state: a thread in lock or timedlock, or in a trylock that has not found the word otherwise before, that finds the word a dead process's and moves alone, comes to `EOWNERDEAD`, or `ENOTRECOVERABLE` if the mutex is past recovery; if the word is free, to 0 or `ENOTRECOVERABLE` |
| RobustTakeover.NeverSpins | pthread/lowlevellock.c:181-291 | A thread in any call that moves alone is outside after at most 14 steps, or polls the word of a live owner, or is about to intrude |
| RobustBlocked.StrangerToldDeadlockAlive | pthread/mutex.c:150-163 | A run in which nobody dies, and a thread that holds nothing is told of a deadlock |
| RobustBlocked.IntruderLetsTwoIn | pthread/mutex.c:389-401 | A run in which nobody dies, and an unlock by a thread that holds nothing lets two live threads have the mutex, of either type |
| RobustBlocked.StrangerToldDeadlock | pthread/mutex.c:150-163 | A run in which that happens |
| RobustBlocked.HolderRefusedConsistent | pthread/mutex.c:413-429 | A run in which consistent is refused to the holder of an inconsistent mutex |
| RobustRuns.BitsExact | pthread/lowlevellock.h:34-38 | The owner field and the two flags of a word determine its 32 bits and back |
| RobustRuns.ActSafe | pthread/lowlevellock.c:181-291 | Every access of every thread but an intruding unlock keeps the invariant |
| RobustRuns.DieSafe | pthread/lowlevellock.c:161-170 | So does the death of a process, at any point of its threads |
| RobustRuns.LockFits | pthread/lowlevellock.c:181-258 | The lock loops write the word only when it is free, when its owner is dead, or to flag a waiter |
| RobustRuns.UnlockFits | pthread/mutex.c:389-429 | Unlock and consistent write only while the caller has the word, and mark the mutex past recovery exactly if it is inconsistent; a caller without it is refused at the second test if the word has another process |
| RobustRuns.TryFits | pthread/lowlevellock.c:260-276 | The trylock takes a free word or a dead owner's, or leaves it alone |
| RobustRuns.WonFits | pthread/mutex.c:165-179 | Owner id, count and dead flag are written by the thread that has the word only, and the lock granted only if it is recoverable |
| RobustObject.RobustT.constructor | pthread/mutex.c:119-138 | A new mutex is free, for threads of any processes |
| RobustObject.RobustT.Cas | pthread/lowlevellock.c:192-196 | The compare-and-swap on the word, which may fail for no reason |
| RobustObject.RobustT.LockAccess | pthread/lowlevellock.c:181-258 | Each access of the checks and the robust locks makes the machine's step |
| RobustObject.RobustT.TryAccess | pthread/lowlevellock.c:260-276 | The same for the robust trylock |
| RobustObject.RobustT.WonAccess | pthread/mutex.c:165-179 | The same for what follows the lock |
| RobustObject.RobustT.UnlockAccess | pthread/mutex.c:353-429 | The same for unlock and consistent |
| RobustObject.RobustT.Access | pthread/mutex.c:147-429 | One access takes the whole state to the machine's next state |
| RobustObject.RobustT.Exit | pthread/lowlevellock.c:161-170 | So does the death of a process |
| RobustObject.RobustT.Interleave | pthread/mutex.c:147-429 | Any run of the machine, carried out on the object, takes it where the machine goes, and keeps it valid if it has no intruding unlock |
| BarrierRuns.RoundsAgree | pthread/barrier.c:74-107 | No thread's k-th wait returns before every thread has been counted k times; the opener of the round, and nobody else, gets the special value |
| BarrierRuns.OneSerialPerRound | pthread/barrier.c:91-99 | A round that returned to all has exactly one special return value |
| BarrierRuns.StrayUnreachable | pthread/barrier.c:100-105 | The branch for surplus threads is never taken; a waiter's sequence number is at most one behind, so that 32-bit wrap-around does no harm |
| BarrierRuns.SleepersAtRest | pthread/barrier.c:84-97 | At rest, whoever sleeps waits for a thread that has not come yet |
| BarrierRuns.NobodySleepsPast | pthread/barrier.c:93-97 | At any time, whoever sleeps in a round that has been opened has a broadcast pending; anybody else asleep has an opener at work or a thread that has not come yet |
| BarrierRuns.DestroyWaits | pthread/barrier.c:109-129 | The reference count is exact; destroy returns only when nobody is inside; a sleeping destroyer has somebody to wait for |
| BarrierProgress.Returns | pthread/barrier.c:84-107 | A thread awake in a wait whose round has been opened, or about to open it, returns when it moves alone |
| BarrierProgress.NeverSpins | pthread/barrier.c:74-114 | A waiting thread that moves alone is outside or asleep after at most 8 steps |
| BarrierProgress.DestroyNeverSpins | pthread/barrier.c:116-129 | The destroyer alone is, after at most 4 steps, done if nobody is inside, and asleep otherwise |
| BarrierProgress.LastIsLast | pthread/barrier.c:109-111 | The destroyer is woken by the last thread to leave, when nobody is inside any more and destruction has begun |
| BarrierProofs.StepSafe | pthread/barrier.c:74-129 | Every step of wait and destroy keeps rounds, counts, log and references |
| BarrierObject.BarrierT.constructor | pthread/barrier.c:58-72 | A new barrier for the given threads |
| BarrierObject.BarrierT.WaitAccess | pthread/barrier.c:74-114 | Each access of wait makes the machine's step on the words |
| BarrierObject.BarrierT.DestroyAccess | pthread/barrier.c:116-129 | The same for destroy |
| BarrierObject.BarrierT.Access | pthread/barrier.c:74-129 | One access takes the whole state to the machine's next state |
| BarrierObject.BarrierT.Interleave | pthread/barrier.c:74-129 | Any run of the machine, carried out on the object, takes it where the machine goes, and keeps it valid |
| OnceRuns.AtMostOnce | pthread/once.c:56-94 | However often initialisers are cancelled, never two are active, and at most one completes |
| OnceRuns.ReturnsAfterCompletion | pthread/once.c:86-93 | A call returns only after an initialiser has completed, and none starts after that |
| OnceRuns.SleepersAtRest | pthread/once.c:47-54 | A sleeper has an active initialiser or a broadcast to wait for |
| OnceRuns.TokensAreUnique | pthread/once.c:36-40 | Tokens of different processes differ, and from the values for "fresh" and "done" |
| OnceProgress.TakesOver | pthread/once.c:62-88 | A thread in the call that finds nobody at the initialiser, be the variable fresh or inherited with another process's token, takes it over when it moves alone: the initialiser runs to its end for the first time, and the call returns |
| OnceProgress.NeverSpins | pthread/once.c:56-94 | A thread that moves alone is outside or asleep after at most 10 steps |
| OnceProgress.CancelPutsBack | pthread/once.c:47-54 | A cancelled initialiser puts the variable back and leaves nobody asleep |
| OnceRuns.StepExclusive | pthread/once.c:67-91 | Every step keeps the word equal to the token exactly while one thread, and only one, is active |
| OnceRuns.StepCompletedOnce | pthread/once.c:82-88 | Every step keeps at most one initialiser completed, and the word telling of it |
| OnceRuns.StepCovered | pthread/once.c:75-77 | Every step leaves a sleeper somebody to wait for |
| OnceObject.OnceT.constructor | pthread/once.c:62-67 | A variable found fresh, done, or in another process's progress |
| OnceObject.OnceT.OnceAccess | pthread/once.c:47-94 | Each access of the call and its handler makes the machine's step |
| OnceObject.OnceT.Access | pthread/once.c:47-94 | One access takes the whole state to the machine's next state |
| OnceObject.OnceT.Interleave | pthread/once.c:56-94 | Any run of the machine, carried out on the object, takes it where the machine goes, and keeps it valid |
| SpecificRuns.GetReturnsLastSet | pthread/specific.c:60-122 | For every history of whole calls of any threads, getspecific returns what the thread last set since the key's creation, else null |
| SpecificRuns.CreateAnswers | pthread/specific.c:34-49 | A new key did not exist, and is the least such whose compare-and-swap succeeded; EAGAIN only if there is none |
| SpecificRuns.OtherAnswers | pthread/specific.c:51-122 | delete and set are refused exactly for keys that do not exist; get finds nothing there; ENOMEM exactly when a value is to go into a block that is not there and cannot be allocated, a first value |
| SpecificRuns.PutThenRead | pthread/pt-internal.h:66-76 | The two-level index is exact: a store reaches its own slot and no other |
| SpecificRuns.DoSlot | pthread/specific.c:34-122 | What each call does to every slot and every key |
| SpecificRuns.DoCurrent | pthread/specific.c:60-122 | The value a slot stands for changes with the creation, deletion or setting of its own key, and with nothing else |
| SpecificRuns.OtherCurrent | pthread/specific.c:34-58 | A call of another thread changes it only by creating or deleting the key, to null |
| SpecificRuns.StepStands | pthread/specific.c:76-78 | Every call keeps the tables in agreement with the history |
| Specific.Search | pthread/specific.c:36-46 | The first unused key whose compare-and-swap succeeds |
| SpecificExit.PassesEnd | pthread/specific.c:131-170 | At most four passes, and the teardown stops earlier only with every slot empty, whatever destructors call |
| SpecificExit.NothingLeft | pthread/specific.c:126-178 | Afterwards there is no value and no block but the first |
| SpecificExit.DestructorsRun | pthread/specific.c:136-166 | Each destructor run is that of entry key + 16 × (absent blocks passed); its key's own, for the creation the value was set under, when none was passed |
| SpecificGap.RightDestructors | pthread/specific.c:161-165 | Whatever destructors call, those run for keys below the first absent block are the ones registered for the key, at the creation the value was set under |
| SpecificGap.RightExactlyBelowGap | pthread/specific.c:138-144 | When the first absent block is still absent in the end, whatever else destructors store: the code looks up a value's own key exactly if the key is below the block, and an entry at least 16 further otherwise |
| SpecificGap.UntouchedLasts | pthread/specific.c:135-170 | A block that no destructor stores into stays absent |
| SpecificGap.PrefixDestructors | pthread/specific.c:136-166 | When the blocks form a prefix and destructors store within it, every destructor run is the right one |
| SpecificGap.WrongDestructorRuns | pthread/specific.c:83-179 | A run of calls from a new thread: with keys 0 to n-1 created and key 32 alone set, the teardown runs key 48's destructor on its value, or none if there is no key 48 |
| SpecificExit.EveryValueDestroyed | pthread/specific.c:147-166 | With no absent block below, a value reaches its key's destructor unless another destructor deletes the key or sets it |
| SpecificGap.LoneValue | pthread/specific.c:138-144 | With absent blocks below the only value, exactly which wrong entry is consulted, and when it lies beyond the table |
| SpecificExit.VisitKeeps | pthread/specific.c:149-165 | Each slot visited is left empty or flagged, with the invariant kept |
| SpecificExit.PassKeeps | pthread/specific.c:135-167 | A pass leaves every slot empty, or the flag set |
| SpecificObject.ThreadT.constructor | pthread/pt-internal.h:98-105 | A new thread has the block inside the descriptor only, and no value |
| SpecificObject.ThreadT.KeyCreate | pthread/specific.c:34-49 | The search loop over the shared table finds what the specification says and changes that entry alone |
| SpecificObject.ThreadT.KeyDelete | pthread/specific.c:51-58 | Deletion in place |
| SpecificObject.ThreadT.Getspecific | pthread/specific.c:60-81 | The look-up, clearing a stale value in place |
| SpecificObject.ThreadT.Setspecific | pthread/specific.c:83-122 | The store, allocating a block that is missing, with the other blocks where they were |
| SpecificObject.ThreadT.Allocate | pthread/specific.c:102-108 | A new block of zeros where there was none |
| SpecificObject.ThreadT.VisitSlot | pthread/specific.c:147-165 | One slot of the teardown, with the destructor's calls |
| SpecificObject.ThreadT.WalkBlock | pthread/specific.c:147-166 | The loop over the slots of a block |
| SpecificObject.ThreadT.PassOver | pthread/specific.c:135-167 | The nested loops of one pass |
| SpecificObject.ThreadT.Clear | pthread/specific.c:174-178 | The descriptor as new |
| SpecificObject.ThreadT.DeallocTsd | pthread/specific.c:124-179 | The whole teardown does what the specification says, for any destructors |
| Reltime.ComputeReltime | pthread/lowlevellock.c:54-71 | The milliseconds left until a deadline, rounded down; an `int`, equal to them modulo 2^32; negative exactly if it has passed or lies so far away that bit 31 is set |

## Left out

- Memory order: steps are sequentially consistent, and `gsync` is its specification: comparing and sleeping, storing and waking, and requeueing are each one step (`ttr2.diff:18-20`, `ttr2.diff:56-57`).
- Thread counts below 2^32, thread ids non-zero and below 2^29, fewer than 2^32 - 1 read holds and waiters at a time: conditions of `Initial` and `Enabled`.
- Misuse: an unlock of a read-write lock or a normal mutex comes from a holder only; unlock of recursive, error-checking and robust mutexes may be called by anybody.
- `RobustRuns.Handover`, `RobustRuns.OnlyWaitersFlag`, `RobustRuns.UnrecoverableForGood` and what follows from them exclude intruding unlocks, because the properties are false with them (see above).
- `RwlockRuns.NoLostWakeup` excludes deserting timed readers, because the property is false for them (see above).
- Liveness beyond wake-ups and the progress of a thread that moves alone: fairness, and writer preference as an order of service.
- POSIX's atomic "release the mutex and wait" is false of the code (`pthread/cond.c:154-159`, see above).
- `pt_hurd_cond_wait`, which may return without the mutex; condition variables with robust, recursive or shared mutexes.
- The retry loop of `atomic_addx_mem` is modelled access by access for semaphores; for condition variables it is one step.
- Cancellation acts on threads asleep in a condition or semaphore wait, and inside the initialiser of `pthread_once`; the cancellation points are unfinished (`TODO:18-23`).
- `Mutex`: a sleep on the lock word is a wait that may end at any time; that its sleepers are woken is shown in `Cond` for the same lock.
- Process-shared ownership tests, which read two words in two steps, except for robust mutexes.
- Recursive robust mutexes, and transfer of robust ones; reuse of the id of a dead process.
- `RobustRuns.UnrecoverableForGood`: only the holder calls consistent, as the interface asks.
- The polling interval of robust locks; their timed lock gives up when a poll times out (`pthread/lowlevellock.c:252-253`), which is a timeout at any time here.
- Barriers used by more threads than they were made for: the branch is modelled and proved unreachable under `Initial`.
- `Specific`: calls are whole, not interleaved; sequence numbers are unbounded; during a teardown other threads create and delete keys only as destructors do.
- `SpecificGap.RightDestructors` is about keys below the first absent block, because the property is false above it (see above).
- `Reltime.ComputeReltime` takes both times as normalised, and subtracts seconds without overflow.
- Thread creation, join, detach, exit and fork: their contracts depend on the kernel's teardown of threads.
- Named semaphores, attributes, spin locks, and the RPC stubs: input and output, or easy.
