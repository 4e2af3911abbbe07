# A verified model of the Dignus actor runtime

Dignus is an actor runtime with a socket server on top. Actors run on dispatchers, one worker
thread each; an actor's mailbox is a bounded multi-producer ring whose consumer side is not
synchronised at all, so the whole runtime stands on one promise: no two threads ever execute the
same actor at once. Around that core sit a generational registry with a counted shutdown, an
ask/timeout service, a way for a receive to hop between dispatchers, and a reactor that turns byte
streams into mails and sends frames back.

This project models those protocols and proves what they promise, over every interleaving and
every input. Concurrent code is a transition system with one step per atomic load, store,
read-modify-write or mutex-guarded block; code that one thread runs by itself is a class or a
method with loops. Run `dafny verify dfyconfig.toml` to check everything.

**Memory model.** Steps interleave under sequential consistency. The program uses acquire and
release orderings, which are weaker; the assumption matters for the store-then-load pairs
`dignus-actor-core/src/internals/actor_runner.rs:102-107` (publish, then read the flag) against
`:256-258` (clear the flag, then peek), where a reordering could lose a wake-up.

**Wake contract.** A receive is an arbitrary number of suspensions. Each poll that suspends
registers exactly one one-shot wake, which may fire at any later moment, on any thread, also
before that poll has returned; a poll that ends leaves no wake behind. The contract is needed:
`RunnerWitness.SpuriousWakeBreaksExclusion` is a run without it in which two dispatchers are in
the same mailbox.

## How the files hang together

| files | what they hold |
|---|---|
| `MailboxRing`, `MailboxQueue` | the ring, interleaved step by step; the same ring as a class, called by one thread at a time |
| `RunnerModel`, `RunnerInvariant`, `RunnerRuns` | the runner with its mailbox, poll driver, posts, kills, wakes and dispatcher workers; the invariant; its consequences over all runs |
| `SequentialActor` | the actor its users think of, and the refinement |
| `RunnerProgress`, `RunnerKill`, `RunnerFinalize`, `RunnerWitness` | when a mail can still be received, a kill noticed, and an actor brought to its end (each exactly); concrete bad runs |
| `RunnerRest` | how the workers that are in an actor come out of it, and a queued token is used up |
| `DispatcherModel`, `YieldTasks`, `ActorAwait`, `JoinModel` | queue and signal of a dispatcher; recycled continuation tasks; `join`, and the runner together with the continuations that wake it |
| `RegistryModel`, `RegistryRuns`, `RegistryShutdown` | slots, generations, free list, live count, look-ups; what handles reach; when the count can reach zero |
| `SystemModel`, `SystemShutdown` | the registry together with the runners it holds and the dispatchers they share, and the shutdown of the whole |
| `Framing`, `SessionHost`, `SendBuffer`, `ReactorModel`, `ReactorInvariant`, `ReactorRuns`, `EndToEnd` | the byte-stream path, from `send` on one side to a posted mail on the other |
| `AskAwaiter`, `AskSweep`, `AskModel`, `AskStop` | the completion cell, one sweep, the ask system at run time, and what a stop leaves behind |
| `Basics`, `Runs` | shared vocabulary; runs of any machine |

## What turned out not to hold

Each of these has a concrete input or run, and a theorem that says exactly when the promise is kept.
(`actor_runner.rs`, `registry.rs` and `ask_system.rs` are in `dignus-actor-core/src/internals`,
`mpsc_bounded_queue.rs` in `dignus-actor-core/src/queues`, the others in `dignus-actor-core/src`.)

- A kill can be lost. If its compare-exchange and its swap both fall between the runner's last
  lifecycle load (`actor_runner.rs:251`) and its flag clear (`:256`), with an empty mailbox and
  nothing else under way, nobody is left to finalize the actor. `KillCanStrand` is such a run;
  `KilledCanStopExactlyUnlessDoomed` and `CanFinalizeExactlyUnlessDoomed` say that an actor can
  still be brought to its end if and only if it is not in that state, and
  `KillOutsideWindowIsNeverLost` that no interleaving whatever brings it there if no runner was in
  that window at the compare-exchange.
- A published mail is not always received: if the receive before it has panicked, the runner is
  about to kill its own actor. `PanicCanLoseMail` is the run, with two mails of one sender;
  `ReceivedExactlyUnlessPanicking` says that this, besides a kill, is the only obstacle.
- A handle can reach a stranger. A look-up finds somebody else's actor if and only if the slot has
  an owner that is not being removed and was recycled a positive multiple of 2^31 times since the
  handle was issued (`StrangerExactly`); `StaleHandleAfterFullTurn` is the run.
- A system cannot always be shut down. `register_actor` can panic between `reserve` and `commit`,
  and the slot then counts as live for ever. The guards are a caller's to check: a
  `mailbox_capacity` below 2 (`mpsc_bounded_queue.rs:25`), or so large that the next power of two
  or the buffer's bytes cannot be represented (`:29`, `:32`); an actor whose context was
  initialised by an earlier spawn (`actor_base.rs:32-42`, called at `actor_runner.rs:70-72`); an
  alias that is taken between the two looks at the alias map (`actor_system.rs:484-487`). And a
  spawn into a full registry panics while it holds the allocator's mutex (`registry.rs:54-55`);
  from then on `remove`, `snapshot_live` and `live_count` panic as well (`:126`, `:151`, `:164`).
  Its guard is that fewer actors are live than the registry has slots, and `FullExactly` says that
  this is the guard. `UnfitSpawnLeaks` and `OverfullRegistryPoisons` are the runs;
  `ShutdownExactlyIfSpawnsFit` says that the registry can empty if and only if there was no spawn
  of either kind. `ShutdownExactly` says the same of the whole system, with its shared dispatchers:
  it can be shut down if and only if every spawn fits, none met a full registry, and no actor is
  stranded by a lost kill.
- The two paths of the reassembly agree on everything they post, but leave the same buffer behind
  if and only if the stream is not corrupt (`FastAgreesWithSlow`; `CorruptPathsDiffer` is the
  input).
- An ask whose registration races the stop may never time out. `LateRegistrationHangs` is the run:
  it checks the stop flag before the stop and takes its slot after the stop has passed it.
  `TimesOutExactlyUnlessMissed` says that an awaited, undisplaced, unsettled ask can still time out
  if and only if the stop has not passed its slot or somebody has it in hand.

## Model

| member | source | states |
|---|---|---|
| `MailboxRing.EnqueueKeeps` | dignus-actor-core/src/queues/mpsc_bounded_queue.rs:50-82 | every atomic step of an enqueue, at any interleaving, keeps the ring sound: in the window of live positions each slot's sequence is p or p+1, written cells hold their ticket's mail, and each claimed ticket has one writer |
| `MailboxRing.DequeueKeeps` | dignus-actor-core/src/queues/mpsc_bounded_queue.rs:84-107 | the same for every step of a dequeue, including the one between releasing `sequence` and advancing `consumer_index` |
| `MailboxRing.RefusedOnlyWhenFull` | dignus-actor-core/src/queues/mpsc_bounded_queue.rs:78-80 | an enqueue gives up only if at that very load all slots are taken |
| `MailboxRing.NoUnreadCellOverwritten` | dignus-actor-core/src/queues/mpsc_bounded_queue.rs:61-76 | a producer about to write a cell is alone with it: no unread mail in it, no second writer |
| `MailboxRing.NoUnwrittenCellRead` | dignus-actor-core/src/queues/mpsc_bounded_queue.rs:84-107 | the consumer reads only written cells, and what it takes is exactly the claimed tickets in order |
| `MailboxRing.RunsKeep` | dignus-actor-core/src/queues/mpsc_bounded_queue.rs:50-107 | any run of any number of producers and one consumer keeps the ring sound |
| `MailboxRing.RingSafe` | dignus-actor-core/src/queues/mpsc_bounded_queue.rs:24-107 | over every run from an empty ring of any capacity from two up: at most `capacity` mails are outstanding, and the dequeued sequence is the claimed one |
| `MailboxQueue.MaskIsRemainder` | dignus-actor-core/src/queues/mpsc_bounded_queue.rs:55 | masking with a power of two less one is the remainder, for every position |
| `MailboxQueue.NormalizeToPowerOfTwo` | dignus-actor-core/src/queues/mpsc_bounded_queue.rs:121-131 | the least power of two that is large enough, and failure exactly where doubling overflows 64 bits |
| `MailboxQueue.MpscBoundedQueue.constructor` | dignus-actor-core/src/queues/mpsc_bounded_queue.rs:24-48 | for exactly the capacities on which the program does not panic: an empty queue whose capacity is the least power of two that is large enough |
| `MailboxQueue.MpscBoundedQueue.TryEnqueue` | dignus-actor-core/src/queues/mpsc_bounded_queue.rs:50-82 | appends to the contents exactly when they are fewer than the capacity |
| `MailboxQueue.MpscBoundedQueue.TryDequeue` | dignus-actor-core/src/queues/mpsc_bounded_queue.rs:84-107 | removes and returns the oldest of the contents, if any |
| `MailboxQueue.MpscBoundedQueue.TryPeek` | dignus-actor-core/src/queues/mpsc_bounded_queue.rs:109-119 | tells whether the contents are non-empty |
| `RunnerInvariant.StepKeeps` | dignus-actor-core/src/internals/actor_runner.rs:97-281 | every step of posters, killers, wakers, workers and user code keeps the runner's invariant, which names the one holder of the actor |
| `RunnerRuns.SingleHolder` | dignus-actor-core/src/internals/actor_runner.rs:97-128 | until the actor stops, `is_scheduled` is true exactly when one permission to run it exists (a poster or killer about to push, a queued token, a running frame, or a suspended receive), and there is never a second |
| `RunnerRuns.ExclusiveAccess` | dignus-actor-core/src/internals/actor_runner.rs:197-261 | no two threads are ever in the actor's code or at the consumer index at once, including the peek after the flag is cleared |
| `RunnerRuns.NoLostMail` | dignus-actor-core/src/internals/actor_runner.rs:256-260 | a published head mail always has a holder, a poster between publishing and its flag check, or a runner between clearing the flag and peeking |
| `RunnerRuns.NoLostWake` | dignus-actor-core/src/poll_driver.rs:74-82 | every wake finds the driver active and unmarked; at most one is out; each becomes one token and that token one poll |
| `RunnerRuns.IdleUnreachable` | dignus-actor-core/src/poll_driver.rs:92-95 | the Idle outcome is never reached, and a failed receive never schedules the actor twice |
| `RunnerRuns.ResumesWhereWoken` | dignus-actor-core/src/internals/actor_runner.rs:274-281 | a suspended receive resumes on the dispatcher its wake chose; mailbox work and finalization happen on the owner only |
| `RunnerRuns.FinalizedOnce` | dignus-actor-core/src/internals/actor_runner.rs:167-184 | `on_kill` and `on_finalize` run at most once, in this order, on the owner dispatcher, with no receive suspended |
| `RunnerRuns.LifeMovesForward` | dignus-actor-core/src/internals/actor_runner.rs:114-128 | the lifecycle goes Running, Killing, Stopped and never skips or returns |
| `RunnerRuns.NothingAfterStop` | dignus-actor-core/src/internals/actor_runner.rs:202-216 | once stopped, nothing is received whatever runs afterwards |
| `RunnerRuns.ReceivedInOrder` | dignus-actor-core/src/internals/actor_runner.rs:213-220 | what `on_receive` saw is a prefix of the accepted mails in ticket order, none twice, each producer's mails in its program order |
| `SequentialActor.StepRefines` | dignus-actor-core/src/internals/actor_runner.rs:97-281 | each step of the runner is a step of a sequential actor, or invisible to it |
| `SequentialActor.RunnerIsSequential` | README.md:236-244 | every run of the runner is a run of a sequential actor that handles one mail to its end before the next, and finalizes once |
| `RunnerKill.KilledIsNoticed` | dignus-actor-core/src/internals/actor_runner.rs:114-128 | a killed actor has a holder or a killer about to take the flag, unless a kill fell into the window |
| `RunnerKill.DoomedForever` | dignus-actor-core/src/internals/actor_runner.rs:251-260 | a stranded actor is never finalized, whatever happens |
| `RunnerKill.KilledCanStopExactlyUnlessDoomed` | dignus-actor-core/src/internals/actor_runner.rs:114-128 | a killed actor can still be finalized if and only if it is not stranded, and it is stranded only by a kill that fell into the window |
| `RunnerKill.KillOutsideWindowIsNeverLost` | dignus-actor-core/src/internals/actor_runner.rs:114-128 | a kill whose compare-exchange finds no runner between its last lifecycle check and its flag clear is never lost: in every state of every later run the actor is stopped or can still be |
| `RunnerKill.HeldKillIsNeverLost` | dignus-actor-core/src/internals/actor_runner.rs:251-260 | if whoever may run a killed actor has not made its last check, then in every later state the actor is stopped or somebody like that is there |
| `RunnerWitness.KillCanStrand` | dignus-actor-core/src/internals/actor_runner.rs:251-260 | a concrete run that strands a killed actor |
| `RunnerFinalize.Counts` | dignus-actor-core/src/internals/actor_runner.rs:167-184 | `on_kill` and `on_finalize` are counted by these two frames of `finalize_kill` and by no other step of any thread |
| `RunnerFinalize.CanFinalizeExactlyUnlessDoomed` | dignus-actor-core/src/internals/actor_runner.rs:114-184 | from any reachable state the actor can be brought to run `on_kill` and `on_finalize`, if and only if no kill has stranded it |
| `RunnerProgress.ReceivedExactlyUnlessPanicking` | dignus-actor-core/src/internals/actor_runner.rs:213-260 | the published mail at the head of a running actor's mailbox can still be received, if and only if the receive before it has not panicked |
| `RunnerWitness.PanicCanLoseMail` | dignus-actor-core/src/internals/actor_runner.rs:222-229 | a concrete run in which a running actor's published head mail sits behind a panicked receive and can never be received |
| `RunnerProgress.ReceivedIsClaimed` | dignus-actor-core/src/internals/actor_runner.rs:213-220 | a ticket, once received, is the mail that had this ticket all along |
| `RunnerProgress.NothingAfterPanic` | dignus-actor-core/src/internals/actor_runner.rs:222-229 | after a panic, as after a kill, nothing more is received |
| `RunnerRest.ComesToRest` | dignus-actor-core/src/internals/actor_runner.rs:197-281 | from every reachable state all frames of an actor can return by their own steps, with no new one begun and without stranding the actor |
| `RunnerRest.UsesToken` | dignus-actor-core/src/internals/actor_runner.rs:197-281 | a queued token can be executed and its frame return with no token left behind and without stranding the actor |
| `RunnerWitness.SpuriousWakeBreaksExclusion` | dignus-actor-core/src/internals/actor_runner.rs:278-280 | a concrete run without the wake contract that puts two dispatchers into one mailbox |
| `DispatcherModel.StepKeeps` | dignus-actor-core/src/dispatcher/actor_dispatcher.rs:63-144 | every step of schedulers, worker and dispose keeps the signalling invariant |
| `DispatcherModel.DispatcherSound` | dignus-actor-core/src/dispatcher/actor_dispatcher.rs:63-144 | items run exactly in push order across batch swaps; until the stop, a non-empty queue has its signal set, a scheduler that has not finished, or an awake worker |
| `DispatcherModel.AsleepMeansDone` | dignus-actor-core/src/dispatcher/signal.rs:16-31 | a worker asleep with no signal and no call in progress has executed everything |
| `YieldTasks.TaskInOnePlace` | dignus-actor-core/src/dispatcher/actor_yield_task.rs:21-43 | a yield task is in one place only: pool, an enqueuer's hands, queue, or worker |
| `YieldTasks.ContinuationRunsOnce` | dignus-actor-core/src/dispatcher/actor_dispatcher.rs:146-151 | each continuation runs at most once, and has run, was refused by a stopped dispatcher, or is carried by exactly one task |
| `YieldTasks.QueuedTaskIsLoaded` | dignus-actor-core/src/dispatcher/actor_yield_task.rs:21-43 | a queued task holds the callback it was taken for, despite recycling |
| `ActorAwait.ActorAwaiter.Poll` | dignus-actor-core/src/actor_await.rs:38-60 | ready exactly on the target dispatcher; enqueues a continuation at the first poll elsewhere only |
| `ActorAwait.EnqueuesOnce` | dignus-actor-core/src/actor_await.rs:47-57 | however often it is polled, one continuation is enqueued, and none if it never is elsewhere |
| `JoinModel.StepKeeps` | dignus-actor-core/src/actor_await.rs:38-60 | every step of the runner, of the polls of joins and of the dispatchers' continuations keeps the joint invariant |
| `JoinModel.JoinResumesOnTarget` | dignus-actor-core/src/actor_await.rs:38-60 | a receive last woken through `join(t)` is polled on the dispatcher of `t` and nowhere else, and there the join is ready |
| `JoinModel.JoinRunsOnTarget` | dignus-actor-core/src/dispatcher/actor_dispatcher.rs:146-151 | the continuation of a join runs at most once, on its target dispatcher only, and until then its waker has not fired |
| `RegistryModel.StepKeeps` | dignus-actor-core/src/internals/registry.rs:47-148 | every step of spawns, look-ups and removals, and the panic of a spawn into a full registry, keeps the registry's invariant |
| `RegistryRuns.HandleReachesOwnActor` | dignus-actor-core/src/internals/registry.rs:75-123 | under any interleaving, what a post or kill by handle reaches was registered in its slot a whole multiple of 2^31 recycles after the handle; it is the handle's own actor if and only if there was no recycle in between, and always below 2^31 recycles |
| `RegistryRuns.UndisturbedRun` | dignus-actor-core/src/internals/registry.rs:80-92 | a look-up that nothing disturbs can be taken step by step to the end that `StrangerExactly` speaks of |
| `RegistryRuns.StrangerExactly` | dignus-actor-core/src/internals/registry.rs:82-91 | such a look-up finds somebody else's actor if and only if the slot has an owner not being removed and was recycled a positive multiple of 2^31 times |
| `RegistryRuns.TurnsReachable` | dignus-actor-core/src/internals/registry.rs:62-63 | any number of reserve, commit and remove cycles of one slot can be run |
| `RegistryRuns.StaleHandleAfterFullTurn` | dignus-actor-core/src/internals/registry.rs:62-63 | a run of 2^31 cycles after which the first handle finds the present actor |
| `RegistryShutdown.Conservation` | dignus-actor-core/src/internals/registry.rs:47-68 | live and free slots add up to those ever used, free indices are distinct and unowned, and no index is handed out twice while in use |
| `RegistryShutdown.CountIsZeroExactly` | dignus-actor-core/src/internals/registry.rs:125-166 | the live count is zero if and only if every actor ever registered has been removed |
| `RegistryShutdown.AbandonedSpawnBlocksShutdown` | dignus-actor-core/src/actor_system.rs:432-496 | a spawn that panics after `reserve` blocks the stop of the dispatchers in every state that can follow |
| `RegistryShutdown.UnfitSpawnLeaks` | dignus-actor-core/src/actor_system.rs:450-493 | for every request that cannot be carried through (mailbox too small or too large to build, context used before, alias refused) a run in which it leaks its slot |
| `RegistryShutdown.FullExactly` | dignus-actor-core/src/internals/registry.rs:47-58 | `reserve` finds no index if and only if as many actors are live as there are slots |
| `RegistryShutdown.PoisonedForever` | dignus-actor-core/src/internals/registry.rs:54-55 | once a spawn has panicked under the allocator's mutex, the mutex stays unusable in every later state |
| `RegistryShutdown.OverfullRegistryPoisons` | dignus-actor-core/src/internals/registry.rs:54-55 | a run with one slot and two spawns, both in order, that ends with the mutex unusable |
| `RegistryShutdown.ShutdownExactlyIfSpawnsFit` | dignus-actor-core/src/actor_system.rs:319-344 | the registry can still be emptied if and only if every spawn asked for what can be carried through and none met a full registry |
| `SystemModel.StepKeeps` | dignus-actor-core/src/actor_system.rs:364-375 | registry, runners and shared dispatchers stay in step: a runner is registered until its `on_finalize` and leaves by that call only; each dispatcher's queue holds exactly the actors with a token on it, in order and once each; its worker is in one actor at a time |
| `SystemShutdown.StoppedAfterEveryOnKill` | dignus-actor-core/src/actor_system.rs:319-344 | dispatchers are stopped only when every registered actor has run `on_kill` and `on_finalize` exactly once each, is stopped, and is removed |
| `SystemShutdown.RemovedRanOnKill` | dignus-actor-core/src/actor_system.rs:364-367 | nobody leaves the registry before its one `on_kill` |
| `SystemShutdown.ShutdownExactly` | dignus-actor-core/src/actor_system.rs:319-356 | the whole system, with any number of actors on the same dispatchers, can still be shut down if and only if every spawn fits, none met a full registry and no kill has stranded its actor |
| `Framing.PrefixRoundTrip` | dignus-actor-network/src/length_prefixed_decoder.rs:7-12 | reading a written length gives it back modulo 2^32 |
| `Framing.FrameRoundTrip` | dignus-actor-network/src/length_prefixed_decoder.rs:42-64 | decoding a frame in front of any bytes gives its payload and consumes exactly it, if and only if the payload fits the limit and the prefix |
| `Framing.VerdictStable` | dignus-actor-network/src/length_prefixed_decoder.rs:42-64 | a verdict other than Incomplete is not changed by more bytes |
| `Framing.IncompleteIsShort` | dignus-actor-network/src/length_prefixed_decoder.rs:42-56 | bytes that are judged Incomplete are fewer than one frame of the largest size |
| `Framing.DecodeContinues` | dignus-actor-network/src/length_prefixed_decoder.rs:42-64 | decoding a longer stream continues where decoding a part of it stopped |
| `SessionHost.SessionActorHost.OnAccepted` | dignus-actor-network/src/session_actor_host.rs:102-129 | spawns an actor and gives the session an empty buffer |
| `SessionHost.SessionActorHost.PostFrames` | dignus-actor-network/src/session_actor_host.rs:136-154 | the decode loop posts exactly the messages of decoding the whole buffer and stops where that stops |
| `SessionHost.SessionActorHost.OnData` | dignus-actor-network/src/session_actor_host.rs:131-193 | both paths post the messages of leftover plus chunk and keep what is left, except that the fast path drops a corrupt chunk |
| `SessionHost.SessionActorHost.OnDisconnected` | dignus-actor-network/src/session_actor_host.rs:195-199 | forgets a known session and kills its actor |
| `SessionHost.ChunkingInvariance` | dignus-actor-network/src/session_actor_host.rs:131-193 | for every cut into chunks and any traffic of other sessions, an actor was posted exactly the messages of the whole stream up to the first corrupt frame; a close was requested exactly if there is one; otherwise the buffer is the undecoded rest |
| `SessionHost.LeftoverBounded` | dignus-actor-network/src/session_actor_host.rs:156-160 | before any corrupt frame the leftover is shorter than a frame of the largest size |
| `SessionHost.FastAgreesWithSlow` | dignus-actor-network/src/session_actor_host.rs:136-192 | fast and slow path have the same effects on the same bytes, and leave the same state if and only if they are not corrupt |
| `SessionHost.CorruptPathsDiffer` | dignus-actor-network/src/session_actor_host.rs:156-192 | four bytes on which the two paths leave different buffers behind |
| `SendBuffer.Buffer.CanWrite` | dignus-actor-network/src/send_buffer.rs:20-22 | true exactly if the pending bytes and the new ones stay within the limit |
| `SendBuffer.Buffer.Append` | dignus-actor-network/src/send_buffer.rs:24-26 | adds to the end of the pending bytes |
| `SendBuffer.Buffer.PendingSlice` | dignus-actor-network/src/send_buffer.rs:32-34 | all pending bytes |
| `SendBuffer.Buffer.Advance` | dignus-actor-network/src/send_buffer.rs:36-42 | drops the front of the pending bytes; storage is given back when none is left |
| `SendBuffer.Write` | dignus-actor-network/src/tcp_transport.rs:27-39 | for every sequence of socket answers no byte is lost, repeated or reordered; closed exactly after an error or a write of nothing; otherwise drained or blocked; no answer after the deciding one is used |
| `ReactorInvariant.StepKeeps` | dignus-actor-network/src/reactor.rs:103-318 | every step of the reactor and of the threads that send, close, hand over or stop keeps the reactor's invariant |
| `ReactorRuns.NoStrandedOutput` | dignus-actor-network/src/reactor.rs:194-303 | a live connection with pending bytes has its token queued or in the batch, WRITABLE interest armed or its event delivered or its registration next, or a sender between append and push |
| `ReactorRuns.WakeIsDue` | dignus-actor-network/src/session.rs:50-81 | whatever was queued for the reactor, and a stop, is about to be taken or announced by a wake that is due |
| `ReactorRuns.QuietMeansWritten` | dignus-actor-network/src/reactor.rs:103-127 | a reactor asleep with no wake due and no call in progress has written every accepted byte, or waits for the socket |
| `ReactorRuns.WireIsAccepted` | dignus-actor-network/src/session.rs:50-67 | wire followed by pending is the concatenation of the accepted buffers, and pending respects the limit |
| `ReactorRuns.SessionLifecycle` | dignus-actor-network/src/reactor.rs:155-318 | each session is accepted once and first, disconnected at most once and last, and exactly once if the reactor left its loop |
| `ReactorRuns.HostMirrors` | dignus-actor-network/src/reactor.rs:305-311 | the host's session map has exactly the sessions of the reactor's connections between events, and still the one that is being closed inside a close |
| `ReactorRuns.DisposedExactlyWhenClosed` | dignus-actor-network/src/reactor.rs:305-307 | a session is marked disposed exactly when its connection is gone, one step after the removal |
| `EndToEnd.DecodeFrames` | dignus-actor-network/src/length_prefixed_decoder.rs:7-64 | decoding the concatenated frames of any payloads that fit gives them all back, with nothing left |
| `EndToEnd.Delivered` | dignus-actor-network/src/session.rs:50-67 | for any sends, partial writes and chunking, the receiving actor was posted a prefix of the accepted payloads' messages, all of them once everything arrived, and no close was requested |
| `AskAwaiter.AskAwaiterState.Complete` | dignus-actor-core/src/internals/ask_awaiter.rs:51-68 | the first completion sets the outcome and takes the waker, later ones change nothing |
| `AskAwaiter.AskAwaiterState.Poll` | dignus-actor-core/src/internals/ask_awaiter.rs:111-143 | pending stores the waker; after that timeout, response, mismatch or panic as the outcome and its consumption demand |
| `AskAwaiter.FirstCompletionWins` | dignus-actor-core/src/internals/ask_awaiter.rs:51-143 | over every race only the first completion decides what polls return, and the waker of the last pending poll, no other, is woken exactly once |
| `AskSweep.Sweep` | dignus-actor-core/src/internals/ask_system.rs:141-174 | a pass empties exactly the expired and abandoned slots, collects exactly the expired asks still awaited, and finds the earliest deadline left |
| `AskSweep.ExpiredAsksAre` | dignus-actor-core/src/internals/ask_system.rs:141-174 | an ask is collected if and only if it is awaited and sits in a slot whose deadline has passed |
| `AskSweep.WaitFor` | dignus-actor-core/src/internals/ask_system.rs:180-185 | the sweeper waits at most 100 ms, never beyond the next deadline, and shorter only for it |
| `AskModel.StepKeeps` | dignus-actor-core/src/internals/ask_system.rs:88-198 | every step of registrations, replies, drops, sweeper and stop keeps the ask system's invariant |
| `AskModel.OutcomesStand` | dignus-actor-core/src/internals/ask_awaiter.rs:51-63 | an outcome, once there, never changes |
| `AskModel.NoEarlyTimeout` | dignus-actor-core/src/internals/ask_system.rs:130-178 | a timeout before the ask's own deadline comes only from the stop |
| `AskModel.SweepCompletes` | dignus-actor-core/src/internals/ask_system.rs:130-178 | after a sweep, every ask placed before it and due by its clock is settled, unless abandoned or displaced |
| `AskModel.StopCompletes` | dignus-actor-core/src/internals/ask_system.rs:101-128 | after a stop, every ask placed before it is settled, unless abandoned or displaced; a stop on the sweeper's own thread leaves the rest of that sweep's round to it |
| `AskStop.TimesOutExactlyUnlessMissed` | dignus-actor-core/src/internals/ask_system.rs:62-128 | an awaited, undisplaced, unsettled ask can still time out if and only if the stop has not passed its slot or somebody has it in hand |
| `AskStop.OnlyRepliesAfterStop` | dignus-actor-core/src/internals/ask_system.rs:101-128 | after the stop and the sweeper's exit only a reply settles an ask |
| `AskStop.LateRegistrationHangs` | dignus-actor-core/src/internals/ask_system.rs:62-99 | a run in which a registration that races the stop is placed, awaited and missed |

## Left out

- Form: the runner, dispatcher, registry, reactor, yield-task and ask systems are transition systems over values and not classes, because their content is how threads interleave; the parts that one thread runs alone (queue, session host, send buffer, transport write, completion cell, sweep, awaiter) are classes and methods.
- Weak memory, `UnsafeCell` and `transmute` lifetimes, and reference counting are not modelled; see the memory model above.
- RingSafe: positions are unbounded, so the wrap-around of the 64-bit ticket counter is not modelled.
- The dispatcher's stop is modelled in `DispatcherModel` and `YieldTasks` but not inside the runner's model, where dispatchers run for ever.
- `MpscBoundedQueue.Drop` and the drop of undelivered mails.
- Liveness of receives, and panics of user code outside receives (`on_kill`, the dead-letter callback, `actor_context`, destructors): user code is arbitrary within the wake contract, and these return.
- A worker whose `on_finalize` finds the allocator's mutex unusable is modelled as one that never gets on, where the program unwinds its thread. An allocation that fails ends the process and is no step.
- StoppedAfterEveryOnKill: reading the live count and stopping the dispatchers is one step, which is to say that no spawn races the shutdown.
- ShutdownExactly: says that the shutdown can come to its end, not that it will: that every thread gets to run is not modelled. A shutdown called from inside an actor, which waits for itself, is not modelled.
- SweepCompletes: asks whose slot another ask overwrote are excepted, as the program gives no guarantee for them. A `stop` on the sweeper's own thread is taken to be called from within a completion that the sweeper makes.
- The alias map of the actor system, `snapshot_live` and the kills that a shutdown sends to every actor, dead letters, option builders and the spawn overloads.
- What is posted to a session after its first corrupt frame: the fast path restarts at the next chunk, the slow path keeps the bad prefix.
- NoStrandedOutput: `reregister` and `wake` are taken to succeed; their errors are ignored by the program as well.
- TLS, the raw encoder, the read loop of the transport, listener errors, `poll` errors and operating-system sockets; what a socket answers is arbitrary.
- Write: a socket that answers Interrupted for ever is not modelled; the list of answers is finite and a socket that has none left would block.
- FirstCompletionWins: two wakers are the same if they wake the same task, which is what `will_wake` decides.
