# Supervisor scheduling loop (actix `src/supervisor.rs`)

This project models the actix `Supervisor` in Dafny and proves properties of the model. The supervisor is a future that owns:

- one execution context, with the actor inside it;
- the consumer ends of two mailboxes: a same-thread ("unsync") mailbox of protocol messages and a cross-thread ("sync") mailbox of envelopes;
- a cached same-thread sender for the current context.

Each time the supervisor is polled it runs its `'outer` loop. One pass of that loop does the following:

1. It requests a stop if no sender of either mailbox is live.
2. It advances the context one step.
3. If the context is waiting, it suspends. If the context has terminated, it completes when disconnected. Otherwise it restarts the context around the same actor, and a new pass starts.
4. Otherwise it drains the unsync mailbox, checking the context after each message, and then the sync mailbox, checking it before each message. If a check finds the context dead, a new pass starts. If a check finds it waiting, the pass suspends.
5. After both drains, it suspends when the pass took nothing; otherwise a new pass starts.

The project is organised as four modules:

- `Collaborators` (`collaborators.dfy`) models what the supervisor drives but does not implement:
  - The context is reduced to its lifecycle flags and a script of advance outcomes. A restart hands the rest of the script to the fresh context, so the fresh context may wait or terminate like any other.
  - The actor is reduced to the history of what it handled and of its restarts, plus the effects of its `restarting` hook on the context it is given: a stop request, or a wait.
  - Each mailbox receiver is a FIFO queue with a live-senders flag.
- `SupervisorSpec` (`supervisor_spec.dfy`) gives the behaviour as functions on a snapshot of the supervisor's fields:
  - `Restart`, the two drains, and one pass (`Pass`);
  - a run of at most `fuel` passes (`Run`, with `AfterPass` for what follows a pass).
- `Supervision` (`supervisor.dfy`) holds the class `Supervisor`. Its fields are `ctx`, `addr`, `syncMsgs` and `unsyncMsgs`, plus the log of answers sent to upgrade slots. The methods `Restart`, `Pass` and `Poll` update those fields in place. `Pass` runs the source's two inner loops through `DrainUnsync` and `DrainSync`. Each method is proved to end in exactly the state, and to return exactly the result, that the spec function gives.
- `SupervisorProps` (`supervisor_props.dfy`) proves what the loop guarantees:
  - per-mailbox FIFO delivery across passes and restarts: each envelope taken is handled once, and each upgrade request taken whose slot is open is answered once;
  - same-thread messages before cross-thread ones;
  - the check asymmetry between the two drains;
  - when a pass suspends, completes or restarts;
  - that restarts keep the actor and the mailboxes;
  - that `poll` completes only when it is disconnected and the context has terminated;
  - that a connected supervisor whose context terminates on every advance restarts without end.

Losing every sender is not always final. The upgrade branch (`src/supervisor.rs:187-188`) mints a new sender on the sync channel. So when a pass takes an upgrade request whose requester still waits, the sync channel gets a live sender again. A disconnected pass reaches the drains only when the context survives the stop request at line 158 and its advance. If the advance reports termination instead, `poll` completes and the request stays queued. `SupervisorProps.PassEffect` states exactly when a pass leaves the supervisor connected.

## Model

| member | source | states |
|---|---|---|
| Supervision.Supervisor.constructor | src/supervisor.rs:63-69 | the supervisor holds the given context and both receivers, and its cached sender is the context's own sender |
| Supervision.Supervisor.Connected | src/supervisor.rs:135-138 | true exactly when the unsync or the sync receiver still has a live sender; reads the fields and changes nothing |
| Supervision.Supervisor.Restart | src/supervisor.rs:140-146 | the new state is `SupervisorSpec.Restart` of the old one: the same actor gets one `Restarted` event, the hook's stop or wait lands on the fresh context, the mailboxes are untouched, and `addr` belongs to the new context |
| Supervision.Supervisor.Pass | src/supervisor.rs:155-180 | one iteration of `'outer`: stop when disconnected, advance, suspend, complete or restart, then the drains; the new fields and the returned step are exactly `SupervisorSpec.Pass` of the old fields |
| Supervision.Supervisor.DrainUnsync | src/supervisor.rs:182-203 | the unsync drain loop in place, followed by the sync drain; the new fields and the step are exactly `SupervisorSpec.UnsyncDrain` of the old fields |
| Supervision.Supervisor.DrainSync | src/supervisor.rs:205-225 | the sync drain loop in place and the final `not_ready` test; the new fields and the step are exactly `SupervisorSpec.SyncDrain` of the old fields |
| Supervision.Supervisor.Poll | src/supervisor.rs:154-227 | `poll`: repeats passes until one returns; the new fields and the result are exactly `SupervisorSpec.Run` of the old fields |
| SupervisorSpec.Restart | src/supervisor.rs:140-146 | the history gains exactly one `Restarted`, and the actor's list of hook effects loses the one just used; the generation advances by one; the new context is alive and goes on with the rest of the script; it has a stop requested exactly when the hook requested one, and waits exactly when the hook made it wait; the cached sender is rewired; mailboxes and replies are unchanged |
| SupervisorSpec.StopIfDisconnected | src/supervisor.rs:156-159 | a stop is requested exactly when one already was or the supervisor is disconnected; nothing else changes |
| SupervisorSpec.Deliver | src/supervisor.rs:186-193 | an upgrade leaves the context and actor alone, and an open slot gets a handle on the sync channel, which then has a live sender; an envelope is applied to the actor once; the history and the replies grow by exactly that message's share |
| SupervisorSpec.Advanced | src/supervisor.rs:156-170 | advancing keeps the actor and the generation, sets the stop flag exactly when disconnected (or already set), and reports `Ready` only for a dead context |
| SupervisorSpec.UnsyncDrain | src/supervisor.rs:182-225 | the rest of a pass from the unsync drain on never completes `poll`; it takes at most the queued messages of each mailbox, and takes from the sync mailbox only after emptying the unsync one; the cached sender is kept |
| SupervisorSpec.SyncDrain | src/supervisor.rs:205-225 | the rest of a pass from the sync drain on never completes `poll`, takes nothing from the unsync mailbox and at most the queued envelopes, and leaves the unsync mailbox, the cached sender and the replies alone |
| SupervisorSpec.Pass | src/supervisor.rs:155-226 | a pass completes `poll` only when the supervisor was and stays disconnected and the context is dead; it takes at most what is queued, and takes from the sync mailbox only after emptying the unsync one |
| SupervisorSpec.Run | src/supervisor.rs:154-227 | `poll` returns a result only after at least one pass, and it completes only with the supervisor disconnected and the context dead |
| SupervisorSpec.AfterPass | src/supervisor.rs:155-226 | after a pass, the loop ends with the pass's own state and result when the pass returns. When the pass continues, the loop completes only disconnected with a dead context. The counts of messages taken never shrink |
| Collaborators.Context.New | src/supervisor.rs:141-143 | the fresh context holds the old actor, is alive, not waiting and has no stop requested, and goes on with the given script |
| Collaborators.Context.Restarting | src/supervisor.rs:144 | the actor records one `Restarted`. The hook's next effect requests a stop and leaves the context waiting exactly as that effect says. Identity, liveness and script are kept |
| Collaborators.Context.Stop | src/supervisor.rs:157-159 | a stop is requested and nothing else changes |
| Collaborators.Context.UnsyncSender | src/supervisor.rs:145 | the sender belongs to this context's mailbox |
| Collaborators.Receiver.Poll | src/supervisor.rs:183-195 | a non-blocking pop: nothing exactly when the queue is empty, otherwise the front message and the rest of the queue in order, with channel and liveness kept |
| Collaborators.Context.Advance | src/supervisor.rs:165-170 | advancing keeps the actor, the generation and the stop flag; it reports `Ready` only with the context dead; with no scripted outcome left it changes nothing when it reports `NotReady` |
| Collaborators.Context.Handle | src/supervisor.rs:190-192 | applying an envelope appends exactly one `Handled` event; the context dies if the envelope stops it and waits if it waits on a future |
| SupervisorProps.AnswersFillOpenSlots | src/supervisor.rs:187-188 | the answers are exactly the open upgrade slots, once each and in order, each with a handle sharing the sync channel |
| SupervisorProps.SyncDrainEffect | src/supervisor.rs:205-220 | the sync drain pops a prefix of the sync mailbox front first and applies each envelope once, in order. It changes nothing else but the context, and it takes nothing when the context is dead or waiting, since its checks come before each pop |
| SupervisorProps.UnsyncDrainQueues | src/supervisor.rs:182-220 | the unsync drain takes a prefix of the unsync mailbox, and only once that is empty a prefix of the sync mailbox; the rest stays queued in order; a non-empty unsync mailbox always yields at least one message, because its checks come after each pop |
| SupervisorProps.UnsyncDrainLog | src/supervisor.rs:182-220 | every envelope a drain takes is applied once and every open upgrade it takes is answered once, in queue order, same-thread messages first; an upgrade whose slot is closed is taken and leaves no trace; the sync channel is live afterwards exactly when it was before or a handle was handed out |
| SupervisorProps.UnsyncDrainStep | src/supervisor.rs:182-225 | a drain never completes `poll`; a drain that ends with the context alive and not waiting has emptied both mailboxes; it suspends exactly when the context is alive and either waiting or nothing was taken at all |
| SupervisorProps.SyncDrainStep | src/supervisor.rs:205-225 | the same for the sync drain alone |
| SupervisorProps.PassEffect | src/supervisor.rs:155-226 | one pass takes prefixes of both mailboxes, the sync one only after the unsync one is empty. Each envelope it takes is applied once and each open upgrade it takes is answered once, in order, and the rest stays queued. A restarting pass takes nothing and adds one `Restarted`. The supervisor ends connected exactly when it was or a handle was handed out, and the cached sender stays wired |
| SupervisorProps.PassStep | src/supervisor.rs:164-225 | case by case on the advance. Waiting suspends without popping. Termination completes when disconnected and restarts otherwise. A running context has its mailboxes drained, and the pass then suspends exactly when the context is alive and waiting or nothing was taken |
| SupervisorProps.PassCompletes | src/supervisor.rs:170-174 | a pass completes `poll` exactly when the supervisor is disconnected and the advance reports termination; it then has not restarted, and the context is dead |
| SupervisorProps.IdlePassSuspends | src/supervisor.rs:180-225 | with both mailboxes empty and a running context that is neither dead nor waiting, a pass returns `NotReady` and changes nothing beyond the advance |
| SupervisorProps.RestartKeepsMailboxes | src/supervisor.rs:170-203 | a restarting pass leaves both mailboxes as they were and adds one `Restarted` to the same actor. When the fresh context's first advance leaves it running and not waiting, the next pass takes the front of the unsync mailbox, or of the sync mailbox when the unsync one is empty. With no scripted outcome left and a hook that neither stops nor waits, the first advance does leave it so |
| SupervisorProps.EndlessRestarts | src/supervisor.rs:155-176 | while connected, with every advance reporting termination, each pass restarts the actor and takes nothing, so no number of passes returns from `poll`; the mailboxes stay as they were |
| SupervisorProps.PassDelivers | src/supervisor.rs:155-226 | one pass takes prefixes, applies exactly the envelopes it took from each mailbox in order, and answers exactly the open upgrades it took, in order |
| SupervisorProps.RunDeliversInOrder | src/supervisor.rs:154-227 | across any number of passes and restarts, each mailbox is consumed from the front. The envelopes handled from each mailbox are exactly those taken from it, in order and once each. Every open upgrade taken is answered once, in order |
| SupervisorProps.RunCompletesOnlyWhenDisconnected | src/supervisor.rs:154-227 | no sender is dropped in the model, so a connected supervisor stays connected and never completes; `poll` completes only when it is disconnected and the context is dead; the cached sender always belongs to the current context |

## Left out

- `start` and `start_in` (`src/supervisor.rs:74-133`) are not modelled. They spawn the supervisor on an arbiter and hand out addresses. The constructor models only the struct they assemble.
- The `unsafe` aliasing of context and actor through `mem::transmute` (`src/supervisor.rs:161-162`) is not modelled. The actor lives inside the context value, and the envelope handler receives both together.
- The internals of the execution context are abstract. `Context.Advance` follows a script of outcomes, and after the script it terminates exactly when a stop was requested or the context died. One script covers a context and every context that replaces it. `Context::new` followed by `set_actor` is one `Context.New`, and `generation` is a model-only identity for the context.
- SupervisorSpec.Restart: the `restarting` hook's effect on the fresh context is reduced to requesting a stop and making it wait. Anything else the hook does through the context, such as spawning futures or sending to its own address, is not modelled.
- `Envelope::handle` is reduced to its effect on the actor's history and on the context's `alive` and `waiting` flags. Any other actor state is taken to be a function of that history.
- The channel implementations are abstract. Polling a receiver either takes the front message or reports nothing. A channel error and an empty or closed queue end a drain alike, as in the source.
- Senders that other code creates or drops are not modelled. This covers cross-thread handles dropped concurrently, an address dropped by actor code while it handles an envelope, and the futures of the old context that `restart` drops. Messages that arrive while `poll` runs are not modelled either: a poll works on a snapshot of both queues.
- SupervisorProps.RunCompletesOnlyWhenDisconnected: "a connected supervisor stays connected" holds only because no sender is ever dropped in the model. In the source, senders are dropped between passes and also within a pass: while `ctx.poll()` (line 165) runs the actor's futures, while an envelope's handler runs, and with the old context at a restart (line 143).
- SupervisorSpec.Pass and SupervisorProps.PassCompletes: in the model, connectivity cannot change during the advance, so the test at line 172 always agrees with the one at line 157. In the source, a sender dropped during `ctx.poll()` can make them disagree. A pass that requested no stop can then still return `Ready` at line 173. The model has no such pass.
- Sending into an upgrade reply slot is modelled by the `replies` log. The `open` flag of an upgrade request says whether the requester still waits; the result of that one-shot send is otherwise not modelled.
- `Err(_)` from advancing the context is folded into `Ready`, since the source treats both alike. The futures `Poll` type is reduced to the two-valued `Async`.
- Supervision.Supervisor.Poll: runs at most `fuel` passes and returns `None` when they run out. A `poll` that never returns is therefore not modelled. The `'outer` loop can spin forever when the context terminates on every advance while the supervisor is connected; `SupervisorProps.EndlessRestarts` shows this for every bound.
- The `FnFactory` trait (`src/supervisor.rs:230-241`) is not modelled, because the supervisor never calls it.
