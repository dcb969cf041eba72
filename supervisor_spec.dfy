/** The behaviour of the supervisor as functions on a snapshot of its
    fields: the restart, one pass of the scheduling loop (the body of
    `'outer`), and a run of at most `fuel` passes. The class in module
    Supervision is proved to compute exactly these. */
module SupervisorSpec {
  import opened Collaborators

  /** The supervisor's fields, plus the answers delivered to upgrade slots. */
  datatype State = State(
    ctx: Context,
    addr: Sender,
    syncMsgs: Receiver<Envelope>,
    unsyncMsgs: Receiver<Protocol>,
    replies: seq<Reply>)

  /** How one pass of the loop ends: return from `poll`, or start a new pass. */
  datatype Step = Return(result: Async) | Continue

  /** A pass's final state and step, with how many messages it took from the
      unsync and the sync mailbox. */
  datatype PassResult = PassResult(state: State, step: Step, unsyncTaken: nat, syncTaken: nat)

  /** The outcome of at most `fuel` passes: `None` when the fuel ran out. */
  datatype RunResult = RunResult(state: State, result: Option<Async>, unsyncTaken: nat, syncTaken: nat)

  function History(s: State): seq<ActorEvent> { s.ctx.actor.history }

  /** Some sender handle of either mailbox is still live. */
  predicate Connected(s: State) { s.unsyncMsgs.live || s.syncMsgs.live }

  /** The cached self-sender belongs to the current context. */
  predicate Wired(s: State) { s.addr == s.ctx.UnsyncSender() }

  /** The event one same-thread message leaves in the actor's history: its
      envelope, or nothing for an upgrade request. */
  function MessageEvents(msg: Protocol): seq<ActorEvent>
  {
    match msg
    case Upgrade(_, _) => []
    case Dispatch(env) => [Handled(env, SameThread)]
  }

  /** The answer one same-thread message puts into an upgrade slot: a
      handle on the sync channel `chan`, for an upgrade request whose slot
      is still open. */
  function MessageAnswers(msg: Protocol, chan: nat): seq<Reply>
  {
    match msg
    case Upgrade(slot, open) => if open then [Reply(slot, SyncAddress(chan))] else []
    case Dispatch(_) => []
  }

  /** The events a run of same-thread messages leaves in the actor's history. */
  function SameThreadEvents(ps: seq<Protocol>): seq<ActorEvent>
  {
    if ps == [] then [] else MessageEvents(ps[0]) + SameThreadEvents(ps[1..])
  }

  /** The events a run of cross-thread envelopes leaves in the actor's history. */
  function CrossThreadEvents(es: seq<Envelope>): seq<ActorEvent>
  {
    if es == [] then [] else [Handled(es[0], CrossThread)] + CrossThreadEvents(es[1..])
  }

  /** The answers a run of same-thread messages puts into upgrade slots. */
  function Answers(ps: seq<Protocol>, chan: nat): seq<Reply>
  {
    if ps == [] then [] else MessageAnswers(ps[0], chan) + Answers(ps[1..], chan)
  }

  /** Whether the actor's next `restarting` call requests a stop, and
      whether it leaves the context waiting. */
  predicate HookStops(a: Actor) { a.onRestart != [] && a.onRestart[0].stops }
  predicate HookWaits(a: Actor) { a.onRestart != [] && a.onRestart[0].waits }

  /** `restart`: a fresh context takes over the very same actor, whose
      `restarting` hook runs once with the fresh context and may stop it
      or make it wait; the fresh context goes on with what is left of the
      script; the self-sender is refreshed from the new context; the
      mailboxes are not touched. */
  function Restart(s: State): (r: State)
    ensures History(r) == History(s) + [Restarted]
    ensures r.ctx.actor.onRestart == if s.ctx.actor.onRestart == [] then [] else s.ctx.actor.onRestart[1..]
    ensures r.ctx.generation == s.ctx.generation + 1
    ensures r.ctx.alive && r.ctx.script == s.ctx.script
    ensures r.ctx.stopRequested <==> HookStops(s.ctx.actor)
    ensures r.ctx.waiting <==> HookWaits(s.ctx.actor)
    ensures Wired(r)
    ensures r.syncMsgs == s.syncMsgs && r.unsyncMsgs == s.unsyncMsgs && r.replies == s.replies
  {
    var ctx := Context.New(s.ctx.generation + 1, s.ctx.actor, s.ctx.script).Restarting();
    s.(ctx := ctx, addr := ctx.UnsyncSender())
  }

  /** Top of a pass: a stop is requested exactly when disconnected. */
  function StopIfDisconnected(s: State): (r: State)
    ensures r.ctx.stopRequested <==> s.ctx.stopRequested || !Connected(s)
    ensures r == s.(ctx := s.ctx.(stopRequested := r.ctx.stopRequested))
  {
    if !Connected(s) then s.(ctx := s.ctx.Stop()) else s
  }

  /** Handling one same-thread message taken off the unsync mailbox. An
      upgrade request leaves the context and actor alone; when its slot is
      open it receives a new sender handle on the sync channel, which from
      then on has a live sender. An envelope is applied to the actor. */
  function Deliver(s: State, msg: Protocol): (r: State)
    ensures r.unsyncMsgs == s.unsyncMsgs && r.addr == s.addr
    ensures r.syncMsgs.chan == s.syncMsgs.chan && r.syncMsgs.queue == s.syncMsgs.queue
    ensures r.syncMsgs.live <==> s.syncMsgs.live || MessageAnswers(msg, s.syncMsgs.chan) != []
    ensures msg.Upgrade? ==> r.ctx == s.ctx
    ensures msg.Dispatch? ==> r.ctx == s.ctx.Handle(msg.env, SameThread)
    ensures History(r) == History(s) + MessageEvents(msg)
    ensures r.replies == s.replies + MessageAnswers(msg, s.syncMsgs.chan)
  {
    match msg
    case Upgrade(slot, open) =>
      if open then
        s.(replies := s.replies + [Reply(slot, SyncAddress(s.syncMsgs.chan))],
           syncMsgs := s.syncMsgs.(live := true))
      else s
    case Dispatch(env) => s.(ctx := s.ctx.Handle(env, SameThread))
  }

  /** The rest of a pass from the cross-thread drain on: before each poll
      the context must still be alive (else a new pass starts) and not
      waiting (else `poll` returns `NotReady`); once the sync mailbox is
      empty, the pass returns `NotReady` if it took nothing at all. */
  function SyncDrain(s: State, notReady: bool): (r: PassResult)
    ensures r.step != Return(Ready) && r.unsyncTaken == 0 && r.syncTaken <= |s.syncMsgs.queue|
    ensures r.state.unsyncMsgs == s.unsyncMsgs && r.state.addr == s.addr && r.state.replies == s.replies
    decreases |s.syncMsgs.queue|
  {
    if !s.ctx.alive then PassResult(s, Continue, 0, 0)
    else if s.ctx.waiting then PassResult(s, Return(NotReady), 0, 0)
    else
      match s.syncMsgs.Poll()
      case None => PassResult(s, if notReady then Return(NotReady) else Continue, 0, 0)
      case Some((env, rest)) =>
        var s1 := s.(ctx := s.ctx.Handle(env, CrossThread), syncMsgs := rest);
        var r := SyncDrain(s1, false);
        r.(syncTaken := r.syncTaken + 1)
  }

  /** The rest of a pass from the same-thread drain on: take the front
      message, handle it, and only then check that the context is still
      alive (else a new pass starts) and not waiting (else `poll` returns
      `NotReady`); an empty unsync mailbox hands over to the sync drain
      without any check. */
  function UnsyncDrain(s: State, notReady: bool): (r: PassResult)
    ensures r.step != Return(Ready) && r.unsyncTaken <= |s.unsyncMsgs.queue|
    ensures r.syncTaken > 0 ==> r.unsyncTaken == |s.unsyncMsgs.queue|
    ensures r.syncTaken <= |s.syncMsgs.queue|
    ensures r.state.addr == s.addr
    decreases |s.unsyncMsgs.queue|
  {
    match s.unsyncMsgs.Poll()
    case None => SyncDrain(s, notReady)
    case Some((msg, rest)) =>
      var s1 := Deliver(s.(unsyncMsgs := rest), msg);
      if !s1.ctx.alive then PassResult(s1, Continue, 1, 0)
      else if s1.ctx.waiting then PassResult(s1, Return(NotReady), 1, 0)
      else
        var r := UnsyncDrain(s1, false);
        r.(unsyncTaken := r.unsyncTaken + 1)
  }

  /** The top of a pass: request a stop when disconnected, then advance the
      context once. Gives the state after the advance and what it reported. */
  function Advanced(s: State): (r: (State, Async))
    ensures r.0 == s.(ctx := r.0.ctx)
    ensures r.0.ctx.actor == s.ctx.actor && r.0.ctx.generation == s.ctx.generation
    ensures r.0.ctx.stopRequested <==> s.ctx.stopRequested || !Connected(s)
    ensures r.1 == Ready ==> !r.0.ctx.alive
  {
    var s1 := StopIfDisconnected(s);
    var (ctx, polled) := s1.ctx.Advance();
    (s1.(ctx := ctx), polled)
  }

  /** One pass of the `'outer` loop: stop if disconnected, advance the
      context, then suspend, complete, restart, or drain the mailboxes. */
  function Pass(s: State): (r: PassResult)
    ensures r.step == Return(Ready) ==> !Connected(s) && !Connected(r.state) && !r.state.ctx.alive
    ensures r.unsyncTaken <= |s.unsyncMsgs.queue| && r.syncTaken <= |s.syncMsgs.queue|
    ensures r.syncTaken > 0 ==> r.unsyncTaken == |s.unsyncMsgs.queue|
  {
    var (s2, polled) := Advanced(s);
    match polled
    case NotReady =>
      if s2.ctx.waiting then PassResult(s2, Return(NotReady), 0, 0)
      else UnsyncDrain(s2, true)
    case Ready =>
      if !Connected(s2) then PassResult(s2, Return(Ready), 0, 0)
      else PassResult(Restart(s2), Continue, 0, 0)
  }

  /** At most `fuel` passes of the `'outer` loop. */
  function Run(s: State, fuel: nat): (r: RunResult)
    ensures r.result.Some? ==> fuel > 0
    ensures r.result == Some(Ready) ==> !Connected(r.state) && !r.state.ctx.alive
    decreases fuel, 0
  {
    if fuel == 0 then RunResult(s, None, 0, 0)
    else AfterPass(Pass(s), fuel - 1)
  }

  /** The loop after a pass that ended with `p`, with `fuel` passes left:
      return what the pass returned, or go on with a new run. */
  function AfterPass(p: PassResult, fuel: nat): (r: RunResult)
    ensures p.step.Return? ==> r.state == p.state && r.result == Some(p.step.result)
    ensures p.step == Continue && r.result == Some(Ready) ==> !Connected(r.state) && !r.state.ctx.alive
    ensures r.unsyncTaken >= p.unsyncTaken && r.syncTaken >= p.syncTaken
    decreases fuel, 1
  {
    match p.step
    case Return(a) => RunResult(p.state, Some(a), p.unsyncTaken, p.syncTaken)
    case Continue => Then(p, Run(p.state, fuel))
  }

  /** A pass followed by a run: the run's outcome, with the messages both
      took. */
  function Then(p: PassResult, r: RunResult): RunResult
  {
    r.(unsyncTaken := p.unsyncTaken + r.unsyncTaken, syncTaken := p.syncTaken + r.syncTaken)
  }

  /** A run of `fuel > 0` passes is one pass followed, if it continues, by a
      run of one pass less. */
  lemma RunOnePass(s: State, fuel: nat)
    requires fuel > 0
    ensures var p, r := Pass(s), Run(s, fuel);
      match p.step
      case Return(a) => r.state == p.state && r.result == Some(a)
      case Continue => r.state == Run(p.state, fuel - 1).state && r.result == Run(p.state, fuel - 1).result
  {
  }
}
