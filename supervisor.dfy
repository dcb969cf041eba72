/** The supervisor itself: it owns one execution context, the consumer ends
    of the same-thread (unsync) and cross-thread (sync) mailboxes, and the
    self-sender of the current context. Its methods change these fields in
    place and are proved to compute exactly the functions of SupervisorSpec. */
module Supervision {
  import opened Collaborators
  import Spec = SupervisorSpec

  class Supervisor {
    var ctx: Context
    var addr: Sender
    var syncMsgs: Receiver<Envelope>
    var unsyncMsgs: Receiver<Protocol>
    /** The answers sent into the reply slots of upgrade requests. */
    var replies: seq<Reply>

    function Snapshot(): Spec.State
      reads this
    {
      Spec.State(ctx, addr, syncMsgs, unsyncMsgs, replies)
    }

    /** The cached self-sender is the current context's. */
    ghost predicate Valid()
      reads this
    {
      Spec.Wired(Snapshot())
    }

    /** Assembles a supervisor around a context and both mailbox receivers. */
    constructor (ctx: Context, syncMsgs: Receiver<Envelope>, unsyncMsgs: Receiver<Protocol>)
      ensures Valid()
      ensures this.ctx == ctx && this.syncMsgs == syncMsgs && this.unsyncMsgs == unsyncMsgs
      ensures replies == []
    {
      this.ctx := ctx;
      this.addr := ctx.UnsyncSender();
      this.syncMsgs := syncMsgs;
      this.unsyncMsgs := unsyncMsgs;
      this.replies := [];
    }

    /** Whether either mailbox still has a live sender handle. */
    function Connected(): (r: bool)
      reads this
      ensures r <==> unsyncMsgs.live || syncMsgs.live
    {
      Spec.Connected(Snapshot())
    }

    /** Swaps in a fresh context that takes over the same actor, notifies the
        actor that it is restarting, and refreshes the self-sender. */
    method Restart()
      requires Valid()
      modifies this
      ensures Valid()
      ensures Snapshot() == Spec.Restart(old(Snapshot()))
      ensures syncMsgs == old(syncMsgs) && unsyncMsgs == old(unsyncMsgs)
      ensures ctx.actor.history == old(ctx.actor.history) + [Restarted]
    {
      var previous := ctx;
      ctx := Context.New(previous.generation + 1, previous.actor, previous.script);
      ctx := ctx.Restarting();
      addr := ctx.UnsyncSender();
    }

    /** One pass of the scheduling loop: stop when disconnected, advance the
        context, then suspend, complete, restart, or drain the unsync mailbox
        (checking the context after each message) and then the sync mailbox
        (checking it before each message). */
    method Pass() returns (step: Spec.Step)
      requires Valid()
      modifies this
      ensures Valid()
      ensures Snapshot() == Spec.Pass(old(Snapshot())).state
      ensures step == Spec.Pass(old(Snapshot())).step
    {
      ghost var goal := Spec.Pass(Snapshot());
      if !Connected() {
        ctx := ctx.Stop();
      }
      var (advanced, polled) := ctx.Advance();
      ctx := advanced;
      match polled {
        case NotReady =>
          if ctx.waiting {
            return Spec.Return(NotReady);
          }
        case Ready =>
          if !Connected() {
            return Spec.Return(Ready);
          }
          Restart();
          return Spec.Continue;
      }

      step := DrainUnsync(true);
    }

    /** The rest of a pass from the same-thread drain on: take each message
        off the unsync mailbox and handle it, checking the context only
        afterwards; once the mailbox is empty, go on with the sync drain.
        `notReady` says that nothing was taken yet in this pass. */
    method DrainUnsync(notReady: bool) returns (step: Spec.Step)
      requires Valid()
      modifies this
      ensures Valid()
      ensures Snapshot() == Spec.UnsyncDrain(old(Snapshot()), notReady).state
      ensures step == Spec.UnsyncDrain(old(Snapshot()), notReady).step
    {
      ghost var goal := Spec.UnsyncDrain(Snapshot(), notReady);
      var idle := notReady;
      while true
        invariant Valid()
        invariant Spec.UnsyncDrain(Snapshot(), idle).state == goal.state
        invariant Spec.UnsyncDrain(Snapshot(), idle).step == goal.step
        decreases |unsyncMsgs.queue|
      {
        match unsyncMsgs.Poll() {
          case None =>
            break;
          case Some((msg, rest)) =>
            unsyncMsgs := rest;
            idle := false;
            match msg {
              case Upgrade(slot, open) =>
                if open {
                  replies := replies + [Reply(slot, SyncAddress(syncMsgs.chan))];
                  syncMsgs := syncMsgs.(live := true);
                }
              case Dispatch(env) =>
                ctx := ctx.Handle(env, SameThread);
            }
        }
        if !ctx.alive {
          return Spec.Continue;
        }
        if ctx.waiting {
          return Spec.Return(NotReady);
        }
      }
      step := DrainSync(idle);
    }

    /** The rest of a pass from the cross-thread drain on: check the context
        before each envelope is taken off the sync mailbox and handled; once
        the mailbox is empty, suspend if the pass took nothing at all. */
    method DrainSync(notReady: bool) returns (step: Spec.Step)
      requires Valid()
      modifies this
      ensures Valid()
      ensures Snapshot() == Spec.SyncDrain(old(Snapshot()), notReady).state
      ensures step == Spec.SyncDrain(old(Snapshot()), notReady).step
    {
      ghost var goal := Spec.SyncDrain(Snapshot(), notReady);
      var idle := notReady;
      while true
        invariant Valid()
        invariant Spec.SyncDrain(Snapshot(), idle).state == goal.state
        invariant Spec.SyncDrain(Snapshot(), idle).step == goal.step
        decreases |syncMsgs.queue|
      {
        if !ctx.alive {
          return Spec.Continue;
        }
        if ctx.waiting {
          return Spec.Return(NotReady);
        }
        match syncMsgs.Poll() {
          case None =>
            break;
          case Some((env, rest)) =>
            syncMsgs := rest;
            idle := false;
            ctx := ctx.Handle(env, CrossThread);
        }
      }
      if idle {
        return Spec.Return(NotReady);
      }
      return Spec.Continue;
    }

    /** `poll`, with the `'outer` loop bounded by `fuel` passes: `Some` of the
        readiness it returns, or `None` if the fuel runs out first. */
    method Poll(fuel: nat) returns (r: Option<Async>)
      requires Valid()
      modifies this
      ensures Valid()
      ensures Snapshot() == Spec.Run(old(Snapshot()), fuel).state
      ensures r == Spec.Run(old(Snapshot()), fuel).result
    {
      ghost var goal := Spec.Run(Snapshot(), fuel);
      var left := fuel;
      while left > 0
        invariant Valid()
        invariant Spec.Run(Snapshot(), left).state == goal.state
        invariant Spec.Run(Snapshot(), left).result == goal.result
      {
        ghost var before := Snapshot();
        var step := Pass();
        Spec.RunOnePass(before, left);
        match step {
          case Return(a) =>
            return Some(a);
          case Continue =>
            left := left - 1;
        }
      }
      return None;
    }
  }
}
