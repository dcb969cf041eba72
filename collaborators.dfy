/** The collaborators the supervisor drives but does not implement: the
    execution context that owns the actor, the two mailbox receivers, the
    type-erased envelope and the same-thread protocol message. Their
    internals are not part of this model; each is reduced to the state the
    supervisor observes and the effect it relies on. */
module Collaborators {

  datatype Option<+T> = None | Some(value: T)

  /** Two-valued readiness, as returned by a poll. `Err(_)` from the context
      is folded into `Ready`, since the supervisor treats both alike. */
  datatype Async = Ready | NotReady

  /** Which mailbox a handled envelope came from (a tag kept in the model's
      record of what the actor handled, so that per-mailbox order can be
      stated). */
  datatype Origin = SameThread | CrossThread

  /** An opaque unit of work. Handling it may stop the context or leave it
      waiting on some internal future; `id` distinguishes envelopes. */
  datatype Envelope = Envelope(id: nat, stops: bool, waits: bool)

  /** What the actor has been through: every envelope applied to it and
      every `restarting` notification. Any user-defined actor state is a
      function of this history. */
  datatype ActorEvent = Handled(env: Envelope, origin: Origin) | Restarted

  /** What one call of the actor's `restarting` hook does to the context it
      is given: it may request a stop and may leave the context waiting on
      a future of its own. */
  datatype Hook = Hook(stops: bool, waits: bool)

  /** The actor: its history, and the effects of its next `restarting`
      calls, in order (once they run out, the hook leaves the context
      alone). */
  datatype Actor = Actor(history: seq<ActorEvent>, onRestart: seq<Hook>)

  /** A cross-thread handle: it sends into the sync channel `chan`. */
  datatype SyncAddress = SyncAddress(chan: nat)

  /** A same-thread sender into the mailbox of context number `generation`. */
  datatype Sender = Sender(generation: nat)

  /** The answer put into the one-shot slot of an upgrade request. */
  datatype Reply = Reply(slot: nat, handle: SyncAddress)

  /** The same-thread protocol: an upgrade request or an envelope. `open`
      says whether the requester still holds the receiving end of the
      one-shot `slot`; when it does not, sending into the slot fails and the
      handle meant for it is dropped at once. */
  datatype Protocol = Upgrade(slot: nat, open: bool) | Dispatch(env: Envelope)

  /** The consumer end of an unbounded channel: the messages not yet taken,
      in arrival order, and whether any sender handle is still live. */
  datatype Receiver<T> = Receiver(chan: nat, queue: seq<T>, live: bool) {

    /** Non-blocking poll: the front message and the receiver without it, or
        nothing when the queue is empty (not ready or closed alike). */
    function Poll(): (r: Option<(T, Receiver<T>)>)
      ensures r.None? <==> |queue| == 0
      ensures r.Some? ==> [r.value.0] + r.value.1.queue == queue
      ensures r.Some? ==> r.value.1.chan == chan && r.value.1.live == live
    {
      if |queue| == 0 then None else Some((queue[0], this.(queue := queue[1..])))
    }
  }

  /** One scripted outcome of advancing a context: still running (with the
      waiting flag it then reports) or terminated. */
  datatype Tick = Runs(waiting: bool) | Ends

  /** The execution context: the actor it owns, its identity, its lifecycle
      flags, and the scripted outcomes of its next advances. The script
      goes on past a restart: the fresh context takes over what is left of
      it, so one script describes this context and every later one. */
  datatype Context = Context(
    actor: Actor,
    generation: nat,
    alive: bool,
    waiting: bool,
    stopRequested: bool,
    script: seq<Tick>)
  {
    /** A fresh, parentless context holding `actor`, whose advances
        follow `script`. */
    static function New(generation: nat, actor: Actor, script: seq<Tick>): (c: Context)
      ensures c.actor == actor && c.generation == generation && c.script == script
      ensures c.alive && !c.waiting && !c.stopRequested
    {
      Context(actor, generation, true, false, false, script)
    }

    /** Requests a graceful stop; nothing else changes. */
    function Stop(): (c: Context)
      ensures c.stopRequested
      ensures c == this.(stopRequested := true)
    {
      this.(stopRequested := true)
    }

    /** Advances the context by one step. A scripted outcome is used while
        there is one; afterwards the context terminates exactly when a stop
        was requested or it is no longer alive. */
    function Advance(): (r: (Context, Async))
      ensures r.0.actor == actor && r.0.generation == generation
      ensures r.0.stopRequested == stopRequested
      ensures r.1 == Ready ==> !r.0.alive
      ensures r.1 == NotReady && script == [] ==> r.0 == this
    {
      if script != [] then
        match script[0]
        case Runs(w) => (this.(waiting := w, script := script[1..]), NotReady)
        case Ends => (this.(alive := false, script := script[1..]), Ready)
      else if stopRequested || !alive then
        (this.(alive := false), Ready)
      else
        (this, NotReady)
    }

    /** Applies an envelope to the actor and this context. */
    function Handle(env: Envelope, origin: Origin): (c: Context)
      ensures c.actor.history == actor.history + [Handled(env, origin)]
      ensures c.actor.onRestart == actor.onRestart
      ensures c.generation == generation
      ensures c.alive == (alive && !env.stops)
      ensures c.waiting == (waiting || env.waits)
    {
      this.(actor := actor.(history := actor.history + [Handled(env, origin)]),
            alive := alive && !env.stops,
            waiting := waiting || env.waits)
    }

    /** Invokes the actor's `restarting` hook with this context: the actor
        records the notification and the hook's next effect, if any, is
        applied to the context. */
    function Restarting(): (c: Context)
      ensures c.actor.history == actor.history + [Restarted]
      ensures c.generation == generation && c.alive == alive && c.script == script
      ensures actor.onRestart == [] ==> c == this.(actor := c.actor) && c.actor.onRestart == []
      ensures actor.onRestart != [] ==>
        && c.actor.onRestart == actor.onRestart[1..]
        && (c.stopRequested <==> stopRequested || actor.onRestart[0].stops)
        && (c.waiting <==> waiting || actor.onRestart[0].waits)
    {
      var history := actor.history + [Restarted];
      if actor.onRestart == [] then this.(actor := actor.(history := history))
      else
        var hook := actor.onRestart[0];
        this.(actor := Actor(history, actor.onRestart[1..]),
              stopRequested := stopRequested || hook.stops,
              waiting := waiting || hook.waits)
    }

    /** The same-thread sender bound to this context's own mailbox. */
    function UnsyncSender(): (s: Sender)
      ensures s.generation == generation
    {
      Sender(generation)
    }
  }
}
