/** What the scheduling loop guarantees: per-mailbox FIFO delivery with each
    message handled at most once, same-thread messages before cross-thread
    ones within a pass, restarts that keep the actor and the mailboxes,
    completion only once disconnected and terminated, and suspension of an
    idle pass. */
module SupervisorProps {
  import opened Collaborators
  import opened SupervisorSpec

  /** The envelopes among a sequence of same-thread messages. */
  function Envelopes(ps: seq<Protocol>): seq<Envelope>
  {
    if ps == [] then []
    else (match ps[0] case Upgrade(_, _) => [] case Dispatch(env) => [env]) + Envelopes(ps[1..])
  }

  /** The envelope one event shows the actor handled from mailbox `o`. */
  function EventEnvelopes(e: ActorEvent, o: Origin): seq<Envelope>
  {
    match e
    case Handled(env, from) => if from == o then [env] else []
    case Restarted => []
  }

  /** The envelopes from mailbox `o` that a history shows the actor handled. */
  function HandledFrom(h: seq<ActorEvent>, o: Origin): seq<Envelope>
  {
    if h == [] then [] else EventEnvelopes(h[0], o) + HandledFrom(h[1..], o)
  }

  /** The envelopes taken from mailbox `o`, given the same-thread messages
      `q` and the cross-thread envelopes `sq` that were taken. */
  function TakenFrom(q: seq<Protocol>, sq: seq<Envelope>, o: Origin): seq<Envelope>
  {
    match o
    case SameThread => Envelopes(q)
    case CrossThread => sq
  }

  // ---------------------------------------------------------------------
  // Sequence bookkeeping

  /** Taking `i` and then `k` more from the front is taking `i + k`. */
  lemma PrefixCompose<T>(q: seq<T>, i: nat, k: nat)
    requires i + k <= |q|
    ensures q[..i] + q[i..][..k] == q[..i + k]
    ensures q[i..][k..] == q[i + k..]
  {
    assert q[i..][..k] == q[i..i + k];
  }

  lemma {:induction false} HandledFromAppend(a: seq<ActorEvent>, b: seq<ActorEvent>, o: Origin)
    ensures HandledFrom(a + b, o) == HandledFrom(a, o) + HandledFrom(b, o)
  {
    if a == [] {
      assert a + b == b;
    } else {
      assert (a + b)[0] == a[0] && (a + b)[1..] == a[1..] + b;
      HandledFromAppend(a[1..], b, o);
      var e, x, y := EventEnvelopes(a[0], o), HandledFrom(a[1..], o), HandledFrom(b, o);
      assert e + (x + y) == (e + x) + y;
    }
  }

  lemma {:induction false} SameThreadEventsHandled(ps: seq<Protocol>)
    ensures HandledFrom(SameThreadEvents(ps), SameThread) == Envelopes(ps)
    ensures HandledFrom(SameThreadEvents(ps), CrossThread) == []
  {
    if ps != [] {
      var head := MessageEvents(ps[0]);
      HandledFromAppend(head, SameThreadEvents(ps[1..]), SameThread);
      HandledFromAppend(head, SameThreadEvents(ps[1..]), CrossThread);
      SameThreadEventsHandled(ps[1..]);
    }
  }

  lemma {:induction false} CrossThreadEventsHandled(es: seq<Envelope>)
    ensures HandledFrom(CrossThreadEvents(es), CrossThread) == es
    ensures HandledFrom(CrossThreadEvents(es), SameThread) == []
  {
    if es != [] {
      var head := [Handled(es[0], CrossThread)];
      HandledFromAppend(head, CrossThreadEvents(es[1..]), CrossThread);
      HandledFromAppend(head, CrossThreadEvents(es[1..]), SameThread);
      CrossThreadEventsHandled(es[1..]);
      assert es == [es[0]] + es[1..];
    }
  }

  lemma {:induction false} EnvelopesAppend(a: seq<Protocol>, b: seq<Protocol>)
    ensures Envelopes(a + b) == Envelopes(a) + Envelopes(b)
  {
    if a == [] {
      assert a + b == b;
    } else {
      assert (a + b)[0] == a[0] && (a + b)[1..] == a[1..] + b;
      EnvelopesAppend(a[1..], b);
    }
  }

  lemma {:induction false} AnswersAppend(a: seq<Protocol>, b: seq<Protocol>, chan: nat)
    ensures Answers(a + b, chan) == Answers(a, chan) + Answers(b, chan)
  {
    if a == [] {
      assert a + b == b;
    } else {
      assert (a + b)[0] == a[0] && (a + b)[1..] == a[1..] + b;
      AnswersAppend(a[1..], b, chan);
    }
  }

  /** Prepending the front message to the rest of a drain's record. */
  lemma ConsHistory(h: seq<ActorEvent>, q: seq<Protocol>, sq: seq<Envelope>, i: nat, j: nat)
    requires i < |q| && j <= |sq|
    ensures (h + MessageEvents(q[0])) + SameThreadEvents(q[1..][..i]) + CrossThreadEvents(sq[..j])
         == h + SameThreadEvents(q[..i + 1]) + CrossThreadEvents(sq[..j])
  {
    var t := q[..i + 1];
    assert t[0] == q[0] && t[1..] == q[1..][..i];
  }

  lemma ConsAnswers(rs: seq<Reply>, q: seq<Protocol>, i: nat, chan: nat)
    requires i < |q|
    ensures Answers(q[..i + 1], chan) == MessageAnswers(q[0], chan) + Answers(q[1..][..i], chan)
    ensures (rs + MessageAnswers(q[0], chan)) + Answers(q[1..][..i], chan)
         == rs + Answers(q[..i + 1], chan)
  {
    var t := q[..i + 1];
    assert t[0] == q[0] && t[1..] == q[1..][..i];
  }

  /** Two consecutive runs of handled envelopes, per mailbox. */
  lemma ComposeHandled(h0: seq<Envelope>, h1: seq<Envelope>, h2: seq<Envelope>,
                       a: seq<Protocol>, b: seq<Protocol>, c: seq<Envelope>, d: seq<Envelope>, o: Origin)
    requires h1 == h0 + TakenFrom(a, c, o)
    requires h2 == h1 + TakenFrom(b, d, o)
    ensures h2 == h0 + TakenFrom(a + b, c + d, o)
  {
    var x, y := TakenFrom(a, c, o), TakenFrom(b, d, o);
    assert h2 == h0 + (x + y);
    if o == SameThread {
      EnvelopesAppend(a, b);
    }
  }

  /** Two consecutive runs of answers to upgrade requests. */
  lemma ComposeAnswers(r0: seq<Reply>, r1: seq<Reply>, r2: seq<Reply>,
                       a: seq<Protocol>, b: seq<Protocol>, chan: nat)
    requires r1 == r0 + Answers(a, chan)
    requires r2 == r1 + Answers(b, chan)
    ensures r2 == r0 + Answers(a + b, chan)
    ensures Answers(a + b, chan) != [] <==> Answers(a, chan) != [] || Answers(b, chan) != []
  {
    assert r2 == r0 + (Answers(a, chan) + Answers(b, chan));
    AnswersAppend(a, b, chan);
  }

  /** The envelopes a drain applies, per mailbox. */
  lemma HandledDrain(h: seq<ActorEvent>, a: seq<Protocol>, b: seq<Envelope>, o: Origin)
    ensures HandledFrom(h + SameThreadEvents(a) + CrossThreadEvents(b), o)
         == HandledFrom(h, o) + TakenFrom(a, b, o)
  {
    var x, y := SameThreadEvents(a), CrossThreadEvents(b);
    assert h + x + y == h + (x + y);
    HandledFromAppend(h, x + y, o);
    HandledFromAppend(x, y, o);
    SameThreadEventsHandled(a);
    CrossThreadEventsHandled(b);
  }

  /** Prepending the front envelope to the rest of a sync drain's record. */
  lemma ConsCrossThread(h: seq<ActorEvent>, sq: seq<Envelope>, k: nat)
    requires k < |sq|
    ensures (h + [Handled(sq[0], CrossThread)]) + CrossThreadEvents(sq[1..][..k])
         == h + CrossThreadEvents(sq[..k + 1])
    ensures sq[1..][k..] == sq[k + 1..]
  {
    var t := sq[..k + 1];
    assert t[0] == sq[0] && t[1..] == sq[1..][..k];
  }

  // ---------------------------------------------------------------------
  // Upgrade requests

  /** The slots of the upgrade requests, among a sequence of same-thread
      messages, whose requester still waits for the answer. */
  function OpenSlots(ps: seq<Protocol>): seq<nat>
  {
    if ps == [] then []
    else (match ps[0]
          case Upgrade(slot, open) => if open then [slot] else []
          case Dispatch(_) => []) + OpenSlots(ps[1..])
  }

  /** Every upgrade request whose slot is open is answered, once and in
      order, with a handle that shares the sync channel `chan`; nothing
      else is answered. */
  lemma {:induction false} AnswersFillOpenSlots(ps: seq<Protocol>, chan: nat)
    ensures |Answers(ps, chan)| == |OpenSlots(ps)|
    ensures forall k :: 0 <= k < |OpenSlots(ps)| ==>
      Answers(ps, chan)[k] == Reply(OpenSlots(ps)[k], SyncAddress(chan))
  {
    if ps != [] {
      AnswersFillOpenSlots(ps[1..], chan);
      var a, rest := MessageAnswers(ps[0], chan), Answers(ps[1..], chan);
      assert Answers(ps, chan) == a + rest;
      assert forall k :: 0 <= k < |rest| ==> (a + rest)[|a| + k] == rest[k];
    }
  }

  // ---------------------------------------------------------------------
  // The two drains

  /** The sync drain takes a prefix of the sync mailbox, front first, and
      applies each envelope once to the actor; it touches nothing else but
      the context, and takes nothing when the context is dead or waiting. */
  lemma {:induction false} SyncDrainEffect(s: State, notReady: bool)
    ensures var r, sq := SyncDrain(s, notReady), s.syncMsgs.queue;
      && r.unsyncTaken == 0 && r.syncTaken <= |sq|
      && r.state == s.(ctx := r.state.ctx, syncMsgs := s.syncMsgs.(queue := sq[r.syncTaken..]))
      && History(r.state) == History(s) + CrossThreadEvents(sq[..r.syncTaken])
      && r.state.ctx.generation == s.ctx.generation
      && (!s.ctx.alive || s.ctx.waiting ==> r.state == s && r.syncTaken == 0)
    decreases |s.syncMsgs.queue|
  {
    if s.ctx.alive && !s.ctx.waiting && s.syncMsgs.queue != [] {
      var sq := s.syncMsgs.queue;
      var env, rest := sq[0], s.syncMsgs.(queue := sq[1..]);
      var s1 := s.(ctx := s.ctx.Handle(env, CrossThread), syncMsgs := rest);
      SyncDrainEffect(s1, false);
      ConsCrossThread(History(s), sq, SyncDrain(s1, false).syncTaken);
    } else {
      assert s.syncMsgs.queue[..0] == [];
    }
  }

  /** The unsync drain takes a prefix of the unsync mailbox, front first,
      and, only once that mailbox is empty, a prefix of the sync mailbox;
      what it does not take stays queued. A non-empty unsync mailbox always
      gives up at least one message, since its checks come after each
      message and not before the first. */
  lemma {:induction false} UnsyncDrainQueues(s: State, notReady: bool)
    ensures var r, q, sq := UnsyncDrain(s, notReady), s.unsyncMsgs.queue, s.syncMsgs.queue;
      && r.unsyncTaken <= |q| && r.syncTaken <= |sq|
      && r.state.unsyncMsgs == s.unsyncMsgs.(queue := q[r.unsyncTaken..])
      && r.state.syncMsgs.chan == s.syncMsgs.chan && r.state.syncMsgs.queue == sq[r.syncTaken..]
      && (r.syncTaken > 0 ==> r.unsyncTaken == |q|)
      && (q != [] ==> r.unsyncTaken > 0)
      && r.state.addr == s.addr && r.state.ctx.generation == s.ctx.generation
    decreases |s.unsyncMsgs.queue|
  {
    var q := s.unsyncMsgs.queue;
    if q == [] {
      SyncDrainEffect(s, notReady);
    } else {
      var msg, rest := q[0], s.unsyncMsgs.(queue := q[1..]);
      assert s.unsyncMsgs.Poll() == Some((msg, rest));
      var s1 := Deliver(s.(unsyncMsgs := rest), msg);
      if s1.ctx.alive && !s1.ctx.waiting {
        UnsyncDrainQueues(s1, false);
        var r := UnsyncDrain(s1, false);
        assert UnsyncDrain(s, notReady) == r.(unsyncTaken := r.unsyncTaken + 1);
        assert q[r.unsyncTaken + 1..] == rest.queue[r.unsyncTaken..];
      }
    }
  }

  /** The state after the unsync drain takes and handles its front message. */
  function FrontDelivered(s: State): (s1: State)
    requires s.unsyncMsgs.queue != []
    ensures s1.syncMsgs.chan == s.syncMsgs.chan && s1.syncMsgs.queue == s.syncMsgs.queue
    ensures s1.syncMsgs.live <==> s.syncMsgs.live || MessageAnswers(s.unsyncMsgs.queue[0], s.syncMsgs.chan) != []
    ensures s1.unsyncMsgs.queue == s.unsyncMsgs.queue[1..]
    ensures History(s1) == History(s) + MessageEvents(s.unsyncMsgs.queue[0])
    ensures s1.replies == s.replies + MessageAnswers(s.unsyncMsgs.queue[0], s.syncMsgs.chan)
  {
    Deliver(s.(unsyncMsgs := s.unsyncMsgs.(queue := s.unsyncMsgs.queue[1..])), s.unsyncMsgs.queue[0])
  }

  /** One step of the unsync drain: the front message is taken and handled;
      the drain stops there if the context is now dead or waiting, and goes
      on from the new state otherwise. */
  lemma UnsyncDrainFront(s: State, notReady: bool)
    requires s.unsyncMsgs.queue != []
    ensures var s1, r := FrontDelivered(s), UnsyncDrain(s, notReady);
      && (!s1.ctx.alive || s1.ctx.waiting ==> r == PassResult(s1, r.step, 1, 0))
      && (s1.ctx.alive && !s1.ctx.waiting ==>
            r == UnsyncDrain(s1, false).(unsyncTaken := UnsyncDrain(s1, false).unsyncTaken + 1))
  {
    var q := s.unsyncMsgs.queue;
    assert s.unsyncMsgs.Poll() == Some((q[0], s.unsyncMsgs.(queue := q[1..])));
  }

  /** A pass result `r` from state `s` took prefixes of both mailboxes and
      applied what it took to the actor once each, in order, same-thread
      messages first. */
  ghost predicate AppliesTaken(s: State, r: PassResult)
  {
    var q, sq := s.unsyncMsgs.queue, s.syncMsgs.queue;
    && r.unsyncTaken <= |q| && r.syncTaken <= |sq|
    && History(r.state) == History(s) + SameThreadEvents(q[..r.unsyncTaken])
                                      + CrossThreadEvents(sq[..r.syncTaken])
  }

  /** A pass result `r` from state `s` answered each open upgrade request
      it took once, in order, with a handle on the sync channel, which then
      has a live sender if it had one before or a handle was handed out. */
  ghost predicate AnswersTaken(s: State, r: PassResult)
  {
    var q := s.unsyncMsgs.queue;
    && r.unsyncTaken <= |q|
    && var answers := Answers(q[..r.unsyncTaken], s.syncMsgs.chan);
       && r.state.replies == s.replies + answers
       && (r.state.syncMsgs.live <==> s.syncMsgs.live || answers != [])
  }

  /** A drain that stops right after its front message took that message
      alone. */
  lemma DrainStopsAfterFront(s: State, r: PassResult)
    requires s.unsyncMsgs.queue != []
    requires r == PassResult(FrontDelivered(s), r.step, 1, 0)
    ensures AppliesTaken(s, r) && AnswersTaken(s, r)
  {
    var q, sq := s.unsyncMsgs.queue, s.syncMsgs.queue;
    assert q[..1] == [q[0]] && sq[..0] == [];
    assert SameThreadEvents([q[0]]) == MessageEvents(q[0]) + SameThreadEvents([]);
    assert Answers([q[0]], s.syncMsgs.chan) == MessageAnswers(q[0], s.syncMsgs.chan) + Answers([], s.syncMsgs.chan);
  }

  /** A drain that goes on after its front message took that message and
      then what the rest of the drain took. */
  lemma DrainGoesOnAfterFront(s: State, r: PassResult, rest: PassResult)
    requires s.unsyncMsgs.queue != []
    requires AppliesTaken(FrontDelivered(s), rest) && AnswersTaken(FrontDelivered(s), rest)
    requires r == rest.(unsyncTaken := rest.unsyncTaken + 1)
    ensures AppliesTaken(s, r) && AnswersTaken(s, r)
  {
    var q, sq := s.unsyncMsgs.queue, s.syncMsgs.queue;
    ConsHistory(History(s), q, sq, rest.unsyncTaken, rest.syncTaken);
    ConsAnswers(s.replies, q, rest.unsyncTaken, s.syncMsgs.chan);
  }

  /** With the unsync mailbox empty, the drain is the sync drain. */
  lemma DrainSkipsToSync(s: State, notReady: bool)
    requires s.unsyncMsgs.queue == []
    ensures AppliesTaken(s, UnsyncDrain(s, notReady)) && AnswersTaken(s, UnsyncDrain(s, notReady))
  {
    SyncDrainEffect(s, notReady);
    assert s.unsyncMsgs.queue[..0] == [];
  }

  /** Each message the unsync drain takes is applied to the actor or
      answered once, in order, and then each envelope it takes from the sync
      mailbox is applied once, in order. */
  lemma {:induction false} UnsyncDrainLog(s: State, notReady: bool)
    ensures AppliesTaken(s, UnsyncDrain(s, notReady)) && AnswersTaken(s, UnsyncDrain(s, notReady))
    decreases |s.unsyncMsgs.queue|
  {
    if s.unsyncMsgs.queue == [] {
      DrainSkipsToSync(s, notReady);
    } else {
      UnsyncDrainFront(s, notReady);
      var s1 := FrontDelivered(s);
      if !s1.ctx.alive || s1.ctx.waiting {
        DrainStopsAfterFront(s, UnsyncDrain(s, notReady));
      } else {
        UnsyncDrainLog(s1, false);
        DrainGoesOnAfterFront(s, UnsyncDrain(s, notReady), UnsyncDrain(s1, false));
      }
    }
  }

  /** How a drain ends. It never completes `poll`; it ends with the
      context alive and not waiting only once both mailboxes are empty; and
      it suspends exactly when the context is alive and either waiting or
      nothing at all was taken in this pass. Otherwise a new pass starts. */
  lemma {:induction false} UnsyncDrainStep(s: State, notReady: bool)
    ensures var r := UnsyncDrain(s, notReady);
      && r.step != Return(Ready)
      && (r.state.ctx.alive && !r.state.ctx.waiting ==>
            r.state.unsyncMsgs.queue == [] && r.state.syncMsgs.queue == [])
      && (r.step == Return(NotReady) <==>
            r.state.ctx.alive && (r.state.ctx.waiting || (notReady && r.unsyncTaken + r.syncTaken == 0)))
    decreases |s.unsyncMsgs.queue|
  {
    if s.unsyncMsgs.queue == [] {
      SyncDrainStep(s, notReady);
    } else {
      var q := s.unsyncMsgs.queue;
      var s1 := Deliver(s.(unsyncMsgs := s.unsyncMsgs.(queue := q[1..])), q[0]);
      if s1.ctx.alive && !s1.ctx.waiting {
        UnsyncDrainStep(s1, false);
      }
    }
  }

  /** The same for the sync drain alone. */
  lemma {:induction false} SyncDrainStep(s: State, notReady: bool)
    ensures var r := SyncDrain(s, notReady);
      && r.step != Return(Ready) && r.unsyncTaken == 0
      && (r.state.ctx.alive && !r.state.ctx.waiting ==>
            r.state.unsyncMsgs == s.unsyncMsgs && r.state.syncMsgs.queue == [])
      && (r.step == Return(NotReady) <==>
            r.state.ctx.alive && (r.state.ctx.waiting || (notReady && r.syncTaken == 0)))
    decreases |s.syncMsgs.queue|
  {
    if s.ctx.alive && !s.ctx.waiting && s.syncMsgs.queue != [] {
      var sq := s.syncMsgs.queue;
      var s1 := s.(ctx := s.ctx.Handle(sq[0], CrossThread), syncMsgs := s.syncMsgs.(queue := sq[1..]));
      SyncDrainStep(s1, false);
    }
  }

  // ---------------------------------------------------------------------
  // One pass

  /** One pass takes a prefix of each mailbox, the sync one only after the
      unsync one is empty; what it takes is applied or answered once, in
      order; what it does not take stays queued. A pass that restarts takes
      nothing and adds exactly one `restarting` notification. The pass
      leaves the supervisor connected exactly when it was, or when it handed
      out a sync handle; the wiring of the self-sender is kept. */
  lemma PassEffect(s: State)
    ensures var r, q, sq := Pass(s), s.unsyncMsgs.queue, s.syncMsgs.queue;
      && r.unsyncTaken <= |q| && r.syncTaken <= |sq|
      && r.state.unsyncMsgs == s.unsyncMsgs.(queue := q[r.unsyncTaken..])
      && r.state.syncMsgs.chan == s.syncMsgs.chan && r.state.syncMsgs.queue == sq[r.syncTaken..]
      && (r.syncTaken > 0 ==> r.unsyncTaken == |q|)
      && r.state.replies == s.replies + Answers(q[..r.unsyncTaken], s.syncMsgs.chan)
      && (r.state.syncMsgs.live <==> s.syncMsgs.live || Answers(q[..r.unsyncTaken], s.syncMsgs.chan) != [])
      && (r.state.ctx.generation == s.ctx.generation ==>
            History(r.state) == History(s) + SameThreadEvents(q[..r.unsyncTaken])
                                           + CrossThreadEvents(sq[..r.syncTaken]))
      && (r.state.ctx.generation != s.ctx.generation ==>
            History(r.state) == History(s) + [Restarted]
            && r.unsyncTaken == 0 && r.syncTaken == 0 && r.step == Continue)
      && (Connected(r.state) <==> Connected(s) || Answers(q[..r.unsyncTaken], s.syncMsgs.chan) != [])
      && (Wired(s) ==> Wired(r.state))
  {
    var (s2, polled) := Advanced(s);
    assert s.unsyncMsgs.queue[..0] == [] && s.syncMsgs.queue[..0] == [];
    if polled == NotReady && !s2.ctx.waiting {
      UnsyncDrainQueues(s2, true);
      UnsyncDrainLog(s2, true);
    }
  }

  /** The outcome of one pass, case by case on what advancing the context
      reported: waiting suspends without touching a mailbox; termination
      completes `poll` when disconnected and otherwise restarts; a running
      context has its mailboxes drained, and the pass then suspends exactly
      when the context is alive and waiting or nothing was taken. */
  lemma PassStep(s: State)
    ensures var (s2, polled), r := Advanced(s), Pass(s);
      && (polled == NotReady && s2.ctx.waiting ==> r == PassResult(s2, Return(NotReady), 0, 0))
      && (polled == Ready && !Connected(s) ==> r == PassResult(s2, Return(Ready), 0, 0))
      && (polled == Ready && Connected(s) ==> r == PassResult(Restart(s2), Continue, 0, 0))
      && (polled == NotReady && !s2.ctx.waiting ==>
            r.step != Return(Ready)
            && (r.step == Return(NotReady) <==>
                  r.state.ctx.alive && (r.state.ctx.waiting || r.unsyncTaken + r.syncTaken == 0)))
  {
    var (s2, polled) := Advanced(s);
    if polled == NotReady && !s2.ctx.waiting {
      UnsyncDrainStep(s2, true);
    }
  }

  /** `poll` completes exactly when it is disconnected and advancing the
      context reports termination; it has then not restarted, and the
      context is dead. */
  lemma PassCompletes(s: State)
    ensures var r := Pass(s);
      && (r.step == Return(Ready) <==> !Connected(s) && Advanced(s).1 == Ready)
      && (r.step == Return(Ready) ==>
            !r.state.ctx.alive && !Connected(r.state) && r.state.ctx.generation == s.ctx.generation)
  {
    PassStep(s);
  }

  /** An idle pass suspends: nothing queued, and a context that is alive,
      running and not waiting, give `NotReady` with nothing changed beyond
      the advance. */
  lemma IdlePassSuspends(s: State)
    requires s.unsyncMsgs.queue == [] && s.syncMsgs.queue == []
    requires Advanced(s).1 == NotReady && Advanced(s).0.ctx.alive && !Advanced(s).0.ctx.waiting
    ensures Pass(s) == PassResult(Advanced(s).0, Return(NotReady), 0, 0)
  {
  }

  /** Messages queued when the actor terminates survive the restart and are
      the first the restarted actor receives: when the fresh context's first
      advance leaves it running and not waiting, the pass after the restart
      takes the front of the unsync mailbox, or, when that is empty, the
      front of the sync mailbox. With no scripted outcome left and a hook
      that neither stops the fresh context nor makes it wait, that is what
      the first advance does. */
  lemma RestartKeepsMailboxes(s: State)
    requires Connected(s) && Advanced(s).1 == Ready
    ensures var p := Pass(s);
      && p.step == Continue
      && p.state.unsyncMsgs == s.unsyncMsgs && p.state.syncMsgs == s.syncMsgs
      && p.state.ctx.actor.history == s.ctx.actor.history + [Restarted]
    ensures var p := Pass(s); var (s3, polled) := Advanced(p.state);
      polled == NotReady && !s3.ctx.waiting ==>
        && (s.unsyncMsgs.queue != [] ==> Pass(p.state).unsyncTaken > 0)
        && (s.unsyncMsgs.queue == [] && s.syncMsgs.queue != [] ==> Pass(p.state).syncTaken > 0)
    ensures var p := Pass(s);
      Advanced(s).0.ctx.script == [] && !HookStops(s.ctx.actor) && !HookWaits(s.ctx.actor) ==>
        Advanced(p.state).1 == NotReady && !Advanced(p.state).0.ctx.waiting
  {
    var p := Pass(s);
    var (s3, polled) := Advanced(p.state);
    if polled == NotReady && !s3.ctx.waiting {
      UnsyncDrainQueues(s3, true);
      if s.unsyncMsgs.queue == [] && s.syncMsgs.queue != [] {
        var s4 := s3.(ctx := s3.ctx.Handle(s.syncMsgs.queue[0], CrossThread),
                      syncMsgs := s3.syncMsgs.(queue := s.syncMsgs.queue[1..]));
        assert SyncDrain(s3, true) == (var r := SyncDrain(s4, false); r.(syncTaken := r.syncTaken + 1));
      }
    }
  }

  /** The loop can spin: while the supervisor is connected and every
      advance reports termination, each pass restarts the actor, takes
      nothing, and starts another pass, so no number of passes returns
      from `poll`. */
  lemma {:induction false} EndlessRestarts(s: State, fuel: nat)
    requires Connected(s)
    requires fuel <= |s.ctx.script|
    requires forall k :: 0 <= k < fuel ==> s.ctx.script[k] == Ends
    ensures var r := Run(s, fuel);
      && r.result == None && r.unsyncTaken == 0 && r.syncTaken == 0
      && History(r.state) == History(s) + seq(fuel, _ => Restarted)
      && r.state.unsyncMsgs == s.unsyncMsgs && r.state.syncMsgs == s.syncMsgs
    decreases fuel
  {
    if fuel > 0 {
      var p := Pass(s);
      assert p.state == Restart(Advanced(s).0);
      assert p.step == Continue && p.unsyncTaken == 0 && p.syncTaken == 0;
      EndlessRestarts(p.state, fuel - 1);
      assert seq(fuel, _ => Restarted) == [Restarted] + seq(fuel - 1, _ => Restarted);
    }
  }

  // ---------------------------------------------------------------------
  // Several passes

  /** Going from `s` to `t`, the first `i` same-thread messages and the
      first `j` cross-thread envelopes were taken, and the rest of each
      mailbox is still queued, in order. */
  ghost predicate TakesPrefixes(s: State, t: State, i: int, j: int)
  {
    var q, sq := s.unsyncMsgs.queue, s.syncMsgs.queue;
    && 0 <= i <= |q| && 0 <= j <= |sq|
    && t.unsyncMsgs == s.unsyncMsgs.(queue := q[i..])
    && t.syncMsgs.chan == s.syncMsgs.chan && t.syncMsgs.queue == sq[j..]
  }

  /** Going from `s` to `t`, the envelopes the actor handled from mailbox
      `o` are exactly those among the taken prefixes, in order. */
  ghost predicate HandledInOrder(s: State, t: State, i: int, j: int, o: Origin)
  {
    var q, sq := s.unsyncMsgs.queue, s.syncMsgs.queue;
    && 0 <= i <= |q| && 0 <= j <= |sq|
    && HandledFrom(History(t), o) == HandledFrom(History(s), o) + TakenFrom(q[..i], sq[..j], o)
  }

  /** Going from `s` to `t`, the open upgrade requests among the first `i`
      same-thread messages were answered, in order, and nothing else was;
      the sync channel has a live sender if it had one or a handle was
      handed out. */
  ghost predicate RepliedInOrder(s: State, t: State, i: int)
  {
    var q := s.unsyncMsgs.queue;
    && 0 <= i <= |q|
    && t.replies == s.replies + Answers(q[..i], s.syncMsgs.chan)
    && (t.syncMsgs.live <==> s.syncMsgs.live || Answers(q[..i], s.syncMsgs.chan) != [])
  }

  lemma ChainPrefixes(s: State, t: State, u: State, i: nat, j: nat, i2: nat, j2: nat)
    requires TakesPrefixes(s, t, i, j) && TakesPrefixes(t, u, i2, j2)
    ensures TakesPrefixes(s, u, i + i2, j + j2)
  {
    PrefixCompose(s.unsyncMsgs.queue, i, i2);
    PrefixCompose(s.syncMsgs.queue, j, j2);
  }

  lemma ChainHandled(s: State, t: State, u: State, i: nat, j: nat, i2: nat, j2: nat, o: Origin)
    requires TakesPrefixes(s, t, i, j)
    requires HandledInOrder(s, t, i, j, o) && HandledInOrder(t, u, i2, j2, o)
    ensures HandledInOrder(s, u, i + i2, j + j2, o)
  {
    var q, sq := s.unsyncMsgs.queue, s.syncMsgs.queue;
    PrefixCompose(q, i, i2);
    PrefixCompose(sq, j, j2);
    ComposeHandled(HandledFrom(History(s), o), HandledFrom(History(t), o), HandledFrom(History(u), o),
                   q[..i], q[i..][..i2], sq[..j], sq[j..][..j2], o);
  }

  lemma ChainReplied(s: State, t: State, u: State, i: nat, j: nat, i2: nat)
    requires TakesPrefixes(s, t, i, j)
    requires RepliedInOrder(s, t, i) && RepliedInOrder(t, u, i2)
    ensures RepliedInOrder(s, u, i + i2)
  {
    var q := s.unsyncMsgs.queue;
    PrefixCompose(q, i, i2);
    ComposeAnswers(s.replies, t.replies, u.replies, q[..i], q[i..][..i2], s.syncMsgs.chan);
  }

  /** All three records at once: going from `s` to `t`, prefixes of `i`
      and `j` messages were taken, and exactly those were handled (from
      mailbox `o`) and answered, in order. */
  ghost predicate Delivered(s: State, t: State, i: int, j: int, o: Origin)
  {
    TakesPrefixes(s, t, i, j) && HandledInOrder(s, t, i, j, o) && RepliedInOrder(s, t, i)
  }

  /** Two consecutive stretches of delivery make one. */
  lemma ChainDelivery(s: State, p: PassResult, r: RunResult, o: Origin)
    requires Delivered(s, p.state, p.unsyncTaken, p.syncTaken, o)
    requires Delivered(p.state, r.state, r.unsyncTaken, r.syncTaken, o)
    ensures var u := Then(p, r); Delivered(s, u.state, u.unsyncTaken, u.syncTaken, o)
  {
    var t, i, j, i2, j2 := p.state, p.unsyncTaken, p.syncTaken, r.unsyncTaken, r.syncTaken;
    ChainPrefixes(s, t, r.state, i, j, i2, j2);
    ChainHandled(s, t, r.state, i, j, i2, j2, o);
    ChainReplied(s, t, r.state, i, j, i2);
  }

  /** Taking nothing changes nothing in any of the three records. */
  lemma NothingTaken(s: State, o: Origin)
    ensures Delivered(s, s, 0, 0, o)
  {
    assert s.unsyncMsgs.queue[..0] == [] && s.syncMsgs.queue[..0] == [];
    assert s.unsyncMsgs.queue[0..] == s.unsyncMsgs.queue && s.syncMsgs.queue[0..] == s.syncMsgs.queue;
  }

  /** One pass takes a prefix of each mailbox; the envelopes it applies
      from mailbox `o` are exactly those it took from it, in order; and it
      answers exactly the upgrade requests it took, in order. */
  lemma PassDelivers(s: State, o: Origin)
    ensures var p := Pass(s); Delivered(s, p.state, p.unsyncTaken, p.syncTaken, o)
  {
    PassEffect(s);
    var p, q, sq := Pass(s), s.unsyncMsgs.queue, s.syncMsgs.queue;
    if p.state.ctx.generation == s.ctx.generation {
      HandledDrain(History(s), q[..p.unsyncTaken], sq[..p.syncTaken], o);
    } else {
      HandledFromAppend(History(s), [Restarted], o);
      assert q[..0] == [] && sq[..0] == [];
    }
  }

  /** Across any number of passes and restarts, each mailbox is consumed
      from the front (what is taken is a prefix, the rest stays queued in
      order); the envelopes the actor handled from mailbox `o` are exactly
      those taken from it, in queue order, each once; and every upgrade
      request taken is answered once, in queue order. */
  lemma {:induction false} RunDeliversInOrder(s: State, fuel: nat, o: Origin)
    ensures var r := Run(s, fuel); Delivered(s, r.state, r.unsyncTaken, r.syncTaken, o)
    decreases fuel, 0
  {
    if fuel == 0 {
      NothingTaken(s, o);
    } else {
      PassDelivers(s, o);
      AfterPassDelivers(s, Pass(s), fuel - 1, o);
    }
  }

  /** What the loop does after a pass keeps delivering in order. */
  lemma {:induction false} AfterPassDelivers(s: State, p: PassResult, fuel: nat, o: Origin)
    requires Delivered(s, p.state, p.unsyncTaken, p.syncTaken, o)
    ensures var r := AfterPass(p, fuel); Delivered(s, r.state, r.unsyncTaken, r.syncTaken, o)
    decreases fuel, 1
  {
    if p.step == Continue {
      RunDeliversInOrder(p.state, fuel, o);
      ChainDelivery(s, p, Run(p.state, fuel), o);
    }
  }

  /** No sender is ever dropped in the model, so a connected supervisor
      stays connected and never completes; `poll` completes only when it is
      disconnected and the context has terminated; and the self-sender
      always belongs to the current context. */
  lemma {:induction false} RunCompletesOnlyWhenDisconnected(s: State, fuel: nat)
    ensures var r := Run(s, fuel);
      && (Connected(s) ==> Connected(r.state))
      && (r.result == Some(Ready) ==> !Connected(s) && !Connected(r.state) && !r.state.ctx.alive)
      && (Wired(s) ==> Wired(r.state))
    decreases fuel
  {
    if fuel > 0 {
      PassEffect(s);
      PassCompletes(s);
      var p := Pass(s);
      if p.step == Continue {
        RunCompletesOnlyWhenDisconnected(p.state, fuel - 1);
      }
    }
  }
}
