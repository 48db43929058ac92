/** The send protocol of src/addr.rs: what a call on an address does, and what a blocking send
    returns in the end. */
module AddrModel {
  import opened Actors
  import opened SchedulerSpec
  import opened RuntimeModel
  import opened Reachable
  import opened Blocking
  import opened ShutdownProtocol
  import Places
  import Mail
  import History

  /** `self.tx.send`: the channel takes the envelope, or its receiver is gone. */
  datatype Delivery = Accepted(ticket: nat) | Refused

  function Deliver(s: World, target: ActorId, msg: Msg): (World, Delivery)
    requires target in s.addrs
  {
    if CanAccept(s, target) then (DoSend(s, target, msg), Accepted(|s.accepted|)) else (s, Refused)
  }

  /** What `send` has returned by now, if it has. `do_send` returns as soon as the envelope is
      delivered, with the same error. */
  function Answer(s: World, d: Delivery): Option<SendResult> {
    match d
    case Refused => Some(Err(RuntimeShutdown))
    case Accepted(t) => if t in s.fate then Some(ResultOf(s.fate[t])) else None
  }

  /** A send is refused exactly when the worker of its actor has exited. */
  lemma RefusedIffExited(h: Behaviour, s: World, target: ActorId, msg: Msg)
    requires Inv(h, s) && target in s.addrs
    ensures s.addrs[target] < |s.workers|
    ensures Deliver(s, target, msg).1 == Refused <==> s.workers[s.addrs[target]].phase.Exited?
    ensures Deliver(s, target, msg).1 == Refused ==> Deliver(s, target, msg).0 == s
    ensures Answer(s, Refused) == Some(Err(RuntimeShutdown))
  {
    hide Mail.MailOk, History.HistoryOk, DoSend;
  }

  // ---- what a send does ----

  /** One envelope more is accepted, with the next ticket, this target and this message; it is at the back
      of the pipe of its actor at worker `w`, and no other pipe, and no fate, has changed. */
  ghost predicate Appends(s: World, s': World, w: nat, target: ActorId, msg: Msg) {
    var e := Envelope(|s.accepted|, target, msg);
    && s'.accepted == s.accepted + [e] && s'.fate == s.fate && |s'.workers| == |s.workers|
    && s'.home == s.home && s'.births == s.births
    && (forall v, a {:trigger Mail.Pipe(s'.workers[v], a)} :: 0 <= v < |s.workers| ==>
          Mail.Pipe(s'.workers[v], a) == Mail.Pipe(s.workers[v], a) + (if v == w && a == target then [e] else []))
  }

  lemma PipeSnoc(x: Worker, e: Envelope, a: ActorId)
    ensures Mail.Pipe(x.(channel := x.channel + [e]), a)
         == Mail.Pipe(x, a) + (if a == e.target then [e] else [])
  {
    ForActorSnoc(x.channel, e, a);
  }

  lemma SendAppends(s: World, target: ActorId, msg: Msg)
    requires CanAccept(s, target)
    ensures Appends(s, DoSend(s, target, msg), s.addrs[target], target, msg)
  {
    var w, e := s.addrs[target], Envelope(|s.accepted|, target, msg);
    var s' := DoSend(s, target, msg);
    hide Mail.Pipe;
    forall v, a | 0 <= v < |s.workers|
      ensures Mail.Pipe(s'.workers[v], a)
           == Mail.Pipe(s.workers[v], a) + (if v == w && a == target then [e] else [])
    {
      PipeSnoc(s.workers[v], e, a);
    }
  }

  lemma BlockingSendAppends(s: World, w: nat, target: ActorId, msg: Msg)
    requires w < |s.workers| && Unblocked(s.workers[w].phase) && CanAccept(s, target)
    ensures Appends(s, DoBlockingSend(s, w, target, msg), s.addrs[target], target, msg)
  {
    SendAppends(s, target, msg);
    var s1, s' := DoSend(s, target, msg), DoBlockingSend(s, w, target, msg);
    forall v, a | 0 <= v < |s.workers| ensures Mail.Pipe(s'.workers[v], a) == Mail.Pipe(s1.workers[v], a) {
    }
  }

  /** `do_send`, `notify` and `send`, by clients and handlers: each of them makes its channel take exactly
      this one message, for this actor, behind everything the actor was sent before. */
  lemma EverySendAppends(h: Behaviour, s: World, step: Step)
    requires Inv(h, s) && Enabled(s, step) && (step.Send? || step.BlockingSend?)
    ensures step.target in s.home && s.home[step.target] < |s.workers|
    ensures Appends(s, Apply(h, s, step), s.home[step.target], step.target, step.msg)
  {
    InvPlaces(h, s);
    hide Inv, Appends, DoSend, DoBlockingSend, Queued, SendersGone;
    Places.AddrHome(s, step.target);
    match step
    case Send(target, msg) => SendAppends(s, target, msg);
    case BlockingSend(w, target, msg) => BlockingSendAppends(s, w, target, msg);
  }

  /** A delivery that is accepted: the ticket it returns is that of this very message, which no one has
      decided and which waits at the back of its actor's pipe. */
  lemma DeliverAccepts(h: Behaviour, s: World, target: ActorId, msg: Msg)
    requires Inv(h, s) && target in s.addrs && Deliver(s, target, msg).1.Accepted?
    ensures target in s.home && s.home[target] < |s.workers|
    ensures var (s', d) := Deliver(s, target, msg);
            && Inv(h, s') && Appends(s, s', s.home[target], target, msg)
            && d.ticket == |s.accepted| && d.ticket !in s'.fate
            && s'.accepted[d.ticket] == Envelope(d.ticket, target, msg)
  {
    hide Inv, Appends;
    assert Enabled(s, Send(target, msg));
    EverySendAppends(h, s, Send(target, msg));
    StepInv(h, s, Send(target, msg));
    var s' := Deliver(s, target, msg).0;
    assert Apply(h, s, Send(target, msg)) == s';
    if |s.accepted| in s'.fate {
      FateAccepted(h, s, |s.accepted|);
    }
  }

  lemma FateAccepted(h: Behaviour, s: World, t: nat)
    requires Inv(h, s) && t in s.fate
    ensures t < |s.accepted|
  {
    hide Inv;
    SendOutcome(h, s, t);
  }

  // ---- refusal is final ----

  lemma ExitedStep(h: Behaviour, s: World, step: Step, w: nat)
    requires Inv(h, s) && Enabled(s, step) && w < |s.workers| && s.workers[w].phase.Exited?
    ensures w < |Apply(h, s, step).workers| && Apply(h, s, step).workers[w].phase.Exited?
  {
    hide Inv, Apply;
    OthersStep(h, s, step, w);
  }

  /** A worker that has exited never comes back. */
  lemma {:induction false} ExitedForGood(h: Behaviour, s: World, steps: seq<Step>, s': World, w: nat)
    requires Inv(h, s) && Run(h, s, steps, s') && w < |s.workers| && s.workers[w].phase.Exited?
    ensures w < |s'.workers| && s'.workers[w].phase.Exited?
    decreases |steps|
  {
    hide Inv, Apply, Enabled;
    if steps != [] {
      StepInv(h, s, steps[0]);
      ExitedStep(h, s, steps[0], w);
      ExitedForGood(h, Apply(h, s, steps[0]), steps[1..], s', w);
    }
  }

  /** Once one send to an actor is refused, every later one is. */
  lemma RefusedForGood(h: Behaviour, s: World, steps: seq<Step>, s': World, target: ActorId, msg: Msg, msg': Msg)
    requires Inv(h, s) && Run(h, s, steps, s') && target in s.addrs && target in s'.addrs
    requires Deliver(s, target, msg).1 == Refused
    ensures Deliver(s', target, msg').1 == Refused
  {
    RunInv(h, s, steps, s');
    RunLater(h, s, steps, s');
    RefusedIffExited(h, s, target, msg);
    RefusedIffExited(h, s', target, msg');
    Places.AddrHome(s, target);
    Places.AddrHome(s', target);
    hide Inv, Run, Deliver;
    ExitedForGood(h, s, steps, s', s.addrs[target]);
  }

  /** A send returns at most once: what it has returned never changes. */
  lemma AnswerIsFinal(h: Behaviour, s: World, steps: seq<Step>, s': World, d: Delivery)
    requires Inv(h, s) && Run(h, s, steps, s') && Answer(s, d).Some?
    ensures Answer(s', d) == Answer(s, d)
  {
    hide Inv, Run;
    RunLater(h, s, steps, s');
  }

  // ---- which step decides ----

  function OutcomeFate(o: Outcome): Fate {
    match o
    case Continued(_, reply) => Handled(reply)
    case StopRequested(_, reply) => Handled(reply)
    case Panicked => Crashed
  }

  /** The step ends the handler that was running for envelope `t`, with fate `f`. */
  ghost predicate Finishes(h: Behaviour, s: World, step: Step, t: nat, f: Fate) {
    && step.FinishTurn? && step.w < |s.workers| && s.workers[step.w].phase.Handling?
    && var p := s.workers[step.w].phase;
       p.envelope.ticket == t && f == OutcomeFate(h(p.envelope.target, p.actor, p.envelope.msg))
  }

  /** All that is newly decided is dropped. */
  ghost predicate OnlyDrops(fate: Mail.FateMap, fate': Mail.FateMap) {
    forall t :: t in fate' && t !in fate ==> fate'[t] == Dropped
  }

  lemma TakeDrops(s: World, w: nat, q: Sched, e: Envelope)
    requires w < |s.workers|
    ensures e.target in s.workers[w].actors ==> OnlyDrops(s.fate, DoTake(s, w, q, e).fate)
    ensures OnlyDrops(s.fate, DoDropAbsent(s, w, q, e).fate)
  {
  }

  lemma IdleDrops(s: World, w: nat, q: Sched, p: Phase)
    requires w < |s.workers|
    ensures OnlyDrops(s.fate, DoIdle(s, w, q, p).fate)
  {
  }

  lemma TurnDrops(s: World, w: nat)
    requires w < |s.workers|
    ensures OnlyDrops(s.fate, DoTurn(s, w).fate)
  {
    hide OnlyDrops, DoTake, DoDropAbsent, DoIdle, NextReady, Dequeue, RequeueIfReady;
    var x := s.workers[w];
    match NextReady(x.sched)
    case (q, None) => IdleDrops(s, w, q, AwaitMessage);
    case (q, Some(id)) =>
      match Dequeue(q, id)
      case (q', None) => IdleDrops(s, w, q', ReadControl);
      case (q', Some(e)) =>
        TakeDrops(s, w, q', e);
        TakeDrops(s, w, RequeueIfReady(q', id), e);
  }

  lemma DropAllDrops(fate: Mail.FateMap, ts: set<nat>)
    ensures OnlyDrops(fate, DropAll(fate, ts))
  {
  }

  lemma StopOneDrops(s: World, w: nat, id: ActorId)
    requires w < |s.workers| && s.workers[w].phase.Stopping?
    ensures OnlyDrops(s.fate, DoStopOne(s, w, id).fate)
  {
    hide Tickets, RemoveActor, Box, DropAll, OnlyDrops, Put;
    DropAllDrops(s.fate, Tickets(Box(s.workers[w].sched, id)));
    assert DoStopOne(s, w, id).fate == DropAll(s.fate, Tickets(Box(s.workers[w].sched, id)));
  }

  lemma ExitDrops(s: World, w: nat)
    requires w < |s.workers|
    ensures OnlyDrops(s.fate, DoFinishStopping(s, w).fate)
  {
    hide Tickets, BoxedTickets;
  }

  lemma ConfirmDecidesNothing(s: World, w: nat, id: ActorId, actor: State)
    requires w < |s.workers| && s.workers[w].control != []
    ensures DoConfirm(s, w, id, actor).fate == s.fate
  {
  }

  lemma PutDecidesNothing(s: World, w: nat, x: Worker)
    requires w < |s.workers|
    ensures Put(s, w, x).fate == s.fate
  {
  }

  lemma ControlDecidesNothing(s: World, w: nat)
    requires w < |s.workers|
    ensures DoControl(s, w).fate == s.fate
  {
    hide DoConfirm, Put;
    var x := s.workers[w];
    if x.control == [] {
      PutDecidesNothing(s, w, x.(phase := DrainChannel));
    } else {
      match x.control[0]
      case SpawnActor(id, actor) => ConfirmDecidesNothing(s, w, id, actor);
      case Shutdown => PutDecidesNothing(s, w, x.(control := x.control[1..], phase := Stopping(x.actors.Keys)));
    }
  }

  lemma DrainDecidesNothing(s: World, w: nat)
    requires w < |s.workers|
    ensures DoDrain(s, w).fate == s.fate
  {
    hide Put, Enqueue;
    var x := s.workers[w];
    if x.channel == [] {
      PutDecidesNothing(s, w, x.(phase := TakeTurn));
    } else {
      var x' := x.(channel := x.channel[1..], sched := Enqueue(x.sched, x.channel[0]), phase := DrainChannel);
      PutDecidesNothing(s, w, x');
    }
  }

  /** No step but the end of a handler decides anything but drops. */
  lemma OthersOnlyDrop(h: Behaviour, s: World, step: Step)
    requires Enabled(s, step) && !step.FinishTurn?
    ensures OnlyDrops(s.fate, Apply(h, s, step).fate)
  {
    hide DoTurn, DoStopOne, DoFinishStopping, DoControl, DoDrain, Queued, SendersGone, OnlyDrops;
    match step
    case TurnStep(w) => TurnDrops(s, w);
    case StopOne(w, id) => StopOneDrops(s, w, id);
    case FinishStopping(w) => ExitDrops(s, w);
    case ControlStep(w) => ControlDecidesNothing(s, w); SameDrops(s.fate);
    case DrainStep(w) => DrainDecidesNothing(s, w); SameDrops(s.fate);
    case _ => SameDrops(s.fate);
  }

  lemma SameDrops(fate: Mail.FateMap)
    ensures OnlyDrops(fate, fate)
  {
  }

  lemma PutBackDecides(s: World, w: nat, actor: State, reply: Reply)
    requires w < |s.workers| && s.workers[w].phase.Handling?
    ensures DoPutBack(s, w, actor, reply).fate == s.fate[s.workers[w].phase.envelope.ticket := Handled(reply)]
  {
  }

  lemma StoppedDecides(s: World, w: nat, f: Fate, t: nat)
    requires w < |s.workers| && s.workers[w].phase.Handling? && t !in s.fate && f != Dropped
    ensures var fate := DoFinishStopped(s, w, f).fate;
            if s.workers[w].phase.envelope.ticket == t then t in fate && fate[t] == f
            else t in fate ==> fate[t] == Dropped
  {
  }

  /** The end of a handler decides its own envelope, as the handler ended, and drops others. */
  lemma FinishDecides(h: Behaviour, s: World, w: nat, t: nat)
    requires w < |s.workers| && s.workers[w].phase.Handling? && t !in s.fate
    ensures var p, fate := s.workers[w].phase, DoFinish(h, s, w).fate;
            if p.envelope.ticket == t then
              t in fate && fate[t] == OutcomeFate(h(p.envelope.target, p.actor, p.envelope.msg))
            else t in fate ==> fate[t] == Dropped
  {
    hide DoPutBack, DoFinishStopped;
    var p := s.workers[w].phase;
    match h(p.envelope.target, p.actor, p.envelope.msg)
    case Continued(actor, reply) => PutBackDecides(s, w, actor, reply);
    case StopRequested(_, reply) => StoppedDecides(s, w, Handled(reply), t);
    case Panicked => StoppedDecides(s, w, Crashed, t);
  }

  /** An undecided envelope gets a fate other than a drop exactly in the step that ends its handler. */
  lemma DecidingStep(h: Behaviour, s: World, step: Step, t: nat, f: Fate)
    requires Enabled(s, step) && t !in s.fate && f != Dropped
    ensures t in Apply(h, s, step).fate && Apply(h, s, step).fate[t] == f <==> Finishes(h, s, step, t, f)
  {
    hide DoFinish, OutcomeFate;
    if step.FinishTurn? {
      FinishDecides(h, s, step.w, t);
    } else {
      OthersOnlyDrop(h, s, step);
      hide Apply;
    }
  }

  /** Some step of the run ends the handler running for envelope `t`, with fate `f`. */
  ghost predicate FinishedIn(h: Behaviour, s: World, steps: seq<Step>, t: nat, f: Fate)
    decreases |steps|
  {
    && steps != [] && Enabled(s, steps[0])
    && (Finishes(h, s, steps[0], t, f) || FinishedIn(h, Apply(h, s, steps[0]), steps[1..], t, f))
  }

  lemma {:induction false} NoneFinishesTwice(h: Behaviour, s: World, steps: seq<Step>, t: nat, f: Fate)
    requires Inv(h, s) && t in s.fate
    ensures !FinishedIn(h, s, steps, t, f)
    decreases |steps|
  {
    if steps != [] && Enabled(s, steps[0]) {
      if Finishes(h, s, steps[0], t, f) {
        assert Holds(s, steps[0].w, InSlot, t);
        HeldIsPending(h, s, steps[0].w, InSlot, t);
      }
      StepInv(h, s, steps[0]);
      StepLater(h, s, steps[0]);
      hide Inv, Enabled, Apply;
      NoneFinishesTwice(h, Apply(h, s, steps[0]), steps[1..], t, f);
    }
  }

  lemma {:induction false} DecidedInRun(h: Behaviour, s: World, steps: seq<Step>, s': World, t: nat, f: Fate)
    requires Inv(h, s) && Run(h, s, steps, s') && t !in s.fate && f != Dropped
    ensures t in s'.fate && s'.fate[t] == f <==> FinishedIn(h, s, steps, t, f)
    decreases |steps|
  {
    hide Inv, Apply, Enabled, Finishes;
    if steps != [] {
      var s1 := Apply(h, s, steps[0]);
      StepInv(h, s, steps[0]);
      DecidingStep(h, s, steps[0], t, f);
      if t in s1.fate {
        NoneFinishesTwice(h, s1, steps[1..], t, f);
        RunLater(h, s1, steps[1..], s');
      } else {
        DecidedInRun(h, s1, steps[1..], s', t, f);
      }
    }
  }

  /** What the results of a send mean, over every run from its acceptance: it returns `Ok(reply)`
      exactly if a step of the run ended its handler with that reply, and `ActorNotRunning` exactly
      if a step ended its handler by a panic or the envelope was dropped unhandled. */
  lemma AnswerMeans(h: Behaviour, s: World, steps: seq<Step>, s': World, t: nat, reply: Reply)
    requires Inv(h, s) && Run(h, s, steps, s') && t !in s.fate
    ensures Answer(s', Accepted(t)) == Some(Ok(reply)) <==> FinishedIn(h, s, steps, t, Handled(reply))
    ensures Answer(s', Accepted(t)) == Some(Err(ActorNotRunning)) <==>
              FinishedIn(h, s, steps, t, Crashed) || (t in s'.fate && s'.fate[t] == Dropped)
    ensures Answer(s', Accepted(t)) != Some(Err(RuntimeShutdown))
  {
    hide Inv, Run, FinishedIn;
    DecidedInRun(h, s, steps, s', t, Handled(reply));
    DecidedInRun(h, s, steps, s', t, Crashed);
  }

  /** What the caller gets for an accepted envelope is what the reference run of the actor yields
      on the envelopes accepted before it, unless a shutdown dropped the envelope. */
  lemma AnswerIsExpected(h: Behaviour, s: World, t: nat)
    requires Inv(h, s) && t in s.fate
    ensures t < |s.accepted|
    ensures var e := s.accepted[t];
            && e.target in s.home && s.home[e.target] < |s.workers| && e.target in s.births
            && (Answer(s, Accepted(t)) == Some(Expected(h, s.births[e.target], ForActor(s.accepted[..t], e.target), e))
                || (s.fate[t] == Dropped && ShuttingDown(s.workers[s.home[e.target]].phase)))
  {
    hide Inv, Expected;
    SendOutcome(h, s, t);
  }

  /** The whole call, over every run from its acceptance: what the sender of `msg` to `target` gets is what
      the reference run of that actor yields for this message after the envelopes accepted before it, and
      of nothing else, unless a shutdown dropped it. A refused call returns `RuntimeShutdown`. */
  lemma SendReturns(h: Behaviour, s: World, target: ActorId, msg: Msg, steps: seq<Step>, s': World)
    requires Inv(h, s) && target in s.addrs && Run(h, Deliver(s, target, msg).0, steps, s')
    ensures var d := Deliver(s, target, msg).1;
            match d
            case Refused => Answer(s', d) == Some(Err(RuntimeShutdown))
            case Accepted(t) =>
              && target in s'.births && target in s'.home && s'.home[target] < |s'.workers|
              && (Answer(s', d).Some? ==>
                    || Answer(s', d).value
                       == Expected(h, s'.births[target], ForActor(s.accepted, target), Envelope(t, target, msg))
                    || (t in s'.fate && s'.fate[t] == Dropped && ShuttingDown(s'.workers[s'.home[target]].phase)))
  {
    if Deliver(s, target, msg).1.Accepted? {
      DeliverAccepts(h, s, target, msg);
      var s1 := Deliver(s, target, msg).0;
      hide Inv, Deliver, Run, Mail.Pipe, Expected;
      assert s1.accepted[..|s.accepted|] == s.accepted;
      AcceptedReturns(h, s1, |s.accepted|, target, msg, steps, s');
    }
  }

  lemma AcceptedReturns(h: Behaviour, s: World, t: nat, target: ActorId, msg: Msg, steps: seq<Step>, s': World)
    requires Inv(h, s) && Run(h, s, steps, s') && t < |s.accepted| && s.accepted[t] == Envelope(t, target, msg)
    ensures target in s'.births && target in s'.home && s'.home[target] < |s'.workers|
    ensures Answer(s', Accepted(t)).Some? ==>
              || Answer(s', Accepted(t)).value
                 == Expected(h, s'.births[target], ForActor(s.accepted[..t], target), Envelope(t, target, msg))
              || (t in s'.fate && s'.fate[t] == Dropped && ShuttingDown(s'.workers[s'.home[target]].phase))
  {
    hide Inv, Run, Expected, Answer;
    RunInv(h, s, steps, s');
    RunLater(h, s, steps, s');
    assert s'.accepted[t] == s.accepted[t] && s'.accepted[..t] == s.accepted[..t];
    AnswerFor(h, s', t, target, msg, s.accepted[..t]);
  }

  /** What the sender of envelope `t` gets, told by what the envelope says. */
  lemma AnswerFor(h: Behaviour, s: World, t: nat, target: ActorId, msg: Msg, earlier: seq<Envelope>)
    requires Inv(h, s) && t < |s.accepted| && s.accepted[t] == Envelope(t, target, msg) && s.accepted[..t] == earlier
    ensures target in s.births && target in s.home && s.home[target] < |s.workers|
    ensures Answer(s, Accepted(t)).Some? ==>
              || Answer(s, Accepted(t)).value
                 == Expected(h, s.births[target], ForActor(earlier, target), Envelope(t, target, msg))
              || (t in s.fate && s.fate[t] == Dropped && ShuttingDown(s.workers[s.home[target]].phase))
  {
    AcceptedHome(h, s, t);
    hide Inv, Expected, ForActor;
    if t in s.fate {
      AnswerIsExpected(h, s, t);
    }
  }

  /** No send is left waiting once the worker of its actor has exited. */
  lemma AnsweredAtExit(h: Behaviour, s: World, t: nat)
    requires Inv(h, s) && t < |s.accepted|
    requires var a := s.accepted[t].target; a in s.home && s.home[a] < |s.workers| && s.workers[s.home[a]].phase.Exited?
    ensures Answer(s, Accepted(t)).Some?
  {
    NonePendingAfterExit(h, s, t);
  }

  lemma TakePhase(s: World, w: nat, q: Sched, e: Envelope)
    requires w < |s.workers| && e.target in s.workers[w].actors
    ensures |DoTake(s, w, q, e).workers| == |s.workers| && DoTake(s, w, q, e).workers[w].phase.Handling?
  {
  }

  lemma DropPhase(s: World, w: nat, q: Sched, e: Envelope)
    requires w < |s.workers|
    ensures |DoDropAbsent(s, w, q, e).workers| == |s.workers| && DoDropAbsent(s, w, q, e).workers[w].phase.ReadControl?
  {
  }

  lemma TurnPhase(s: World, w: nat)
    requires w < |s.workers| && Settled(s.workers[w].sched, None)
    ensures |DoTurn(s, w).workers| == |s.workers|
    ensures DoTurn(s, w).workers[w].phase.AwaitMessage? <==> s.workers[w].sched.ready == []
  {
    hide Settled, DoTurn, DoTake, DoDropAbsent, RequeueIfReady, Served;
    var q := s.workers[w].sched;
    Mail.TurnCases(s, w);
    if q.ready != [] {
      var e := q.mailboxes[q.ready[0]][0];
      if q.ready[0] in s.workers[w].actors {
        TakePhase(s, w, Served(q), e);
      } else {
        DropPhase(s, w, RequeueIfReady(Served(q), q.ready[0]), e);
      }
    }
  }

  /** A worker waits for messages only when none of its actors has one: its turn serves nobody
      exactly when all mailboxes are empty. */
  lemma WaitsOnlyWhenIdle(h: Behaviour, s: World, w: nat)
    requires Inv(h, s) && w < |s.workers| && s.workers[w].phase.TakeTurn?
    ensures |DoTurn(s, w).workers| == |s.workers|
    ensures DoTurn(s, w).workers[w].phase.AwaitMessage? <==> forall id :: !HasPending(s.workers[w].sched, id)
  {
    hide Places.PlacesOk, History.HistoryOk, DoTurn;
    assert Mail.SchedOk(s.workers[w]);
    NextReadySettled(s.workers[w].sched);
    TurnPhase(s, w);
  }
}
