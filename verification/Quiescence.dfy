/** Draining: a worker that is left alone serves everything it has accepted. */
module Quiescence {
  import opened Actors
  import opened SchedulerSpec
  import opened RuntimeModel
  import opened Mail
  import opened History
  import opened Reachable
  import opened Blocking
  import opened ShutdownProtocol
  import opened WorkerRuns
  import opened Confluence
  import opened SystemSpec
  import AddrModel
  import Places

  /** Worker `w` is not shutting down, has not been asked to, and its handler, if one is suspended,
      has its answer. */
  ghost predicate Calm(s: World, w: nat) {
    && w < |s.workers| && !ShuttingDown(s.workers[w].phase) && Shutdown !in s.workers[w].control
    && !IsBlocked(s, w)
  }

  /** The undecided envelopes for actors at home on worker `w`. */
  function Undone(s: World, w: nat): set<nat> {
    set t | 0 <= t < |s.accepted| && t !in s.fate
         && s.accepted[t].target in s.home && s.home[s.accepted[t].target] == w
  }

  /** How far the worker is from the end of a handler, in steps that move nothing. */
  function Rank(x: Worker): nat {
    match x.phase
    case TakeTurn => if x.sched.ready == [] then 7 else 3
    case AwaitMessage => 6
    case ReadControl => 5
    case DrainChannel => 4
    case Handling(_, _, wait) => if wait.Free? then 1 else 2
    case _ => 0
  }

  /** Something was decided, or a queue got shorter, or the worker moved on towards that. */
  ghost predicate Closer(s: World, s': World, w: nat)
    requires w < |s.workers| && w < |s'.workers|
  {
    var x, x' := s.workers[w], s'.workers[w];
    && s'.accepted == s.accepted && Undone(s', w) <= Undone(s, w)
    && (|| Undone(s', w) < Undone(s, w)
        || |x'.control| < |x.control|
        || (|x'.control| == |x.control| && |x'.channel| < |x.channel|)
        || (|x'.control| == |x.control| && |x'.channel| == |x.channel| && Rank(x') < Rank(x)))
  }

  /** The next step of the worker's own. */
  function NextOf(s: World, w: nat): Step
    requires w < |s.workers|
  {
    match s.workers[w].phase
    case ReadControl => ControlStep(w)
    case DrainChannel => DrainStep(w)
    case TakeTurn => TurnStep(w)
    case Handling(_, _, wait) => if wait.Free? then FinishTurn(w) else Resume(w)
    case _ => WaitTimeout(w)
  }

  lemma UndoneShrinks(h: Behaviour, s: World, step: Step, w: nat)
    requires Inv(h, s) && Enabled(s, step) && Apply(h, s, step).accepted == s.accepted
    ensures Undone(Apply(h, s, step), w) <= Undone(s, w)
  {
    StepLater(h, s, step);
    forall t | 0 <= t < |s.accepted| ensures s.accepted[t].target in s.home {
      AcceptedHome(h, s, t);
    }
    hide Inv, Apply, Enabled;
  }

  /** A step that decides the envelope in hand. */
  lemma DecidesOne(h: Behaviour, s: World, step: Step, w: nat, t: nat)
    requires Inv(h, s) && Enabled(s, step) && Apply(h, s, step).accepted == s.accepted
    requires t in Undone(s, w) && t in Apply(h, s, step).fate
    ensures Undone(Apply(h, s, step), w) < Undone(s, w)
  {
    UndoneShrinks(h, s, step, w);
    hide Inv, Apply, Enabled;
    assert t !in Undone(Apply(h, s, step), w);
  }

  lemma HeldIsUndone(h: Behaviour, s: World, w: nat, p: Spot, t: nat)
    requires Inv(h, s) && Holds(s, w, p, t)
    ensures t in Undone(s, w)
  {
    HeldIsPending(h, s, w, p, t);
    hide Inv;
  }

  lemma ControlCloser(h: Behaviour, s: World, w: nat)
    requires Inv(h, s) && Calm(s, w) && s.workers[w].phase == ReadControl
    ensures Enabled(s, ControlStep(w))
    ensures var s' := Apply(h, s, ControlStep(w)); Calm(s', w) && Closer(s, s', w)
  {
    var x := s.workers[w];
    OwnSteps(h, s, w);
    if x.control == [] {
      EmptyControl(s, w);
      PhaseRecord(s, w, DrainChannel);
    } else {
      assert x.control[0] in x.control;
      ConfirmRecord(s, w, x.control[0].id, x.control[0].actor);
      assert forall c :: c in x.control[1..] ==> c in x.control;
    }
    hide Inv, Enabled, DoControl, SetPhase, Undone;
    assert Apply(h, s, ControlStep(w)) == DoControl(s, w);
    hide Apply;
    UndoneShrinks(h, s, ControlStep(w), w);
  }

  lemma DrainCloser(h: Behaviour, s: World, w: nat)
    requires Inv(h, s) && Calm(s, w) && s.workers[w].phase == DrainChannel
    requires s.workers[w].channel != [] || s.workers[w].sched.ready != []
    ensures Enabled(s, DrainStep(w))
    ensures var s' := Apply(h, s, DrainStep(w)); Calm(s', w) && Closer(s, s', w)
  {
    OwnSteps(h, s, w);
    NonEmptyChannel(s, w);
    if s.workers[w].channel == [] {
      PhaseRecord(s, w, TakeTurn);
    } else {
      EnqueueRecord(s, w, DrainChannel);
    }
    hide Inv, Enabled, DoDrain, DoEnqueue, SetPhase, Undone;
    assert Apply(h, s, DrainStep(w)) == DoDrain(s, w);
    hide Apply;
    UndoneShrinks(h, s, DrainStep(w), w);
  }

  lemma WaitCloser(h: Behaviour, s: World, w: nat)
    requires Inv(h, s) && Calm(s, w) && s.workers[w].phase == AwaitMessage
    ensures Enabled(s, WaitTimeout(w))
    ensures var s' := Apply(h, s, WaitTimeout(w)); Calm(s', w) && Closer(s, s', w)
  {
    OwnSteps(h, s, w);
    PhaseRecord(s, w, ReadControl);
    hide Inv, Enabled, SetPhase, Undone;
    assert Apply(h, s, WaitTimeout(w)) == SetPhase(s, w, ReadControl);
    hide Apply;
    UndoneShrinks(h, s, WaitTimeout(w), w);
  }

  lemma ResumeCloser(h: Behaviour, s: World, w: nat)
    requires Inv(h, s) && Calm(s, w) && s.workers[w].phase.Handling? && !s.workers[w].phase.waitingFor.Free?
    ensures Enabled(s, Resume(w))
    ensures var s' := Apply(h, s, Resume(w)); Calm(s', w) && Closer(s, s', w)
  {
    var p := s.workers[w].phase.(waitingFor := Free);
    PhaseRecord(s, w, p);
    assert Apply(h, s, Resume(w)) == SetPhase(s, w, p) by {
      hide SetPhase;
    }
    hide Inv, Queued, SetPhase, Undone, Apply;
    UndoneShrinks(h, s, Resume(w), w);
  }

  lemma FinishAgain(h: Behaviour, s: World, w: nat)
    requires Inv(h, s) && w < |s.workers| && Unblocked(s.workers[w].phase)
    ensures |DoFinish(h, s, w).workers| == |s.workers| && DoFinish(h, s, w).accepted == s.accepted
    ensures DoFinish(h, s, w).workers[w].phase == ReadControl
    ensures DoFinish(h, s, w).workers[w].control == s.workers[w].control
  {
    DispatchedOut(h, s, w);
    hide Inv, DoFinish, ActorsAfter, Ends, SchedAfter;
    var x := s.workers[w];
    var e := x.phase.envelope;
    var actors := x.actors[e.target := x.phase.actor];
    assert actors - {e.target} == x.actors;
    FinishRecord(h, s, w, e, actors);
  }

  lemma FinishCloser(h: Behaviour, s: World, w: nat)
    requires Inv(h, s) && Calm(s, w) && Unblocked(s.workers[w].phase)
    ensures Enabled(s, FinishTurn(w))
    ensures var s' := Apply(h, s, FinishTurn(w)); Calm(s', w) && Closer(s, s', w)
  {
    hide Inv, Enabled, DoFinish, Undone;
    var t := s.workers[w].phase.envelope.ticket;
    OwnSteps(h, s, w);
    assert Apply(h, s, FinishTurn(w)) == DoFinish(h, s, w);
    hide Apply;
    assert Holds(s, w, InSlot, t);
    HeldIsPending(h, s, w, InSlot, t);
    HeldIsUndone(h, s, w, InSlot, t);
    AddrModel.FinishDecides(h, s, w, t);
    FinishAgain(h, s, w);
    DecidesOne(h, s, FinishTurn(w), w, t);
  }

  /** The head of the ready queue and its oldest envelope. */
  lemma HeadServes(h: Behaviour, s: World, w: nat) returns (e: Envelope)
    requires Inv(h, s) && w < |s.workers| && s.workers[w].phase == TakeTurn && s.workers[w].sched.ready != []
    ensures Settled(s.workers[w].sched, None) && Serves(s.workers[w].sched, e)
    ensures Holds(s, w, InBox(e.target, 0), e.ticket)
  {
    hide Places.PlacesOk, HistoryOk;
    assert SchedOk(s.workers[w]);
    var q := s.workers[w].sched;
    TurnBegin(q);
    e := q.mailboxes[q.ready[0]][0];
  }

  lemma IdleCloser(h: Behaviour, s: World, w: nat)
    requires Inv(h, s) && Calm(s, w) && s.workers[w].phase == TakeTurn && s.workers[w].sched.ready == []
    ensures Enabled(s, TurnStep(w))
    ensures var s' := Apply(h, s, TurnStep(w)); Calm(s', w) && Closer(s, s', w)
  {
    OwnSteps(h, s, w);
    IdleTurn(s, w);
    hide Inv, Enabled, DoTurn, Undone;
    assert Apply(h, s, TurnStep(w)) == DoTurn(s, w);
    hide Apply;
    UndoneShrinks(h, s, TurnStep(w), w);
  }

  lemma TakeCloser(h: Behaviour, s: World, w: nat, e: Envelope)
    requires Inv(h, s) && Calm(s, w) && s.workers[w].phase == TakeTurn && Settled(s.workers[w].sched, None)
    requires Serves(s.workers[w].sched, e) && e.target in s.workers[w].actors
    ensures Enabled(s, TurnStep(w))
    ensures var s' := Apply(h, s, TurnStep(w)); Calm(s', w) && Closer(s, s', w)
  {
    hide Inv, Enabled, DoTurn, Undone, SchedAfter, Served, Settled;
    OwnSteps(h, s, w);
    TakeTurnRecord(s, w, e);
    assert Apply(h, s, TurnStep(w)) == DoTurn(s, w);
    hide Apply;
    UndoneShrinks(h, s, TurnStep(w), w);
  }

  lemma AbsentCloser(h: Behaviour, s: World, w: nat, e: Envelope)
    requires Inv(h, s) && Calm(s, w) && s.workers[w].phase == TakeTurn && Settled(s.workers[w].sched, None)
    requires Serves(s.workers[w].sched, e) && e.target !in s.workers[w].actors && e.ticket in Undone(s, w)
    ensures Enabled(s, TurnStep(w))
    ensures var s' := Apply(h, s, TurnStep(w)); Calm(s', w) && Closer(s, s', w)
  {
    hide Inv, Enabled, DoTurn, Undone, SchedAfter, Served, Settled;
    OwnSteps(h, s, w);
    AbsentTurn(s, w, e);
    assert Apply(h, s, TurnStep(w)) == DoTurn(s, w);
    hide Apply;
    DecidesOne(h, s, TurnStep(w), w, e.ticket);
  }

  lemma TurnCloser(h: Behaviour, s: World, w: nat)
    requires Inv(h, s) && Calm(s, w) && s.workers[w].phase == TakeTurn && s.workers[w].sched.ready != []
    ensures Enabled(s, TurnStep(w))
    ensures var s' := Apply(h, s, TurnStep(w)); Calm(s', w) && Closer(s, s', w)
  {
    hide Inv, Enabled, Apply, Undone, Settled, Closer;
    var e := HeadServes(h, s, w);
    HeldIsUndone(h, s, w, InBox(e.target, 0), e.ticket);
    if e.target in s.workers[w].actors {
      TakeCloser(h, s, w, e);
    } else {
      AbsentCloser(h, s, w, e);
    }
  }

  /** The next step, phase by phase. */
  lemma PhaseCloser(h: Behaviour, s: World, w: nat)
    requires Inv(h, s) && Calm(s, w) && Undone(s, w) != {}
    ensures Enabled(s, NextOf(s, w)) && Performer(NextOf(s, w)) == Some(w)
    ensures var s' := Apply(h, s, NextOf(s, w)); Calm(s', w) && Closer(s, s', w)
  {
    hide Inv, Enabled, Apply, Closer, Undone;
    match s.workers[w].phase
    case ReadControl => ControlCloser(h, s, w);
    case DrainChannel => DrainOrServe(h, s, w); DrainCloser(h, s, w);
    case TakeTurn =>
      if s.workers[w].sched.ready == [] {
        IdleCloser(h, s, w);
      } else {
        TurnCloser(h, s, w);
      }
    case AwaitMessage => WaitCloser(h, s, w);
    case Handling(_, _, wait) =>
      if wait.Free? {
        FinishCloser(h, s, w);
      } else {
        ResumeCloser(h, s, w);
      }
  }

  /** As long as something is undecided, the worker's own next step brings it closer. */
  lemma NextCloser(h: Behaviour, s: World, w: nat)
    requires Inv(h, s) && Calm(s, w) && Undone(s, w) != {}
    ensures Enabled(s, NextOf(s, w)) && Performer(NextOf(s, w)) == Some(w)
    ensures var s' := Apply(h, s, NextOf(s, w)); Inv(h, s') && Calm(s', w) && Closer(s, s', w)
  {
    hide Inv, Enabled, Apply, Closer, Undone;
    PhaseCloser(h, s, w);
    StepInv(h, s, NextOf(s, w));
  }

  lemma BoxedIsReady(x: Worker, p: Spot)
    requires SchedOk(x) && !x.phase.Handling? && p.InBox? && HasSpot(x, p)
    ensures x.sched.ready != []
  {
    assert p.id in x.sched.ready;
  }

  lemma WorkerSettled(h: Behaviour, s: World, w: nat)
    requires Inv(h, s) && w < |s.workers|
    ensures SchedOk(s.workers[w])
  {
    hide Places.PlacesOk, HistoryOk;
  }

  /** While it drains, an undecided envelope is in the channel or in a mailbox. */
  lemma DrainOrServe(h: Behaviour, s: World, w: nat)
    requires Inv(h, s) && Undone(s, w) != {} && w < |s.workers| && s.workers[w].phase == DrainChannel
    ensures s.workers[w].channel != [] || s.workers[w].sched.ready != []
  {
    hide Inv;
    var t :| t in Undone(s, w);
    EnvelopeConserved(h, s, t);
    var v, p :| Holds(s, v, p, t);
    HeldIsPending(h, s, v, p, t);
    WorkerSettled(h, s, w);
    hide SchedOk;
    if p.InBox? {
      BoxedIsReady(s.workers[w], p);
    }
  }

  lemma PipedIsUndone(s: World, w: nat, a: ActorId)
    requires w < |s.workers| && a in s.home && s.home[a] == w && Numbered(s.accepted)
    requires PipeOk(s.accepted, s.fate, s.home, w, s.workers[w], a) && Pipe(s.workers[w], a) != []
    ensures Undone(s, w) != {}
  {
    InPipe(s.accepted, s.fate, s.home, w, s.workers[w], a, 0);
    hide PipeOk, Pipe;
    assert Pipe(s.workers[w], a)[0].ticket in Undone(s, w);
  }

  /** Nothing is left for the actors of worker `w`. */
  lemma NothingUndone(h: Behaviour, s: World, w: nat, a: ActorId)
    requires Inv(h, s) && Calm(s, w) && Undone(s, w) == {} && a in s.home && s.home[a] == w
    ensures Quiet(s, a)
  {
    hide HistoryOk;
    var x := s.workers[w];
    Places.BirthsAtHome(s);
    assert PipeOk(s.accepted, s.fate, s.home, w, x, a);
    hide Inv, PipeOk;
    if Pipe(x, a) != [] {
      PipedIsUndone(s, w, a);
    }
  }

  /** All steps are worker `w`'s own. */
  ghost predicate OwnRun(steps: seq<Step>, w: nat) {
    forall i :: 0 <= i < |steps| ==> Performer(steps[i]) == Some(w)
  }

  /** A worker that is neither shutting down nor blocked drains: finitely many steps of its own make
      every actor at home on it quiet. */
  lemma {:induction false} Drains(h: Behaviour, s: World, w: nat) returns (steps: seq<Step>, s': World)
    requires Inv(h, s) && Calm(s, w)
    ensures Run(h, s, steps, s') && OwnRun(steps, w) && Inv(h, s') && Calm(s', w) && s'.accepted == s.accepted
    ensures Undone(s', w) == {}
    ensures forall a :: a in s'.home && s'.home[a] == w ==> Quiet(s', a)
    decreases Undone(s, w), |s.workers[w].control|, |s.workers[w].channel|, Rank(s.workers[w])
  {
    hide Inv, Calm, Enabled, Apply, Quiet;
    CalmIsWorker(s, w);
    if Undone(s, w) == {} {
      forall a | a in s.home && s.home[a] == w ensures Quiet(s, a) {
        NothingUndone(h, s, w, a);
      }
      steps, s' := [], s;
    } else {
      var step := NextOf(s, w);
      NextCloser(h, s, w);
      var rest;
      rest, s' := Drains(h, Apply(h, s, step), w);
      steps := [step] + rest;
      assert steps[1..] == rest;
    }
  }

  lemma CalmIsWorker(s: World, w: nat)
    requires Calm(s, w)
    ensures w < |s.workers|
  {
  }

  /** Confluence without a condition on the end: from any reachable state with a calm worker, the
      worker's own steps lead to a state in which its actor agrees with the drained single-threaded
      runtime that was sent the same messages. */
  lemma DrainsLikeFifo(r: Reactor, s: World, w: nat, a: ActorId, q: Sys) returns (steps: seq<Step>, s': World)
    requires Inv(AsBehaviour(r), s) && Calm(s, w) && a in s.home && s.home[a] == w && a in s.births
    requires SysOk(r, q) && q.next == |q.accepted| && a in q.births
    requires s.births[a] == q.births[a] && SameMail(ForActor(s.accepted, a), ForActor(q.accepted, a))
    ensures Run(AsBehaviour(r), s, steps, s') && OwnRun(steps, w)
    ensures a in s'.home && s'.home[a] == w && w < |s'.workers| && Held(s', a) == Lookup(q.actors, a)
    ensures a in s'.stops <==> a in q.stops
    ensures forall fates :: FatesAre(s', a, fates) <==> SystemFatesAre(q, a, fates)
  {
    steps, s' := Drains(AsBehaviour(r), s, w);
    RunLater(AsBehaviour(r), s, steps, s');
    CalmIsWorker(s', w);
    hide Inv, Calm, Quiet, SysOk, Run, SameMail, Held, OwnRun;
    assert Quiet(s', a);
    forall fates ensures FatesAre(s', a, fates) <==> SystemFatesAre(q, a, fates) {
      RoundRobinAgreesWithFifo(r, s', q, a, fates);
    }
    RoundRobinAgreesWithFifo(r, s', q, a, []);
  }
  // ---- a send is answered ----

  lemma DeliveredCalm(s: World, w: nat, target: ActorId, msg: Msg)
    requires Calm(s, w) && CanAccept(s, target)
    ensures Calm(DoSend(s, target, msg), w)
  {
    var s' := DoSend(s, target, msg);
    assert forall v :: 0 <= v < |s.workers| ==> s'.workers[v].control == s.workers[v].control;
    assert s'.workers[w].phase == s.workers[w].phase;
    forall id ensures Queued(s', id) <==> Queued(s, id) {
      forall v: nat ensures QueuedAt(s', id, v) <==> QueuedAt(s, id, v) {
      }
    }
  }

  /** A send to an actor of a calm worker is taken, and finitely many of that worker's own steps bring the
      caller its answer: the reference's, to this message after the envelopes accepted before it. */
  lemma SendIsAnswered(h: Behaviour, s: World, target: ActorId, msg: Msg) returns (steps: seq<Step>, s': World)
    requires Inv(h, s) && target in s.addrs && Calm(s, s.addrs[target])
    ensures var (s1, d) := AddrModel.Deliver(s, target, msg);
            && d == AddrModel.Accepted(|s.accepted|) && Run(h, s1, steps, s') && OwnRun(steps, s.addrs[target])
            && target in s'.births
            && AddrModel.Answer(s', d)
               == Some(Expected(h, s'.births[target], ForActor(s.accepted, target),
                                Envelope(|s.accepted|, target, msg)))
  {
    var w, t := s.addrs[target], |s.accepted|;
    assert CanAccept(s, target);
    var s1 := AddrModel.Deliver(s, target, msg).0;
    assert s1 == DoSend(s, target, msg);
    AddrModel.DeliverAccepts(h, s, target, msg);
    DeliveredCalm(s, w, target, msg);
    InvPlaces(h, s);
    hide Inv, Calm, DoSend, Undone, Quiet;
    Places.AddrHome(s, target);
    steps, s' := Drains(h, s1, w);
    RunLater(h, s1, steps, s');
    AddrModel.SendReturns(h, s, target, msg, steps, s');
    CalmIsUp(s', w);
    hide Run, OwnRun, Expected, ForActor, Places.PlacesOk, Pipe;
    assert t in s'.fate by {
      assert s'.accepted[t].target == target;
      NoneUndone(s', w, t);
    }
  }

  lemma NoneUndone(s: World, w: nat, t: nat)
    requires Undone(s, w) == {} && t < |s.accepted|
    requires s.accepted[t].target in s.home && s.home[s.accepted[t].target] == w
    ensures t in s.fate
  {
    assert t !in Undone(s, w);
  }

  lemma CalmIsUp(s: World, w: nat)
    requires Calm(s, w)
    ensures w < |s.workers| && !ShuttingDown(s.workers[w].phase)
  {
  }
}
