/** Fairness in every interleaving: whatever the other threads do, the turns of a worker are rounds
    of the fairness theorems, with the rounds read off the run. */
module FairRuns {
  import opened Actors
  import opened SchedulerSpec
  import opened RuntimeModel
  import opened Fairness
  import opened Mail
  import opened History
  import opened Reachable
  import opened Blocking
  import opened ShutdownProtocol
  import opened WorkerRuns
  import AddrModel
  import Places

  /** The rounds a worker has completed, and what has entered its mailboxes since the last one. */
  datatype Ledger = Ledger(rounds: seq<Round>, arrivals: seq<Envelope>)

  function Close(p: Ledger, stops: bool): Ledger {
    Ledger(p.rounds + [Round(p.arrivals, stops)], [])
  }

  function Arrive(p: Ledger, e: Envelope): Ledger {
    p.(arrivals := p.arrivals + [e])
  }

  /** What a step adds to the ledger of worker `w`. A turn that runs no handler is a round at once;
      one that does is a round when the handler ends. */
  function Observe(h: Behaviour, s: World, step: Step, w: nat, p: Ledger): Ledger
    requires w < |s.workers|
  {
    var x := s.workers[w];
    match step
    case DrainStep(v) => if v == w && x.channel != [] then Arrive(p, x.channel[0]) else p
    case WaitReceive(v) => if v == w && x.channel != [] then Arrive(p, x.channel[0]) else p
    case TurnStep(v) => if v == w && (x.sched.ready == [] || x.sched.ready[0] !in x.actors) then Close(p, false) else p
    case FinishTurn(v) =>
      if v == w && x.phase.Handling? then
        Close(p, !h(x.phase.envelope.target, x.phase.actor, x.phase.envelope.msg).Continued?)
      else p
    case _ => p
  }

  /** The ledger of worker `w` after a run. */
  ghost function ReadOff(h: Behaviour, s: World, steps: seq<Step>, w: nat, p: Ledger): Ledger
    decreases |steps|
  {
    if steps == [] || w >= |s.workers| || !Enabled(s, steps[0]) then p
    else ReadOff(h, Apply(h, s, steps[0]), steps[1..], w, Observe(h, s, steps[0], w, p))
  }

  /** The mailboxes of a worker that started with `q`, before its next turn. */
  function Waiting(q: Sched, p: Ledger): Sched {
    EnqueueAll(After(q, p.rounds), p.arrivals)
  }

  /** The worker's scheduler is what the rounds make of `q`; in a handler, with the envelope in hand
      taken out; a worker that is shutting down makes no more rounds. */
  ghost predicate Tracks(q: Sched, p: Ledger, sched: Sched, phase: Phase) {
    match phase
    case Handling(e, _, _) => Serves(Waiting(q, p), e) && sched == Served(Waiting(q, p))
    case Stopping(_) => true
    case Exited => true
    case _ => sched == Waiting(q, p)
  }

  lemma {:induction false} AfterSnoc(q: Sched, rounds: seq<Round>, r: Round)
    ensures After(q, rounds + [r]) == AfterRound(After(q, rounds), r)
    decreases |rounds|
  {
    if rounds == [] {
      assert [] + [r] == [r] && [r][1..] == [];
    } else {
      assert (rounds + [r])[1..] == rounds[1..] + [r];
      AfterSnoc(AfterRound(q, rounds[0]), rounds[1..], r);
    }
  }

  lemma {:induction false} EnqueueAllSnoc(q: Sched, es: seq<Envelope>, e: Envelope)
    ensures EnqueueAll(q, es + [e]) == Enqueue(EnqueueAll(q, es), e)
    decreases |es|
  {
    if es == [] {
      assert [] + [e] == [e] && [e][1..] == [];
    } else {
      assert (es + [e])[1..] == es[1..] + [e];
      EnqueueAllSnoc(Enqueue(q, es[0]), es[1..], e);
    }
  }

  lemma WaitingSettled(q: Sched, p: Ledger)
    requires Settled(q, None)
    ensures Settled(After(q, p.rounds), None) && Settled(Waiting(q, p), None)
  {
    RoundsSettled(q, p.rounds);
    EnqueueAllSettled(After(q, p.rounds), p.arrivals);
  }

  /** Closing a round is the round of the fairness theorems. */
  lemma CloseWaiting(q: Sched, p: Ledger, stops: bool)
    requires Settled(q, None)
    ensures var f := Waiting(q, p);
            && (f.ready == [] ==> Waiting(q, Close(p, stops)) == f)
            && (f.ready != [] ==>
                  && f.ready[0] in f.mailboxes && f.mailboxes[f.ready[0]] != []
                  && Waiting(q, Close(p, stops)) == SchedAfter(Served(f), f.ready[0], stops))
  {
    WaitingSettled(q, p);
    AfterSnoc(q, p.rounds, Round(p.arrivals, stops));
    FilledFirst(After(q, p.rounds), p.arrivals, stops);
    RoundWithoutArrivals(Waiting(q, p), stops);
    hide After, AfterRound, SchedAfter, Served, Settled;
  }

  lemma ArriveWaiting(q: Sched, p: Ledger, e: Envelope)
    ensures Waiting(q, Arrive(p, e)) == Enqueue(Waiting(q, p), e)
  {
    EnqueueAllSnoc(After(q, p.rounds), p.arrivals, e);
  }

  // ---- one step ----

  lemma OthersTrack(h: Behaviour, s: World, step: Step, w: nat, q: Sched, p: Ledger)
    requires Enabled(s, step) && w < |s.workers| && Performer(step) != Some(w)
    requires Tracks(q, p, s.workers[w].sched, s.workers[w].phase)
    ensures |Apply(h, s, step).workers| == |s.workers| && Observe(h, s, step, w, p) == p
    ensures var x' := Apply(h, s, step).workers[w]; Tracks(q, p, x'.sched, x'.phase)
  {
    OthersStep(h, s, step, w);
    hide Apply, Enabled, Tracks;
  }

  lemma ControlTracks(h: Behaviour, s: World, w: nat, q: Sched, p: Ledger)
    requires w < |s.workers| && s.workers[w].phase == ReadControl && s.workers[w].sched == Waiting(q, p)
    ensures var s' := Apply(h, s, ControlStep(w));
            |s'.workers| == |s.workers| && Tracks(q, p, s'.workers[w].sched, s'.workers[w].phase)
  {
    OwnSteps(h, s, w);
    var x := s.workers[w];
    if x.control == [] {
      EmptyControl(s, w);
      PhaseRecord(s, w, DrainChannel);
    } else {
      match x.control[0]
      case SpawnActor(id, actor) => ConfirmRecord(s, w, id, actor);
      case Shutdown => BeginStopRecord(s, w);
    }
    hide DoControl, SetPhase, Waiting;
    assert Apply(h, s, ControlStep(w)) == DoControl(s, w);
    hide Apply, Enabled;
  }

  lemma DrainTracks(h: Behaviour, s: World, w: nat, q: Sched, p: Ledger)
    requires w < |s.workers| && s.workers[w].phase == DrainChannel && s.workers[w].sched == Waiting(q, p)
    ensures var s', p' := Apply(h, s, DrainStep(w)), Observe(h, s, DrainStep(w), w, p);
            |s'.workers| == |s.workers| && Tracks(q, p', s'.workers[w].sched, s'.workers[w].phase)
  {
    OwnSteps(h, s, w);
    NonEmptyChannel(s, w);
    if s.workers[w].channel == [] {
      PhaseRecord(s, w, TakeTurn);
    } else {
      EnqueueRecord(s, w, DrainChannel);
      ArriveWaiting(q, p, s.workers[w].channel[0]);
    }
    hide DoDrain, DoEnqueue, SetPhase, Waiting, Enqueue;
    assert Apply(h, s, DrainStep(w)) == DoDrain(s, w);
    hide Apply, Enabled;
  }

  lemma ReceiveTracks(h: Behaviour, s: World, w: nat, q: Sched, p: Ledger)
    requires w < |s.workers| && s.workers[w].phase == AwaitMessage && s.workers[w].sched == Waiting(q, p)
    requires s.workers[w].channel != []
    ensures var s', p' := Apply(h, s, WaitReceive(w)), Observe(h, s, WaitReceive(w), w, p);
            |s'.workers| == |s.workers| && Tracks(q, p', s'.workers[w].sched, s'.workers[w].phase)
  {
    OwnSteps(h, s, w);
    EnqueueRecord(s, w, ReadControl);
    ArriveWaiting(q, p, s.workers[w].channel[0]);
    hide DoEnqueue, Waiting, Enqueue;
    assert Apply(h, s, WaitReceive(w)) == DoEnqueue(s, w, ReadControl);
    hide Apply, Enabled;
  }

  lemma IdleTracks(h: Behaviour, s: World, w: nat, q: Sched, p: Ledger)
    requires w < |s.workers| && s.workers[w].phase == TakeTurn && s.workers[w].sched == Waiting(q, p)
    requires Settled(q, None) && s.workers[w].sched.ready == []
    ensures var s', p' := Apply(h, s, TurnStep(w)), Observe(h, s, TurnStep(w), w, p);
            |s'.workers| == |s.workers| && Tracks(q, p', s'.workers[w].sched, s'.workers[w].phase)
  {
    OwnSteps(h, s, w);
    IdleTurn(s, w);
    CloseWaiting(q, p, false);
    hide DoTurn, Waiting, Settled;
    assert Apply(h, s, TurnStep(w)) == DoTurn(s, w);
    hide Apply, Enabled;
  }

  lemma Head(q: Sched) returns (e: Envelope)
    requires Settled(q, None) && q.ready != []
    ensures Serves(q, e)
  {
    TurnBegin(q);
    e := q.mailboxes[q.ready[0]][0];
  }

  lemma TakeTracks(h: Behaviour, s: World, w: nat, q: Sched, p: Ledger, e: Envelope)
    requires w < |s.workers| && s.workers[w].phase == TakeTurn && s.workers[w].sched == Waiting(q, p)
    requires Settled(Waiting(q, p), None) && Serves(Waiting(q, p), e) && e.target in s.workers[w].actors
    ensures var s', p' := Apply(h, s, TurnStep(w)), Observe(h, s, TurnStep(w), w, p);
            |s'.workers| == |s.workers| && Tracks(q, p', s'.workers[w].sched, s'.workers[w].phase)
  {
    OwnSteps(h, s, w);
    TakeTurnRecord(s, w, e);
    hide DoTurn, Waiting, Settled, Served;
    assert Apply(h, s, TurnStep(w)) == DoTurn(s, w);
    hide Apply, Enabled;
  }

  lemma AbsentTracks(h: Behaviour, s: World, w: nat, q: Sched, p: Ledger, e: Envelope)
    requires w < |s.workers| && s.workers[w].phase == TakeTurn && s.workers[w].sched == Waiting(q, p)
    requires Settled(q, None) && Serves(Waiting(q, p), e) && e.target !in s.workers[w].actors
    ensures var s', p' := Apply(h, s, TurnStep(w)), Observe(h, s, TurnStep(w), w, p);
            && |s'.workers| == |s.workers| && Tracks(q, p', s'.workers[w].sched, s'.workers[w].phase)
            && p' == Close(p, false) && e.ticket in s'.fate
  {
    WaitingSettled(q, p);
    OwnSteps(h, s, w);
    CloseWaiting(q, p, false);
    AbsentTurn(s, w, e);
    hide DoTurn, Waiting, Settled, Served, SchedAfter;
    assert Apply(h, s, TurnStep(w)) == DoTurn(s, w);
    hide Apply, Enabled;
  }

  lemma FinishTracks(h: Behaviour, s: World, w: nat, q: Sched, p: Ledger)
    requires Inv(h, s) && w < |s.workers| && Unblocked(s.workers[w].phase) && Settled(q, None)
    requires Tracks(q, p, s.workers[w].sched, s.workers[w].phase)
    ensures var s', p' := Apply(h, s, FinishTurn(w)), Observe(h, s, FinishTurn(w), w, p);
            |s'.workers| == |s.workers| && Tracks(q, p', s'.workers[w].sched, s'.workers[w].phase)
  {
    var x := s.workers[w];
    var e := x.phase.envelope;
    OwnSteps(h, s, w);
    DispatchedOut(h, s, w);
    var actors := x.actors[e.target := x.phase.actor];
    assert actors - {e.target} == x.actors;
    FinishRecord(h, s, w, e, actors);
    EndsIff(h, actors, e);
    CloseWaiting(q, p, Ends(h, actors, e));
    hide Inv, DoFinish, Waiting, Settled, Served, SchedAfter, ActorsAfter, Ends;
    assert Apply(h, s, FinishTurn(w)) == DoFinish(h, s, w);
    hide Apply, Enabled;
  }

  lemma EndsIff(h: Behaviour, actors: map<ActorId, State>, e: Envelope)
    requires e.target in actors
    ensures Ends(h, actors, e) <==> !h(e.target, actors[e.target], e.msg).Continued?
  {
  }

  /** Steps that change the phase and leave the scheduler alone. */
  lemma PhaseTracks(h: Behaviour, s: World, step: Step, w: nat, q: Sched, p: Ledger)
    requires Enabled(s, step) && w < |s.workers| && Tracks(q, p, s.workers[w].sched, s.workers[w].phase)
    requires Performer(step) == Some(w)
    requires step.Resume? || step.AwaitConfirm? || step.WaitTimeout? || step.WaitDisconnected?
    ensures |Apply(h, s, step).workers| == |s.workers| && Observe(h, s, step, w, p) == p
    ensures var x' := Apply(h, s, step).workers[w]; Tracks(q, p, x'.sched, x'.phase)
  {
    hide Waiting, Served, Serves, Queued, SendersGone;
    var x := s.workers[w];
    match step
    case Resume(_) => PhaseRecord(s, w, x.phase.(waitingFor := Free)); hide SetPhase;
    case AwaitConfirm(_, id) => PhaseRecord(s, w, x.phase.(waitingFor := ForConfirm(id))); hide SetPhase;
    case WaitTimeout(_) => PhaseRecord(s, w, ReadControl); hide SetPhase;
    case WaitDisconnected(_) => PhaseRecord(s, w, Stopping(x.actors.Keys)); hide SetPhase;
  }

  lemma SendTracks(h: Behaviour, s: World, w: nat, target: ActorId, msg: Msg, q: Sched, p: Ledger)
    requires Enabled(s, BlockingSend(w, target, msg)) && Tracks(q, p, s.workers[w].sched, s.workers[w].phase)
    ensures var s' := Apply(h, s, BlockingSend(w, target, msg));
            |s'.workers| == |s.workers| && Tracks(q, p, s'.workers[w].sched, s'.workers[w].phase)
  {
    SendRecord(s, w, target, msg);
    hide Waiting, Served, Serves, DoBlockingSend, SendersGone;
  }

  lemma SendRecord(s: World, w: nat, target: ActorId, msg: Msg)
    requires w < |s.workers| && Unblocked(s.workers[w].phase) && CanAccept(s, target)
    ensures var s' := DoBlockingSend(s, w, target, msg);
            && |s'.workers| == |s.workers| && s'.workers[w].sched == s.workers[w].sched
            && s'.workers[w].phase == s.workers[w].phase.(waitingFor := ForReply(|s.accepted|))
  {
  }

  lemma StoppingTracks(h: Behaviour, s: World, step: Step, w: nat, q: Sched, p: Ledger)
    requires Inv(h, s) && Enabled(s, step) && w < |s.workers| && Performer(step) == Some(w)
    requires step.StopOne? || step.FinishStopping?
    ensures |Apply(h, s, step).workers| == |s.workers| && Observe(h, s, step, w, p) == p
    ensures var x' := Apply(h, s, step).workers[w]; Tracks(q, p, x'.sched, x'.phase)
  {
    assert s.workers[w].phase.Stopping?;
    hide Inv, Apply, Enabled;
    StepOfWorker(h, s, step, w);
  }

  lemma TurnTracks(h: Behaviour, s: World, w: nat, q: Sched, p: Ledger)
    requires w < |s.workers| && s.workers[w].phase == TakeTurn && s.workers[w].sched == Waiting(q, p)
    requires Settled(q, None)
    ensures var s', p' := Apply(h, s, TurnStep(w)), Observe(h, s, TurnStep(w), w, p);
            |s'.workers| == |s.workers| && Tracks(q, p', s'.workers[w].sched, s'.workers[w].phase)
  {
    hide Apply, Observe, Tracks, Settled, Waiting;
    if s.workers[w].sched.ready == [] {
      IdleTracks(h, s, w, q, p);
    } else {
      WaitingSettled(q, p);
      var e := Head(Waiting(q, p));
      if e.target in s.workers[w].actors {
        TakeTracks(h, s, w, q, p, e);
      } else {
        AbsentTracks(h, s, w, q, p, e);
      }
    }
  }

  /** Every step of every thread keeps the worker on its rounds. */
  lemma StepTracks(h: Behaviour, s: World, step: Step, w: nat, q: Sched, p: Ledger)
    requires Inv(h, s) && Enabled(s, step) && w < |s.workers| && Settled(q, None)
    requires Tracks(q, p, s.workers[w].sched, s.workers[w].phase)
    ensures |Apply(h, s, step).workers| == |s.workers|
    ensures var x' := Apply(h, s, step).workers[w]; Tracks(q, Observe(h, s, step, w, p), x'.sched, x'.phase)
  {
    hide Inv, Apply, Waiting, Settled, Serves, Served, Observe, Queued, SendersGone;
    if Performer(step) != Some(w) {
      OthersTrack(h, s, step, w, q, p);
    } else {
      match step
      case BlockingSend(_, target, msg) => SendTracks(h, s, w, target, msg, q, p); ObserveNothing(h, s, step, w, p);
      case ControlStep(_) => ControlTracks(h, s, w, q, p); ObserveNothing(h, s, step, w, p);
      case DrainStep(_) => DrainTracks(h, s, w, q, p);
      case WaitReceive(_) => ReceiveTracks(h, s, w, q, p);
      case TurnStep(_) => TurnTracks(h, s, w, q, p);
      case FinishTurn(_) => FinishTracks(h, s, w, q, p);
      case StopOne(_, _) => StoppingTracks(h, s, step, w, q, p);
      case FinishStopping(_) => StoppingTracks(h, s, step, w, q, p);
      case _ => PhaseTracks(h, s, step, w, q, p);
    }
  }

  lemma ObserveNothing(h: Behaviour, s: World, step: Step, w: nat, p: Ledger)
    requires w < |s.workers| && (step.BlockingSend? || step.ControlStep?)
    ensures Observe(h, s, step, w, p) == p
  {
  }

  // ---- what the rounds decide ----

  /** The envelope served in round `r` is decided, and all of its actor's mail if the actor stopped. */
  ghost predicate RoundDecided(q: Sched, r: Round, fate: FateMap) {
    var f := Filled(q, r);
    f.ready != [] ==>
      var box := Box(f, f.ready[0]);
      && (box != [] ==> box[0].ticket in fate)
      && (r.stops ==> forall i :: 0 <= i < |box| ==> box[i].ticket in fate)
  }

  ghost predicate DecidedSoFar(q: Sched, p: Ledger, fate: FateMap) {
    forall k :: 0 <= k < |p.rounds| ==> RoundDecided(After(q, p.rounds[..k]), p.rounds[k], fate)
  }

  lemma SameDecided(q: Sched, p: Ledger, p': Ledger, fate: FateMap, fate': FateMap)
    requires DecidedSoFar(q, p, fate) && FateExtends(fate, fate') && p'.rounds == p.rounds
    ensures DecidedSoFar(q, p', fate')
  {
    hide After, Filled;
    forall k | 0 <= k < |p'.rounds| ensures RoundDecided(After(q, p'.rounds[..k]), p'.rounds[k], fate') {
      assert RoundDecided(After(q, p.rounds[..k]), p.rounds[k], fate);
    }
  }

  lemma CloseDecided(q: Sched, p: Ledger, stops: bool, fate: FateMap, fate': FateMap)
    requires DecidedSoFar(q, p, fate) && FateExtends(fate, fate')
    requires RoundDecided(After(q, p.rounds), Round(p.arrivals, stops), fate')
    ensures DecidedSoFar(q, Close(p, stops), fate')
  {
    SameDecided(q, p, p, fate, fate');
    hide After, RoundDecided;
    var rounds := Close(p, stops).rounds;
    forall k | 0 <= k < |rounds| ensures RoundDecided(After(q, rounds[..k]), rounds[k], fate') {
      if k < |p.rounds| {
        assert rounds[..k] == p.rounds[..k];
      } else {
        assert rounds[..k] == p.rounds;
      }
    }
  }

  lemma TurnDecides(h: Behaviour, s: World, w: nat, q: Sched, p: Ledger)
    requires Inv(h, s) && w < |s.workers| && s.workers[w].phase == TakeTurn && s.workers[w].sched == Waiting(q, p)
    requires Settled(q, None) && DecidedSoFar(q, p, s.fate) && Enabled(s, TurnStep(w))
    ensures DecidedSoFar(q, Observe(h, s, TurnStep(w), w, p), Apply(h, s, TurnStep(w)).fate)
  {
    hide Inv, Apply, Enabled, Settled, DecidedSoFar, After;
    StepLater(h, s, TurnStep(w));
    var fate' := Apply(h, s, TurnStep(w)).fate;
    var x := s.workers[w];
    if x.sched.ready == [] {
      CloseDecided(q, p, false, s.fate, fate');
    } else {
      WaitingSettled(q, p);
      var e := Head(Waiting(q, p));
      if e.target in x.actors {
        SameDecided(q, p, p, s.fate, fate');
      } else {
        AbsentTracks(h, s, w, q, p, e);
        CloseDecided(q, p, false, s.fate, fate');
      }
    }
  }

  lemma StoppedBox(h: Behaviour, s: World, w: nat, i: nat)
    requires w < |s.workers| && Unblocked(s.workers[w].phase)
    requires var p := s.workers[w].phase; !h(p.envelope.target, p.actor, p.envelope.msg).Continued?
    requires i < |Box(s.workers[w].sched, s.workers[w].phase.envelope.target)|
    ensures Box(s.workers[w].sched, s.workers[w].phase.envelope.target)[i].ticket in DoFinish(h, s, w).fate
  {
    var p := s.workers[w].phase;
    hide DoFinishStopped, Box;
    match h(p.envelope.target, p.actor, p.envelope.msg)
    case StopRequested(_, reply) => StoppedFate(s, w, Handled(reply), i);
    case Panicked => StoppedFate(s, w, Crashed, i);
  }

  lemma StoppedFate(s: World, w: nat, f: Fate, i: nat)
    requires w < |s.workers| && s.workers[w].phase.Handling?
    requires i < |Box(s.workers[w].sched, s.workers[w].phase.envelope.target)|
    ensures Box(s.workers[w].sched, s.workers[w].phase.envelope.target)[i].ticket in DoFinishStopped(s, w, f).fate
  {
    var box := Box(s.workers[w].sched, s.workers[w].phase.envelope.target);
    assert box[i].ticket in Tickets(box);
    hide Box, Tickets, RemoveActor, RequeueIfReady;
  }

  lemma FinishRound(h: Behaviour, s: World, w: nat, q: Sched, p: Ledger)
    requires Inv(h, s) && w < |s.workers| && Unblocked(s.workers[w].phase)
    requires Tracks(q, p, s.workers[w].sched, s.workers[w].phase)
    ensures var o := s.workers[w].phase;
            var stops := !h(o.envelope.target, o.actor, o.envelope.msg).Continued?;
            RoundDecided(After(q, p.rounds), Round(p.arrivals, stops), DoFinish(h, s, w).fate)
  {
    var o, f := s.workers[w].phase, Waiting(q, p);
    var e, box := o.envelope, Box(Waiting(q, p), o.envelope.target);
    assert Holds(s, w, InSlot, e.ticket);
    HeldIsPending(h, s, w, InSlot, e.ticket);
    AddrModel.FinishDecides(h, s, w, e.ticket);
    assert Box(Served(f), e.target) == box[1..] && box[0] == e;
    if !h(e.target, o.actor, e.msg).Continued? {
      forall i | 0 < i < |box| ensures box[i].ticket in DoFinish(h, s, w).fate {
        StoppedBox(h, s, w, i - 1);
      }
    }
    hide Inv, DoFinish, EnqueueAll, After;
  }

  lemma FinishDecided(h: Behaviour, s: World, w: nat, q: Sched, p: Ledger)
    requires Inv(h, s) && w < |s.workers| && Unblocked(s.workers[w].phase) && Enabled(s, FinishTurn(w))
    requires Tracks(q, p, s.workers[w].sched, s.workers[w].phase) && DecidedSoFar(q, p, s.fate)
    ensures DecidedSoFar(q, Observe(h, s, FinishTurn(w), w, p), Apply(h, s, FinishTurn(w)).fate)
  {
    FinishRound(h, s, w, q, p);
    OwnSteps(h, s, w);
    assert Apply(h, s, FinishTurn(w)) == DoFinish(h, s, w);
    hide Inv, Apply, Enabled, DoFinish, DecidedSoFar, RoundDecided, After, Tracks;
    StepLater(h, s, FinishTurn(w));
    var o := s.workers[w].phase;
    CloseDecided(q, p, !h(o.envelope.target, o.actor, o.envelope.msg).Continued?, s.fate, DoFinish(h, s, w).fate);
  }

  /** Every round decides what it served. */
  lemma StepDecides(h: Behaviour, s: World, step: Step, w: nat, q: Sched, p: Ledger)
    requires Inv(h, s) && Enabled(s, step) && w < |s.workers| && Settled(q, None)
    requires Tracks(q, p, s.workers[w].sched, s.workers[w].phase) && DecidedSoFar(q, p, s.fate)
    ensures DecidedSoFar(q, Observe(h, s, step, w, p), Apply(h, s, step).fate)
  {
    hide Inv, Apply, Waiting, Settled, Serves, Served, DecidedSoFar, Queued, SendersGone;
    if step == TurnStep(w) {
      TurnDecides(h, s, w, q, p);
    } else if step == FinishTurn(w) {
      FinishDecided(h, s, w, q, p);
    } else {
      StepLater(h, s, step);
      SameDecided(q, p, Observe(h, s, step, w, p), s.fate, Apply(h, s, step).fate);
    }
  }

  // ---- whole runs ----

  lemma {:induction false} RunTracks(h: Behaviour, s: World, steps: seq<Step>, s': World, w: nat, q: Sched, p: Ledger)
    requires Inv(h, s) && Run(h, s, steps, s') && w < |s.workers| && Settled(q, None)
    requires Tracks(q, p, s.workers[w].sched, s.workers[w].phase) && DecidedSoFar(q, p, s.fate)
    ensures w < |s'.workers|
    ensures var p' := ReadOff(h, s, steps, w, p);
            Tracks(q, p', s'.workers[w].sched, s'.workers[w].phase) && DecidedSoFar(q, p', s'.fate)
    decreases |steps|
  {
    hide Inv, Enabled, Apply, Settled, Tracks, DecidedSoFar, Observe;
    if steps != [] {
      StepInv(h, s, steps[0]);
      StepTracks(h, s, steps[0], w, q, p);
      StepDecides(h, s, steps[0], w, q, p);
      RunTracks(h, Apply(h, s, steps[0]), steps[1..], s', w, q, Observe(h, s, steps[0], w, p));
    }
  }

  /** Worker `w` is between handlers and not shutting down. */
  predicate Between(s: World, w: nat) {
    w < |s.workers| && !s.workers[w].phase.Handling? && !ShuttingDown(s.workers[w].phase)
  }

  lemma StartTracks(h: Behaviour, s: World, w: nat)
    requires Inv(h, s) && Between(s, w)
    ensures var x := s.workers[w];
            && Settled(x.sched, None) && Tracks(x.sched, Ledger([], []), x.sched, x.phase)
            && DecidedSoFar(x.sched, Ledger([], []), s.fate)
  {
    hide Places.PlacesOk, HistoryOk;
    assert SchedOk(s.workers[w]);
  }

  /** In every run, whatever the other threads do, a worker about to take a turn has the scheduler
      that the rounds read off the run make of the one it started with, filled with what arrived
      since the last of them. */
  lemma TurnsAreRounds(h: Behaviour, s: World, steps: seq<Step>, s': World, w: nat)
    requires Inv(h, s) && Run(h, s, steps, s') && Between(s, w)
    ensures w < |s'.workers|
    ensures Between(s', w) ==>
              var p := ReadOff(h, s, steps, w, Ledger([], []));
              s'.workers[w].sched == EnqueueAll(After(s.workers[w].sched, p.rounds), p.arrivals)
  {
    hide Inv, Run, Settled, DecidedSoFar, ReadOff;
    StartTracks(h, s, w);
    RunTracks(h, s, steps, s', w, s.workers[w].sched, Ledger([], []));
  }

  lemma SettledIsDecided(q: Sched, p: Ledger, k: nat, id: ActorId, e: Envelope, fate: FateMap)
    requires Settled(q, None) && k < |p.rounds| && SettledIn(q, p.rounds, k, id, e) && DecidedSoFar(q, p, fate)
    ensures e.ticket in fate
  {
    RoundsSettled(q, p.rounds[..k]);
    var qk, r := After(q, p.rounds[..k]), p.rounds[k];
    assert RoundDecided(qk, r, fate);
    hide DecidedSoFar, After;
    EnqueueAllSettled(qk, r.arrivals);
    var f := Filled(qk, r);
    NextReadySettled(f);
    if f.ready != [] {
      TurnBegin(f);
    }
    hide Settled, NextReady, EnqueueAll;
  }

  /** Bounded waiting in every interleaving: an envelope with `m` others ahead of it in the mailbox of
      the actor at position `p` has met its fate once the worker has completed `p + 1 + m * n`
      rounds, where `n` bounds the actors with mail at any of its turns. */
  lemma WaitingIsBounded(h: Behaviour, s: World, steps: seq<Step>, s': World, w: nat, p: nat, m: nat, n: nat)
    requires Inv(h, s) && Run(h, s, steps, s') && Between(s, w)
    requires var q := s.workers[w].sched; p < |q.ready| && m < |Box(q, q.ready[p])|
    requires var rounds := ReadOff(h, s, steps, w, Ledger([], [])).rounds;
             AtMostReady(s.workers[w].sched, rounds, n) && |rounds| >= p + 1 + m * n
    ensures var q := s.workers[w].sched; Box(q, q.ready[p])[m].ticket in s'.fate
  {
    var q := s.workers[w].sched;
    var ledger := ReadOff(h, s, steps, w, Ledger([], []));
    hide Inv, Run, Settled, DecidedSoFar, ReadOff, Tracks, AtMostReady;
    StartTracks(h, s, w);
    RunTracks(h, s, steps, s', w, q, Ledger([], []));
    var k := BoundedWaiting(q, ledger.rounds, p, m, n);
    SettledIsDecided(q, ledger, k, q.ready[p], Box(q, q.ready[p])[m], s'.fate);
  }
}
