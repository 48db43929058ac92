/** A worker thread as the program writes it: nested loops over its two channels, changing its
    scheduler and its actor map in place (src/runtime.rs). `world` is the whole runtime the thread
    is part of; every method performs a run of the step machine on it. */
module WorkerRuns {
  import opened Actors
  import opened RuntimeModel
  import opened SchedulerSpec
  import opened Runs
  import Fairness

  /** What the thread's own steps are; the other branches of `Apply` play no part. */
  lemma OwnSteps(h: Behaviour, s: World, w: nat)
    requires w < |s.workers|
    ensures var p := s.workers[w].phase;
            && (p == ReadControl ==> Enabled(s, ControlStep(w)) && Apply(h, s, ControlStep(w)) == DoControl(s, w))
            && (p == DrainChannel ==> Enabled(s, DrainStep(w)) && Apply(h, s, DrainStep(w)) == DoDrain(s, w))
            && (p == TakeTurn ==> Enabled(s, TurnStep(w)) && Apply(h, s, TurnStep(w)) == DoTurn(s, w))
            && (Unblocked(p) ==> Enabled(s, FinishTurn(w)) && Apply(h, s, FinishTurn(w)) == DoFinish(h, s, w))
            && (p == AwaitMessage ==>
                  Enabled(s, WaitTimeout(w)) && Apply(h, s, WaitTimeout(w)) == SetPhase(s, w, ReadControl))
            && (p == AwaitMessage && s.workers[w].channel != [] ==>
                  Enabled(s, WaitReceive(w)) && Apply(h, s, WaitReceive(w)) == DoEnqueue(s, w, ReadControl))
            && (p == Stopping({}) ==>
                  Enabled(s, FinishStopping(w)) && Apply(h, s, FinishStopping(w)) == DoFinishStopping(s, w))
  {
    hide DoControl, DoDrain, DoTurn, DoFinish, SetPhase, DoEnqueue, DoFinishStopping;
  }

  /** The thread's own record after each kind of its own steps. */
  lemma PutRecord(s: World, w: nat, x: Worker)
    requires w < |s.workers|
    ensures |Put(s, w, x).workers| == |s.workers| && Put(s, w, x).workers[w] == x
    ensures Put(s, w, x).stops == s.stops && Put(s, w, x).accepted == s.accepted
  {
  }

  lemma PhaseRecord(s: World, w: nat, p: Phase)
    requires w < |s.workers|
    ensures |SetPhase(s, w, p).workers| == |s.workers| && SetPhase(s, w, p).workers[w] == s.workers[w].(phase := p)
    ensures SetPhase(s, w, p).stops == s.stops && SetPhase(s, w, p).accepted == s.accepted
  {
    PutRecord(s, w, s.workers[w].(phase := p));
    hide Put;
  }

  lemma EnqueueRecord(s: World, w: nat, p: Phase)
    requires w < |s.workers| && s.workers[w].channel != []
    ensures var x, s' := s.workers[w], DoEnqueue(s, w, p);
            |s'.workers| == |s.workers| && s'.stops == s.stops && s'.accepted == s.accepted
            && s'.workers[w] == x.(channel := x.channel[1..], sched := Enqueue(x.sched, x.channel[0]), phase := p)
  {
    var x := s.workers[w];
    PutRecord(s, w, x.(channel := x.channel[1..], sched := Enqueue(x.sched, x.channel[0]), phase := p));
    hide Enqueue, Put;
  }

  lemma EmptyControl(s: World, w: nat)
    requires w < |s.workers| && s.workers[w].control == []
    ensures DoControl(s, w) == SetPhase(s, w, DrainChannel)
  {
  }

  lemma NonEmptyChannel(s: World, w: nat)
    requires w < |s.workers|
    ensures DoDrain(s, w)
         == if s.workers[w].channel == [] then SetPhase(s, w, TakeTurn) else DoEnqueue(s, w, DrainChannel)
  {
  }

  lemma ConfirmRecord(s: World, w: nat, id: ActorId, actor: State)
    requires w < |s.workers| && s.workers[w].control != [] && s.workers[w].control[0] == SpawnActor(id, actor)
    ensures var x, s' := s.workers[w], DoControl(s, w);
            |s'.workers| == |s.workers| && s'.stops == s.stops && s'.accepted == s.accepted
            && s'.workers[w] == x.(control := x.control[1..], actors := x.actors[id := actor])
  {
    assert DoControl(s, w) == DoConfirm(s, w, id, actor) by {
      hide DoConfirm;
    }
    hide DoControl;
  }

  lemma BeginStopRecord(s: World, w: nat)
    requires w < |s.workers| && s.workers[w].control != [] && s.workers[w].control[0] == Shutdown
    ensures var x, s' := s.workers[w], DoControl(s, w);
            |s'.workers| == |s.workers| && s'.stops == s.stops && s'.accepted == s.accepted
            && s'.workers[w] == x.(control := x.control[1..], phase := Stopping(x.actors.Keys))
  {
    assert DoControl(s, w) == DoBeginShutdown(s, w) by {
      hide DoBeginShutdown;
    }
    hide DoControl;
  }

  lemma StopRecord(h: Behaviour, s: World, w: nat, id: ActorId)
    requires w < |s.workers| && s.workers[w].phase.Stopping? && id in s.workers[w].phase.remaining
    ensures Enabled(s, StopOne(w, id)) && Apply(h, s, StopOne(w, id)) == DoStopOne(s, w, id)
    ensures var x, s' := s.workers[w], DoStopOne(s, w, id);
            |s'.workers| == |s.workers| && s'.stops == (if id in x.actors then s.stops + [id] else s.stops)
            && s'.workers[w] == x.(actors := x.actors - {id}, sched := RemoveActor(x.sched, id),
                                   phase := Stopping(x.phase.remaining - {id}))
  {
  }

  lemma ExitRecord(s: World, w: nat)
    requires w < |s.workers|
    ensures |DoFinishStopping(s, w).workers| == |s.workers| && DoFinishStopping(s, w).stops == s.stops
    ensures DoFinishStopping(s, w).workers[w].phase == Exited
    ensures DoFinishStopping(s, w).workers[w].actors == s.workers[w].actors
  {
  }

  /** The actor as its next envelope finds it, offered that envelope. */
  function Offered(h: Behaviour, actors: map<ActorId, State>, e: Envelope): ActorRun {
    Offer(h, ActorRun(if e.target in actors then Some(actors[e.target]) else None, []), e)
  }

  function ActorsAfter(h: Behaviour, actors: map<ActorId, State>, e: Envelope): map<ActorId, State> {
    var run := Offered(h, actors, e);
    if run.alive.Some? then actors[e.target := run.alive.value] else actors - {e.target}
  }

  /** The dispatch ends the actor. */
  predicate Ends(h: Behaviour, actors: map<ActorId, State>, e: Envelope) {
    e.target in actors && Offered(h, actors, e).alive == None
  }

  /** A whole turn of a settled scheduler serving `e`. */
  function SchedAfter(q: Sched, id: ActorId, ends: bool): Sched {
    RequeueIfReady(if ends then RemoveActor(q, id) else q, id)
  }

  predicate Serves(q: Sched, e: Envelope) {
    && q.ready != [] && q.ready[0] == e.target && e.target in q.mailboxes && q.mailboxes[e.target] != []
    && q.mailboxes[e.target][0] == e
  }

  lemma AbsentTurn(s: World, w: nat, e: Envelope)
    requires w < |s.workers| && s.workers[w].phase == TakeTurn && Settled(s.workers[w].sched, None)
    requires Serves(s.workers[w].sched, e) && e.target !in s.workers[w].actors
    ensures var x, s' := s.workers[w], DoTurn(s, w);
            |s'.workers| == |s.workers| && s'.stops == s.stops && s'.accepted == s.accepted
            && s'.workers[w] == x.(sched := SchedAfter(Served(x.sched), e.target, false), phase := ReadControl)
    ensures e.ticket in DoTurn(s, w).fate
  {
    NextReadySettled(s.workers[w].sched);
    TurnBegin(s.workers[w].sched);
    hide NextReady, Dequeue, RequeueIfReady, RemoveActor, Settled;
  }

  lemma IdleTurn(s: World, w: nat)
    requires w < |s.workers| && s.workers[w].phase == TakeTurn && s.workers[w].sched.ready == []
    ensures |DoTurn(s, w).workers| == |s.workers|
    ensures DoTurn(s, w).stops == s.stops && DoTurn(s, w).accepted == s.accepted
    ensures DoTurn(s, w).workers[w] == s.workers[w].(phase := AwaitMessage)
  {
    PutRecord(s, w, s.workers[w].(phase := AwaitMessage));
    hide Put;
  }

  lemma TakeTurnRecord(s: World, w: nat, e: Envelope)
    requires w < |s.workers| && s.workers[w].phase == TakeTurn && Settled(s.workers[w].sched, None)
    requires Serves(s.workers[w].sched, e) && e.target in s.workers[w].actors
    ensures var x, s' := s.workers[w], DoTurn(s, w);
            |s'.workers| == |s.workers| && s'.stops == s.stops && s'.accepted == s.accepted
            && s'.workers[w] == x.(sched := Served(x.sched), actors := x.actors - {e.target},
                                   dispatches := x.dispatches + 1,
                                   phase := Handling(e, x.actors[e.target], Free))
  {
    NextReadySettled(s.workers[w].sched);
    TurnBegin(s.workers[w].sched);
    hide NextReady, Dequeue, RequeueIfReady, RemoveActor, Settled;
  }

  lemma PutBackRecord(s: World, w: nat, actor: State, reply: Reply)
    requires w < |s.workers| && s.workers[w].phase.Handling?
    ensures var x, s', id := s.workers[w], DoPutBack(s, w, actor, reply), s.workers[w].phase.envelope.target;
            |s'.workers| == |s.workers| && s'.stops == s.stops && s'.accepted == s.accepted
            && s'.workers[w] == x.(sched := RequeueIfReady(x.sched, id), actors := x.actors[id := actor],
                                   phase := ReadControl)
  {
    hide RequeueIfReady;
  }

  lemma StoppedRecord(s: World, w: nat, f: Fate)
    requires w < |s.workers| && s.workers[w].phase.Handling?
    ensures var x, s', id := s.workers[w], DoFinishStopped(s, w, f), s.workers[w].phase.envelope.target;
            |s'.workers| == |s.workers| && s'.stops == s.stops + [id] && s'.accepted == s.accepted
            && s'.workers[w] == x.(sched := RequeueIfReady(RemoveActor(x.sched, id), id), phase := ReadControl)
  {
    hide RequeueIfReady, RemoveActor;
  }

  lemma FinishRecord(h: Behaviour, s: World, w: nat, e: Envelope, actors: map<ActorId, State>)
    requires w < |s.workers| && e.target in actors && s.workers[w].phase == Handling(e, actors[e.target], Free)
    requires s.workers[w].actors == actors - {e.target}
    ensures var x, s' := s.workers[w], DoFinish(h, s, w);
            |s'.workers| == |s.workers| && s'.accepted == s.accepted
            && s'.stops == (if Ends(h, actors, e) then s.stops + [e.target] else s.stops)
            && s'.workers[w] == x.(sched := SchedAfter(x.sched, e.target, Ends(h, actors, e)),
                                   actors := ActorsAfter(h, actors, e), phase := ReadControl)
  {
    hide DoPutBack, DoFinishStopped, RequeueIfReady, RemoveActor;
    match h(e.target, actors[e.target], e.msg)
    case Continued(actor, reply) =>
      PutBackRecord(s, w, actor, reply);
      assert (actors - {e.target})[e.target := actor] == actors[e.target := actor];
    case StopRequested(_, reply) => StoppedRecord(s, w, Handled(reply));
    case Panicked => StoppedRecord(s, w, Crashed);
  }

  /** The steps of one turn, and the thread's record after them. */
  lemma TurnSteps(h: Behaviour, s: World, w: nat, e: Envelope) returns (steps: seq<Step>, s': World)
    requires w < |s.workers| && s.workers[w].phase == TakeTurn && Settled(s.workers[w].sched, None)
    requires Serves(s.workers[w].sched, e)
    ensures Run(h, s, steps, s') && |s'.workers| == |s.workers|
    ensures s'.stops == if Ends(h, s.workers[w].actors, e) then s.stops + [e.target] else s.stops
    ensures var x, x' := s.workers[w], s'.workers[w];
            && x'.sched == SchedAfter(Served(x.sched), e.target, Ends(h, x.actors, e))
            && x'.actors == ActorsAfter(h, x.actors, e)
            && x'.phase == ReadControl && x'.control == x.control && x'.channel == x.channel
  {
    hide Apply, Enabled, SchedAfter, Settled, DoTurn, DoFinish, ActorsAfter;
    var x := s.workers[w];
    OwnSteps(h, s, w);
    RunSnoc(h, s, [], s, TurnStep(w));
    steps, s' := [TurnStep(w)], DoTurn(s, w);
    if e.target in x.actors {
      TakeTurnRecord(s, w, e);
      OwnSteps(h, s', w);
      FinishRecord(h, s', w, e, x.actors);
      RunSnoc(h, s, [TurnStep(w)], s', FinishTurn(w));
      steps, s' := steps + [FinishTurn(w)], DoFinish(h, s', w);
    } else {
      AbsentTurn(s, w, e);
      AbsentGoesOn(h, x.actors, e);
    }
  }

  lemma IdleSteps(h: Behaviour, s: World, w: nat) returns (steps: seq<Step>, s': World)
    requires w < |s.workers| && s.workers[w].phase == TakeTurn && s.workers[w].sched.ready == []
    ensures Run(h, s, steps, s') && |s'.workers| == |s.workers| && s'.stops == s.stops && s'.accepted == s.accepted
    ensures s'.workers[w] == s.workers[w].(phase := AwaitMessage)
  {
    hide Apply, Enabled, DoTurn;
    OwnSteps(h, s, w);
    IdleTurn(s, w);
    RunSnoc(h, s, [], s, TurnStep(w));
    steps, s' := [TurnStep(w)], DoTurn(s, w);
  }

  lemma AbsentGoesOn(h: Behaviour, actors: map<ActorId, State>, e: Envelope)
    requires e.target !in actors
    ensures !Ends(h, actors, e) && ActorsAfter(h, actors, e) == actors
  {
  }

  lemma ServesHead(q: Sched)
    requires Settled(q, None)
    ensures q.ready == [] ==> NextReady(q) == (q, None)
    ensures q.ready != [] ==>
              && q.ready[0] in q.mailboxes && q.mailboxes[q.ready[0]] != []
              && NextReady(q) == (q.(ready := q.ready[1..]), Some(q.ready[0]))
              && Dequeue(q.(ready := q.ready[1..]), q.ready[0]) == (Served(q), Some(q.mailboxes[q.ready[0]][0]))
              && q.mailboxes[q.ready[0]][0].target == q.ready[0]
  {
    NextReadySettled(q);
    if q.ready != [] { TurnBegin(q); }
  }

  lemma RoundWithoutArrivals(q: Sched, stops: bool)
    requires Settled(q, None)
    ensures var q' := Fairness.AfterRound(q, Fairness.Round([], stops));
            && Settled(q', None)
            && (q.ready == [] ==> q' == q)
            && (q.ready != [] ==>
                  && q.ready[0] in q.mailboxes && q.mailboxes[q.ready[0]] != []
                  && q' == SchedAfter(Served(q), q.ready[0], stops))
  {
    ServesHead(q);
    Fairness.RoundSettled(q, Fairness.Round([], stops));
  }

  lemma FilledFirst(q: Sched, mail: seq<Envelope>, stops: bool)
    ensures Fairness.AfterRound(EnqueueAll(q, mail), Fairness.Round([], stops))
         == Fairness.AfterRound(q, Fairness.Round(mail, stops))
  {
  }
}

module WorkerClass {
  import opened Actors
  import opened RuntimeModel
  import opened SchedulerSpec
  import opened Runs
  import opened WorkerRuns
  import SchedulerClass
  import Fairness

  class WorkerThread {
    const index: nat
    const scheduler: SchedulerClass.Scheduler
    var controlRx: seq<Control>
    var msgRx: seq<Envelope>
    var actorMap: map<ActorId, State>
    /** The confirmations sent and the stopped hooks called, in order. */
    var confirms: seq<ActorId>
    var hooks: seq<ActorId>
    ghost var world: World
    ghost const stopsBefore: seq<ActorId>

    /** The world's record of this thread. */
    ghost function Record(): Worker
      reads this
      requires index < |world.workers|
    {
      world.workers[index]
    }

    /** The thread is at program point `p`, and its fields are what the world says. */
    ghost predicate InPhase(p: Phase)
      reads this, scheduler
    {
      InStep(p, scheduler.Value())
    }

    /** ... except for the scheduler, which may be in the middle of the step. */
    ghost predicate InStep(p: Phase, q: Sched)
      reads this
    {
      && index < |world.workers| && Record().phase == p
      && Record().control == controlRx && Record().channel == msgRx
      && Record().actors == actorMap && Record().sched == q
      && world.stops == stopsBefore + hooks
    }

    ghost predicate HasExited()
      reads this
    {
      && index < |world.workers| && Record().phase == Exited && Record().actors == actorMap
      && world.stops == stopsBefore + hooks
    }

    constructor (index: nat, ghost world: World)
      requires index < |world.workers| && world.workers[index] == FreshWorker()
      ensures InPhase(ReadControl) && this.world == world && this.index == index
      ensures fresh(scheduler) && Settled(scheduler.Value(), None)
    {
      this.index := index;
      this.world := world;
      scheduler := new SchedulerClass.Scheduler();
      controlRx, msgRx, actorMap := [], [], map[];
      confirms, hooks := [], [];
      stopsBefore := world.stops;
    }

    /** The head of the control queue is a spawn request: the actor enters the map and the caller is
        told. */
    method Confirm(ghost h: Behaviour, id: ActorId, actor: State)
      requires InPhase(ReadControl) && controlRx != [] && controlRx[0] == SpawnActor(id, actor)
      modifies this`controlRx, this`actorMap, this`confirms, this`world
      ensures Enabled(old(world), ControlStep(index)) && world == Apply(h, old(world), ControlStep(index))
      ensures InPhase(ReadControl) && controlRx == old(controlRx)[1..] && confirms == old(confirms) + [id]
      ensures actorMap == old(actorMap)[id := actor]
    {
      hide Apply, Enabled, Run, DoControl, DoDrain, DoTurn, DoFinish, DoStopOne, DoFinishStopping, DoEnqueue, SetPhase;
      OwnSteps(h, world, index);
      ConfirmRecord(world, index, id, actor);
      world := DoControl(world, index);
      controlRx := controlRx[1..];
      actorMap := actorMap[id := actor];
      confirms := confirms + [id];
    }

    /** The head of the control queue is a shutdown request. */
    method ShutDown(ghost h: Behaviour) returns (ghost steps: seq<Step>)
      requires InPhase(ReadControl) && controlRx != [] && controlRx[0] == Shutdown
      modifies this`controlRx, this`actorMap, this`hooks, this`world, scheduler
      ensures Run(h, old(world), steps, world) && HasExited() && actorMap == map[] && old(hooks) <= hooks
    {
      hide Apply, Enabled, Run, DoControl, DoDrain, DoTurn, DoFinish, DoStopOne, DoFinishStopping, DoEnqueue, SetPhase;
      ghost var s := world;
      OwnSteps(h, world, index);
      RunNothing(h, s);
      RunSnoc(h, s, [], s, ControlStep(index));
      BeginStopRecord(world, index);
      world := DoControl(world, index);
      controlRx := controlRx[1..];
      ghost var before := world;
      ghost var more := StopAllActors(h);
      RunThen(h, s, [] + [ControlStep(index)], before, more, world);
      steps := [] + [ControlStep(index)] + more;
    }

    /** The control queue is empty. */
    ghost method LeaveControl(h: Behaviour)
      requires InPhase(ReadControl) && controlRx == []
      modifies this`world
      ensures Enabled(old(world), ControlStep(index)) && world == Apply(h, old(world), ControlStep(index))
      ensures InPhase(DrainChannel)
    {
      hide Apply, Enabled, Run, DoControl, DoDrain, DoTurn, DoFinish, DoStopOne, DoFinishStopping, DoEnqueue, SetPhase;
      OwnSteps(h, world, index);
      PhaseRecord(world, index, DrainChannel);
      EmptyControl(world, index);
      world := DoControl(world, index);
    }

    /** The inner control loop: confirms every queued spawn; on a shutdown request stops all
        actors and ends the thread. */
    method DrainControl(ghost h: Behaviour) returns (running: bool, ghost steps: seq<Step>)
      requires InPhase(ReadControl)
      modifies this, scheduler
      ensures Run(h, old(world), steps, world)
      ensures running ==> InPhase(DrainChannel) && controlRx == [] && msgRx == old(msgRx)
      ensures running ==> scheduler.Value() == old(scheduler.Value()) && hooks == old(hooks)
      ensures confirms == old(confirms) + SpawnIds(AheadOfShutdown(old(controlRx)))
      ensures running <==> Shutdown !in old(controlRx)
      ensures !running ==> HasExited() && actorMap == map[] && old(hooks) <= hooks
    {
      hide Apply, Enabled, Run, DoControl, DoDrain, DoTurn, DoFinish, DoStopOne, DoFinishStopping, DoEnqueue, SetPhase;
      hide AheadOfShutdown, SpawnIds;
      ghost var requests := SpawnIds(AheadOfShutdown(controlRx));
      steps := [];
      assert Run(h, world, steps, world) by { RunNothing(h, world); }
      while controlRx != []
        invariant InPhase(ReadControl) && Run(h, old(world), steps, world)
        invariant msgRx == old(msgRx) && scheduler.Value() == old(scheduler.Value()) && hooks == old(hooks)
        invariant confirms + SpawnIds(AheadOfShutdown(controlRx)) == old(confirms) + requests
        invariant Shutdown in controlRx <==> Shutdown in old(controlRx)
        decreases |controlRx|
      {
        ghost var before, rest := world, controlRx[1..];
        NextControl(controlRx);
        match controlRx[0] {
          case SpawnActor(id, actor) =>
            ConfirmNext(confirms, id, SpawnIds(AheadOfShutdown(rest)));
            Confirm(h, id, actor);
            RunSnoc(h, old(world), steps, before, ControlStep(index));
            steps := steps + [ControlStep(index)];
          case Shutdown =>
            ghost var more := ShutDown(h);
            RunThen(h, old(world), steps, before, more, world);
            return false, steps + more;
        }
      }
      NoControl();
      ghost var before := world;
      LeaveControl(h);
      RunSnoc(h, old(world), steps, before, ControlStep(index));
      running, steps := true, steps + [ControlStep(index)];
    }

    /** One actor of the shutdown snapshot. */
    method StopActor(ghost h: Behaviour, ghost ids: set<ActorId>, id: ActorId)
      requires InPhase(Stopping(ids)) && id in ids && id in actorMap
      modifies this`actorMap, this`hooks, this`world, scheduler
      ensures Enabled(old(world), StopOne(index, id)) && world == Apply(h, old(world), StopOne(index, id))
      ensures InPhase(Stopping(ids - {id})) && actorMap == old(actorMap) - {id} && hooks == old(hooks) + [id]
    {
      hide Apply, Enabled, Run, DoControl, DoDrain, DoTurn, DoFinish, DoStopOne, DoFinishStopping, DoEnqueue, SetPhase;
      hide SchedulerSpec.RemoveActor;
      StopRecord(h, world, index, id);
      world := Apply(h, world, StopOne(index, id));
      ghost var called := hooks;
      RemoveActor(id);
      assert stopsBefore + called + [id] == stopsBefore + (called + [id]);
    }

    /** The thread stops the actors of its map one after the other and ends; its receivers and its
        scheduler go with it. */
    method StopAllActors(ghost h: Behaviour) returns (ghost steps: seq<Step>)
      requires InPhase(Stopping(actorMap.Keys))
      modifies this`actorMap, this`hooks, this`world, scheduler
      ensures Run(h, old(world), steps, world) && HasExited() && actorMap == map[]
      ensures old(hooks) <= hooks && |hooks| == |old(hooks)| + |old(actorMap)|
      ensures forall id :: id in old(actorMap) ==> id in hooks[|old(hooks)|..]
    {
      hide Apply, Enabled, Run, DoControl, DoDrain, DoTurn, DoFinish, DoStopOne, DoFinishStopping, DoEnqueue, SetPhase;
      var ids := actorMap.Keys;
      steps := [];
      assert Run(h, world, steps, world) by { RunNothing(h, world); }
      while ids != {}
        invariant InPhase(Stopping(ids)) && Run(h, old(world), steps, world) && actorMap.Keys == ids
        invariant old(hooks) <= hooks && |hooks| + |ids| == |old(hooks)| + |old(actorMap)|
        invariant forall id :: id in old(actorMap) && id !in ids ==> id in hooks[|old(hooks)|..]
        decreases |ids|
      {
        var id :| id in ids;
        ghost var called, before := hooks, world;
        StopActor(h, ids, id);
        RunSnoc(h, old(world), steps, before, StopOne(index, id));
        steps := steps + [StopOne(index, id)];
        ids := ids - {id};
        assert hooks[|old(hooks)|..] == called[|old(hooks)|..] + [id];
      }
      ghost var before := world;
      Exit(h);
      RunSnoc(h, old(world), steps, before, FinishStopping(index));
      steps := steps + [FinishStopping(index)];
    }

    /** The thread function returns. */
    ghost method Exit(h: Behaviour)
      requires InPhase(Stopping({}))
      modifies this`world
      ensures Enabled(old(world), FinishStopping(index)) && world == Apply(h, old(world), FinishStopping(index))
      ensures HasExited()
    {
      hide Apply, Enabled, Run, DoControl, DoDrain, DoTurn, DoFinish, DoStopOne, DoFinishStopping, DoEnqueue, SetPhase;
      ExitRecord(world, index);
      OwnSteps(h, world, index);
      world := Apply(h, world, FinishStopping(index));
    }

    method RemoveActor(id: ActorId)
      modifies this`actorMap, this`hooks, scheduler
      ensures actorMap == old(actorMap) - {id}
      ensures hooks == if id in old(actorMap) then old(hooks) + [id] else old(hooks)
      ensures scheduler.Value() == SchedulerSpec.RemoveActor(old(scheduler.Value()), id)
    {
      if id in actorMap {
        actorMap := actorMap - {id};
        hooks := hooks + [id];
      }
      scheduler.RemoveActor(id);
    }

    /** Moves everything the channel holds into the mailboxes. */
    method DrainMessages(ghost h: Behaviour) returns (ghost steps: seq<Step>)
      requires InPhase(DrainChannel)
      modifies this`msgRx, this`world, scheduler
      ensures Run(h, old(world), steps, world) && InPhase(TakeTurn) && msgRx == []
      ensures scheduler.Value() == EnqueueAll(old(scheduler.Value()), old(msgRx))
    {
      hide Apply, Enabled, Run, DoControl, DoDrain, DoTurn, DoFinish, DoStopOne, DoFinishStopping, DoEnqueue, SetPhase;
      steps := [];
      assert Run(h, world, steps, world) by { RunNothing(h, world); }
      while msgRx != []
        invariant InPhase(DrainChannel) && Run(h, old(world), steps, world)
        invariant EnqueueAll(scheduler.Value(), msgRx) == EnqueueAll(old(scheduler.Value()), old(msgRx))
        decreases |msgRx|
      {
        OwnSteps(h, world, index);
        EnqueueRecord(world, index, DrainChannel);
        NonEmptyChannel(world, index);
        RunSnoc(h, old(world), steps, world, DrainStep(index));
        world, steps := DoDrain(world, index), steps + [DrainStep(index)];
        var envelope := msgRx[0];
        msgRx := msgRx[1..];
        scheduler.Enqueue(envelope);
      }
      OwnSteps(h, world, index);
      PhaseRecord(world, index, TakeTurn);
      NonEmptyChannel(world, index);
      RunSnoc(h, old(world), steps, world, DrainStep(index));
      world, steps := DoDrain(world, index), steps + [DrainStep(index)];
    }

    /** Runs the dispatch closure on the actor, which is out of the map meanwhile; puts it back,
        or forgets it and its mailbox. */
    method Dispatch(h: Behaviour, e: Envelope) returns (run: ActorRun)
      modifies this`actorMap, this`hooks, scheduler
      ensures hooks == if Ends(h, old(actorMap), e) then old(hooks) + [e.target] else old(hooks)
      ensures run == Offered(h, old(actorMap), e) && actorMap == ActorsAfter(h, old(actorMap), e)
      ensures scheduler.Value()
           == if Ends(h, old(actorMap), e) then SchedulerSpec.RemoveActor(old(scheduler.Value()), e.target)
              else old(scheduler.Value())
    {
      if e.target !in actorMap {
        return ActorRun(None, [Dropped]);
      }
      var actor := actorMap[e.target];
      actorMap := actorMap - {e.target};
      match h(e.target, actor, e.msg) {
        case Continued(actor', reply) =>
          actorMap := actorMap[e.target := actor'];
          run := ActorRun(Some(actor'), [Handled(reply)]);
        case StopRequested(_, reply) =>
          hooks := hooks + [e.target];
          scheduler.RemoveActor(e.target);
          run := ActorRun(None, [Handled(reply)]);
        case Panicked =>
          hooks := hooks + [e.target];
          scheduler.RemoveActor(e.target);
          run := ActorRun(None, [Crashed]);
      }
    }

    /** One turn: the next ready actor handles one envelope and goes to the back of the queue if
        it has more; `served` is false if nobody has mail. */
    method Turn(h: Behaviour) returns (served: bool, stops: bool, ghost steps: seq<Step>)
      requires InPhase(TakeTurn) && Settled(scheduler.Value(), None)
      modifies this`actorMap, this`hooks, this`world, scheduler
      ensures Run(h, old(world), steps, world) && Settled(scheduler.Value(), None)
      ensures scheduler.Value() == Fairness.AfterRound(old(scheduler.Value()), Fairness.Round([], stops))
      ensures InPhase(if served then ReadControl else AwaitMessage)
      ensures (stops ==> served) && (served <==> old(scheduler.Value()).ready != [])
      ensures hooks == if stops then old(hooks) + [old(scheduler.Value()).ready[0]] else old(hooks)
      ensures !served ==> scheduler.Value() == old(scheduler.Value())
    {
      ghost var q := scheduler.Value();
      ServesHead(q);
      hide Settled, NextReady, Dequeue, RequeueIfReady, SchedulerSpec.RemoveActor, Fairness.AfterRound, SchedAfter;
      hide Apply, Enabled, Run, DoControl, DoDrain, DoTurn, DoFinish, DoStopOne, DoFinishStopping, DoEnqueue, SetPhase;
      var next := scheduler.NextReady();
      match next {
        case Some(id) => stops, steps := ServeReady(h, id, q);
        case None =>
          stops := false;
          steps, world := IdleSteps(h, world, index);
      }
      served := next.Some?;
      RoundWithoutArrivals(q, stops);
    }

    /** The oldest envelope of actor `id`, just taken from the ready queue `q` began with. */
    method TakeOldest(id: ActorId, ghost q: Sched) returns (e: Envelope)
      requires Settled(q, None) && q.ready != [] && q.ready[0] == id
      requires scheduler.Value() == q.(ready := q.ready[1..])
      modifies scheduler
      ensures Serves(q, e) && e.target == id && scheduler.Value() == Served(q)
    {
      ServesHead(q);
      hide Settled;
      var next := scheduler.Dequeue(id);
      e := next.value;
    }

    /** The turn of actor `id`. */
    method ServeReady(h: Behaviour, id: ActorId, ghost q: Sched) returns (stops: bool, ghost steps: seq<Step>)
      requires InStep(TakeTurn, q) && Settled(q, None) && q.ready != [] && q.ready[0] == id
      requires scheduler.Value() == q.(ready := q.ready[1..])
      modifies this`actorMap, this`hooks, this`world, scheduler
      ensures Run(h, old(world), steps, world) && InPhase(ReadControl)
      ensures id in q.mailboxes && q.mailboxes[id] != [] && scheduler.Value() == SchedAfter(Served(q), id, stops)
      ensures hooks == if stops then old(hooks) + [id] else old(hooks)
    {
      hide Settled, NextReady, Dequeue, RequeueIfReady, SchedulerSpec.RemoveActor, SchedAfter, Ends, ActorsAfter;
      hide Offered, Apply, Enabled, Run;
      ghost var called := hooks;
      var e := TakeOldest(id, q);
      ghost var s';
      steps, s' := TurnSteps(h, world, index, e);
      stops := Serve(h, e);
      world := s';
      assert stopsBefore + called + [id] == stopsBefore + (called + [id]);
    }

    /** `dispatch` and `requeue_if_ready` for the envelope just dequeued. */
    method Serve(h: Behaviour, e: Envelope) returns (stops: bool)
      modifies this`actorMap, this`hooks, scheduler
      ensures hooks == if stops then old(hooks) + [e.target] else old(hooks)
      ensures stops == Ends(h, old(actorMap), e) && actorMap == ActorsAfter(h, old(actorMap), e)
      ensures scheduler.Value() == SchedAfter(old(scheduler.Value()), e.target, stops)
    {
      var known := e.target in actorMap;
      var run := Dispatch(h, e);
      stops := known && run.alive == None;
      scheduler.RequeueIfReady(e.target);
    }

    /** Nobody has mail: wait for an envelope, or for the timeout. Without other threads the
        wait finds what the channel holds. */
    method Wait(ghost h: Behaviour) returns (ghost steps: seq<Step>)
      requires InPhase(AwaitMessage)
      modifies this`msgRx, this`world, scheduler
      ensures Run(h, old(world), steps, world) && InPhase(ReadControl)
      ensures scheduler.Value() == EnqueueAll(old(scheduler.Value()), old(msgRx)[..if old(msgRx) == [] then 0 else 1])
      ensures msgRx == if old(msgRx) == [] then [] else old(msgRx)[1..]
    {
      hide Apply, Enabled, Run, DoControl, DoDrain, DoTurn, DoFinish, DoStopOne, DoFinishStopping, DoEnqueue, SetPhase;
      OwnSteps(h, world, index);
      RunNothing(h, world);
      ghost var s := world;
      if msgRx != [] {
        EnqueueRecord(world, index, ReadControl);
        RunSnoc(h, s, [], s, WaitReceive(index));
        world, steps := DoEnqueue(world, index, ReadControl), [] + [WaitReceive(index)];
        var envelope := msgRx[0];
        assert msgRx[..1] == [envelope] && [envelope][1..] == [];
        msgRx := msgRx[1..];
        scheduler.Enqueue(envelope);
      } else {
        PhaseRecord(world, index, ReadControl);
        RunSnoc(h, s, [], s, WaitTimeout(index));
        world, steps := SetPhase(world, index, ReadControl), [] + [WaitTimeout(index)];
      }
    }

    /** One pass of the outer loop. As long as the thread runs, its scheduler makes exactly the
        rounds of the fairness theorems, each with the channel's content as arrivals. */
    method Pass(h: Behaviour) returns (running: bool, stops: bool, ghost steps: seq<Step>)
      requires InPhase(ReadControl) && Settled(scheduler.Value(), None)
      modifies this, scheduler
      ensures Run(h, old(world), steps, world)
      ensures running ==> InPhase(ReadControl) && Settled(scheduler.Value(), None) && controlRx == [] && msgRx == []
      ensures running ==>
                scheduler.Value() == Fairness.AfterRound(old(scheduler.Value()), Fairness.Round(old(msgRx), stops))
      ensures !running ==> HasExited() && actorMap == map[]
      ensures old(hooks) <= hooks
      ensures confirms == old(confirms) + SpawnIds(AheadOfShutdown(old(controlRx)))
    {
      hide Settled, NextReady, Dequeue, RequeueIfReady, SchedulerSpec.RemoveActor;
      hide Apply, Enabled, Run, DoControl, DoDrain, DoTurn, DoFinish, DoStopOne, DoFinishStopping, DoEnqueue, SetPhase;
      ghost var s := world;
      ghost var q, mail := scheduler.Value(), msgRx;
      EnqueueAllSettled(q, mail);
      stops := false;
      running, steps := DrainControl(h);
      if running {
        ghost var s1 := world;
        ghost var drained := DrainMessages(h);
        RunThen(h, s, steps, s1, drained, world);
        ghost var s2 := world;
        ghost var turn;
        var served: bool;
        served, stops, turn := Turn(h);
        RunThen(h, s, steps + drained, s2, turn, world);
        steps := steps + drained + turn;
        FilledFirst(q, mail, stops);
        if !served {
          ghost var s3 := world;
          ghost var waited := Wait(h);
          RunThen(h, s, steps, s3, waited, world);
          steps := steps + waited;
        }
      }
    }
  }

  /** The control messages ahead of the first shutdown request. */
  function AheadOfShutdown(control: seq<Control>): seq<Control> {
    if control == [] || control[0].Shutdown? then [] else [control[0]] + AheadOfShutdown(control[1..])
  }

  lemma NextControl(control: seq<Control>)
    requires control != []
    ensures control[0].Shutdown? ==> SpawnIds(AheadOfShutdown(control)) == [] && Shutdown in control
    ensures control[0].SpawnActor? ==>
              && SpawnIds(AheadOfShutdown(control)) == [control[0].id] + SpawnIds(AheadOfShutdown(control[1..]))
              && (Shutdown in control[1..] <==> Shutdown in control)
  {
    assert control == [control[0]] + control[1..];
    if control[0].SpawnActor? {
      assert AheadOfShutdown(control)[1..] == AheadOfShutdown(control[1..]);
    }
  }

  lemma NoControl()
    ensures SpawnIds(AheadOfShutdown([])) == []
  {
  }

  lemma ConfirmNext(confirms: seq<ActorId>, id: ActorId, rest: seq<ActorId>)
    ensures confirms + ([id] + rest) == (confirms + [id]) + rest
  {
  }
}
