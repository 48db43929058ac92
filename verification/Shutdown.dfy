/** The shutdown protocol of a worker: how it is reached, what it still does on the way, and
    which actors it stops. */
module ShutdownProtocol {
  import opened Actors
  import opened SchedulerSpec
  import opened RuntimeModel
  import opened Reachable
  import opened Blocking
  import opened Runs
  import opened Frames
  import Places

  predicate ShuttingDown(p: Phase) { p.Stopping? || p.Exited? }

  /** What one step of its own does to the control queue, the phase and the dispatch count of a
      worker. */
  ghost predicate Moves(x: Worker, x': Worker) {
    && x'.late == x.late
    && match x.phase
    case ReadControl =>
      && x'.dispatches == x.dispatches
      && if x.control == [] then x'.control == [] && x'.phase.DrainChannel?
         else
           && x'.control == x.control[1..]
           && if x.control[0].Shutdown? then x'.phase.Stopping? else x'.phase.ReadControl?
    case DrainChannel =>
      && x'.control == x.control && x'.dispatches == x.dispatches
      && (x'.phase.DrainChannel? || x'.phase.TakeTurn?)
    case TakeTurn =>
      && x'.control == x.control
      && if x'.phase.Handling? then x'.dispatches == x.dispatches + 1 && x'.phase.waitingFor == Free
         else x'.dispatches == x.dispatches && (x'.phase.ReadControl? || x'.phase.AwaitMessage?)
    case Handling(_, _, _) =>
      && x'.control == x.control && x'.dispatches == x.dispatches
      && (x'.phase.ReadControl?
          || (x'.phase.Handling? && x'.phase.envelope == x.phase.envelope && x'.phase.actor == x.phase.actor))
    case AwaitMessage => x'.control == x.control && x'.dispatches == x.dispatches && x'.phase.ReadControl?
    case Stopping(_) =>
      && x'.dispatches == x.dispatches
      && ((x'.phase.Exited? && x'.control == []) || (x'.phase.Stopping? && x'.control == x.control))
    case Exited => false
  }

  /** The "channel disconnected" exit of the worker loop is never taken: the worker itself keeps
      a sender to its channel. */
  lemma NeverDisconnected(h: Behaviour, s: World, w: nat)
    requires Inv(h, s) && w < |s.workers| && !s.workers[w].phase.Exited?
    ensures !SendersGone(s, w)
  {
    assert Places.WorkerPlaces(s.place, w, s.workers[w]);
  }

  /** The step changes worker `w` to `x'`. */
  ghost predicate Becomes(s: World, s': World, w: nat) {
    w < |s.workers| == |s'.workers| && Moves(s.workers[w], s'.workers[w])
  }

  lemma PutMoves(s: World, w: nat, x: Worker)
    requires w < |s.workers| && Moves(s.workers[w], x)
    ensures Becomes(s, Put(s, w, x), w)
  {
  }

  lemma ConfirmMoves(s: World, w: nat, id: ActorId, actor: State)
    requires w < |s.workers| && s.workers[w].phase.ReadControl? && s.workers[w].control != []
    requires s.workers[w].control[0].SpawnActor?
    ensures Becomes(s, DoConfirm(s, w, id, actor), w)
  {
  }

  lemma BeginShutdownMoves(s: World, w: nat)
    requires w < |s.workers| && s.workers[w].phase.ReadControl? && s.workers[w].control != []
    requires s.workers[w].control[0].Shutdown?
    ensures Becomes(s, DoBeginShutdown(s, w), w)
  {
  }

  lemma ControlMoves(s: World, w: nat)
    requires w < |s.workers| && s.workers[w].phase.ReadControl?
    ensures Becomes(s, DoControl(s, w), w)
  {
    hide DoConfirm, DoBeginShutdown, Becomes;
    var x := s.workers[w];
    if x.control == [] {
      PutMoves(s, w, x.(phase := DrainChannel));
    } else {
      match x.control[0]
      case SpawnActor(id, actor) => ConfirmMoves(s, w, id, actor);
      case Shutdown => BeginShutdownMoves(s, w);
    }
  }

  lemma DrainMoves(s: World, w: nat)
    requires w < |s.workers| && s.workers[w].phase.DrainChannel?
    ensures Becomes(s, DoDrain(s, w), w)
  {
    hide Becomes, Put, Enqueue;
    var x := s.workers[w];
    if x.channel == [] {
      PutMoves(s, w, x.(phase := TakeTurn));
    } else {
      PutMoves(s, w, x.(channel := x.channel[1..], sched := Enqueue(x.sched, x.channel[0]), phase := DrainChannel));
    }
  }

  lemma TakeMoves(s: World, w: nat, q: Sched, e: Envelope)
    requires w < |s.workers| && s.workers[w].phase.TakeTurn?
    ensures Becomes(s, DoDropAbsent(s, w, q, e), w)
    ensures e.target in s.workers[w].actors ==> Becomes(s, DoTake(s, w, q, e), w)
  {
  }

  lemma TurnMoves(s: World, w: nat)
    requires w < |s.workers| && s.workers[w].phase.TakeTurn?
    ensures Becomes(s, DoTurn(s, w), w)
  {
    hide DoTake, DoDropAbsent, Put, NextReady, Dequeue, RequeueIfReady, Becomes;
    var x := s.workers[w];
    match NextReady(x.sched)
    case (q, None) => PutMoves(s, w, x.(sched := q, phase := AwaitMessage));
    case (q, Some(id)) =>
      match Dequeue(q, id)
      case (q', None) => PutMoves(s, w, x.(sched := q', phase := ReadControl));
      case (q', Some(e)) =>
        TakeMoves(s, w, q', e);
        TakeMoves(s, w, RequeueIfReady(q', id), e);
  }

  lemma ReturnMoves(s: World, w: nat, actor: State, reply: Reply)
    requires w < |s.workers| && s.workers[w].phase.Handling?
    ensures Becomes(s, DoPutBack(s, w, actor, reply), w)
  {
  }

  lemma EndMoves(s: World, w: nat, f: Fate)
    requires w < |s.workers| && s.workers[w].phase.Handling?
    ensures Becomes(s, DoFinishStopped(s, w, f), w)
  {
  }

  lemma FinishMoves(h: Behaviour, s: World, w: nat)
    requires w < |s.workers| && s.workers[w].phase.Handling?
    ensures Becomes(s, DoFinish(h, s, w), w)
  {
    hide DoPutBack, DoFinishStopped, Becomes;
    var x := s.workers[w];
    match h(x.phase.envelope.target, x.phase.actor, x.phase.envelope.msg)
    case Continued(actor, reply) => ReturnMoves(s, w, actor, reply);
    case StopRequested(_, reply) => EndMoves(s, w, Handled(reply));
    case Panicked => EndMoves(s, w, Crashed);
  }

  lemma StoppingMoves(s: World, w: nat, id: ActorId)
    requires w < |s.workers| && s.workers[w].phase.Stopping?
    ensures id in s.workers[w].actors ==> Becomes(s, DoStopOne(s, w, id), w)
    ensures Becomes(s, DoFinishStopping(s, w), w)
  {
  }

  lemma BlockingSendMoves(s: World, w: nat, target: ActorId, msg: Msg)
    requires w < |s.workers| && Unblocked(s.workers[w].phase) && CanAccept(s, target)
    ensures Becomes(s, DoBlockingSend(s, w, target, msg), w)
  {
    var s1 := DoSend(s, target, msg);
    assert s1.workers[w].control == s.workers[w].control && s1.workers[w].dispatches == s.workers[w].dispatches;
  }

  /** Every step a worker takes itself is one of those moves. */
  lemma OwnStep(h: Behaviour, s: World, step: Step, w: nat)
    requires Inv(h, s) && Enabled(s, step) && Performer(step) == Some(w)
    ensures Becomes(s, Apply(h, s, step), w)
  {
    hide Inv, DoTurn, DoFinish, DoControl, DoDrain, DoStopOne, DoFinishStopping, DoBlockingSend, SendersGone, Queued;
    hide Becomes;
    hide Put, Enqueue;
    match step
    case ControlStep(_) => ControlMoves(s, w);
    case DrainStep(_) => DrainMoves(s, w);
    case TurnStep(_) => TurnMoves(s, w);
    case FinishTurn(_) => FinishMoves(h, s, w);
    case WaitReceive(_) =>
      var x := s.workers[w];
      PutMoves(s, w, x.(channel := x.channel[1..], sched := Enqueue(x.sched, x.channel[0]), phase := ReadControl));
    case WaitTimeout(_) => PutMoves(s, w, s.workers[w].(phase := ReadControl));
    case WaitDisconnected(_) => NeverDisconnected(h, s, w);
    case AwaitConfirm(_, id) =>
      PutMoves(s, w, s.workers[w].(phase := s.workers[w].phase.(waitingFor := ForConfirm(id))));
    case Resume(_) => PutMoves(s, w, s.workers[w].(phase := s.workers[w].phase.(waitingFor := Free)));
    case BlockingSend(_, target, msg) => BlockingSendMoves(s, w, target, msg);
    case StopOne(_, id) =>
      InvPlaces(h, s);
      Places.StopOnePlaces(s, w, id);
      StoppingMoves(s, w, id);
    case FinishStopping(_) => StoppingMoves(s, w, 0);
  }

  /** Seen from one worker, every step is a move of its own or a disturbance by others. */
  lemma StepOfWorker(h: Behaviour, s: World, step: Step, w: nat)
    requires Inv(h, s) && Enabled(s, step) && w < |s.workers|
    ensures |Apply(h, s, step).workers| == |s.workers|
    ensures var x, x' := s.workers[w], Apply(h, s, step).workers[w];
            if Performer(step) == Some(w) then Moves(x, x') else Disturbed(x, x')
  {
    hide Inv, Apply, Enabled, Moves, Disturbed;
    if Performer(step) == Some(w) {
      OwnStep(h, s, step, w);
    } else {
      OthersStep(h, s, step, w);
    }
  }

  lemma ReturnPhase(s: World, w: nat, actor: State, reply: Reply)
    requires w < |s.workers| && s.workers[w].phase.Handling?
    ensures |DoPutBack(s, w, actor, reply).workers| == |s.workers|
    ensures DoPutBack(s, w, actor, reply).workers[w].phase == ReadControl
  {
  }

  lemma EndPhase(s: World, w: nat, f: Fate)
    requires w < |s.workers| && s.workers[w].phase.Handling?
    ensures |DoFinishStopped(s, w, f).workers| == |s.workers|
    ensures DoFinishStopped(s, w, f).workers[w].phase == ReadControl
  {
  }

  /** After its handler a worker goes back to reading control messages. */
  lemma FinishPhase(h: Behaviour, s: World, w: nat)
    requires w < |s.workers| && s.workers[w].phase.Handling?
    ensures |DoFinish(h, s, w).workers| == |s.workers| && DoFinish(h, s, w).workers[w].phase == ReadControl
  {
    hide DoPutBack, DoFinishStopped;
    var x := s.workers[w];
    match h(x.phase.envelope.target, x.phase.actor, x.phase.envelope.msg)
    case Continued(actor, reply) => ReturnPhase(s, w, actor, reply);
    case StopRequested(_, reply) => EndPhase(s, w, Handled(reply));
    case Panicked => EndPhase(s, w, Crashed);
  }

  lemma PhaseOf(s: World, w: nat, p: Phase)
    requires w < |s.workers|
    ensures |SetPhase(s, w, p).workers| == |s.workers| && SetPhase(s, w, p).workers[w].phase == p
  {
  }

  lemma BlockingSendPhase(s: World, w: nat, target: ActorId, msg: Msg)
    requires w < |s.workers| && Unblocked(s.workers[w].phase) && CanAccept(s, target)
    ensures |DoBlockingSend(s, w, target, msg).workers| == |s.workers|
    ensures DoBlockingSend(s, w, target, msg).workers[w].phase
         == s.workers[w].phase.(waitingFor := ForReply(|s.accepted|))
  {
  }

  /** What the handler of worker `w` waits for after a step. */
  function WaitAfter(s: World, step: Step, w: nat): Wait
    requires w < |s.workers| && s.workers[w].phase.Handling?
  {
    match step
    case BlockingSend(v, _, _) => if v == w then ForReply(|s.accepted|) else s.workers[w].phase.waitingFor
    case AwaitConfirm(v, id) => if v == w then ForConfirm(id) else s.workers[w].phase.waitingFor
    case Resume(v) => if v == w then Free else s.workers[w].phase.waitingFor
    case _ => s.workers[w].phase.waitingFor
  }

  /** A handler goes on until its own end, which no other step brings about. */
  lemma HandlerGoesOn(h: Behaviour, s: World, step: Step, w: nat)
    requires Enabled(s, step) && w < |s.workers| && s.workers[w].phase.Handling?
    ensures |Apply(h, s, step).workers| == |s.workers|
    ensures Apply(h, s, step).workers[w].phase
         == if step == FinishTurn(w) then ReadControl
            else s.workers[w].phase.(waitingFor := WaitAfter(s, step, w))
  {
    hide DoTurn, DoFinish, DoControl, DoDrain, DoStopOne, DoFinishStopping, DoBlockingSend, SetPhase;
    hide SendersGone, Queued;
    if Performer(step) != Some(w) {
      hide Apply, Enabled;
      OthersStep(h, s, step, w);
    } else {
      match step
      case FinishTurn(_) => FinishPhase(h, s, w);
      case BlockingSend(_, target, msg) => BlockingSendPhase(s, w, target, msg);
      case AwaitConfirm(_, id) => PhaseOf(s, w, s.workers[w].phase.(waitingFor := ForConfirm(id)));
      case Resume(_) => PhaseOf(s, w, s.workers[w].phase.(waitingFor := Free));
    }
  }

  /** A worker begins to stop only by reading a shutdown request, and exits only after that. */
  lemma StopsOnlyOnRequest(h: Behaviour, s: World, step: Step, w: nat)
    requires Inv(h, s) && Enabled(s, step) && w < |s.workers|
    ensures |Apply(h, s, step).workers| == |s.workers|
    ensures var x, x' := s.workers[w], Apply(h, s, step).workers[w];
            && (!ShuttingDown(x.phase) && ShuttingDown(x'.phase) ==>
                  x.phase.ReadControl? && x.control != [] && x.control[0] == Shutdown && x'.phase.Stopping?)
            && (x'.phase.Exited? ==> ShuttingDown(x.phase))
            && (ShuttingDown(x.phase) ==> ShuttingDown(x'.phase))
  {
    hide Inv, Apply, Enabled;
    StepOfWorker(h, s, step, w);
  }

  /** What other threads put into the control queue of worker `w`. */
  function Requested(s: World, step: Step, w: nat): seq<Control> {
    match step
    case SpawnQueue(id, actor) =>
      if id in s.starting && s.starting[id].worker == w < |s.workers| && !s.workers[w].phase.Exited? then
        [SpawnActor(id, actor)]
      else []
    case RequestShutdown(v) => if v == w then [Shutdown] else []
    case _ => []
  }

  lemma QueueControl(s: World, id: ActorId, actor: State, v: nat, w: nat)
    requires v < |s.workers| && w < |s.workers|
    ensures |DoQueueSpawn(s, id, actor, v).workers| == |s.workers|
    ensures DoQueueSpawn(s, id, actor, v).workers[w].control
         == s.workers[w].control + if v == w then [SpawnActor(id, actor)] else []
  {
  }

  lemma QueuedControl(s: World, id: ActorId, actor: State, w: nat)
    requires id in s.starting && s.starting[id].worker < |s.workers| && w < |s.workers|
    ensures |DoSpawnQueue(s, id, actor).workers| == |s.workers|
    ensures DoSpawnQueue(s, id, actor).workers[w].control
         == s.workers[w].control + Requested(s, SpawnQueue(id, actor), w)
  {
    hide DoQueueSpawn;
    QueueControl(s, id, actor, s.starting[id].worker, w);
  }

  lemma SendControl(s: World, target: ActorId, msg: Msg, w: nat)
    requires CanAccept(s, target) && w < |s.workers|
    ensures |DoSend(s, target, msg).workers| == |s.workers|
    ensures DoSend(s, target, msg).workers[w].control == s.workers[w].control
  {
  }

  lemma BlockingSendControl(s: World, v: nat, target: ActorId, msg: Msg, w: nat)
    requires CanAccept(s, target) && w < |s.workers| && v < |s.workers| && Unblocked(s.workers[v].phase)
    ensures |DoBlockingSend(s, v, target, msg).workers| == |s.workers|
    ensures DoBlockingSend(s, v, target, msg).workers[w].control == s.workers[w].control
  {
    hide DoSend;
    SendControl(s, target, msg, v);
    SendControl(s, target, msg, w);
  }

  lemma ChildInsertControl(s: World, id: ActorId, actor: State, w: nat)
    requires id in s.starting && s.starting[id].worker < |s.workers| && w < |s.workers|
    ensures |DoChildInsert(s, id, actor).workers| == |s.workers|
    ensures DoChildInsert(s, id, actor).workers[w].control == s.workers[w].control
  {
  }

  /** A worker's control queue grows by the requests of others, at its back. */
  lemma OthersControl(h: Behaviour, s: World, step: Step, w: nat)
    requires Enabled(s, step) && w < |s.workers| && Performer(step) != Some(w)
    ensures |Apply(h, s, step).workers| == |s.workers|
    ensures Apply(h, s, step).workers[w].control == s.workers[w].control + Requested(s, step, w)
  {
    hide DoChildInsert, DoSpawnQueue, DoSend, DoBlockingSend, SendersGone, Queued;
    match step
    case SpawnQueue(id, actor) => QueuedControl(s, id, actor, w);
    case ChildInsert(id, actor) => ChildInsertControl(s, id, actor, w);
    case Send(target, msg) => SendControl(s, target, msg, w);
    case BlockingSend(v, target, msg) => BlockingSendControl(s, v, target, msg, w);
    case RequestShutdown(_) =>
    case SpawnAllocate =>
    case PickWorker(_) =>
    case SpawnReturn(_) =>
    case ChildBegin(_, _) =>
    case DropHandle =>
    case _ =>
      hide Apply, Enabled;
      WorkersStep(h, s, step, Performer(step).value, w);
  }

  /** Nothing else gets into a control queue. */
  lemma OnlyRequests(h: Behaviour, s: World, step: Step, w: nat, c: Control)
    requires Inv(h, s) && Enabled(s, step) && w < |s.workers|
    ensures |Apply(h, s, step).workers| == |s.workers|
    ensures c in Apply(h, s, step).workers[w].control ==> c in s.workers[w].control || c in Requested(s, step, w)
  {
    hide Inv, Apply, Enabled, Requested;
    if Performer(step) == Some(w) {
      OwnStep(h, s, step, w);
    } else {
      OthersControl(h, s, step, w);
    }
  }

  // ---- after a shutdown request is queued ----

  ghost predicate ShutdownQueued(x: Worker) { ShuttingDown(x.phase) || Shutdown in x.control }

  /** Whether the worker is past the control queue and can still begin a dispatch in this pass. */
  function Budget(x: Worker): nat { if x.phase.DrainChannel? || x.phase.TakeTurn? then 1 else 0 }

  lemma BudgetStep(x: Worker, x': Worker)
    requires ShutdownQueued(x) && (Moves(x, x') || Disturbed(x, x'))
    ensures ShutdownQueued(x') && x'.dispatches + Budget(x') <= x.dispatches + Budget(x)
  {
    if Disturbed(x, x') {
      if Shutdown in x.control {
        var i :| 0 <= i < |x.control| && x.control[i] == Shutdown;
        assert x'.control[i] == Shutdown;
      }
    } else if x.phase.ReadControl? && x.control[0] != Shutdown {
      var i :| 0 <= i < |x.control| && x.control[i] == Shutdown;
      assert x.control[1..][i - 1] == Shutdown;
    }
  }

  /** At most one handler begins on a worker after a shutdown request reached its control queue. */
  lemma {:induction false} AtMostOneMoreDispatch(h: Behaviour, s: World, steps: seq<Step>, s': World, w: nat)
    requires Inv(h, s) && Run(h, s, steps, s') && w < |s.workers| && ShutdownQueued(s.workers[w])
    ensures |s'.workers| == |s.workers| && ShutdownQueued(s'.workers[w])
    ensures s'.workers[w].dispatches + Budget(s'.workers[w]) <= s.workers[w].dispatches + Budget(s.workers[w])
    ensures s'.workers[w].dispatches <= s.workers[w].dispatches + 1
    decreases |steps|
  {
    hide Inv, Apply, Enabled, Moves, Disturbed, ShutdownQueued;
    if steps != [] {
      var s1 := Apply(h, s, steps[0]);
      StepInv(h, s, steps[0]);
      StepOfWorker(h, s, steps[0], w);
      BudgetStep(s.workers[w], s1.workers[w]);
      AtMostOneMoreDispatch(h, s1, steps[1..], s', w);
    }
  }

  // ---- spawn requests ahead of the shutdown request ----

  /** Position `p` of the control queue is the request to spawn `actor` as `id`, with no shutdown request
      before it. */
  ghost predicate AheadAt(control: seq<Control>, p: nat, id: ActorId, actor: State) {
    && p < |control| && control[p] == SpawnActor(id, actor)
    && forall r :: 0 <= r < p ==> control[r].SpawnActor?
  }

  ghost predicate Ahead(x: Worker, id: ActorId, actor: State) {
    !ShuttingDown(x.phase) && exists p: nat :: AheadAt(x.control, p, id, actor)
  }

  /** The actor has entered the map of worker `w` and its spawn call has been answered. */
  ghost predicate Answered(s: World, id: ActorId, actor: State, w: nat) {
    && id in s.home && s.home[id] == w && id in s.births && s.births[id] == actor
    && (id in s.confirmed || id in s.addrs)
  }

  lemma DisturbedAhead(x: Worker, x': Worker, id: ActorId, actor: State)
    requires Ahead(x, id, actor) && Disturbed(x, x')
    ensures Ahead(x', id, actor)
  {
    var p: nat :| AheadAt(x.control, p, id, actor);
    assert forall r :: 0 <= r <= p ==> x'.control[r] == x.control[r];
    assert AheadAt(x'.control, p, id, actor);
  }

  /** The request keeps its place ahead of any shutdown until it is read. */
  lemma AheadStep(x: Worker, x': Worker, id: ActorId, actor: State)
    requires Ahead(x, id, actor) && (Moves(x, x') || Disturbed(x, x'))
    ensures || Ahead(x', id, actor)
            || (x.phase.ReadControl? && x.control != [] && x.control[0] == SpawnActor(id, actor))
  {
    var p: nat :| AheadAt(x.control, p, id, actor);
    if Disturbed(x, x') {
      DisturbedAhead(x, x', id, actor);
    } else if x.phase.ReadControl? {
      assert x.control[0].SpawnActor?;
      if p > 0 {
        assert forall r :: 0 <= r < p ==> x'.control[r] == x.control[r + 1];
        assert AheadAt(x'.control, p - 1, id, actor);
      }
    } else {
      assert AheadAt(x'.control, p, id, actor);
    }
  }

  lemma ConfirmAnswers(s: World, w: nat)
    requires w < |s.workers| && s.workers[w].control != [] && s.workers[w].control[0].SpawnActor?
    ensures Answered(DoControl(s, w), s.workers[w].control[0].id, s.workers[w].control[0].actor, w)
  {
    var id, actor := s.workers[w].control[0].id, s.workers[w].control[0].actor;
    assert DoControl(s, w) == DoConfirm(s, w, id, actor);
  }

  lemma AnsweredStep(h: Behaviour, s: World, step: Step, id: ActorId, actor: State, w: nat)
    requires Inv(h, s) && Enabled(s, step) && Answered(s, id, actor, w)
    ensures Answered(Apply(h, s, step), id, actor, w)
  {
    hide Inv, Apply, Enabled;
    StepLater(h, s, step);
    assert id in Known(Apply(h, s, step));
  }

  lemma AheadOrAnsweredStep(h: Behaviour, s: World, step: Step, id: ActorId, actor: State, w: nat)
    requires Inv(h, s) && Enabled(s, step) && w < |s.workers|
    requires Ahead(s.workers[w], id, actor) || Answered(s, id, actor, w)
    ensures var s' := Apply(h, s, step);
            |s'.workers| == |s.workers| && (Ahead(s'.workers[w], id, actor) || Answered(s', id, actor, w))
  {
    hide Inv, Moves, Disturbed, Ahead, Answered, DoControl;
    StepOfWorker(h, s, step, w);
    if Answered(s, id, actor, w) {
      AnsweredStep(h, s, step, id, actor, w);
    } else {
      AheadStep(s.workers[w], Apply(h, s, step).workers[w], id, actor);
      if !Ahead(Apply(h, s, step).workers[w], id, actor) {
        assert step == ControlStep(w) by { OnlyControlReads(h, s, step, w, id, actor); }
        ConfirmAnswers(s, w);
      }
    }
  }

  /** A request that is no longer ahead has just been read. */
  lemma OnlyControlReads(h: Behaviour, s: World, step: Step, w: nat, id: ActorId, actor: State)
    requires Inv(h, s) && Enabled(s, step) && w < |s.workers| && Ahead(s.workers[w], id, actor)
    requires s.workers[w].phase.ReadControl?
    requires |Apply(h, s, step).workers| == |s.workers| && !Ahead(Apply(h, s, step).workers[w], id, actor)
    ensures step == ControlStep(w)
  {
    hide Inv, Apply;
    if Performer(step) != Some(w) {
      OthersStep(h, s, step, w);
      DisturbedAhead(s.workers[w], Apply(h, s, step).workers[w], id, actor);
    }
  }

  /** Spawn requests queued ahead of a shutdown request are all carried out: by the time the
      worker begins to stop, the actor is placed and the caller has its answer. */
  lemma {:induction false} AheadIsAnswered(h: Behaviour, s: World, steps: seq<Step>, s': World, id: ActorId,
                                           actor: State, w: nat)
    requires Inv(h, s) && Run(h, s, steps, s') && w < |s.workers|
    requires Ahead(s.workers[w], id, actor) || Answered(s, id, actor, w)
    ensures |s'.workers| == |s.workers| && (Ahead(s'.workers[w], id, actor) || Answered(s', id, actor, w))
    ensures ShuttingDown(s'.workers[w].phase) ==> Answered(s', id, actor, w)
    decreases |steps|
  {
    hide Inv, Apply, Enabled, Answered;
    if steps != [] {
      StepInv(h, s, steps[0]);
      AheadOrAnsweredStep(h, s, steps[0], id, actor, w);
      AheadIsAnswered(h, Apply(h, s, steps[0]), steps[1..], s', id, actor, w);
    }
  }

  // ---- who is stopped ----

  /** When a worker has exited, each actor ever placed on it has had its stopped hook run, once,
      or entered the map after the shutdown snapshot was taken; the latter are exactly the actors
      still in the map. */
  lemma ExitStopsAll(h: Behaviour, s: World, w: nat, id: ActorId)
    requires Inv(h, s) && w < |s.workers| && s.workers[w].phase.Exited? && id in s.home && s.home[id] == w
    ensures id in s.stops <==> id !in s.workers[w].late
    ensures id in s.workers[w].late <==> id in s.workers[w].actors
    ensures NoDuplicates(s.stops)
  {
    hide Mail.MailOk, History.HistoryOk;
    assert Places.WorkerPlaces(s.place, w, s.workers[w]);
    assert Places.AtHome(s.place, id, w);
  }

  /** Only a child that a client's `started` hook inserts into a stopping worker comes late. */
  lemma LateOnlyByClientHook(h: Behaviour, s: World, step: Step, w: nat, id: ActorId)
    requires Inv(h, s) && Enabled(s, step) && w < |s.workers| && |Apply(h, s, step).workers| == |s.workers|
    requires id in Apply(h, s, step).workers[w].late && id !in s.workers[w].late
    ensures step.ChildInsert? && step.id == id && s.starting[id].worker == w && s.starting[id].starter == ByClientHook
    ensures ShuttingDown(s.workers[w].phase)
  {
    hide Inv, SendersGone;
    if step.ChildInsert? {
    } else {
      hide Apply, Enabled;
      StepOfWorker(h, s, step, w);
      if Performer(step) != Some(w) {
        OthersStep(h, s, step, w);
      }
    }
  }

  /** The step inserts a child into worker `w` after that worker took its shutdown snapshot. */
  predicate LateInsert(s: World, step: Step, w: nat) {
    && step.ChildInsert? && step.id in s.starting && s.starting[step.id].worker == w < |s.workers|
    && ShuttingDown(s.workers[w].phase)
  }

  /** No spawn races with the shutdown of worker `w`. */
  ghost predicate NoRace(h: Behaviour, s: World, steps: seq<Step>, w: nat)
    decreases |steps|
  {
    steps == []
    || (Enabled(s, steps[0]) && !LateInsert(s, steps[0], w) && NoRace(h, Apply(h, s, steps[0]), steps[1..], w))
  }

  lemma InsertLate(s: World, id: ActorId, actor: State, w: nat)
    requires id in s.starting && s.starting[id].worker < |s.workers| && w < |s.workers|
    ensures var s' := DoChildInsert(s, id, actor);
            && |s'.workers| == |s.workers|
            && s'.workers[w].late == s.workers[w].late + (if LateInsert(s, ChildInsert(id, actor), w) then {id} else {})
  {
  }

  /** The latecomers of a worker are the children inserted late, and nobody leaves them. */
  lemma LateStep(h: Behaviour, s: World, step: Step, w: nat)
    requires Inv(h, s) && Enabled(s, step) && w < |s.workers|
    ensures |Apply(h, s, step).workers| == |s.workers|
    ensures Apply(h, s, step).workers[w].late
         == s.workers[w].late + (if LateInsert(s, step, w) then {step.id} else {})
  {
    hide Inv, DoChildInsert, LateInsert, Queued, SendersGone;
    if step.ChildInsert? {
      InsertLate(s, step.id, step.actor, w);
    } else {
      assert !LateInsert(s, step, w) by { OnlyChildInsert(s, step, w); }
      hide Apply, Enabled;
      StepOfWorker(h, s, step, w);
      if Performer(step) != Some(w) {
        OthersStep(h, s, step, w);
      }
    }
  }

  lemma OnlyChildInsert(s: World, step: Step, w: nat)
    requires !step.ChildInsert?
    ensures !LateInsert(s, step, w)
  {
  }

  /** A run leaves latecomers behind exactly if there were some or a spawn raced with shutdown. */
  lemma {:induction false} RaceLeavesLate(h: Behaviour, s: World, steps: seq<Step>, s': World, w: nat)
    requires Inv(h, s) && Run(h, s, steps, s') && w < |s.workers|
    ensures |s'.workers| == |s.workers| && s.workers[w].late <= s'.workers[w].late
    ensures s'.workers[w].late == {} <==> s.workers[w].late == {} && NoRace(h, s, steps, w)
    decreases |steps|
  {
    hide Inv, Apply, Enabled, LateInsert;
    if steps != [] {
      StepInv(h, s, steps[0]);
      LateStep(h, s, steps[0], w);
      RaceLeavesLate(h, Apply(h, s, steps[0]), steps[1..], s', w);
    }
  }

  /** A child inserted into a worker that is shutting down is never stopped: when the worker has
      exited, in any continuation, the child's stopped hook has not run. */
  lemma LateIsNeverStopped(h: Behaviour, s: World, id: ActorId, actor: State, w: nat, steps: seq<Step>, s': World)
    requires Inv(h, s) && Enabled(s, ChildInsert(id, actor)) && LateInsert(s, ChildInsert(id, actor), w)
    requires Run(h, Apply(h, s, ChildInsert(id, actor)), steps, s')
    ensures w < |s'.workers| && id in s'.home && s'.home[id] == w
    ensures s'.workers[w].phase.Exited? ==> id !in s'.stops && id in s'.workers[w].actors
  {
    var s1 := Apply(h, s, ChildInsert(id, actor));
    ChildInsertHome(s, id, actor);
    assert s1.home == DoChildInsert(s, id, actor).home && s.starting[id].worker == w;
    LateStep(h, s, ChildInsert(id, actor), w);
    hide Inv, Apply, Enabled, Run, LateInsert;
    StepInv(h, s, ChildInsert(id, actor));
    RaceLeavesLate(h, s1, steps, s', w);
    RunInv(h, s1, steps, s');
    RunLater(h, s1, steps, s');
    if s'.workers[w].phase.Exited? {
      ExitStopsAll(h, s', w, id);
    }
  }

  lemma LateIsAtHome(h: Behaviour, s: World, w: nat, id: ActorId)
    requires Inv(h, s) && w < |s.workers| && s.workers[w].phase.Exited? && id in s.workers[w].late
    ensures id in s.home && s.home[id] == w
  {
    hide Mail.MailOk, History.HistoryOk;
    assert Places.WorkerPlaces(s.place, w, s.workers[w]);
    assert Places.At(s.place, id, InMap(w));
    assert Places.AtHome(s.place, id, w);
    assert Places.AtHome(s.place, id, s.home[id]);
  }

  /** Over every run, when a worker has exited: each actor ever placed on it has been stopped if and
      only if no spawn raced with its shutdown. */
  lemma AllStoppedIff(h: Behaviour, n: nat, range: Range, steps: seq<Step>, s: World, w: nat)
    requires Run(h, Init(n, range), steps, s) && w < |s.workers| && s.workers[w].phase.Exited?
    ensures (forall id :: id in s.home && s.home[id] == w ==> id in s.stops) <==> NoRace(h, Init(n, range), steps, w)
  {
    hide Inv, Run, NoRace;
    InitInv(h, n, range);
    RunInv(h, Init(n, range), steps, s);
    RunLater(h, Init(n, range), steps, s);
    RaceLeavesLate(h, Init(n, range), steps, s, w);
    assert Init(n, range).workers[w].late == {};
    forall id | id in s.home && s.home[id] == w ensures id in s.stops <==> id !in s.workers[w].late {
      ExitStopsAll(h, s, w, id);
    }
    forall id | id in s.workers[w].late ensures id in s.home && s.home[id] == w {
      LateIsAtHome(h, s, w, id);
    }
    if s.workers[w].late != {} {
      var id :| id in s.workers[w].late;
      assert id in s.home && s.home[id] == w && id !in s.stops;
    }
  }

  /** If no spawn races with the shutdown, then when a worker has exited every actor ever placed
      on it has been stopped exactly once, and none is left in its map. */
  lemma CleanShutdown(h: Behaviour, n: nat, range: Range, steps: seq<Step>, s: World, w: nat, id: ActorId)
    requires Run(h, Init(n, range), steps, s) && NoRace(h, Init(n, range), steps, w)
    requires w < |s.workers| && s.workers[w].phase.Exited? && id in s.home && s.home[id] == w
    ensures id in s.stops && id !in s.workers[w].actors
    ensures forall i, j :: 0 <= i < |s.stops| && 0 <= j < |s.stops| && s.stops[i] == id && s.stops[j] == id ==> i == j
  {
    hide Inv, Run, NoRace;
    AllStoppedIff(h, n, range, steps, s, w);
    InitInv(h, n, range);
    RunInv(h, Init(n, range), steps, s);
    ExitStopsAll(h, s, w, id);
  }

  // ---- what clients can do about the race ----

  /** No client is inside a `started` hook that can spawn on worker `w`. */
  predicate NoHookAt(s: World, w: nat) {
    forall id :: id in s.starting && s.starting[id].worker == w ==> s.starting[id].starter == ByWorker
  }

  /** A `Runtime::spawn` is placed on worker `w`. */
  predicate PlacedAt(s: World, step: Step, w: nat) {
    step.PickWorker? && |s.workers| > 0 && s.nextWorker % |s.workers| == w
  }

  /** When the shutdown of worker `w` is requested no client spawn placed there is inside its started
      hook, and none is placed there later. */
  ghost predicate KeepAway(h: Behaviour, s: World, steps: seq<Step>, w: nat, requested: bool)
    decreases |steps|
  {
    steps == []
    || (&& Enabled(s, steps[0])
        && (steps[0] == RequestShutdown(w) ==> NoHookAt(s, w))
        && (requested ==> !PlacedAt(s, steps[0], w))
        && KeepAway(h, Apply(h, s, steps[0]), steps[1..], w, requested || steps[0] == RequestShutdown(w)))
  }

  /** Without a request there is no shutdown, and after one no client is inside a hook. */
  ghost predicate Orderly(s: World, w: nat, requested: bool) {
    w < |s.workers| && if requested then NoHookAt(s, w) else !ShutdownQueued(s.workers[w])
  }

  lemma NoHookStep(h: Behaviour, s: World, step: Step, w: nat)
    requires Enabled(s, step) && NoHookAt(s, w) && !PlacedAt(s, step, w)
    ensures NoHookAt(Apply(h, s, step), w)
  {
    SpawnsStep(h, s, step);
    hide Apply;
  }

  lemma OrderlyStep(h: Behaviour, s: World, step: Step, w: nat, requested: bool)
    requires Inv(h, s) && Enabled(s, step) && Orderly(s, w, requested)
    requires step == RequestShutdown(w) ==> NoHookAt(s, w)
    requires requested ==> !PlacedAt(s, step, w)
    ensures Orderly(Apply(h, s, step), w, requested || step == RequestShutdown(w))
    ensures !LateInsert(s, step, w)
  {
    hide Inv, NoHookAt;
    OnlyRequests(h, s, step, w, Shutdown);
    if requested || step == RequestShutdown(w) {
      NoHookStep(h, s, step, w);
    } else {
      hide Enabled, Apply;
      StopsOnlyOnRequest(h, s, step, w);
    }
    assert !LateInsert(s, step, w) by {
      if LateInsert(s, step, w) {
        assert requested;
        HookSpawnsLate(s, step, w);
      }
    }
  }

  lemma HookSpawnsLate(s: World, step: Step, w: nat)
    requires Enabled(s, step) && LateInsert(s, step, w)
    ensures !NoHookAt(s, w)
  {
  }

  lemma {:induction false} NoRaceWhenOrderly(h: Behaviour, s: World, steps: seq<Step>, w: nat, requested: bool)
    requires Inv(h, s) && Orderly(s, w, requested) && KeepAway(h, s, steps, w, requested)
    ensures NoRace(h, s, steps, w)
    decreases |steps|
  {
    hide Inv, Apply, Enabled, Orderly, NoHookAt, PlacedAt, LateInsert;
    if steps != [] {
      StepInv(h, s, steps[0]);
      OrderlyStep(h, s, steps[0], w, requested);
      var requested' := requested || steps[0] == RequestShutdown(w);
      NoRaceWhenOrderly(h, Apply(h, s, steps[0]), steps[1..], w, requested');
    }
  }

  /** Clients can rule the race out: if none of them is inside the started hook of a spawn placed on
      worker `w` when its shutdown is requested, and none of their spawns is placed there later, then no
      spawn races, and at exit every actor ever placed there has been stopped, exactly once. */
  lemma ClientsCanPreventRace(h: Behaviour, n: nat, range: Range, steps: seq<Step>, s: World, w: nat)
    requires w < n && Run(h, Init(n, range), steps, s) && KeepAway(h, Init(n, range), steps, w, false)
    ensures NoRace(h, Init(n, range), steps, w)
    ensures w < |s.workers| && (s.workers[w].phase.Exited? ==> NoDuplicates(s.stops))
    ensures s.workers[w].phase.Exited? ==> forall id :: id in s.home && s.home[id] == w ==> id in s.stops
  {
    var s0 := Init(n, range);
    assert s0.workers[w] == FreshWorker();
    InitInv(h, n, range);
    NoRaceWhenOrderly(h, s0, steps, w, false);
    hide Init, Inv, Run, KeepAway, NoRace;
    RaceLeavesLate(h, s0, steps, s, w);
    if s.workers[w].phase.Exited? {
      AllStoppedIff(h, n, range, steps, s, w);
      RunInv(h, s0, steps, s);
      InvStops(h, s);
    }
  }

  lemma InvStops(h: Behaviour, s: World)
    requires Inv(h, s)
    ensures NoDuplicates(s.stops)
  {
  }

  // ---- the race happens ----

  /** One worker in state `x`, nobody stopped, and the next identity. */
  ghost predicate Lone(s: World, x: Worker, nextId: nat) {
    s.workers == [x] && s.stops == [] && s.nextId == nextId
  }

  lemma AllocateOnce(h: Behaviour, s: World)
    requires Lone(s, FreshWorker(), 1)
    ensures Enabled(s, SpawnAllocate)
    ensures Lone(Apply(h, s, SpawnAllocate), FreshWorker(), 2) && 1 in Apply(h, s, SpawnAllocate).unpicked
  {
  }

  lemma PickOnce(h: Behaviour, s: World)
    requires Lone(s, FreshWorker(), 2) && 1 in s.unpicked
    ensures Enabled(s, PickWorker(1))
    ensures var s' := Apply(h, s, PickWorker(1));
            Lone(s', FreshWorker(), 2) && 1 in s'.starting && s'.starting[1] == Starting(0, ByRuntime)
  {
    assert s.nextWorker % 1 == 0;
  }

  lemma HookBegins(h: Behaviour, s: World)
    requires Lone(s, FreshWorker(), 2) && 1 in s.starting && s.starting[1] == Starting(0, ByRuntime)
    ensures Enabled(s, ChildBegin(0, Some(1)))
    ensures var s' := Apply(h, s, ChildBegin(0, Some(1)));
            Lone(s', FreshWorker(), 3) && 2 in s'.starting && s'.starting[2] == Starting(0, ByClientHook)
  {
  }

  lemma ShutdownComes(h: Behaviour, s: World)
    requires Lone(s, FreshWorker(), 3) && 2 in s.starting && s.starting[2] == Starting(0, ByClientHook)
    ensures Enabled(s, RequestShutdown(0))
    ensures var s' := Apply(h, s, RequestShutdown(0));
            && Lone(s', FreshWorker().(control := [Shutdown]), 3)
            && 2 in s'.starting && s'.starting[2] == Starting(0, ByClientHook)
  {
    var x := s.workers[0];
    var x' := x.(control := x.control + [Shutdown]);
    assert x.control + [Shutdown] == [Shutdown];
    assert s.workers[0 := x'] == [x'];
  }

  lemma StopBegins(h: Behaviour, s: World)
    requires Lone(s, FreshWorker().(control := [Shutdown]), 3)
    requires 2 in s.starting && s.starting[2] == Starting(0, ByClientHook)
    ensures Enabled(s, ControlStep(0))
    ensures var s' := Apply(h, s, ControlStep(0));
            && Lone(s', FreshWorker().(phase := Stopping({})), 3)
            && 2 in s'.starting && s'.starting[2] == Starting(0, ByClientHook)
  {
    assert Apply(h, s, ControlStep(0)) == DoBeginShutdown(s, 0) by {
      hide DoBeginShutdown;
    }
    hide Apply;
    var x := s.workers[0];
    var x' := x.(control := x.control[1..], phase := Stopping(x.actors.Keys));
    assert x.control[1..] == [] && x.actors.Keys == {};
    assert s.workers[0 := x'] == [x'];
  }

  lemma ChildComesLate(h: Behaviour, s: World, actor: State)
    requires Lone(s, FreshWorker().(phase := Stopping({})), 3)
    requires 2 in s.starting && s.starting[2] == Starting(0, ByClientHook)
    ensures Enabled(s, ChildInsert(2, actor))
    ensures var s' := Apply(h, s, ChildInsert(2, actor));
            && s'.workers != [] && s'.workers[0].phase == Stopping({}) && s'.stops == []
            && 2 in s'.home && s'.home[2] == 0
  {
  }

  lemma ThreadEnds(h: Behaviour, s: World)
    requires s.workers != [] && s.workers[0].phase == Stopping({}) && s.stops == [] && 2 in s.home && s.home[2] == 0
    ensures Enabled(s, FinishStopping(0))
    ensures var s' := Apply(h, s, FinishStopping(0));
            && s'.workers != [] && s'.workers[0].phase.Exited? && s'.stops == []
            && 2 in s'.home && s'.home[2] == 0
  {
    assert Apply(h, s, FinishStopping(0)) == DoFinishStopping(s, 0) by {
      hide DoFinishStopping;
    }
    hide Apply;
  }

  lemma HookRun(h: Behaviour, range: Range) returns (steps: seq<Step>, s: World)
    ensures Run(h, Init(1, range), steps, s) && Lone(s, FreshWorker().(control := [Shutdown]), 3)
    ensures 2 in s.starting && s.starting[2] == Starting(0, ByClientHook)
  {
    var s0 := Init(1, range);
    assert Lone(s0, FreshWorker(), 1);
    RunNothing(h, s0);
    hide Apply, Enabled, Run, Lone, Init;
    AllocateOnce(h, s0);
    var s1 := Apply(h, s0, SpawnAllocate);
    RunSnoc(h, s0, [], s0, SpawnAllocate);
    steps := [] + [SpawnAllocate];
    PickOnce(h, s1);
    var s2 := Apply(h, s1, PickWorker(1));
    RunSnoc(h, s0, steps, s1, PickWorker(1));
    steps := steps + [PickWorker(1)];
    HookBegins(h, s2);
    var s3 := Apply(h, s2, ChildBegin(0, Some(1)));
    RunSnoc(h, s0, steps, s2, ChildBegin(0, Some(1)));
    steps := steps + [ChildBegin(0, Some(1))];
    ShutdownComes(h, s3);
    RunSnoc(h, s0, steps, s3, RequestShutdown(0));
    steps, s := steps + [RequestShutdown(0)], Apply(h, s3, RequestShutdown(0));
  }

  /** The race does happen: a client is inside the started hook of a spawn placed on worker 0, the
      hook spawns a child there, and the worker begins to shut down before, and exits after, the
      insertion of the child. */
  lemma UnstoppedChild(h: Behaviour, range: Range, actor: State) returns (steps: seq<Step>, s: World)
    ensures Run(h, Init(1, range), steps, s)
    ensures s.workers != [] && s.workers[0].phase.Exited? && 2 in s.home && s.home[2] == 0 && 2 !in s.stops
  {
    hide Apply, Enabled, Run, Lone, Init;
    var s0 := Init(1, range);
    var s4;
    steps, s4 := HookRun(h, range);
    StopBegins(h, s4);
    var s5 := Apply(h, s4, ControlStep(0));
    RunSnoc(h, s0, steps, s4, ControlStep(0));
    steps := steps + [ControlStep(0)];
    ChildComesLate(h, s5, actor);
    var s6 := Apply(h, s5, ChildInsert(2, actor));
    RunSnoc(h, s0, steps, s5, ChildInsert(2, actor));
    steps := steps + [ChildInsert(2, actor)];
    ThreadEnds(h, s6);
    RunSnoc(h, s0, steps, s6, FinishStopping(0));
    steps, s := steps + [FinishStopping(0)], Apply(h, s6, FinishStopping(0));
  }
}
