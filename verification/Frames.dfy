/** What each step does to the counters, to the spawns under way and to the log of stops. */
module Frames {
  import opened Actors
  import opened SchedulerSpec
  import opened RuntimeModel

  /** The counters, the spawns under way, and whether the runtime handle is held. */
  datatype Spawns = Spawns(
    nextId: nat,
    nextWorker: nat,
    pickRange: Range,
    unpicked: set<ActorId>,
    starting: map<ActorId, Starting>,
    handleHeld: bool)

  function SpawnsOf(s: World): Spawns {
    Spawns(s.nextId, s.nextWorker, s.pickRange, s.unpicked, s.starting, s.handleHeld)
  }

  /** What becomes of them in a step: only six kinds of step matter. */
  function SpawnsAfter(s: World, step: Step): Spawns
    requires Enabled(s, step)
  {
    var c := SpawnsOf(s);
    match step
    case SpawnAllocate => c.(nextId := c.nextId + 1, unpicked := c.unpicked + {c.nextId})
    case PickWorker(id) =>
      c.(nextWorker := (c.nextWorker + 1) % c.pickRange, unpicked := c.unpicked - {id},
         starting := c.starting[id := Starting(c.nextWorker % |s.workers|, ByRuntime)])
    case SpawnQueue(id, _) => c.(starting := c.starting - {id})
    case ChildBegin(w, parent) =>
      var st := Starting(w, if parent.None? then ByWorker else ByClientHook);
      c.(nextId := c.nextId + 1, starting := c.starting[c.nextId := st])
    case ChildInsert(id, _) => c.(starting := c.starting - {id})
    case DropHandle => c.(handleHeld := false)
    case _ => c
  }

  /** The actor whose stopped hook the step runs, if any: one whose own handler asked to stop or
      panicked, or one that the shutdown of its worker removes. */
  function StoppedBy(h: Behaviour, s: World, step: Step): seq<ActorId>
    requires Enabled(s, step)
  {
    match step
    case FinishTurn(w) =>
      var p := s.workers[w].phase;
      if h(p.envelope.target, p.actor, p.envelope.msg).Continued? then [] else [p.envelope.target]
    case StopOne(w, id) => if id in s.workers[w].actors then [id] else []
    case _ => []
  }

  /** The step has nothing to do with spawns, and stops exactly `stopped`. */
  ghost predicate Frame(s: World, s': World, stopped: seq<ActorId>) {
    |s'.workers| == |s.workers| && SpawnsOf(s') == SpawnsOf(s) && s'.stops == s.stops + stopped
  }

  lemma PutFrame(s: World, w: nat, x: Worker)
    requires w < |s.workers|
    ensures Frame(s, Put(s, w, x), [])
  {
  }

  lemma TakeFrame(s: World, w: nat, q: Sched, e: Envelope)
    requires w < |s.workers|
    ensures e.target in s.workers[w].actors ==> Frame(s, DoTake(s, w, q, e), [])
    ensures Frame(s, DoDropAbsent(s, w, q, e), [])
  {
  }

  lemma TurnFrame(s: World, w: nat)
    requires w < |s.workers|
    ensures Frame(s, DoTurn(s, w), [])
  {
    hide Frame, DoTake, DoDropAbsent, Put, NextReady, Dequeue, RequeueIfReady;
    var x := s.workers[w];
    match NextReady(x.sched)
    case (q, None) => PutFrame(s, w, x.(sched := q, phase := AwaitMessage));
    case (q, Some(id)) =>
      match Dequeue(q, id)
      case (q', None) => PutFrame(s, w, x.(sched := q', phase := ReadControl));
      case (q', Some(e)) =>
        TakeFrame(s, w, q', e);
        TakeFrame(s, w, RequeueIfReady(q', id), e);
  }

  lemma PutBackFrame(s: World, w: nat, actor: State, reply: Reply)
    requires w < |s.workers| && s.workers[w].phase.Handling?
    ensures Frame(s, DoPutBack(s, w, actor, reply), [])
  {
  }

  lemma StoppedFrame(s: World, w: nat, f: Fate)
    requires w < |s.workers| && s.workers[w].phase.Handling?
    ensures Frame(s, DoFinishStopped(s, w, f), [s.workers[w].phase.envelope.target])
  {
  }

  lemma FinishFrame(h: Behaviour, s: World, w: nat)
    requires Enabled(s, FinishTurn(w))
    ensures Frame(s, DoFinish(h, s, w), StoppedBy(h, s, FinishTurn(w)))
  {
    hide Frame, DoPutBack, DoFinishStopped;
    var x := s.workers[w];
    match h(x.phase.envelope.target, x.phase.actor, x.phase.envelope.msg)
    case Continued(actor, reply) => PutBackFrame(s, w, actor, reply);
    case StopRequested(_, reply) => StoppedFrame(s, w, Handled(reply));
    case Panicked => StoppedFrame(s, w, Crashed);
  }

  lemma ConfirmFrame(s: World, w: nat, id: ActorId, actor: State)
    requires w < |s.workers| && s.workers[w].control != []
    ensures Frame(s, DoConfirm(s, w, id, actor), [])
  {
  }

  lemma ControlFrame(s: World, w: nat)
    requires w < |s.workers|
    ensures Frame(s, DoControl(s, w), [])
  {
    hide Frame, DoConfirm, Put;
    var x := s.workers[w];
    if x.control == [] {
      PutFrame(s, w, x.(phase := DrainChannel));
    } else {
      match x.control[0]
      case SpawnActor(id, actor) => ConfirmFrame(s, w, id, actor);
      case Shutdown => PutFrame(s, w, x.(control := x.control[1..], phase := Stopping(x.actors.Keys)));
    }
  }

  lemma EnqueueFrame(s: World, w: nat, p: Phase)
    requires w < |s.workers|
    ensures s.workers[w].channel != [] ==> Frame(s, DoEnqueue(s, w, p), [])
    ensures Frame(s, SetPhase(s, w, p), [])
  {
  }

  lemma DrainFrame(s: World, w: nat)
    requires w < |s.workers|
    ensures Frame(s, DoDrain(s, w), [])
  {
    hide Frame, DoEnqueue, SetPhase;
    EnqueueFrame(s, w, DrainChannel);
    EnqueueFrame(s, w, TakeTurn);
  }

  lemma StopOneFrame(s: World, w: nat, id: ActorId)
    requires Enabled(s, StopOne(w, id))
    ensures Frame(s, DoStopOne(s, w, id), if id in s.workers[w].actors then [id] else [])
  {
  }

  lemma ExitFrame(s: World, w: nat)
    requires w < |s.workers|
    ensures Frame(s, DoFinishStopping(s, w), [])
  {
  }

  lemma SendFrame(s: World, target: ActorId, msg: Msg)
    requires CanAccept(s, target)
    ensures Frame(s, DoSend(s, target, msg), [])
    ensures forall w :: 0 <= w < |s.workers| && Unblocked(s.workers[w].phase) ==>
                          Frame(s, DoBlockingSend(s, w, target, msg), [])
  {
  }

  lemma RegistryFrame(s: World, id: ActorId)
    requires id in s.confirmed
    ensures Frame(s, DoSpawnReturn(s, id), [])
  {
  }

  /** The steps of worker threads, senders and shutdown requests. */
  lemma FrameStep(h: Behaviour, s: World, step: Step)
    requires Enabled(s, step)
    requires !step.SpawnAllocate? && !step.PickWorker? && !step.SpawnQueue? && !step.ChildBegin? && !step.ChildInsert?
    requires !step.DropHandle?
    ensures Frame(s, Apply(h, s, step), StoppedBy(h, s, step))
  {
    hide Frame, DoTurn, DoFinish, DoControl, DoDrain, DoEnqueue, SetPhase, DoStopOne, DoFinishStopping, DoSend;
    hide DoBlockingSend, DoSpawnReturn, Put, CanAccept, Queued, SendersGone;
    match step
    case TurnStep(w) => TurnFrame(s, w);
    case FinishTurn(w) => FinishFrame(h, s, w);
    case ControlStep(w) => ControlFrame(s, w);
    case DrainStep(w) => DrainFrame(s, w);
    case Send(target, msg) => SendFrame(s, target, msg);
    case BlockingSend(_, target, msg) => SendFrame(s, target, msg);
    case SpawnReturn(id) => RegistryFrame(s, id);
    case AwaitConfirm(w, id) => EnqueueFrame(s, w, s.workers[w].phase.(waitingFor := ForConfirm(id)));
    case Resume(w) => EnqueueFrame(s, w, s.workers[w].phase.(waitingFor := Free));
    case RequestShutdown(w) => PutFrame(s, w, s.workers[w].(control := s.workers[w].control + [Shutdown]));
    case WaitReceive(w) => EnqueueFrame(s, w, ReadControl);
    case WaitTimeout(w) => EnqueueFrame(s, w, ReadControl);
    case WaitDisconnected(w) => EnqueueFrame(s, w, Stopping(s.workers[w].actors.Keys));
    case StopOne(w, id) => StopOneFrame(s, w, id);
    case FinishStopping(w) => ExitFrame(s, w);
  }

  /** The step changes the spawns under way to `c` and stops nobody. */
  ghost predicate SpawnsOnly(s: World, s': World, c: Spawns) {
    |s'.workers| == |s.workers| && SpawnsOf(s') == c && s'.stops == s.stops
  }

  lemma QueueSpawns(s: World, id: ActorId, actor: State)
    requires id in s.starting && s.starting[id].worker < |s.workers|
    ensures SpawnsOnly(s, DoSpawnQueue(s, id, actor), SpawnsOf(s).(starting := s.starting - {id}))
  {
    hide DoQueueSpawn, DoAbandonSpawn, SpawnsOnly;
    QueuedSpawn(s, id, actor, s.starting[id].worker);
  }

  lemma QueuedSpawn(s: World, id: ActorId, actor: State, w: nat)
    requires w < |s.workers|
    ensures SpawnsOnly(s, DoQueueSpawn(s, id, actor, w), SpawnsOf(s).(starting := s.starting - {id}))
    ensures SpawnsOnly(s, DoAbandonSpawn(s, id), SpawnsOf(s).(starting := s.starting - {id}))
  {
  }

  lemma InsertSpawns(s: World, id: ActorId, actor: State)
    requires id in s.starting && s.starting[id].worker < |s.workers|
    ensures SpawnsOnly(s, DoChildInsert(s, id, actor), SpawnsOf(s).(starting := s.starting - {id}))
  {
  }

  /** What a step does to the counters, the spawns under way and the stops. */
  lemma SpawnsStep(h: Behaviour, s: World, step: Step)
    requires Enabled(s, step)
    ensures |Apply(h, s, step).workers| == |s.workers|
    ensures SpawnsOf(Apply(h, s, step)) == SpawnsAfter(s, step)
    ensures Apply(h, s, step).stops == s.stops + StoppedBy(h, s, step)
  {
    hide DoSpawnQueue, DoChildInsert, Queued, SendersGone;
    match step
    case SpawnQueue(id, actor) => QueueSpawns(s, id, actor);
    case ChildInsert(id, actor) => InsertSpawns(s, id, actor);
    case SpawnAllocate =>
    case PickWorker(_) =>
    case ChildBegin(_, _) =>
    case DropHandle =>
    case _ =>
      FrameStep(h, s, step);
      hide Apply, Enabled;
  }
}
