/** Blocking calls made by handlers: a send to the handler's own worker and a runtime spawn placed
    on it never return, and blocking only upwards in some ranking of the workers never stops the
    whole runtime. */
module Blocking {
  import opened Actors
  import opened SchedulerSpec
  import opened RuntimeModel
  import opened Mail
  import opened Reachable
  import Places

  /** The worker thread that performs a step, if one does. */
  function Performer(step: Step): Option<nat> {
    match step
    case BlockingSend(w, _, _) => Some(w)
    case AwaitConfirm(w, _) => Some(w)
    case Resume(w) => Some(w)
    case ControlStep(w) => Some(w)
    case DrainStep(w) => Some(w)
    case TurnStep(w) => Some(w)
    case FinishTurn(w) => Some(w)
    case WaitReceive(w) => Some(w)
    case WaitTimeout(w) => Some(w)
    case WaitDisconnected(w) => Some(w)
    case StopOne(w, _) => Some(w)
    case FinishStopping(w) => Some(w)
    case _ => None
  }

  /** What the other threads can do to a worker: fill its channels and its map. */
  ghost predicate Disturbed(x: Worker, x': Worker) {
    && x'.sched == x.sched && x'.phase == x.phase && x'.dispatches == x.dispatches && x'.holdsShared == x.holdsShared
    && x.control <= x'.control && x.channel <= x'.channel
  }

  /** A disturbance that leaves the map alone. */
  ghost predicate QuietlyDisturbed(x: Worker, x': Worker) {
    Disturbed(x, x') && x'.actors == x.actors && x'.late == x.late
  }

  lemma PutLocal(s: World, v: nat, x: Worker, w: nat)
    requires v < |s.workers| && w < |s.workers| && v != w
    ensures |Put(s, v, x).workers| == |s.workers| && Put(s, v, x).workers[w] == s.workers[w]
  {
  }

  lemma TakeLocal(s: World, v: nat, q: Sched, e: Envelope, w: nat)
    requires v < |s.workers| && w < |s.workers| && v != w
    ensures |DoDropAbsent(s, v, q, e).workers| == |s.workers| && DoDropAbsent(s, v, q, e).workers[w] == s.workers[w]
    ensures e.target in s.workers[v].actors ==>
              |DoTake(s, v, q, e).workers| == |s.workers| && DoTake(s, v, q, e).workers[w] == s.workers[w]
  {
  }

  lemma TurnLocal(s: World, v: nat, w: nat)
    requires v < |s.workers| && w < |s.workers| && v != w
    ensures |DoTurn(s, v).workers| == |s.workers| && DoTurn(s, v).workers[w] == s.workers[w]
  {
    hide DoTake, DoDropAbsent, Put, NextReady, Dequeue, RequeueIfReady;
    var x := s.workers[v];
    match NextReady(x.sched)
    case (q, None) => PutLocal(s, v, x.(sched := q, phase := AwaitMessage), w);
    case (q, Some(id)) =>
      match Dequeue(q, id)
      case (q', None) => PutLocal(s, v, x.(sched := q', phase := ReadControl), w);
      case (q', Some(e)) =>
        TakeLocal(s, v, q', e, w);
        TakeLocal(s, v, RequeueIfReady(q', id), e, w);
  }

  lemma ReturnLocal(s: World, v: nat, actor: State, reply: Reply, w: nat)
    requires v < |s.workers| && w < |s.workers| && v != w && s.workers[v].phase.Handling?
    ensures |DoPutBack(s, v, actor, reply).workers| == |s.workers|
    ensures DoPutBack(s, v, actor, reply).workers[w] == s.workers[w]
  {
  }

  lemma FinishLocal(h: Behaviour, s: World, v: nat, w: nat)
    requires v < |s.workers| && w < |s.workers| && v != w && s.workers[v].phase.Handling?
    ensures |DoFinish(h, s, v).workers| == |s.workers| && DoFinish(h, s, v).workers[w] == s.workers[w]
  {
    hide DoPutBack, DoFinishStopped;
    var x := s.workers[v];
    match h(x.phase.envelope.target, x.phase.actor, x.phase.envelope.msg)
    case Continued(actor, reply) => ReturnLocal(s, v, actor, reply, w);
    case StopRequested(_, reply) => EndLocal(s, v, Handled(reply), w);
    case Panicked => EndLocal(s, v, Crashed, w);
  }

  lemma EndLocal(s: World, v: nat, f: Fate, w: nat)
    requires v < |s.workers| && w < |s.workers| && v != w && s.workers[v].phase.Handling?
    ensures |DoFinishStopped(s, v, f).workers| == |s.workers| && DoFinishStopped(s, v, f).workers[w] == s.workers[w]
  {
  }

  lemma ConfirmLocal(s: World, v: nat, id: ActorId, actor: State, w: nat)
    requires v < |s.workers| && w < |s.workers| && v != w && s.workers[v].control != []
    ensures |DoConfirm(s, v, id, actor).workers| == |s.workers| && DoConfirm(s, v, id, actor).workers[w] == s.workers[w]
  {
  }

  lemma ControlLocal(s: World, v: nat, w: nat)
    requires v < |s.workers| && w < |s.workers| && v != w
    ensures |DoControl(s, v).workers| == |s.workers| && DoControl(s, v).workers[w] == s.workers[w]
  {
    hide DoConfirm, DoBeginShutdown, Put;
    var x := s.workers[v];
    if x.control == [] {
      PutLocal(s, v, x.(phase := DrainChannel), w);
    } else {
      match x.control[0]
      case SpawnActor(id, actor) => ConfirmLocal(s, v, id, actor, w);
      case Shutdown => BeginShutdownLocal(s, v, w);
    }
  }

  lemma BeginShutdownLocal(s: World, v: nat, w: nat)
    requires v < |s.workers| && w < |s.workers| && v != w && s.workers[v].control != []
    ensures |DoBeginShutdown(s, v).workers| == |s.workers| && DoBeginShutdown(s, v).workers[w] == s.workers[w]
  {
  }

  lemma ShutdownLocal(s: World, v: nat, w: nat, id: ActorId)
    requires v < |s.workers| && w < |s.workers| && v != w
    ensures |DoFinishStopping(s, v).workers| == |s.workers| && DoFinishStopping(s, v).workers[w] == s.workers[w]
    ensures s.workers[v].phase.Stopping? ==>
              |DoStopOne(s, v, id).workers| == |s.workers| && DoStopOne(s, v, id).workers[w] == s.workers[w]
  {
  }

  lemma QueueLocal(s: World, id: ActorId, actor: State, v: nat, w: nat)
    requires v < |s.workers| && w < |s.workers|
    ensures |DoQueueSpawn(s, id, actor, v).workers| == |s.workers|
    ensures QuietlyDisturbed(s.workers[w], DoQueueSpawn(s, id, actor, v).workers[w])
  {
  }

  lemma SpawnQueueLocal(s: World, id: ActorId, actor: State, w: nat)
    requires id in s.starting && s.starting[id].worker < |s.workers| && w < |s.workers|
    ensures |DoSpawnQueue(s, id, actor).workers| == |s.workers|
    ensures QuietlyDisturbed(s.workers[w], DoSpawnQueue(s, id, actor).workers[w])
  {
    hide DoQueueSpawn;
    QueueLocal(s, id, actor, s.starting[id].worker, w);
  }

  lemma SendLocal(s: World, target: ActorId, msg: Msg, w: nat)
    requires CanAccept(s, target) && w < |s.workers|
    ensures |DoSend(s, target, msg).workers| == |s.workers|
    ensures QuietlyDisturbed(s.workers[w], DoSend(s, target, msg).workers[w])
  {
  }

  lemma BlockingSendLocal(s: World, v: nat, target: ActorId, msg: Msg, w: nat)
    requires v < |s.workers| && v != w && Unblocked(s.workers[v].phase) && CanAccept(s, target) && w < |s.workers|
    ensures |DoBlockingSend(s, v, target, msg).workers| == |s.workers|
    ensures QuietlyDisturbed(s.workers[w], DoBlockingSend(s, v, target, msg).workers[w])
  {
    SendLocal(s, target, msg, w);
    assert DoBlockingSend(s, v, target, msg).workers[w] == DoSend(s, target, msg).workers[w];
  }

  lemma ChildInsertLocal(s: World, id: ActorId, actor: State, w: nat)
    requires id in s.starting && s.starting[id].worker < |s.workers| && w < |s.workers|
    ensures |DoChildInsert(s, id, actor).workers| == |s.workers|
    ensures Disturbed(s.workers[w], DoChildInsert(s, id, actor).workers[w])
  {
  }

  lemma UndisturbedLocal(s: World, s': World, w: nat)
    requires w < |s.workers| == |s'.workers| && s'.workers[w] == s.workers[w]
    ensures QuietlyDisturbed(s.workers[w], s'.workers[w])
  {
  }

  /** Steps of worker threads. */
  lemma WorkersStep(h: Behaviour, s: World, step: Step, v: nat, w: nat)
    requires Enabled(s, step) && w < |s.workers| && Performer(step) == Some(v) && v != w && !step.BlockingSend?
    ensures |Apply(h, s, step).workers| == |s.workers| && Apply(h, s, step).workers[w] == s.workers[w]
  {
    hide DoTurn, DoFinish, DoControl, DoStopOne, DoFinishStopping, DoDrain, SendersGone, Queued, Put;
    match step
    case ControlStep(_) => ControlLocal(s, v, w);
    case TurnStep(_) => TurnLocal(s, v, w);
    case FinishTurn(_) => FinishLocal(h, s, v, w);
    case StopOne(_, id) => ShutdownLocal(s, v, w, id);
    case FinishStopping(_) => ShutdownLocal(s, v, w, 0);
    case DrainStep(_) => DrainLocal(s, v, w);
    case WaitReceive(_) =>
      var x := s.workers[v];
      PutLocal(s, v, x.(channel := x.channel[1..], sched := Enqueue(x.sched, x.channel[0]), phase := ReadControl), w);
    case WaitTimeout(_) => PutLocal(s, v, s.workers[v].(phase := ReadControl), w);
    case AwaitConfirm(_, id) =>
      PutLocal(s, v, s.workers[v].(phase := s.workers[v].phase.(waitingFor := ForConfirm(id))), w);
    case Resume(_) => PutLocal(s, v, s.workers[v].(phase := s.workers[v].phase.(waitingFor := Free)), w);
    case WaitDisconnected(_) => PutLocal(s, v, s.workers[v].(phase := Stopping(s.workers[v].actors.Keys)), w);
  }

  lemma DrainLocal(s: World, v: nat, w: nat)
    requires v < |s.workers| && w < |s.workers| && v != w
    ensures |DoDrain(s, v).workers| == |s.workers| && DoDrain(s, v).workers[w] == s.workers[w]
  {
    hide Put;
    var x := s.workers[v];
    if x.channel == [] {
      PutLocal(s, v, x.(phase := TakeTurn), w);
    } else {
      PutLocal(s, v, x.(channel := x.channel[1..], sched := Enqueue(x.sched, x.channel[0]), phase := DrainChannel), w);
    }
  }

  /** Steps of other threads never advance a worker. */
  lemma OthersStep(h: Behaviour, s: World, step: Step, w: nat)
    requires Enabled(s, step) && w < |s.workers| && Performer(step) != Some(w)
    ensures |Apply(h, s, step).workers| == |s.workers| && Disturbed(s.workers[w], Apply(h, s, step).workers[w])
    ensures !step.ChildInsert? ==> QuietlyDisturbed(s.workers[w], Apply(h, s, step).workers[w])
  {
    hide DoChildInsert, DoSpawnQueue, DoSend, DoBlockingSend, SendersGone, Queued, Disturbed;
    match step
    case SpawnQueue(id, actor) => SpawnQueueLocal(s, id, actor, w);
    case ChildInsert(id, actor) => ChildInsertLocal(s, id, actor, w);
    case Send(target, msg) => SendLocal(s, target, msg, w);
    case BlockingSend(v, target, msg) => BlockingSendLocal(s, v, target, msg, w);
    case RequestShutdown(v) => RequestLocal(s, v, w);
    case SpawnAllocate => UndisturbedLocal(s, Apply(h, s, step), w);
    case PickWorker(_) => UndisturbedLocal(s, Apply(h, s, step), w);
    case SpawnReturn(_) => UndisturbedLocal(s, Apply(h, s, step), w);
    case ChildBegin(_, _) => UndisturbedLocal(s, Apply(h, s, step), w);
    case DropHandle => UndisturbedLocal(s, Apply(h, s, step), w);
    case _ =>
      hide Apply, Enabled;
      WorkersStep(h, s, step, Performer(step).value, w);
      UndisturbedLocal(s, Apply(h, s, step), w);
  }

  lemma RequestLocal(s: World, v: nat, w: nat)
    requires v < |s.workers| && w < |s.workers|
    ensures var s' := Put(s, v, s.workers[v].(control := s.workers[v].control + [Shutdown]));
            |s'.workers| == |s.workers| && QuietlyDisturbed(s.workers[w], s'.workers[w])
  {
  }

  // ---- a send to the own worker ----

  /** Worker `w` is suspended in a send whose envelope waits in that same worker. */
  ghost predicate SelfBlocked(s: World, w: nat, t: nat, p: Spot) {
    && w < |s.workers| && s.workers[w].phase.Handling? && s.workers[w].phase.waitingFor == ForReply(t)
    && !p.InSlot? && Holds(s, w, p, t)
  }

  lemma SelfBlockedStep(h: Behaviour, s: World, step: Step, w: nat, t: nat, p: Spot)
    requires Inv(h, s) && Enabled(s, step) && SelfBlocked(s, w, t, p)
    ensures var s' := Apply(h, s, step); SelfBlocked(s', w, t, p) && s'.workers[w].phase == s.workers[w].phase
  {
    hide Inv, Apply;
    HeldIsPending(h, s, w, p, t);
    assert Performer(step) != Some(w);
    OthersStep(h, s, step, w);
  }

  lemma {:induction false} SelfBlockedForever(h: Behaviour, s: World, steps: seq<Step>, s': World, w: nat, t: nat,
                                              p: Spot)
    requires Inv(h, s) && Run(h, s, steps, s') && SelfBlocked(s, w, t, p)
    ensures SelfBlocked(s', w, t, p) && s'.workers[w].phase == s.workers[w].phase && t !in s'.fate
    decreases |steps|
  {
    hide Inv, Apply, Enabled, SelfBlocked;
    if steps == [] {
      assert Holds(s, w, p, t) by { SelfBlockedHolds(s, w, t, p); }
      HeldIsPending(h, s, w, p, t);
    } else {
      StepInv(h, s, steps[0]);
      SelfBlockedStep(h, s, steps[0], w, t, p);
      SelfBlockedForever(h, Apply(h, s, steps[0]), steps[1..], s', w, t, p);
    }
  }

  lemma SelfBlockedHolds(s: World, w: nat, t: nat, p: Spot)
    requires SelfBlocked(s, w, t, p)
    ensures Holds(s, w, p, t)
  {
  }

  lemma SelfSendBlocks(s: World, w: nat, target: ActorId, msg: Msg)
    requires w < |s.workers| && Unblocked(s.workers[w].phase) && CanAccept(s, target) && s.addrs[target] == w
    ensures var s1 := DoBlockingSend(s, w, target, msg);
            && SelfBlocked(s1, w, |s.accepted|, InChannel(|s.workers[w].channel|))
            && s1.workers[w].phase == s.workers[w].phase.(waitingFor := ForReply(|s.accepted|))
  {
  }

  /** A handler that sends synchronously to an actor hosted on its own worker, such as a child it
      spawned, is never resumed, in any continuation. */
  lemma SelfSendNeverReturns(h: Behaviour, s: World, w: nat, target: ActorId, msg: Msg, steps: seq<Step>, s': World)
    requires Inv(h, s) && w < |s.workers| && Unblocked(s.workers[w].phase) && CanAccept(s, target)
    requires s.addrs[target] == w
    requires Run(h, DoBlockingSend(s, w, target, msg), steps, s')
    ensures w < |s'.workers| && |s.accepted| !in s'.fate
    ensures s'.workers[w].phase == s.workers[w].phase.(waitingFor := ForReply(|s.accepted|))
  {
    hide Inv, Run, DoBlockingSend;
    BlockingSendInv(h, s, w, target, msg);
    SelfSendBlocks(s, w, target, msg);
    var spot := InChannel(|s.workers[w].channel|);
    SelfBlockedForever(h, DoBlockingSend(s, w, target, msg), steps, s', w, |s.accepted|, spot);
  }

  lemma BlockingSendInv(h: Behaviour, s: World, w: nat, target: ActorId, msg: Msg)
    requires Inv(h, s) && w < |s.workers| && Unblocked(s.workers[w].phase) && CanAccept(s, target)
    ensures Inv(h, DoBlockingSend(s, w, target, msg))
  {
    hide Inv, DoBlockingSend, SendersGone;
    StepInv(h, s, BlockingSend(w, target, msg));
  }

  // ---- a spawn by the runtime onto the own worker ----

  /** Worker `w` is suspended in a `Runtime::spawn` whose request waits in its own control queue. */
  ghost predicate SelfSpawning(s: World, w: nat, id: ActorId) {
    && w < |s.workers| && s.workers[w].phase.Handling? && s.workers[w].phase.waitingFor == ForConfirm(id)
    && QueuedAt(s, id, w)
  }

  lemma PrefixQueued(control: seq<Control>, control': seq<Control>, id: ActorId)
    requires control <= control' && id in SpawnIds(control)
    ensures id in SpawnIds(control')
  {
    assert control' == control + control'[|control|..];
    Places.SpawnIdsConcat(control, control'[|control|..]);
  }

  lemma SelfSpawningStep(h: Behaviour, s: World, step: Step, w: nat, id: ActorId)
    requires Enabled(s, step) && SelfSpawning(s, w, id)
    ensures var s' := Apply(h, s, step); SelfSpawning(s', w, id) && s'.workers[w].phase == s.workers[w].phase
  {
    hide Apply;
    assert Performer(step) != Some(w);
    OthersStep(h, s, step, w);
    PrefixQueued(s.workers[w].control, Apply(h, s, step).workers[w].control, id);
  }

  lemma {:induction false} SelfSpawningForever(h: Behaviour, s: World, steps: seq<Step>, s': World, w: nat, id: ActorId)
    requires Run(h, s, steps, s') && SelfSpawning(s, w, id)
    ensures SelfSpawning(s', w, id) && s'.workers[w].phase == s.workers[w].phase
    decreases |steps|
  {
    hide Apply, Enabled, SelfSpawning;
    if steps != [] {
      SelfSpawningStep(h, s, steps[0], w, id);
      SelfSpawningForever(h, Apply(h, s, steps[0]), steps[1..], s', w, id);
    }
  }

  lemma AwaitBlocks(h: Behaviour, s: World, w: nat, id: ActorId)
    requires w < |s.workers| && Unblocked(s.workers[w].phase) && QueuedAt(s, id, w)
    ensures Enabled(s, AwaitConfirm(w, id))
    ensures var s1 := Apply(h, s, AwaitConfirm(w, id));
            && SelfSpawning(s1, w, id)
            && s1.workers[w].phase == s.workers[w].phase.(waitingFor := ForConfirm(id))
  {
  }

  /** A handler that calls `Runtime::spawn` when the placement counter picks the handler's own
      worker is never resumed, in any continuation: the worker that should confirm is waiting for
      the confirmation. */
  lemma SelfSpawnNeverReturns(h: Behaviour, s: World, w: nat, id: ActorId, steps: seq<Step>, s': World)
    requires w < |s.workers| && Unblocked(s.workers[w].phase) && QueuedAt(s, id, w)
    requires Enabled(s, AwaitConfirm(w, id)) && Run(h, Apply(h, s, AwaitConfirm(w, id)), steps, s')
    ensures w < |s'.workers| && QueuedAt(s', id, w)
    ensures s'.workers[w].phase == s.workers[w].phase.(waitingFor := ForConfirm(id))
  {
    hide Run, Apply;
    AwaitBlocks(h, s, w, id);
    SelfSpawningForever(h, Apply(h, s, AwaitConfirm(w, id)), steps, s', w, id);
  }

  lemma ChildInsertHome(s: World, id: ActorId, actor: State)
    requires id in s.starting && s.starting[id].worker < |s.workers|
    ensures var s' := DoChildInsert(s, id, actor); id in s'.home && s'.home[id] == s.starting[id].worker
  {
  }

  /** A child spawned by a handler is hosted by the handler's own worker, for good, and every
      address of it leads there. */
  lemma ChildIsLocal(h: Behaviour, s: World, id: ActorId, actor: State, steps: seq<Step>, s': World)
    requires Inv(h, s) && id in s.starting && s.starting[id].worker < |s.workers|
    requires Enabled(s, ChildInsert(id, actor)) && Run(h, DoChildInsert(s, id, actor), steps, s')
    ensures id in s'.home && s'.home[id] == s.starting[id].worker
    ensures id in s'.addrs ==> s'.addrs[id] == s.starting[id].worker
  {
    hide Inv, Run, SendersGone, DoChildInsert;
    ChildInsertHome(s, id, actor);
    StepInv(h, s, ChildInsert(id, actor));
    RunLater(h, DoChildInsert(s, id, actor), steps, s');
    RunInv(h, DoChildInsert(s, id, actor), steps, s');
    if id in s'.addrs {
      InvPlaces(h, s');
      Places.AddrHome(s', id);
    }
  }

  // ---- blocking upwards ----

  /** The worker is inside a handler suspended in an unanswered call. */
  predicate IsBlocked(s: World, w: nat)
    requires w < |s.workers|
  {
    s.workers[w].phase.Handling? && !WaitOver(s, s.workers[w].phase.waitingFor)
  }

  /** What `wait` waits for is due from workers ranked above `low` only. */
  ghost predicate WaitsAbove(s: World, wait: Wait, rank: nat -> nat, low: nat) {
    match wait
    case Free => true
    case ForReply(t) => t < |s.accepted| && s.accepted[t].target in s.home && rank(s.home[s.accepted[t].target]) > low
    case ForConfirm(id) => forall v :: QueuedAt(s, id, v) ==> rank(v) > low
  }

  /** Suspended handlers wait only for workers of a strictly higher rank: for the home of the actor
      they sent to, or for the worker their spawn was placed on. */
  ghost predicate BlocksUpwards(s: World, rank: nat -> nat) {
    forall w :: 0 <= w < |s.workers| && IsBlocked(s, w) ==> WaitsAbove(s, s.workers[w].phase.waitingFor, rank, rank(w))
  }

  /** Worker `w` has something to do: a handler to finish, mail, or a spawn request. */
  ghost predicate HasWork(s: World, w: nat)
    requires w < |s.workers|
  {
    s.workers[w].phase.Handling? || (exists p, t :: Holds(s, w, p, t)) || exists id :: QueuedAt(s, id, w)
  }

  /** A worker that is neither blocked nor gone can always take its next step. */
  lemma NextStep(h: Behaviour, s: World, w: nat) returns (step: Step)
    requires w < |s.workers| && !s.workers[w].phase.Exited? && !IsBlocked(s, w)
    ensures Enabled(s, step) && Performer(step) == Some(w)
  {
    hide SendersGone, Queued;
    match s.workers[w].phase
    case ReadControl => step := ControlStep(w);
    case DrainChannel => step := DrainStep(w);
    case TakeTurn => step := TurnStep(w);
    case Handling(_, _, waitingFor) => step := if waitingFor.Free? then FinishTurn(w) else Resume(w);
    case AwaitMessage => step := WaitTimeout(w);
    case Stopping(remaining) =>
      if remaining == {} {
        step := FinishStopping(w);
      } else {
        var id :| id in remaining;
        step := StopOne(w, id);
      }
  }

  /** The worker an unanswered send waits for is alive and has work. */
  lemma AwaitedHasWork(h: Behaviour, s: World, t: nat) returns (v: nat)
    requires Inv(h, s) && t < |s.accepted| && t !in s.fate
    ensures s.accepted[t].target in s.home && v == s.home[s.accepted[t].target] && v < |s.workers|
    ensures !s.workers[v].phase.Exited? && HasWork(s, v)
  {
    hide Inv;
    AcceptedHome(h, s, t);
    v := s.home[s.accepted[t].target];
    if s.workers[v].phase.Exited? {
      NonePendingAfterExit(h, s, t);
    }
    EnvelopeConserved(h, s, t);
    var u, p :| Holds(s, u, p, t);
    HeldIsPending(h, s, u, p, t);
    assert Holds(s, v, p, t);
  }

  lemma QueuedIsAlive(h: Behaviour, s: World, id: ActorId, v: nat)
    requires Inv(h, s) && QueuedAt(s, id, v)
    ensures !s.workers[v].phase.Exited?
  {
    hide MailOk, History.HistoryOk;
    assert Places.WorkerPlaces(s.place, v, s.workers[v]);
  }

  /** The worker an unanswered call waits for is ranked higher, alive, and has work. */
  lemma AwaitedWorker(h: Behaviour, s: World, wait: Wait, rank: nat -> nat, low: nat) returns (v: nat)
    requires Inv(h, s) && !WaitOver(s, wait) && WaitsAbove(s, wait, rank, low)
    ensures v < |s.workers| && !s.workers[v].phase.Exited? && HasWork(s, v) && rank(v) > low
  {
    match wait
    case ForReply(t) =>
      v := AwaitedHasWork(h, s, t);
    case ForConfirm(id) =>
      v :| 0 <= v < |s.workers| && QueuedAt(s, id, v);
      QueuedIsAlive(h, s, id, v);
  }

  function HighestRank(rank: nat -> nat, n: nat): (top: nat)
    ensures forall u :: 0 <= u < n ==> rank(u) <= top
  {
    if n == 0 then 0
    else if rank(n - 1) > HighestRank(rank, n - 1) then rank(n - 1) else HighestRank(rank, n - 1)
  }

  /** Following the waits upwards ends at a worker that is not blocked. */
  lemma {:induction false} UpwardsFrom(h: Behaviour, s: World, rank: nat -> nat, w: nat) returns (v: nat)
    requires Inv(h, s) && BlocksUpwards(s, rank) && w < |s.workers| && IsBlocked(s, w)
    ensures v < |s.workers| && HasWork(s, v) && !IsBlocked(s, v) && !s.workers[v].phase.Exited? && rank(v) > rank(w)
    decreases HighestRank(rank, |s.workers|) - rank(w)
  {
    hide Inv, HasWork, WaitsAbove;
    v := AwaitedWorker(h, s, s.workers[w].phase.waitingFor, rank, rank(w));
    if IsBlocked(s, v) {
      v := UpwardsFrom(h, s, rank, v);
    }
  }

  lemma WorkerWithWorkIsAlive(h: Behaviour, s: World, w: nat)
    requires Inv(h, s) && w < |s.workers| && HasWork(s, w)
    ensures IsBlocked(s, w) || !s.workers[w].phase.Exited?
  {
    if !s.workers[w].phase.Handling? && s.workers[w].phase.Exited? {
      if p, t :| Holds(s, w, p, t) {
        HeldIsPending(h, s, w, p, t);
        NonePendingAfterExit(h, s, t);
      } else {
        var id :| QueuedAt(s, id, w);
        QueuedIsAlive(h, s, id, w);
      }
    }
  }

  /** If handlers only block on workers of a strictly higher rank, then whenever some worker has
      work, some worker with work can take a step: there is no deadlock. */
  lemma SomeWorkerCanStep(h: Behaviour, s: World, rank: nat -> nat, w: nat) returns (v: nat, step: Step)
    requires Inv(h, s) && BlocksUpwards(s, rank) && w < |s.workers| && HasWork(s, w)
    ensures v < |s.workers| && HasWork(s, v) && rank(v) >= rank(w)
    ensures Enabled(s, step) && Performer(step) == Some(v)
  {
    hide Inv, Enabled, HasWork;
    v := w;
    if IsBlocked(s, w) {
      v := UpwardsFrom(h, s, rank, w);
    } else {
      WorkerWithWorkIsAlive(h, s, w);
    }
    step := NextStep(h, s, v);
  }
}
