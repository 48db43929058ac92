/** Blocking upwards, stated of runs: what handlers do in their blocking steps decides whether the
    runtime can always go on. */
module BlockingRuns {
  import opened Actors
  import opened RuntimeModel
  import opened Reachable
  import opened Blocking
  import opened ShutdownProtocol
  import opened Frames
  import Mail
  import History
  import Places

  /** If the step makes a handler of worker `w` wait, then for a worker of higher rank: the home of the
      actor it sends to, or the worker its spawn was placed on. */
  ghost predicate StepsUp(s: World, step: Step, rank: nat -> nat) {
    match step
    case BlockingSend(w, target, _) => target in s.addrs ==> rank(s.addrs[target]) > rank(w)
    case AwaitConfirm(w, id) => forall v :: QueuedAt(s, id, v) ==> rank(v) > rank(w)
    case _ => true
  }

  ghost predicate RunsUp(h: Behaviour, s: World, steps: seq<Step>, rank: nat -> nat)
    decreases |steps|
  {
    steps == []
    || (Enabled(s, steps[0]) && StepsUp(s, steps[0], rank) && RunsUp(h, Apply(h, s, steps[0]), steps[1..], rank))
  }

  /** The spawn request of `id` has been queued, and will not be queued again. */
  predicate PastQueue(s: World, id: ActorId) {
    id < s.nextId && id !in s.unpicked && id !in s.starting
  }

  ghost predicate WaitsUp(s: World, wait: Wait, rank: nat -> nat, low: nat) {
    WaitsAbove(s, wait, rank, low) && (wait.ForConfirm? ==> PastQueue(s, wait.id))
  }

  ghost predicate AllWaitUp(s: World, rank: nat -> nat) {
    forall w :: 0 <= w < |s.workers| && s.workers[w].phase.Handling? ==>
                  WaitsUp(s, s.workers[w].phase.waitingFor, rank, rank(w))
  }

  lemma {:induction false} SpawnIdIn(control: seq<Control>, id: ActorId)
    ensures id in SpawnIds(control) <==> exists c :: c in control && c.SpawnActor? && c.id == id
  {
    if control != [] {
      SpawnIdIn(control[1..], id);
      assert control == [control[0]] + control[1..];
    }
  }

  /** A request that has left the queue does not come back to any. */
  lemma QueuedBefore(h: Behaviour, s: World, step: Step, id: ActorId, v: nat)
    requires Inv(h, s) && Enabled(s, step) && PastQueue(s, id) && QueuedAt(Apply(h, s, step), id, v)
    ensures QueuedAt(s, id, v)
  {
    hide Inv, Apply;
    SpawnsStep(h, s, step);
    SpawnIdIn(Apply(h, s, step).workers[v].control, id);
    SpawnIdIn(s.workers[v].control, id);
    var c :| c in Apply(h, s, step).workers[v].control && c.SpawnActor? && c.id == id;
    OnlyRequests(h, s, step, v, c);
  }

  lemma PastQueueStep(h: Behaviour, s: World, step: Step, id: ActorId)
    requires Enabled(s, step) && PastQueue(s, id)
    ensures PastQueue(Apply(h, s, step), id)
  {
    SpawnsStep(h, s, step);
    hide Apply;
    assert SpawnsOf(Apply(h, s, step)).unpicked == Apply(h, s, step).unpicked;
  }

  /** A wait for higher workers stays one, whatever the others do. */
  lemma WaitStays(h: Behaviour, s: World, step: Step, wait: Wait, rank: nat -> nat, low: nat)
    requires Inv(h, s) && Enabled(s, step) && WaitsUp(s, wait, rank, low)
    ensures WaitsUp(Apply(h, s, step), wait, rank, low)
  {
    hide Inv, Apply, Enabled, PastQueue, QueuedAt;
    StepLater(h, s, step);
    if wait.ForConfirm? {
      PastQueueStep(h, s, step, wait.id);
      forall v | QueuedAt(Apply(h, s, step), wait.id, v) ensures QueuedAt(s, wait.id, v) {
        QueuedBefore(h, s, step, wait.id, v);
      }
    }
  }

  /** A blocking step that goes upwards begins a wait for higher workers. */
  lemma WaitBegins(h: Behaviour, s: World, step: Step, rank: nat -> nat, w: nat)
    requires Inv(h, s) && Enabled(s, step) && StepsUp(s, step, rank) && w < |s.workers|
    requires s.workers[w].phase.Handling?
    requires step.BlockingSend? || step.AwaitConfirm?
    requires step.w == w
    ensures WaitsUp(Apply(h, s, step), WaitAfter(s, step, w), rank, rank(w))
  {
    hide Mail.MailOk, History.HistoryOk;
    match step
    case BlockingSend(_, target, msg) =>
      Places.AddrHome(s, target);
      SentUp(s, w, target, msg);
    case AwaitConfirm(_, id) =>
      var v :| 0 <= v < |s.workers| && QueuedAt(s, id, v);
      QueuedIsPast(s, id, v);
      PhaseQueues(s, w, s.workers[w].phase.(waitingFor := ForConfirm(id)), id);
  }

  lemma SentUp(s: World, w: nat, target: ActorId, msg: Msg)
    requires w < |s.workers| && Unblocked(s.workers[w].phase) && CanAccept(s, target)
    ensures var s' := DoBlockingSend(s, w, target, msg);
            && s'.home == s.home && |s'.accepted| == |s.accepted| + 1 && s'.accepted[|s.accepted|].target == target
  {
  }

  lemma QueuedIsPast(s: World, id: ActorId, v: nat)
    requires Places.PlacesOk(s) && QueuedAt(s, id, v)
    ensures PastQueue(s, id)
  {
    assert Places.WorkerPlaces(s.place, v, s.workers[v]);
    assert Places.At(s.place, id, InControl(v));
  }

  lemma PhaseQueues(s: World, w: nat, p: Phase, id: ActorId)
    requires w < |s.workers|
    ensures PastQueue(SetPhase(s, w, p), id) <==> PastQueue(s, id)
    ensures forall v :: QueuedAt(SetPhase(s, w, p), id, v) <==> QueuedAt(s, id, v)
  {
  }

  lemma WaitsUpStep(h: Behaviour, s: World, step: Step, rank: nat -> nat)
    requires Inv(h, s) && Enabled(s, step) && StepsUp(s, step, rank) && AllWaitUp(s, rank)
    ensures AllWaitUp(Apply(h, s, step), rank)
  {
    hide Inv, Apply, Enabled, StepsUp, WaitsUp, Moves, Disturbed;
    var s' := Apply(h, s, step);
    SpawnsStep(h, s, step);
    forall w | 0 <= w < |s'.workers| && s'.workers[w].phase.Handling?
      ensures WaitsUp(s', s'.workers[w].phase.waitingFor, rank, rank(w))
    {
      if s.workers[w].phase.Handling? {
        HandlerGoesOn(h, s, step, w);
        if (step.BlockingSend? || step.AwaitConfirm?) && step.w == w {
          WaitBegins(h, s, step, rank, w);
        } else if step == Resume(w) {
          NoWait(s', rank, rank(w));
        } else {
          WaitStays(h, s, step, s.workers[w].phase.waitingFor, rank, rank(w));
        }
      } else {
        NoWait(s', rank, rank(w));
        HandlerBegins(h, s, step, w);
      }
    }
  }

  lemma NoWait(s: World, rank: nat -> nat, low: nat)
    ensures WaitsUp(s, Free, rank, low)
  {
  }

  lemma HandlerBegins(h: Behaviour, s: World, step: Step, w: nat)
    requires Inv(h, s) && Enabled(s, step) && w < |s.workers| && !s.workers[w].phase.Handling?
    ensures |Apply(h, s, step).workers| == |s.workers|
    ensures var p := Apply(h, s, step).workers[w].phase; p.Handling? ==> p.waitingFor == Free
  {
    hide Inv, Apply, Enabled;
    StepOfWorker(h, s, step, w);
  }

  lemma {:induction false} WaitsUpRun(h: Behaviour, s: World, steps: seq<Step>, s': World, rank: nat -> nat)
    requires Inv(h, s) && Run(h, s, steps, s') && RunsUp(h, s, steps, rank) && AllWaitUp(s, rank)
    ensures Inv(h, s') && AllWaitUp(s', rank)
    decreases |steps|
  {
    hide Inv, Apply, Enabled, StepsUp, AllWaitUp;
    if steps != [] {
      StepInv(h, s, steps[0]);
      WaitsUpStep(h, s, steps[0], rank);
      WaitsUpRun(h, Apply(h, s, steps[0]), steps[1..], s', rank);
    }
  }

  lemma AllBlockUpwards(s: World, rank: nat -> nat)
    requires AllWaitUp(s, rank)
    ensures BlocksUpwards(s, rank)
  {
    hide WaitsAbove;
  }

  /** If, in a run from the start, every blocking send and every `Runtime::spawn` of a handler goes to a
      worker of higher rank than its own, then in the state it leads to all waits go upwards; and
      whenever a worker has work there, some worker with work can take a step. */
  lemma UpwardRunsNeverDeadlock(h: Behaviour, n: nat, range: Range, steps: seq<Step>, s: World, rank: nat -> nat)
    requires Run(h, Init(n, range), steps, s) && RunsUp(h, Init(n, range), steps, rank)
    ensures BlocksUpwards(s, rank)
    ensures forall w :: 0 <= w < |s.workers| && HasWork(s, w) ==>
                          exists v, step :: CanStep(s, v, step) && rank(v) >= rank(w)
  {
    var s0 := Init(n, range);
    InitInv(h, n, range);
    assert AllWaitUp(s0, rank);
    hide Init, Inv, Run, RunsUp, AllWaitUp, BlocksUpwards, HasWork, CanStep;
    WaitsUpRun(h, s0, steps, s, rank);
    AllBlockUpwards(s, rank);
    forall w | 0 <= w < |s.workers| && HasWork(s, w)
      ensures exists v, step :: CanStep(s, v, step) && rank(v) >= rank(w)
    {
      var v, step := SomeWorkerCanStep(h, s, rank, w);
      assert CanStep(s, v, step) by {
        CanStepWhen(s, v, step);
      }
    }
  }

  /** Worker `v` has work and can take the step. */
  ghost predicate CanStep(s: World, v: nat, step: Step) {
    v < |s.workers| && HasWork(s, v) && Enabled(s, step) && Performer(step) == Some(v)
  }

  lemma CanStepWhen(s: World, v: nat, step: Step)
    requires v < |s.workers| && HasWork(s, v) && Enabled(s, step) && Performer(step) == Some(v)
    ensures CanStep(s, v, step)
  {
  }
}
