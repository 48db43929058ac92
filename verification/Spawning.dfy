/** The spawn protocol of src/runtime.rs and src/spawner.rs: what a spawn gives its caller, that every
    call under way can go on, and a whole spawn from its first step to the new actor's address. */
module Spawning {
  import opened Actors
  import opened RuntimeModel
  import opened Runs
  import opened Reachable
  import opened Blocking
  import opened ShutdownProtocol
  import opened Frames
  import Places

  // ---- what an address is good for ----

  /** An address works: a message sent by it is taken exactly as long as the actor's worker lives. */
  lemma AddressWorks(h: Behaviour, s: World, id: ActorId, msg: Msg)
    requires Inv(h, s) && id in s.addrs
    ensures id in s.home && s.addrs[id] == s.home[id] < |s.workers|
    ensures Enabled(s, Send(id, msg)) <==> !s.workers[s.home[id]].phase.Exited?
  {
    InvPlaces(h, s);
    hide Inv, SendersGone, Queued;
    Places.AddrHome(s, id);
    HomeExists(s, id);
    hide Places.PlacesOk;
  }

  /** ... also from inside a handler that waits for nothing. */
  lemma AddressWorksInHandler(h: Behaviour, s: World, id: ActorId, msg: Msg, w: nat)
    requires Inv(h, s) && id in s.addrs && w < |s.workers| && Unblocked(s.workers[w].phase)
    ensures Enabled(s, BlockingSend(w, id, msg)) <==> Enabled(s, Send(id, msg))
  {
    hide Inv, SendersGone, Queued, CanAccept;
  }

  lemma HomeExists(s: World, id: ActorId)
    requires Places.PlacesOk(s) && id in s.home
    ensures s.home[id] < |s.workers|
  {
  }

  lemma ConfirmedHome(s: World, id: ActorId)
    requires Places.PlacesOk(s) && id in s.confirmed
    ensures id in s.home && s.home[id] == s.confirmed[id] < |s.workers|
  {
  }

  /** `Runtime::spawn` returns an address: from any state in which the spawn is confirmed its return is
      possible, and after it the actor is addressed at the worker that confirmed it, its home, nobody
      else's address has changed, and the confirmation is used up. */
  lemma SpawnReturned(h: Behaviour, s: World, id: ActorId)
    requires Inv(h, s) && id in s.confirmed
    ensures Enabled(s, SpawnReturn(id)) && id in s.home
    ensures var s' := Apply(h, s, SpawnReturn(id));
            && Inv(h, s') && id in s'.addrs && s'.addrs[id] == s.confirmed[id] == s.home[id] && id !in s'.confirmed
            && (forall a :: a != id ==>
                  && (a in s'.addrs <==> a in s.addrs) && (a in s.addrs ==> s'.addrs[a] == s.addrs[a])
                  && (a in s'.confirmed <==> a in s.confirmed))
            && s'.workers == s.workers
            && forall msg :: Enabled(s', Send(id, msg)) <==> !s.workers[s.home[id]].phase.Exited?
  {
    InvPlaces(h, s);
    ConfirmedHome(s, id);
    StepInv(h, s, SpawnReturn(id));
    hide Inv;
    var s' := Apply(h, s, SpawnReturn(id));
    forall msg ensures Enabled(s', Send(id, msg)) <==> !s.workers[s.home[id]].phase.Exited? {
      AddressWorks(h, s', id, msg);
    }
  }

  /** `Context::spawn` returns an address, too: the child is in the map of its worker in exactly the given
      state, it is born in that state, and its address works. */
  lemma ChildReturned(h: Behaviour, s: World, id: ActorId, actor: State)
    requires Inv(h, s) && Enabled(s, ChildInsert(id, actor))
    ensures var s', w := Apply(h, s, ChildInsert(id, actor)), s.starting[id].worker;
            && Inv(h, s') && id in s'.addrs && s'.addrs[id] == w && id !in s'.starting
            && id in s'.births && s'.births[id] == actor
            && |s'.workers| == |s.workers|
            && s'.workers[w].actors == s.workers[w].actors[id := actor] && id !in s.workers[w].actors
            && (forall v :: 0 <= v < |s.workers| && v != w ==> s'.workers[v] == s.workers[v])
            && forall msg :: Enabled(s', Send(id, msg)) <==> !s.workers[w].phase.Exited?
  {
    InvPlaces(h, s);
    Places.StartingNotHome(s, id);
    StepInv(h, s, ChildInsert(id, actor));
    hide Inv;
    var s', w := Apply(h, s, ChildInsert(id, actor)), s.starting[id].worker;
    assert s'.workers[w].phase == s.workers[w].phase;
    forall msg ensures Enabled(s', Send(id, msg)) <==> !s.workers[w].phase.Exited? {
      AddressWorks(h, s', id, msg);
    }
  }

  // ---- every call can go on ----

  /** No spawn of a client is stuck by itself: one that has allocated its identity can pick a worker, one
      whose started hook is running can be queued, or insert the child it is spawning, and one that is
      confirmed can return; one that is queued waits for its worker, which is alive. */
  lemma SpawnsGoOn(h: Behaviour, s: World, id: ActorId, actor: State)
    requires Inv(h, s) && s.workers != []
    ensures id in s.unpicked ==> Enabled(s, PickWorker(id))
    ensures id in s.starting && s.starting[id].starter == ByRuntime ==> Enabled(s, SpawnQueue(id, actor))
    ensures id in s.starting && s.starting[id].starter == ByClientHook ==> Enabled(s, ChildInsert(id, actor))
    ensures forall w: nat :: QueuedAt(s, id, w) ==> !s.workers[w].phase.Exited?
    ensures id in s.confirmed ==> Enabled(s, SpawnReturn(id))
  {
    InvPlaces(h, s);
    if id in s.starting {
      Places.StartingNotHome(s, id);
    }
    forall w: nat | QueuedAt(s, id, w) ensures !s.workers[w].phase.Exited? {
      QueuedIsAlive(h, s, id, w);
    }
  }

  // ---- a whole spawn ----

  /** `id` is inside its started hook, placed on worker `w` by a client. */
  ghost predicate AtHook(s: World, id: ActorId, w: nat) {
    id in s.starting && s.starting[id] == Starting(w, ByRuntime)
  }

  lemma Allocates(h: Behaviour, s: World)
    requires s.nextId < ID_RANGE
    ensures Enabled(s, SpawnAllocate)
    ensures var s' := Apply(h, s, SpawnAllocate);
            s'.workers == s.workers && s'.nextWorker == s.nextWorker && s.nextId in s'.unpicked
  {
  }

  lemma Picks(h: Behaviour, s: World, id: ActorId)
    requires id in s.unpicked && s.workers != []
    ensures Enabled(s, PickWorker(id))
    ensures var s' := Apply(h, s, PickWorker(id));
            s'.workers == s.workers && AtHook(s', id, s.nextWorker % |s.workers|)
  {
  }

  /** The request goes to the back of the control queue of the picked worker. */
  lemma Queues(h: Behaviour, s: World, id: ActorId, actor: State, w: nat)
    requires AtHook(s, id, w) && w < |s.workers| && !s.workers[w].phase.Exited?
    ensures Enabled(s, SpawnQueue(id, actor))
    ensures var s', x := Apply(h, s, SpawnQueue(id, actor)), s.workers[w];
            s'.workers == s.workers[w := x.(control := x.control + [SpawnActor(id, actor)])]
  {
  }

  /** The worker reads the request: the actor is in its map and the answer is on its way. */
  lemma Confirms(h: Behaviour, s: World, id: ActorId, actor: State, w: nat)
    requires w < |s.workers| && s.workers[w].phase.ReadControl? && s.workers[w].control != []
    requires s.workers[w].control[0] == SpawnActor(id, actor)
    ensures Enabled(s, ControlStep(w))
    ensures var s', x := Apply(h, s, ControlStep(w)), s.workers[w];
            && id in s'.confirmed && s'.confirmed[id] == w && id in s'.births && s'.births[id] == actor
            && s'.workers == s.workers[w := x.(control := x.control[1..], actors := x.actors[id := actor])]
  {
    assert Apply(h, s, ControlStep(w)) == DoConfirm(s, w, id, actor) by {
      hide DoConfirm;
    }
    hide Apply;
  }

  /** `Runtime::spawn` from beginning to end, when the worker it is placed on is reading an empty control
      queue: five steps later the actor is in that worker's map in exactly the given state, it has an
      address there, and a message sent by it is taken. */
  lemma SpawnSucceeds(h: Behaviour, s: World, actor: State) returns (steps: seq<Step>, s': World)
    requires Inv(h, s) && s.nextId < ID_RANGE && s.workers != []
    requires var x := s.workers[s.nextWorker % |s.workers|]; x.phase.ReadControl? && x.control == []
    ensures Run(h, s, steps, s') && Inv(h, s')
    ensures var id, w := s.nextId, s.nextWorker % |s.workers|;
            && |s'.workers| == |s.workers| && s'.workers[w].actors == s.workers[w].actors[id := actor]
            && id in s'.births && s'.births[id] == actor
            && id in s'.addrs && s'.addrs[id] == w && forall msg :: Enabled(s', Send(id, msg))
  {
    var id, w := s.nextId, s.nextWorker % |s.workers|;
    hide Inv, Apply, Enabled, Run;
    Allocates(h, s);
    var s1 := Apply(h, s, SpawnAllocate);
    Picks(h, s1, id);
    var s2 := Apply(h, s1, PickWorker(id));
    Queues(h, s2, id, actor, w);
    var s3 := Apply(h, s2, SpawnQueue(id, actor));
    assert s3.workers[w].control == [SpawnActor(id, actor)];
    Confirms(h, s3, id, actor, w);
    var s4 := Apply(h, s3, ControlStep(w));
    RunNothing(h, s);
    RunSnoc(h, s, [], s, SpawnAllocate);
    RunSnoc(h, s, [] + [SpawnAllocate], s1, PickWorker(id));
    steps := [] + [SpawnAllocate] + [PickWorker(id)];
    RunSnoc(h, s, steps, s2, SpawnQueue(id, actor));
    RunSnoc(h, s, steps + [SpawnQueue(id, actor)], s3, ControlStep(w));
    steps := steps + [SpawnQueue(id, actor)] + [ControlStep(w)];
    RunInv(h, s, steps, s4);
    SpawnReturned(h, s4, id);
    s' := Apply(h, s4, SpawnReturn(id));
    RunSnoc(h, s, steps, s4, SpawnReturn(id));
    steps := steps + [SpawnReturn(id)];
    RunLater(h, s, steps, s');
    BirthsKept(h, s4, id);
    assert s4.workers[w].phase == s.workers[w].phase;
  }

  /** A runtime that has just been started is ready for all this: it holds its handle, and the first spawn
      succeeds, as the first identity, on the first worker. */
  lemma FirstSpawn(h: Behaviour, n: nat, range: Range, actor: State) returns (steps: seq<Step>, s': World)
    requires n > 0
    ensures Init(n, range).handleHeld && Run(h, Init(n, range), steps, s')
    ensures && |s'.workers| == n && s'.workers[0].actors == map[1 := actor]
            && 1 in s'.addrs && s'.addrs[1] == 0 && forall msg :: Enabled(s', Send(1, msg))
  {
    var s := Init(n, range);
    InitInv(h, n, range);
    assert s.workers[0] == FreshWorker() && s.nextWorker % n == 0;
    hide Inv, Run, Enabled;
    steps, s' := SpawnSucceeds(h, s, actor);
    assert s.workers[0].actors[1 := actor] == map[1 := actor];
  }

  lemma BirthsKept(h: Behaviour, s: World, id: ActorId)
    requires id in s.confirmed
    ensures Apply(h, s, SpawnReturn(id)).births == s.births && Apply(h, s, SpawnReturn(id)).workers == s.workers
  {
  }

  // ---- the runtime handle ----

  lemma {:induction false} HandleStaysDropped(h: Behaviour, s: World, steps: seq<Step>, s': World)
    requires !s.handleHeld && Run(h, s, steps, s')
    ensures !s'.handleHeld
    decreases |steps|
  {
    hide Apply;
    if steps != [] {
      SpawnsStep(h, s, steps[0]);
      assert SpawnsOf(Apply(h, s, steps[0])).handleHeld == Apply(h, s, steps[0]).handleHeld;
      HandleStaysDropped(h, Apply(h, s, steps[0]), steps[1..], s');
    }
  }

  /** Dropping the runtime handle is possible once, and for good. It does not make a worker's loop end: in
      every continuation a worker that has not exited still has a sender to its own channel. */
  lemma DroppedHandleEndsNoLoop(h: Behaviour, s: World, steps: seq<Step>, s': World, w: nat)
    requires Inv(h, s) && s.handleHeld
    requires Run(h, Apply(h, s, DropHandle), steps, s')
    ensures !s'.handleHeld && !Enabled(s', DropHandle)
    ensures w < |s'.workers| && !s'.workers[w].phase.Exited? ==> !SendersGone(s', w)
  {
    StepInv(h, s, DropHandle);
    HandleStaysDropped(h, Apply(h, s, DropHandle), steps, s');
    RunInv(h, Apply(h, s, DropHandle), steps, s');
    hide Inv, Apply;
    if w < |s'.workers| && !s'.workers[w].phase.Exited? {
      NeverDisconnected(h, s', w);
    }
  }
}
