/** Where actors are: in every interleaving each identity is in exactly one place, addresses
    exist only for placed actors, and every placed actor is stopped exactly once. */
module Places {
  import opened Actors
  import opened SchedulerSpec
  import opened RuntimeModel

  lemma {:induction false} SpawnIdsConcat(control: seq<Control>, more: seq<Control>)
    ensures SpawnIds(control + more) == SpawnIds(control) + SpawnIds(more)
  {
    if control == [] {
      assert control + more == more;
    } else {
      assert (control + more)[1..] == control[1..] + more;
      SpawnIdsConcat(control[1..], more);
      var head := if control[0].SpawnActor? then [control[0].id] else [];
      assert head + (SpawnIds(control[1..]) + SpawnIds(more)) == head + SpawnIds(control[1..]) + SpawnIds(more);
    }
  }

  lemma SpawnIdsSnoc(control: seq<Control>, c: Control)
    ensures SpawnIds(control + [c]) == if c.SpawnActor? then SpawnIds(control) + [c.id] else SpawnIds(control)
  {
    SpawnIdsConcat(control, [c]);
    assert [c][1..] == [];
    assert SpawnIds([c]) == (if c.SpawnActor? then [c.id] else []) + SpawnIds([c][1..]);
  }

  type PlaceMap = map<ActorId, Place>

  ghost predicate At(place: PlaceMap, id: ActorId, p: Place) {
    id in place && place[id] == p
  }

  /** The place is a queue, map or dispatch of a worker. */
  ghost predicate OnWorker(p: Place) { p.InControl? || p.InMap? || p.InDispatch? }

  ghost predicate OnlyOn(p: Place, w: nat) { OnWorker(p) ==> p.worker == w }

  ghost predicate NotOn(p: Place, w: nat) { OnWorker(p) ==> p.worker != w }

  /** The queues, map and phase of worker `w` agree with the recorded places. */
  ghost predicate ControlAgrees(place: PlaceMap, w: nat, control: seq<Control>) {
    && NoDuplicates(SpawnIds(control))
    && (forall id :: id in SpawnIds(control) <==> At(place, id, InControl(w)))
  }

  ghost predicate MapAgrees(place: PlaceMap, w: nat, actors: map<ActorId, State>) {
    forall id :: id in actors <==> At(place, id, InMap(w))
  }

  ghost predicate PhaseAgrees(place: PlaceMap, w: nat, phase: Phase) {
    forall id :: (phase.Handling? && phase.envelope.target == id) <==> At(place, id, InDispatch(w))
  }

  /** Once the shutdown snapshot is taken, the map holds what is left of it and the latecomers;
      until it exits, a worker thread keeps a sender to its own channel. */
  ghost predicate Snapshot(x: Worker) {
    && (x.holdsShared <==> !x.phase.Exited?)
    && match x.phase
    case Stopping(remaining) => x.actors.Keys == remaining + x.late && remaining !! x.late
    case Exited => x.actors.Keys == x.late && x.control == []
    case _ => x.late == {}
  }

  ghost predicate WorkerPlaces(place: PlaceMap, w: nat, x: Worker) {
    ControlAgrees(place, w, x.control) && MapAgrees(place, w, x.actors) && PhaseAgrees(place, w, x.phase) && Snapshot(x)
  }

  ghost predicate WorkersPlaces(place: PlaceMap, workers: seq<Worker>) {
    forall w :: 0 <= w < |workers| ==> WorkerPlaces(place, w, workers[w])
  }

  /** Identities are handed out once each, from 1. */
  ghost predicate IdsAgree(place: PlaceMap, nextId: nat) {
    nextId >= 1 && forall id :: id in place <==> 1 <= id < nextId
  }

  ghost predicate StopsAgree(place: PlaceMap, stops: seq<ActorId>) {
    NoDuplicates(stops) && forall id :: id in stops <==> At(place, id, HasStopped)
  }

  ghost predicate StartingAgrees(place: PlaceMap, starting: map<ActorId, Starting>, n: nat) {
    && (forall id :: id in starting <==> At(place, id, InStarted))
    && (forall id :: id in starting ==> starting[id].worker < n)
  }

  ghost predicate UnpickedAgrees(place: PlaceMap, unpicked: set<ActorId>) {
    forall id :: id in unpicked <==> At(place, id, Allocated)
  }

  /** An actor that has been placed stays at its home until it stops. */
  ghost predicate AtHome(place: PlaceMap, id: ActorId, w: nat) {
    At(place, id, InMap(w)) || At(place, id, InDispatch(w)) || At(place, id, HasStopped)
  }

  ghost predicate HomesAgree(place: PlaceMap, home: map<ActorId, nat>, n: nat) {
    && (forall id :: id in home ==> home[id] < n && AtHome(place, id, home[id]))
    && (forall id, w :: AtHome(place, id, w) ==> id in home)
  }

  /** Every address carries the sender of its actor's home worker. */
  ghost predicate AddrsAgree(addrs: map<ActorId, nat>, home: map<ActorId, nat>) {
    forall id :: id in addrs ==> id in home && addrs[id] == home[id]
  }

  ghost predicate PlacesOk(s: World) {
    && IdsAgree(s.place, s.nextId)
    && StopsAgree(s.place, s.stops)
    && UnpickedAgrees(s.place, s.unpicked)
    && StartingAgrees(s.place, s.starting, |s.workers|)
    && HomesAgree(s.place, s.home, |s.workers|)
    && s.births.Keys == s.home.Keys
    && AddrsAgree(s.addrs, s.home)
    && AddrsAgree(s.confirmed, s.home)
    && WorkersPlaces(s.place, s.workers)
  }

  lemma InitPlaces(n: nat, range: Range)
    ensures PlacesOk(Init(n, range))
  {
  }

  lemma WorkerFrame(place: PlaceMap, id: ActorId, p: Place, v: nat, x: Worker)
    requires WorkerPlaces(place, v, x) && (id in place ==> NotOn(place[id], v)) && NotOn(p, v)
    ensures WorkerPlaces(place[id := p], v, x)
  {
    var place' := place[id := p];
    forall i ensures At(place', i, InControl(v)) == At(place, i, InControl(v))
                  && At(place', i, InMap(v)) == At(place, i, InMap(v))
                  && At(place', i, InDispatch(v)) == At(place, i, InDispatch(v)) {
    }
  }

  /** A step that changes worker `w` and the place of `id`, which concerns no other worker. */
  lemma WorkersFrame(place: PlaceMap, workers: seq<Worker>, w: nat, x: Worker, id: ActorId, p: Place)
    requires WorkersPlaces(place, workers) && w < |workers|
    requires (id in place ==> OnlyOn(place[id], w)) && OnlyOn(p, w)
    requires WorkerPlaces(place[id := p], w, x)
    ensures WorkersPlaces(place[id := p], workers[w := x])
  {
    forall v | 0 <= v < |workers| && v != w ensures WorkerPlaces(place[id := p], v, workers[v]) {
      WorkerFrame(place, id, p, v, workers[v]);
    }
  }

  /** The parts of the invariant that speak about no worker, when `id` moves to `p`. */
  lemma MoveIds(place: PlaceMap, nextId: nat, id: ActorId, p: Place)
    requires IdsAgree(place, nextId) && id in place
    ensures IdsAgree(place[id := p], nextId)
  {
  }

  lemma MoveStops(place: PlaceMap, stops: seq<ActorId>, id: ActorId, p: Place)
    requires StopsAgree(place, stops) && !At(place, id, HasStopped)
    ensures StopsAgree(place[id := p], if p == HasStopped then stops + [id] else stops)
  {
    var stops' := if p == HasStopped then stops + [id] else stops;
    forall i ensures i in stops' <==> At(place[id := p], i, HasStopped) {
    }
  }

  lemma MoveUnpicked(place: PlaceMap, unpicked: set<ActorId>, id: ActorId, p: Place)
    requires UnpickedAgrees(place, unpicked) && !At(place, id, Allocated) && p != Allocated
    ensures UnpickedAgrees(place[id := p], unpicked)
  {
    forall i ensures i in unpicked <==> At(place[id := p], i, Allocated) {
    }
  }

  lemma MoveStarting(place: PlaceMap, starting: map<ActorId, Starting>, n: nat, id: ActorId, p: Place)
    requires StartingAgrees(place, starting, n) && p != InStarted
    ensures StartingAgrees(place[id := p], starting - {id}, n)
  {
    forall i ensures i in starting - {id} <==> At(place[id := p], i, InStarted) {
    }
  }

  lemma MoveHome(place: PlaceMap, home: map<ActorId, nat>, n: nat, id: ActorId, p: Place)
    requires HomesAgree(place, home, n)
    requires id in home ==> AtHome(place[id := p], id, home[id])
    requires id !in home ==> p.InControl? || p.NeverPlaced? || p.InStarted? || p.Allocated?
    ensures HomesAgree(place[id := p], home, n)
  {
    var place' := place[id := p];
    forall i | i in home ensures home[i] < n && AtHome(place', i, home[i]) {
      assert AtHome(place, i, home[i]);
    }
    forall i, w | AtHome(place', i, w) ensures i in home {
      assert i != id ==> AtHome(place, i, w);
    }
  }

  lemma NewHome(place: PlaceMap, home: map<ActorId, nat>, n: nat, id: ActorId, w: nat)
    requires HomesAgree(place, home, n) && w < n
    ensures HomesAgree(place[id := InMap(w)], home[id := w], n)
  {
    var place', home' := place[id := InMap(w)], home[id := w];
    forall i | i in home' ensures home'[i] < n && AtHome(place', i, home'[i]) {
      assert i != id ==> AtHome(place, i, home[i]);
    }
    forall i, v | AtHome(place', i, v) ensures i in home' {
      assert i != id ==> AtHome(place, i, v);
    }
  }

  /** `id` moves to `p`; of all workers only `w` is involved. */
  lemma MovedPlaces(s: World, s': World, w: nat, id: ActorId, p: Place)
    requires PlacesOk(s) && w < |s.workers| == |s'.workers| && s'.workers == s.workers[w := s'.workers[w]]
    requires id in s.place && OnlyOn(s.place[id], w) && OnlyOn(p, w) && p != InStarted && s.place[id] != HasStopped
    requires s'.place == s.place[id := p] && s'.nextId == s.nextId
    requires s'.starting == s.starting - {id} && s'.unpicked == s.unpicked && p != Allocated
    requires s'.stops == if p == HasStopped then s.stops + [id] else s.stops
    requires s'.home == s.home && s'.births == s.births && s'.addrs == s.addrs && s'.confirmed == s.confirmed
    requires s.place[id].InStarted? ==> p.InControl? || p.NeverPlaced?
    requires !s.place[id].InStarted? ==>
               && (s.place[id] == InMap(w) || s.place[id] == InDispatch(w))
               && (p == InMap(w) || p == InDispatch(w) || p == HasStopped)
    requires WorkerPlaces(s'.place, w, s'.workers[w])
    ensures PlacesOk(s')
  {
    assert At(s.place, id, s.place[id]);
    MoveIds(s.place, s.nextId, id, p);
    MoveStops(s.place, s.stops, id, p);
    MoveUnpicked(s.place, s.unpicked, id, p);
    MoveStarting(s.place, s.starting, |s.workers|, id, p);
    if !s.place[id].InStarted? {
      assert AtHome(s.place, id, w);
    }
    MoveHome(s.place, s.home, |s.workers|, id, p);
    WorkersFrame(s.place, s.workers, w, s'.workers[w], id, p);
  }

  /** `id` enters the map of worker `w`, its home from now on. */
  lemma HousedPlaces(s: World, s': World, w: nat, id: ActorId, actor: State)
    requires PlacesOk(s) && w < |s.workers| == |s'.workers| && s'.workers == s.workers[w := s'.workers[w]]
    requires id in s.place && (s.place[id] == InStarted || s.place[id] == InControl(w))
    requires s'.place == s.place[id := InMap(w)] && s'.nextId == s.nextId && s'.starting == s.starting - {id}
    requires s'.stops == s.stops && s'.unpicked == s.unpicked
    requires s'.home == s.home[id := w] && s'.births == s.births[id := actor]
    requires || (s'.addrs == s.addrs[id := w] && s'.confirmed == s.confirmed)
             || (s'.addrs == s.addrs && s'.confirmed == s.confirmed[id := w])
    requires WorkerPlaces(s'.place, w, s'.workers[w])
    ensures PlacesOk(s')
  {
    assert At(s.place, id, s.place[id]);
    MoveIds(s.place, s.nextId, id, InMap(w));
    MoveStops(s.place, s.stops, id, InMap(w));
    MoveUnpicked(s.place, s.unpicked, id, InMap(w));
    MoveStarting(s.place, s.starting, |s.workers|, id, InMap(w));
    NewHome(s.place, s.home, |s.workers|, id, w);
    assert id !in s.home by {
      assert id in s.home ==> AtHome(s.place, id, s.home[id]);
    }
    WorkersFrame(s.place, s.workers, w, s'.workers[w], id, InMap(w));
  }

  lemma StartingNotHome(s: World, id: ActorId)
    requires PlacesOk(s) && id in s.starting
    ensures id !in s.home && s.starting[id].worker < |s.workers|
    ensures var x := s.workers[s.starting[id].worker];
            id !in x.actors && (x.phase.Stopping? ==> id !in x.phase.remaining)
  {
    assert At(s.place, id, InStarted);
    assert id in s.home ==> AtHome(s.place, id, s.home[id]);
    assert WorkerPlaces(s.place, s.starting[id].worker, s.workers[s.starting[id].worker]);
  }

  lemma AddrHome(s: World, id: ActorId)
    requires PlacesOk(s) && id in s.addrs
    ensures id in s.home && s.home[id] == s.addrs[id]
  {
  }

  lemma BirthsAtHome(s: World)
    requires PlacesOk(s)
    ensures s.births.Keys == s.home.Keys
  {
  }

  /** An actor taken out for its dispatch is not in the map, whatever children it spawns. */
  lemma DispatchedIsOut(s: World, w: nat)
    requires PlacesOk(s) && w < |s.workers| && s.workers[w].phase.Handling?
    ensures s.workers[w].phase.envelope.target !in s.workers[w].actors
  {
    var id := s.workers[w].phase.envelope.target;
    assert WorkerPlaces(s.place, w, s.workers[w]);
    assert At(s.place, id, InDispatch(w));
  }

  lemma QueuedNotHome(s: World, w: nat)
    requires PlacesOk(s) && w < |s.workers| && s.workers[w].control != [] && s.workers[w].control[0].SpawnActor?
    ensures s.workers[w].control[0].id !in s.home && s.workers[w].control[0].id !in s.workers[w].actors
  {
    var id := s.workers[w].control[0].id;
    assert WorkerPlaces(s.place, w, s.workers[w]);
    assert SpawnIds(s.workers[w].control)[0] == id;
    assert At(s.place, id, InControl(w));
    assert id in s.home ==> AtHome(s.place, id, s.home[id]);
  }

  lemma AllocatePlaces(s: World, st: Starting)
    requires PlacesOk(s) && st.worker < |s.workers|
    ensures PlacesOk(DoAllocate(s, st))
  {
    var id := s.nextId;
    assert id !in s.place;
    var place' := s.place[id := InStarted];
    assert IdsAgree(place', id + 1);
    MoveStops(s.place, s.stops, id, InStarted);
    MoveUnpicked(s.place, s.unpicked, id, InStarted);
    MoveHome(s.place, s.home, |s.workers|, id, InStarted);
    assert StartingAgrees(place', s.starting[id := st], |s.workers|) by {
      forall i ensures i in s.starting[id := st] <==> At(place', i, InStarted) {
      }
    }
    forall v | 0 <= v < |s.workers| ensures WorkerPlaces(place', v, s.workers[v]) {
      WorkerFrame(s.place, id, InStarted, v, s.workers[v]);
    }
  }

  lemma SpawnAllocatePlaces(s: World)
    requires PlacesOk(s)
    ensures PlacesOk(DoSpawnAllocate(s))
  {
    var id := s.nextId;
    assert id !in s.place;
    var place' := s.place[id := Allocated];
    assert IdsAgree(place', id + 1);
    assert !At(s.place, id, InStarted) && s.starting - {id} == s.starting;
    MoveStops(s.place, s.stops, id, Allocated);
    MoveStarting(s.place, s.starting, |s.workers|, id, Allocated);
    MoveHome(s.place, s.home, |s.workers|, id, Allocated);
    forall i ensures i in s.unpicked + {id} <==> At(place', i, Allocated) {
    }
    forall v | 0 <= v < |s.workers| ensures WorkerPlaces(place', v, s.workers[v]) {
      WorkerFrame(s.place, id, Allocated, v, s.workers[v]);
    }
  }

  lemma PickPlaces(s: World, id: ActorId)
    requires PlacesOk(s) && id in s.unpicked && |s.workers| > 0
    ensures PlacesOk(DoPick(s, id))
  {
    hide IdsAgree, StopsAgree, SpawnIds, WorkerPlaces;
    var place', st := s.place[id := InStarted], Starting(s.nextWorker % |s.workers|, ByRuntime);
    assert At(s.place, id, Allocated);
    MoveIds(s.place, s.nextId, id, InStarted);
    MoveStops(s.place, s.stops, id, InStarted);
    assert id in s.home ==> AtHome(s.place, id, s.home[id]);
    MoveHome(s.place, s.home, |s.workers|, id, InStarted);
    forall i ensures i in s.starting[id := st] <==> At(place', i, InStarted) {
    }
    forall i ensures i in s.unpicked - {id} <==> At(place', i, Allocated) {
    }
    forall v | 0 <= v < |s.workers| ensures WorkerPlaces(place', v, s.workers[v]) {
      WorkerFrame(s.place, id, InStarted, v, s.workers[v]);
    }
  }

  lemma QueueSpawnPlaces(s: World, id: ActorId, actor: State, w: nat)
    requires PlacesOk(s) && id in s.starting && w == s.starting[id].worker < |s.workers| && !s.workers[w].phase.Exited?
    ensures PlacesOk(DoQueueSpawn(s, id, actor, w))
  {
    hide IdsAgree, StopsAgree, HomesAgree, AddrsAgree, SpawnIds;
    var x := s.workers[w];
    assert At(s.place, id, InStarted);
    assert WorkerPlaces(s.place, w, x);
    QueueAgrees(s.place, w, x.control, id, actor);
    MapFrame(s.place, w, x, id, InControl(w));
    MovedPlaces(s, DoQueueSpawn(s, id, actor, w), w, id, InControl(w));
  }

  lemma AbandonSpawnPlaces(s: World, id: ActorId)
    requires PlacesOk(s) && id in s.starting && s.starting[id].worker < |s.workers|
    ensures PlacesOk(DoAbandonSpawn(s, id))
  {
    hide IdsAgree, StopsAgree, HomesAgree, AddrsAgree, SpawnIds;
    var w := s.starting[id].worker;
    assert At(s.place, id, InStarted);
    assert WorkerPlaces(s.place, w, s.workers[w]);
    WorkerFrame(s.place, id, NeverPlaced, w, s.workers[w]);
    assert s.workers[w := s.workers[w]] == s.workers;
    MovedPlaces(s, DoAbandonSpawn(s, id), w, id, NeverPlaced);
  }

  lemma SpawnQueuePlaces(s: World, id: ActorId, actor: State)
    requires PlacesOk(s) && id in s.starting && s.starting[id].worker < |s.workers|
    ensures PlacesOk(DoSpawnQueue(s, id, actor))
  {
    hide PlacesOk, DoQueueSpawn, DoAbandonSpawn;
    if s.workers[s.starting[id].worker].phase.Exited? {
      AbandonSpawnPlaces(s, id);
    } else {
      QueueSpawnPlaces(s, id, actor, s.starting[id].worker);
    }
  }

  lemma QueueAgrees(place: PlaceMap, w: nat, control: seq<Control>, id: ActorId, actor: State)
    requires ControlAgrees(place, w, control) && At(place, id, InStarted)
    ensures ControlAgrees(place[id := InControl(w)], w, control + [SpawnActor(id, actor)])
  {
    SpawnIdsSnoc(control, SpawnActor(id, actor));
    var ids := SpawnIds(control);
    assert id !in ids;
    forall i ensures i in ids + [id] <==> At(place[id := InControl(w)], i, InControl(w)) {
      assert i in ids <==> At(place, i, InControl(w));
    }
  }

  lemma MapFrame(place: PlaceMap, w: nat, x: Worker, id: ActorId, p: Place)
    requires MapAgrees(place, w, x.actors) && PhaseAgrees(place, w, x.phase)
    requires (id in place ==> NotOn(place[id], w)) && p != InMap(w) && p != InDispatch(w)
    ensures MapAgrees(place[id := p], w, x.actors) && PhaseAgrees(place[id := p], w, x.phase)
  {
    var place' := place[id := p];
    forall i ensures i in x.actors <==> At(place', i, InMap(w)) {
      assert i in x.actors <==> At(place, i, InMap(w));
    }
    forall i ensures (x.phase.Handling? && x.phase.envelope.target == i) <==> At(place', i, InDispatch(w)) {
      assert (x.phase.Handling? && x.phase.envelope.target == i) <==> At(place, i, InDispatch(w));
    }
  }

  lemma ChildInsertPlaces(s: World, id: ActorId, actor: State)
    requires PlacesOk(s) && id in s.starting
    ensures PlacesOk(DoChildInsert(s, id, actor))
  {
    hide IdsAgree, StopsAgree, HomesAgree, AddrsAgree, SpawnIds;
    var s' := DoChildInsert(s, id, actor);
    var w := s.starting[id].worker;
    assert At(s.place, id, InStarted);
    assert WorkerPlaces(s.place, w, s.workers[w]);
    InsertPlaces(s.place, w, s.workers[w], s'.workers[w], id, actor);
    HousedPlaces(s, s', w, id, actor);
  }

  /** `id`, so far in none of worker `w`'s structures, enters its map. */
  lemma InsertPlaces(place: PlaceMap, w: nat, x: Worker, x': Worker, id: ActorId, actor: State)
    requires WorkerPlaces(place, w, x) && At(place, id, InStarted)
    requires x' == x.(actors := x.actors[id := actor],
                      late := if x.phase.Stopping? || x.phase.Exited? then x.late + {id} else x.late)
    ensures WorkerPlaces(place[id := InMap(w)], w, x')
  {
    var place' := place[id := InMap(w)];
    forall i ensures i in x'.actors <==> At(place', i, InMap(w)) {
      assert i in x.actors <==> At(place, i, InMap(w));
    }
    assert id !in x.actors;
    forall i ensures At(place', i, InControl(w)) == At(place, i, InControl(w))
                  && At(place', i, InDispatch(w)) == At(place, i, InDispatch(w)) {
    }
  }

  /** A confirmed spawn request leaves the control queue for the map. */
  lemma ConfirmPlaces(place: PlaceMap, w: nat, x: Worker, id: ActorId, actor: State)
    requires WorkerPlaces(place, w, x) && x.phase.ReadControl? && x.control != []
    requires x.control[0] == SpawnActor(id, actor)
    ensures At(place, id, InControl(w))
    ensures WorkerPlaces(place[id := InMap(w)], w, x.(control := x.control[1..], actors := x.actors[id := actor]))
  {
    var place' := place[id := InMap(w)];
    var ids, rest := SpawnIds(x.control), SpawnIds(x.control[1..]);
    assert ids == [id] + rest;
    assert id == ids[0];
    assert forall i :: 0 <= i < |rest| ==> rest[i] == ids[i + 1];
    forall i ensures i in rest <==> At(place', i, InControl(w)) {
      assert i in ids <==> At(place, i, InControl(w));
    }
    forall i ensures i in x.actors || i == id <==> At(place', i, InMap(w)) {
      assert i in x.actors <==> At(place, i, InMap(w));
    }
    forall i ensures (x.phase.Handling? && x.phase.envelope.target == i) <==> At(place', i, InDispatch(w)) {
      assert !At(place, i, InDispatch(w));
    }
  }

  /** Worker `w` changes in a way that moves no actor. */
  lemma WorkerChanged(place: PlaceMap, workers: seq<Worker>, w: nat, x: Worker)
    requires WorkersPlaces(place, workers) && w < |workers| && WorkerPlaces(place, w, x)
    ensures WorkersPlaces(place, workers[w := x])
  {
  }

  /** Between dispatches the phase says nothing about places. */
  lemma IdlePhase(place: PlaceMap, w: nat, x: Worker, p: Phase)
    requires WorkerPlaces(place, w, x) && !x.phase.Handling? && !x.phase.Stopping? && !x.phase.Exited?
    requires p.ReadControl? || p.DrainChannel? || p.TakeTurn? || p.AwaitMessage? || p == Stopping(x.actors.Keys)
    ensures WorkerPlaces(place, w, x.(phase := p))
  {
    assert forall i :: !At(place, i, InDispatch(w));
  }

  lemma ConfirmStepPlaces(s: World, w: nat, id: ActorId, actor: State)
    requires PlacesOk(s) && w < |s.workers| && s.workers[w].phase.ReadControl?
    requires s.workers[w].control != [] && s.workers[w].control[0] == SpawnActor(id, actor)
    ensures PlacesOk(DoConfirm(s, w, id, actor))
  {
    hide IdsAgree, StopsAgree, HomesAgree, AddrsAgree, SpawnIds;
    var x := s.workers[w];
    assert WorkerPlaces(s.place, w, x);
    ConfirmPlaces(s.place, w, x, id, actor);
    assert !At(s.place, id, InStarted) && s.starting - {id} == s.starting;
    HousedPlaces(s, DoConfirm(s, w, id, actor), w, id, actor);
  }

  lemma BeginShutdownPlaces(s: World, w: nat)
    requires PlacesOk(s) && w < |s.workers| && s.workers[w].phase.ReadControl?
    requires s.workers[w].control != [] && s.workers[w].control[0].Shutdown?
    ensures PlacesOk(DoBeginShutdown(s, w))
  {
    var x := s.workers[w];
    var x1 := x.(control := x.control[1..]);
    assert WorkerPlaces(s.place, w, x);
    assert SpawnIds(x.control) == SpawnIds(x.control[1..]);
    IdlePhase(s.place, w, x1, Stopping(x.actors.Keys));
    WorkerChanged(s.place, s.workers, w, x1.(phase := Stopping(x.actors.Keys)));
  }

  lemma ControlPlaces(s: World, w: nat)
    requires PlacesOk(s) && w < |s.workers| && s.workers[w].phase.ReadControl?
    ensures PlacesOk(DoControl(s, w))
  {
    hide PlacesOk, DoConfirm, DoBeginShutdown;
    var x := s.workers[w];
    if x.control == [] {
      IdleStepPlaces(s, w, x.channel, x.sched, DrainChannel);
    } else {
      match x.control[0]
      case SpawnActor(id, actor) => ConfirmStepPlaces(s, w, id, actor);
      case Shutdown => BeginShutdownPlaces(s, w);
    }
  }

  /** The actor leaves the map for the dispatch that runs it. */
  lemma TakePlaces(place: PlaceMap, w: nat, x: Worker, id: ActorId, q: Sched, e: Envelope)
    requires WorkerPlaces(place, w, x) && x.phase.TakeTurn? && id in x.actors && e.target == id
    ensures At(place, id, InMap(w))
    ensures WorkerPlaces(place[id := InDispatch(w)], w,
              x.(sched := q, actors := x.actors - {id}, dispatches := x.dispatches + 1,
                 phase := Handling(e, x.actors[id], Free)))
  {
    var place' := place[id := InDispatch(w)];
    forall i ensures i in x.actors - {id} <==> At(place', i, InMap(w)) {
      assert i in x.actors <==> At(place, i, InMap(w));
    }
    forall i ensures e.target == i <==> At(place', i, InDispatch(w)) {
      assert !At(place, i, InDispatch(w));
    }
    forall i ensures At(place', i, InControl(w)) == At(place, i, InControl(w)) {
    }
  }

  lemma TakeStepPlaces(s: World, w: nat, q: Sched, e: Envelope)
    requires PlacesOk(s) && w < |s.workers| && s.workers[w].phase.TakeTurn? && e.target in s.workers[w].actors
    ensures PlacesOk(DoTake(s, w, q, e))
  {
    hide IdsAgree, StopsAgree, HomesAgree, AddrsAgree, SpawnIds;
    assert WorkerPlaces(s.place, w, s.workers[w]);
    TakePlaces(s.place, w, s.workers[w], e.target, q, e);
    assert !At(s.place, e.target, InStarted) && s.starting - {e.target} == s.starting;
    MovedPlaces(s, DoTake(s, w, q, e), w, e.target, InDispatch(w));
  }

  /** A worker that is not dispatching changes its channel, its scheduler and its phase. */
  lemma IdleStepPlaces(s: World, w: nat, channel: seq<Envelope>, q: Sched, p: Phase)
    requires PlacesOk(s) && w < |s.workers|
    requires var o := s.workers[w].phase; !o.Handling? && !o.Stopping? && !o.Exited?
    requires || p.ReadControl? || p.DrainChannel? || p.TakeTurn? || p.AwaitMessage?
             || p == Stopping(s.workers[w].actors.Keys)
    ensures PlacesOk(Put(s, w, s.workers[w].(channel := channel, sched := q, phase := p)))
  {
    assert WorkerPlaces(s.place, w, s.workers[w]);
    IdlePhase(s.place, w, s.workers[w], p);
    WorkerChanged(s.place, s.workers, w, s.workers[w].(channel := channel, sched := q, phase := p));
  }

  lemma TurnPlaces(s: World, w: nat)
    requires PlacesOk(s) && w < |s.workers| && s.workers[w].phase.TakeTurn?
    ensures PlacesOk(DoTurn(s, w))
  {
    var x := s.workers[w];
    match NextReady(x.sched)
    case (q, None) => IdleStepPlaces(s, w, x.channel, q, AwaitMessage);
    case (q, Some(id)) =>
      match Dequeue(q, id)
      case (q', None) => IdleStepPlaces(s, w, x.channel, q', ReadControl);
      case (q', Some(e)) =>
        if e.target in x.actors {
          TakeStepPlaces(s, w, q', e);
        } else {
          IdleStepPlaces(s, w, x.channel, RequeueIfReady(q', id), ReadControl);
        }
  }

  /** The dispatched actor returns to the map, or stops. */
  lemma ReturnPlaces(place: PlaceMap, w: nat, x: Worker, id: ActorId, q: Sched, back: Option<State>)
    requires WorkerPlaces(place, w, x) && x.phase.Handling? && x.phase.envelope.target == id
    ensures At(place, id, InDispatch(w))
    ensures WorkerPlaces(place[id := if back.Some? then InMap(w) else HasStopped], w,
              x.(sched := q, actors := if back.Some? then x.actors[id := back.value] else x.actors,
                 phase := ReadControl))
  {
    var p := if back.Some? then InMap(w) else HasStopped;
    var place' := place[id := p];
    var actors' := if back.Some? then x.actors[id := back.value] else x.actors;
    assert At(place, id, InDispatch(w));
    forall i ensures i in actors' <==> At(place', i, InMap(w)) {
      assert i in x.actors <==> At(place, i, InMap(w));
    }
    forall i ensures !At(place', i, InDispatch(w)) {
      assert x.phase.envelope.target == i <==> At(place, i, InDispatch(w));
    }
    forall i ensures At(place', i, InControl(w)) == At(place, i, InControl(w)) {
    }
  }

  lemma PutBackPlaces(s: World, w: nat, actor: State, reply: Reply)
    requires PlacesOk(s) && w < |s.workers| && s.workers[w].phase.Handling?
    ensures PlacesOk(DoPutBack(s, w, actor, reply))
  {
    hide IdsAgree, StopsAgree, HomesAgree, AddrsAgree, SpawnIds;
    var x := s.workers[w];
    var id := x.phase.envelope.target;
    assert WorkerPlaces(s.place, w, x);
    ReturnPlaces(s.place, w, x, id, RequeueIfReady(x.sched, id), Some(actor));
    assert !At(s.place, id, InStarted) && s.starting - {id} == s.starting;
    MovedPlaces(s, DoPutBack(s, w, actor, reply), w, id, InMap(w));
  }

  lemma FinishStoppedPlaces(s: World, w: nat, f: Fate)
    requires PlacesOk(s) && w < |s.workers| && s.workers[w].phase.Handling?
    ensures PlacesOk(DoFinishStopped(s, w, f))
  {
    hide IdsAgree, StopsAgree, HomesAgree, AddrsAgree, SpawnIds;
    var x, s' := s.workers[w], DoFinishStopped(s, w, f);
    var id := x.phase.envelope.target;
    assert WorkerPlaces(s.place, w, x);
    ReturnPlaces(s.place, w, x, id, s'.workers[w].sched, None);
    assert !At(s.place, id, InStarted) && s.starting - {id} == s.starting;
    MovedPlaces(s, s', w, id, HasStopped);
  }

  lemma FinishPlaces(h: Behaviour, s: World, w: nat)
    requires PlacesOk(s) && w < |s.workers| && s.workers[w].phase.Handling?
    ensures PlacesOk(DoFinish(h, s, w))
  {
    var x := s.workers[w];
    match h(x.phase.envelope.target, x.phase.actor, x.phase.envelope.msg)
    case Continued(actor, reply) => PutBackPlaces(s, w, actor, reply);
    case StopRequested(_, reply) => FinishStoppedPlaces(s, w, Handled(reply));
    case Panicked => FinishStoppedPlaces(s, w, Crashed);
  }

  lemma StopPlaces(place: PlaceMap, w: nat, x: Worker, id: ActorId, q: Sched)
    requires WorkerPlaces(place, w, x) && x.phase.Stopping? && id in x.phase.remaining
    ensures id in x.actors && At(place, id, InMap(w))
    ensures WorkerPlaces(place[id := HasStopped], w,
              x.(actors := x.actors - {id}, sched := q, phase := Stopping(x.phase.remaining - {id})))
  {
    var place' := place[id := HasStopped];
    forall i ensures i in x.actors - {id} <==> At(place', i, InMap(w)) {
      assert i in x.actors <==> At(place, i, InMap(w));
    }
    forall i ensures !At(place', i, InDispatch(w)) {
      assert !At(place, i, InDispatch(w));
    }
    forall i ensures At(place', i, InControl(w)) == At(place, i, InControl(w)) {
    }
  }

  lemma StopOnePlaces(s: World, w: nat, id: ActorId)
    requires PlacesOk(s) && w < |s.workers| && s.workers[w].phase.Stopping? && id in s.workers[w].phase.remaining
    ensures PlacesOk(DoStopOne(s, w, id))
    ensures id in s.workers[w].actors
  {
    hide IdsAgree, StopsAgree, HomesAgree, AddrsAgree, SpawnIds;
    var x, s' := s.workers[w], DoStopOne(s, w, id);
    assert WorkerPlaces(s.place, w, x);
    StopPlaces(s.place, w, x, id, s'.workers[w].sched);
    assert !At(s.place, id, InStarted) && s.starting - {id} == s.starting;
    MovedPlaces(s, s', w, id, HasStopped);
  }

  /** The places after worker `w` abandoned its control queue. */
  function Abandon(place: PlaceMap, w: nat): PlaceMap {
    map id | id in place :: if place[id] == InControl(w) then NeverPlaced else place[id]
  }

  lemma AbandonGlobal(place: PlaceMap, w: nat, nextId: nat, stops: seq<ActorId>, unpicked: set<ActorId>,
                      starting: map<ActorId, Starting>, home: map<ActorId, nat>, n: nat)
    requires IdsAgree(place, nextId) && StopsAgree(place, stops) && StartingAgrees(place, starting, n)
    requires HomesAgree(place, home, n) && UnpickedAgrees(place, unpicked)
    ensures var p := Abandon(place, w);
            && IdsAgree(p, nextId) && StopsAgree(p, stops) && UnpickedAgrees(p, unpicked)
            && StartingAgrees(p, starting, n) && HomesAgree(p, home, n)
  {
    var place' := Abandon(place, w);
    forall i ensures At(place', i, HasStopped) == At(place, i, HasStopped)
                  && At(place', i, InStarted) == At(place, i, InStarted)
                  && At(place', i, Allocated) == At(place, i, Allocated) {
    }
    forall i, v ensures AtHome(place', i, v) == AtHome(place, i, v) {
    }
  }

  lemma AbandonWorker(place: PlaceMap, w: nat, v: nat, x: Worker)
    requires WorkerPlaces(place, v, x)
    ensures v != w ==> WorkerPlaces(Abandon(place, w), v, x)
    ensures v == w && x.phase.Stopping? && x.phase.remaining == {} ==>
              WorkerPlaces(Abandon(place, w), w,
                           x.(control := [], channel := [], sched := Empty(), phase := Exited, holdsShared := false))
  {
    var place' := Abandon(place, w);
    forall i ensures At(place', i, InMap(v)) == At(place, i, InMap(v))
                  && At(place', i, InDispatch(v)) == At(place, i, InDispatch(v))
                  && At(place', i, InControl(v)) == (v != w && At(place, i, InControl(v))) {
    }
  }

  lemma AbandonWorkers(place: PlaceMap, w: nat, workers: seq<Worker>)
    requires WorkersPlaces(place, workers) && w < |workers|
    requires workers[w].phase.Stopping? && workers[w].phase.remaining == {}
    ensures var x' := workers[w].(control := [], channel := [], sched := Empty(), phase := Exited,
                                  holdsShared := false);
            WorkersPlaces(Abandon(place, w), workers[w := x'])
  {
    var workers' := workers[w := workers[w].(control := [], channel := [], sched := Empty(), phase := Exited,
                                             holdsShared := false)];
    forall v | 0 <= v < |workers'| ensures WorkerPlaces(Abandon(place, w), v, workers'[v]) {
      AbandonWorker(place, w, v, workers[v]);
    }
  }

  lemma FinishStoppingPlaces(s: World, w: nat)
    requires PlacesOk(s) && w < |s.workers| && s.workers[w].phase.Stopping? && s.workers[w].phase.remaining == {}
    ensures PlacesOk(DoFinishStopping(s, w))
  {
    AbandonGlobal(s.place, w, s.nextId, s.stops, s.unpicked, s.starting, s.home, |s.workers|);
    AbandonWorkers(s.place, w, s.workers);
  }

  lemma SendPlaces(s: World, target: ActorId, msg: Msg)
    requires PlacesOk(s) && CanAccept(s, target)
    ensures PlacesOk(DoSend(s, target, msg))
  {
    var w := s.addrs[target];
    assert WorkerPlaces(s.place, w, s.workers[w]);
    WorkerChanged(s.place, s.workers, w, DoSend(s, target, msg).workers[w]);
  }

  lemma BlockingSendPlaces(s: World, w: nat, target: ActorId, msg: Msg)
    requires PlacesOk(s) && w < |s.workers| && Unblocked(s.workers[w].phase) && CanAccept(s, target)
    ensures PlacesOk(DoBlockingSend(s, w, target, msg))
  {
    SendPlaces(s, target, msg);
    var s1 := DoSend(s, target, msg);
    assert WorkerPlaces(s.place, w, s1.workers[w]);
    WorkerChanged(s.place, s1.workers, w, DoBlockingSend(s, w, target, msg).workers[w]);
  }

  lemma WaitPlaces(s: World, w: nat, wait: Wait)
    requires PlacesOk(s) && w < |s.workers| && s.workers[w].phase.Handling?
    ensures PlacesOk(SetPhase(s, w, s.workers[w].phase.(waitingFor := wait)))
  {
    var x := s.workers[w];
    assert WorkerPlaces(s.place, w, x);
    WorkerChanged(s.place, s.workers, w, x.(phase := x.phase.(waitingFor := wait)));
  }

  lemma RequestShutdownPlaces(s: World, w: nat)
    requires PlacesOk(s) && w < |s.workers| && !s.workers[w].phase.Exited?
    ensures PlacesOk(Put(s, w, s.workers[w].(control := s.workers[w].control + [Shutdown])))
  {
    var x := s.workers[w];
    assert WorkerPlaces(s.place, w, x);
    SpawnIdsSnoc(x.control, Shutdown);
    WorkerChanged(s.place, s.workers, w, x.(control := x.control + [Shutdown]));
  }

  lemma ReturnedPlaces(s: World, id: ActorId)
    requires PlacesOk(s) && id in s.confirmed
    ensures PlacesOk(DoSpawnReturn(s, id))
  {
  }

  lemma HandlePlaces(s: World)
    requires PlacesOk(s)
    ensures PlacesOk(s.(handleHeld := false))
  {
  }

  /** Every step of every thread keeps the places in order. */
  lemma StepPlaces(h: Behaviour, s: World, step: Step)
    requires PlacesOk(s) && Enabled(s, step)
    ensures PlacesOk(Apply(h, s, step))
  {
    hide PlacesOk, Queued, DoSpawnAllocate, DoPick, DoSpawnQueue, DoSpawnReturn, DoChildInsert, DoSend, DoBlockingSend;
    hide DoControl, DoDrain;
    hide DoTurn, DoFinish, DoStopOne, DoFinishStopping;
    match step
    case SpawnAllocate => SpawnAllocatePlaces(s);
    case PickWorker(id) => PickPlaces(s, id);
    case SpawnQueue(id, actor) => SpawnQueuePlaces(s, id, actor);
    case SpawnReturn(id) => ReturnedPlaces(s, id);
    case ChildBegin(w, parent) =>
      if parent.Some? { StartingNotHome(s, parent.value); }
      AllocatePlaces(s, Starting(w, if parent.None? then ByWorker else ByClientHook));
    case ChildInsert(id, actor) => ChildInsertPlaces(s, id, actor);
    case Send(target, msg) => SendPlaces(s, target, msg);
    case BlockingSend(w, target, msg) => BlockingSendPlaces(s, w, target, msg);
    case AwaitConfirm(w, id) => WaitPlaces(s, w, ForConfirm(id));
    case Resume(w) => WaitPlaces(s, w, Free);
    case RequestShutdown(w) => RequestShutdownPlaces(s, w);
    case DropHandle => HandlePlaces(s);
    case ControlStep(w) => ControlPlaces(s, w);
    case TurnStep(w) => TurnPlaces(s, w);
    case FinishTurn(w) => FinishPlaces(h, s, w);
    case StopOne(w, id) => StopOnePlaces(s, w, id);
    case FinishStopping(w) => FinishStoppingPlaces(s, w);
    case DrainStep(w) => DrainPlaces(s, w);
    case WaitReceive(w) =>
      var x := s.workers[w];
      IdleStepPlaces(s, w, x.channel[1..], Enqueue(x.sched, x.channel[0]), ReadControl);
    case WaitTimeout(w) => IdleStepPlaces(s, w, s.workers[w].channel, s.workers[w].sched, ReadControl);
    case WaitDisconnected(w) =>
      IdleStepPlaces(s, w, s.workers[w].channel, s.workers[w].sched, Stopping(s.workers[w].actors.Keys));
  }

  lemma DrainPlaces(s: World, w: nat)
    requires PlacesOk(s) && w < |s.workers| && s.workers[w].phase.DrainChannel?
    ensures PlacesOk(DoDrain(s, w))
  {
    var x := s.workers[w];
    if x.channel == [] {
      IdleStepPlaces(s, w, x.channel, x.sched, TakeTurn);
    } else {
      IdleStepPlaces(s, w, x.channel[1..], Enqueue(x.sched, x.channel[0]), DrainChannel);
    }
  }
}
