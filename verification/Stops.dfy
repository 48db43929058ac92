/** Who stops an actor: over every run, only the end of its own handler and the shutdown of its
    worker. */
module Stops {
  import opened Actors
  import opened RuntimeModel
  import opened Reachable
  import opened ShutdownProtocol
  import opened Frames
  import Mail
  import History
  import Places

  /** The actor is in the map of worker `w` or in its dispatch. */
  predicate Alive(s: World, w: nat, id: ActorId) {
    w < |s.workers|
    && (id in s.workers[w].actors || (s.workers[w].phase.Handling? && s.workers[w].phase.envelope.target == id))
  }

  /** The actor has been placed on worker `w`. */
  predicate HomedAt(s: World, w: nat, id: ActorId) { id in s.home && s.home[id] == w }

  /** A placed actor is alive until its stopped hook has run. */
  lemma AliveIffNotStopped(h: Behaviour, s: World, w: nat, id: ActorId)
    requires Inv(h, s) && HomedAt(s, w, id)
    ensures Alive(s, w, id) <==> id !in s.stops
  {
    PlaceOf(h, s, w, id);
    if Alive(s, w, id) {
      AliveIsHome(h, s, w, id);
    }
  }

  lemma PlaceOf(h: Behaviour, s: World, w: nat, id: ActorId)
    requires Inv(h, s) && HomedAt(s, w, id)
    ensures Alive(s, w, id) || id in s.stops
  {
    hide Mail.MailOk, History.HistoryOk;
    assert Places.AtHome(s.place, id, w);
    assert Places.WorkerPlaces(s.place, w, s.workers[w]);
  }

  /** The actors whose stopped hooks a run calls, in order. */
  ghost function StoppedIn(h: Behaviour, s: World, steps: seq<Step>): seq<ActorId>
    decreases |steps|
  {
    if steps == [] || !Enabled(s, steps[0]) then []
    else StoppedBy(h, s, steps[0]) + StoppedIn(h, Apply(h, s, steps[0]), steps[1..])
  }

  lemma {:induction false} StopsOfRun(h: Behaviour, s: World, steps: seq<Step>, s': World)
    requires Run(h, s, steps, s')
    ensures s'.stops == s.stops + StoppedIn(h, s, steps)
    decreases |steps|
  {
    hide Apply, Enabled, StoppedBy;
    if steps != [] {
      var s1 := Apply(h, s, steps[0]);
      SpawnsStep(h, s, steps[0]);
      StopsOfRun(h, s1, steps[1..], s');
      var now, rest := StoppedBy(h, s, steps[0]), StoppedIn(h, s1, steps[1..]);
      assert (s.stops + now) + rest == s.stops + (now + rest);
    }
  }

  lemma HomeKept(h: Behaviour, s: World, steps: seq<Step>, s': World, w: nat, id: ActorId)
    requires Inv(h, s) && Run(h, s, steps, s') && HomedAt(s, w, id)
    ensures Inv(h, s') && HomedAt(s', w, id)
  {
    hide Inv, Run;
    RunInv(h, s, steps, s');
    RunLater(h, s, steps, s');
  }

  /** Over every run: a living actor is alive at the end, on the same worker, exactly if no step of the
      run ended its own handler by a stop request or a panic, or removed it in the shutdown of its
      worker. Nothing that other actors do stops it. */
  lemma LivesUntilItsEnd(h: Behaviour, s: World, steps: seq<Step>, s': World, w: nat, id: ActorId)
    requires Inv(h, s) && Run(h, s, steps, s') && Alive(s, w, id)
    ensures Alive(s', w, id) <==> id !in StoppedIn(h, s, steps)
  {
    AliveIsHome(h, s, w, id);
    AliveIffNotStopped(h, s, w, id);
    hide Inv, Run, StoppedIn, Alive;
    StopsOfRun(h, s, steps, s');
    HomeKept(h, s, steps, s', w, id);
    AliveIffNotStopped(h, s', w, id);
  }

  lemma AliveIsHome(h: Behaviour, s: World, w: nat, id: ActorId)
    requires Inv(h, s) && Alive(s, w, id)
    ensures HomedAt(s, w, id) && id !in s.stops
  {
    var p := if id in s.workers[w].actors then InMap(w) else InDispatch(w);
    assert Found(s, id, p);
    FoundAt(h, s, id, p);
    if id in s.stops {
      ActorNotTwice(h, s, id, p, HasStopped);
    }
    hide Mail.MailOk, History.HistoryOk;
    assert Places.AtHome(s.place, id, w);
    assert Places.AtHome(s.place, id, s.home[id]);
  }

  /** The step begins the handler of `id` on worker `w`. */
  predicate TakesOut(s: World, step: Step, s': World, w: nat, id: ActorId) {
    step == TurnStep(w) && w < |s'.workers| && s'.workers[w].phase.Handling?
    && s'.workers[w].phase.envelope.target == id
  }

  /** An actor leaves the map of its worker exactly in its own turn and when the shutdown of the
      worker removes it. */
  lemma LeavesTheMap(h: Behaviour, s: World, step: Step, w: nat, id: ActorId)
    requires Inv(h, s) && Enabled(s, step) && w < |s.workers| && id in s.workers[w].actors
    ensures var s' := Apply(h, s, step);
            && |s'.workers| == |s.workers|
            && (id !in s'.workers[w].actors <==> TakesOut(s, step, s', w, id) || step == StopOne(w, id))
  {
    var s' := Apply(h, s, step);
    NotInDispatch(h, s, w, id);
    SpawnsStep(h, s, step);
    AliveIsHome(h, s, w, id);
    StopsOnlyItself(h, s, step, w, id);
    StepStillHome(h, s, step, w, id);
    hide Inv, Apply, Enabled, StoppedBy;
    AliveIffNotStopped(h, s', w, id);
    if id !in s'.workers[w].actors && id !in s'.stops {
      assert Alive(s', w, id);
      DispatchBegins(h, s, step, w);
    }
    if id in s'.workers[w].actors {
      NotInDispatch(h, s', w, id);
    }
  }

  lemma StepStillHome(h: Behaviour, s: World, step: Step, w: nat, id: ActorId)
    requires Inv(h, s) && Enabled(s, step) && HomedAt(s, w, id)
    ensures Inv(h, Apply(h, s, step)) && HomedAt(Apply(h, s, step), w, id)
  {
    hide Inv, Apply, Enabled;
    StepInv(h, s, step);
    StepLater(h, s, step);
  }

  lemma NotInDispatch(h: Behaviour, s: World, w: nat, id: ActorId)
    requires Inv(h, s) && w < |s.workers| && id in s.workers[w].actors
    ensures forall v :: 0 <= v < |s.workers| && s.workers[v].phase.Handling? ==>
                          s.workers[v].phase.envelope.target != id
    ensures forall v :: 0 <= v < |s.workers| && id in s.workers[v].actors ==> v == w
  {
    forall v | 0 <= v < |s.workers|
      ensures s.workers[v].phase.Handling? ==> s.workers[v].phase.envelope.target != id
      ensures id in s.workers[v].actors ==> v == w
    {
      assert Found(s, id, InMap(w));
      if Found(s, id, InDispatch(v)) {
        ActorNotTwice(h, s, id, InMap(w), InDispatch(v));
      }
      if Found(s, id, InMap(v)) {
        ActorNotTwice(h, s, id, InMap(w), InMap(v));
      }
    }
  }

  /** Of an actor in a map only the shutdown of its worker runs the stopped hook. */
  lemma StopsOnlyItself(h: Behaviour, s: World, step: Step, w: nat, id: ActorId)
    requires Inv(h, s) && Enabled(s, step) && w < |s.workers| && id in s.workers[w].actors
    ensures id in StoppedBy(h, s, step) <==> step == StopOne(w, id)
  {
    NotInDispatch(h, s, w, id);
    hide Inv;
  }

  /** Only a turn begins a handler. */
  lemma DispatchBegins(h: Behaviour, s: World, step: Step, w: nat)
    requires Inv(h, s) && Enabled(s, step) && w < |s.workers|
    ensures |Apply(h, s, step).workers| == |s.workers|
    ensures var p, p' := s.workers[w].phase, Apply(h, s, step).workers[w].phase;
            p'.Handling? ==> step == TurnStep(w) || (p.Handling? && p'.envelope == p.envelope)
  {
    hide Inv, Apply;
    StepOfWorker(h, s, step, w);
  }
}
