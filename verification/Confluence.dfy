/** The schedule does not matter to an actor: two runs that accept the same messages for it, on
    any number of workers and in any interleaving, leave the same actor and the same fates; and
    so does the global first-in-first-out order of the single-threaded runtime. */
module Confluence {
  import opened Actors
  import opened RuntimeModel
  import opened Mail
  import opened Places
  import opened History
  import opened Reachable
  import opened SystemSpec

  /** The same messages in the same order; their global positions may differ. */
  ghost predicate SameMail(f: seq<Envelope>, g: seq<Envelope>) {
    |f| == |g| && forall i :: 0 <= i < |f| ==> f[i].target == g[i].target && f[i].msg == g[i].msg
  }

  lemma {:induction false} SameRun(h: Behaviour, init: State, f: seq<Envelope>, g: seq<Envelope>)
    requires SameMail(f, g)
    ensures RunActor(h, init, f) == RunActor(h, init, g)
    decreases |f|
  {
    if f != [] {
      SameRun(h, init, f[..|f| - 1], g[..|g| - 1]);
    }
  }

  /** The home worker of `a` is not shutting down and has nothing left for it. */
  ghost predicate Quiet(s: World, a: ActorId) {
    && a in s.home && s.home[a] < |s.workers| && a in s.births
    && Live(s.workers[s.home[a]], a) && Pipe(s.workers[s.home[a]], a) == []
  }

  /** What the runtime holds of the actor. */
  function Held(s: World, a: ActorId): Option<State>
    requires a in s.home && s.home[a] < |s.workers|
  {
    Present(s.workers[s.home[a]], a)
  }

  /** The fates of the envelopes accepted for `a`, in their order. */
  ghost predicate FatesAre(s: World, a: ActorId, fates: seq<Fate>) {
    var f := ForActor(s.accepted, a);
    |f| == |fates| && forall i :: 0 <= i < |f| ==> f[i].ticket in s.fate && s.fate[f[i].ticket] == fates[i]
  }

  /** A quiet actor has done exactly what the reference run makes of its mail. */
  lemma QuietOnReference(h: Behaviour, s: World, a: ActorId)
    requires Inv(h, s) && Quiet(s, a)
    ensures var run := RunActor(h, s.births[a], ForActor(s.accepted, a));
            Held(s, a) == run.alive && FatesAre(s, a, run.fates)
  {
    hide PlacesOk, MailOk, Pipe, RunActor, ForActor;
    var f := ForActor(s.accepted, a);
    assert HistOk(h, f, s.fate, s.births[a], s.workers[s.home[a]], a);
    assert f[..|f|] == f;
  }

  /** Of a quiet actor nothing is held exactly when it has stopped. */
  lemma QuietStopped(h: Behaviour, s: World, a: ActorId)
    requires Inv(h, s) && Quiet(s, a)
    ensures a in s.stops <==> Held(s, a) == None
  {
    hide MailOk, HistoryOk;
    var w := s.home[a];
    assert WorkerPlaces(s.place, w, s.workers[w]);
    assert AtHome(s.place, a, w);
  }

  /** Any two runs of the runtime agree on every actor that was sent the same messages. */
  lemma InterleavingsAgree(h: Behaviour, s: World, s': World, a: ActorId, fates: seq<Fate>)
    requires Inv(h, s) && Inv(h, s') && Quiet(s, a) && Quiet(s', a)
    requires s.births[a] == s'.births[a] && SameMail(ForActor(s.accepted, a), ForActor(s'.accepted, a))
    ensures Held(s, a) == Held(s', a)
    ensures a in s.stops <==> a in s'.stops
    ensures FatesAre(s, a, fates) <==> FatesAre(s', a, fates)
  {
    QuietOnReference(h, s, a);
    QuietOnReference(h, s', a);
    QuietStopped(h, s, a);
    QuietStopped(h, s', a);
    hide Inv, Quiet, Held;
    SameRun(h, s.births[a], ForActor(s.accepted, a), ForActor(s'.accepted, a));
    SameFates(s, a, RunActor(h, s.births[a], ForActor(s.accepted, a)).fates, fates);
    SameFates(s', a, RunActor(h, s.births[a], ForActor(s'.accepted, a)).fates, fates);
  }

  lemma SameFates(s: World, a: ActorId, fates: seq<Fate>, fates': seq<Fate>)
    requires FatesAre(s, a, fates)
    ensures FatesAre(s, a, fates') <==> fates' == fates
  {
    if FatesAre(s, a, fates') {
      assert |fates'| == |fates|;
    }
  }

  /** The drained single-threaded runtime, seen from one actor. */
  ghost predicate SystemFatesAre(q: Sys, a: ActorId, fates: seq<Fate>) {
    var g := ForActor(q.accepted, a);
    |g| == |fates| && forall i :: 0 <= i < |g| ==> g[i].ticket < |q.fates| && q.fates[g[i].ticket] == fates[i]
  }

  lemma DrainedOnReference(r: Reactor, q: Sys, a: ActorId)
    requires SysOk(r, q) && q.next == |q.accepted| && a in q.births
    ensures var run := RunActor(AsBehaviour(r), q.births[a], ForActor(q.accepted, a));
            Lookup(q.actors, a) == run.alive && SystemFatesAre(q, a, run.fates)
  {
    hide RunActor, ForActor, AsBehaviour;
    assert OnReference(r, q, a);
    assert q.accepted[..q.next] == q.accepted;
  }

  /** Round robin on many threads and first-in-first-out on one thread end with the same actor,
      the same replies in the same order, the same stopped actors and the same discarded
      envelopes. */
  lemma RoundRobinAgreesWithFifo(r: Reactor, s: World, q: Sys, a: ActorId, fates: seq<Fate>)
    requires Inv(AsBehaviour(r), s) && Quiet(s, a)
    requires SysOk(r, q) && q.next == |q.accepted| && a in q.births
    requires s.births[a] == q.births[a] && SameMail(ForActor(s.accepted, a), ForActor(q.accepted, a))
    ensures Held(s, a) == Lookup(q.actors, a)
    ensures a in s.stops <==> a in q.stops
    ensures FatesAre(s, a, fates) <==> SystemFatesAre(q, a, fates)
  {
    var h := AsBehaviour(r);
    QuietOnReference(h, s, a);
    QuietStopped(h, s, a);
    DrainedOnReference(r, q, a);
    SysBounds(r, q);
    hide Inv, Quiet, Held, SysOk, AsBehaviour;
    SameRun(h, s.births[a], ForActor(s.accepted, a), ForActor(q.accepted, a));
    var run := RunActor(h, s.births[a], ForActor(s.accepted, a));
    SameFates(s, a, run.fates, fates);
    if SystemFatesAre(q, a, fates) {
      assert |fates| == |run.fates|;
      assert fates == run.fates;
    }
  }
}
