/** Supervision (src/supervisor.rs): the state of a supervisor as a value, what happens to it over
    whole sequences of failures, and the object itself. */
module SupervisorSpec {
  import opened Actors
  import Modular
  import opened SchedulerSpec

  datatype Strategy = OneForOne | AllForOne

  /** Factory `factory`, counted in the order of registration, made actor `id`. */
  datatype Made = Made(factory: nat, id: ActorId)

  /** `factories` is how many are registered; `made` is the log of all factory calls. */
  datatype Sup = Sup(
    strategy: Strategy,
    maxRestarts: nat,
    factories: nat,
    ids: seq<ActorId>,
    counts: map<ActorId, nat>,
    made: seq<Made>)

  /** The `k`-th factory call returns `supply(k)`. */
  type Supply = nat -> ActorId

  /** Every factory call spawns a new actor. */
  ghost predicate Fresh(supply: Supply) {
    forall j: nat, k: nat :: j != k ==> supply(j) != supply(k)
  }

  /** `id` came out of one of the first `m` calls. */
  ghost predicate Issued(supply: Supply, m: nat, id: ActorId) {
    exists k: nat :: k < m && supply(k) == id
  }

  function NewIds(s: Sup, supply: Supply, n: nat): (ids: seq<ActorId>)
    ensures |ids| == n && forall i :: 0 <= i < n ==> ids[i] == supply(|s.made| + i)
  {
    seq(n, (i: nat) => supply(|s.made| + i))
  }

  /** One call of each of the first `n` factories. */
  function NewMade(s: Sup, supply: Supply, n: nat): (made: seq<Made>)
    ensures |made| == n && forall i :: 0 <= i < n ==> made[i] == Made(i, supply(|s.made| + i))
  {
    seq(n, (i: nat) => Made(i, supply(|s.made| + i)))
  }

  function Zeros(ids: seq<ActorId>): map<ActorId, nat> {
    map id | id in ids :: 0
  }

  /** `start_all` appends a child for every factory. */
  function StartAll(s: Sup, supply: Supply): Sup {
    s.(ids := s.ids + NewIds(s, supply, s.factories),
       counts := s.counts + Zeros(NewIds(s, supply, s.factories)),
       made := s.made + NewMade(s, supply, s.factories))
  }

  function Overwritten(ids: seq<ActorId>, front: seq<ActorId>): seq<ActorId> {
    front + (if |ids| > |front| then ids[|front|..] else [])
  }

  /** `restart_all` overwrites the first children and forgets all counts. Nobody is stopped. */
  function RestartAll(s: Sup, supply: Supply): Sup {
    s.(ids := Overwritten(s.ids, NewIds(s, supply, s.factories)),
       counts := Zeros(NewIds(s, supply, s.factories)),
       made := s.made + NewMade(s, supply, s.factories))
  }

  function CountOf(s: Sup, id: ActorId): nat {
    if id in s.counts then s.counts[id] else 0
  }

  /** The first position of `id`. */
  function Position(ids: seq<ActorId>, id: ActorId): (p: Option<nat>)
    ensures p.Some? ==> p.value < |ids| && ids[p.value] == id && id !in ids[..p.value]
    ensures p == None ==> id !in ids
  {
    if ids == [] then None
    else if ids[0] == id then Some(0)
    else
      match Position(ids[1..], id)
      case None => None
      case Some(p) => Some(p + 1)
  }

  lemma {:induction false} FirstPosition(ids: seq<ActorId>, p: nat)
    requires p < |ids| && ids[p] !in ids[..p]
    ensures Position(ids, ids[p]) == Some(p)
  {
    if p > 0 {
      assert ids[0] in ids[..p];
      assert ids[..p][1..] == ids[1..][..p - 1];
      FirstPosition(ids[1..], p - 1);
    }
  }

  lemma NewSnoc(s: Sup, supply: Supply, n: nat)
    ensures NewIds(s, supply, n + 1) == NewIds(s, supply, n) + [supply(|s.made| + n)]
    ensures NewMade(s, supply, n + 1) == NewMade(s, supply, n) + [Made(n, supply(|s.made| + n))]
  {
  }

  lemma NothingNew(s: Sup, supply: Supply)
    ensures NewIds(s, supply, 0) == [] && NewMade(s, supply, 0) == [] && Zeros([]) == map[]
  {
  }

  lemma NothingOverwritten(ids: seq<ActorId>)
    ensures Overwritten(ids, []) == ids
  {
  }

  lemma OverwriteNext(ids: seq<ActorId>, front: seq<ActorId>, id: ActorId)
    ensures var now := Overwritten(ids, front);
            && |front| <= |now|
            && Overwritten(ids, front + [id]) == if |front| < |now| then now[|front| := id] else now + [id]
  {
  }

  lemma ZerosSnoc(counts: map<ActorId, nat>, ids: seq<ActorId>, id: ActorId)
    ensures counts + Zeros(ids + [id]) == (counts + Zeros(ids))[id := 0]
    ensures Zeros(ids + [id]) == Zeros(ids)[id := 0]
  {
  }

  function Drop(s: Sup, id: ActorId): Sup {
    s.(ids := Without(s.ids, id), counts := s.counts - {id})
  }

  /** `restart_one`: the factory at the child's present position makes the replacement. */
  function Replace(s: Sup, supply: Supply, idx: nat, count: nat): Sup
    requires idx < |s.ids|
  {
    var id := supply(|s.made|);
    s.(ids := s.ids[idx := id], counts := (s.counts - {s.ids[idx]})[id := count], made := s.made + [Made(idx, id)])
  }

  /** `NoFactory`: `restart_one` indexes the factories out of bounds and panics. */
  datatype Response = Restarted(ids: seq<ActorId>) | NoFactory

  predicate AtLimit(s: Sup, failed: ActorId) { CountOf(s, failed) >= s.maxRestarts }

  function HandleFailure(s: Sup, supply: Supply, failed: ActorId): (Sup, Response) {
    if AtLimit(s, failed) then (Drop(s, failed), Restarted([]))
    else
      match s.strategy
      case AllForOne => (RestartAll(s, supply), Restarted(NewIds(s, supply, s.factories)))
      case OneForOne =>
        match Position(s.ids, failed)
        case None => (s, Restarted([]))
        case Some(idx) =>
          if idx >= s.factories then (s, NoFactory)
          else (Replace(s, supply, idx, CountOf(s, failed) + 1), Restarted([supply(|s.made|)]))
  }

  function NewSupervisor(strategy: Strategy, maxRestarts: nat): Sup {
    Sup(strategy, maxRestarts, 0, [], map[], [])
  }

  /** A supervisor with `n` registered factories, started once. */
  function Started(strategy: Strategy, maxRestarts: nat, n: nat, supply: Supply): Sup {
    StartAll(NewSupervisor(strategy, maxRestarts).(factories := n), supply)
  }

  // ---- one for one ----

  function Sum(xs: seq<nat>): nat {
    if xs == [] then 0 else xs[0] + Sum(xs[1..])
  }

  lemma {:induction false} SumUpdate(xs: seq<nat>, i: nat, x: nat)
    requires i < |xs|
    ensures Sum(xs[i := x]) + xs[i] == Sum(xs) + x
  {
    if i == 0 {
      assert xs[i := x][1..] == xs[1..];
    } else {
      SumUpdate(xs[1..], i - 1, x);
      assert xs[i := x][1..] == xs[1..][i - 1 := x];
    }
  }

  /** What is left of every child's budget. */
  function Remaining(restarts: seq<nat>, max: nat): seq<nat>
    requires forall i :: 0 <= i < |restarts| ==> restarts[i] <= max
  {
    seq(|restarts|, i requires 0 <= i < |restarts| => max - restarts[i])
  }

  /** Restarts made and restarts left always add up to the whole budget. */
  lemma {:induction false} BudgetConserved(restarts: seq<nat>, max: nat)
    requires forall i :: 0 <= i < |restarts| ==> restarts[i] <= max
    ensures Sum(restarts) + Sum(Remaining(restarts, max)) == |restarts| * max
  {
    if restarts != [] {
      BudgetConserved(restarts[1..], max);
      assert Remaining(restarts, max)[1..] == Remaining(restarts[1..], max);
      assert |restarts| * max == (|restarts| - 1) * max + max;
    }
  }

  /** A supervisor with its history: `lineage[i]` is the registered child that the present child
      at position `i` descends from by restarts; `restarts` counts them per registered child. */
  datatype Track = Track(sup: Sup, lineage: seq<nat>, restarts: seq<nat>)

  function Begin(maxRestarts: nat, n: nat, supply: Supply): Track {
    Track(Started(OneForOne, maxRestarts, n, supply), seq(n, (i: nat) => i), seq(n, _ => 0))
  }

  function CutAt<T>(xs: seq<T>, p: nat): seq<T>
    requires p < |xs|
  {
    xs[..p] + xs[p + 1..]
  }

  /** One failure report. */
  function Fail(t: Track, supply: Supply, failed: ActorId): Track {
    var sup := HandleFailure(t.sup, supply, failed).0;
    match Position(t.sup.ids, failed)
    case None => t.(sup := sup)
    case Some(p) =>
      if p >= |t.lineage| || t.lineage[p] >= |t.restarts| then t.(sup := sup)
      else if AtLimit(t.sup, failed) then t.(sup := sup, lineage := CutAt(t.lineage, p))
      else t.(sup := sup, restarts := t.restarts[t.lineage[p] := t.restarts[t.lineage[p]] + 1])
  }

  function Fails(t: Track, supply: Supply, failures: seq<ActorId>): Track
    decreases |failures|
  {
    if failures == [] then t else Fails(Fail(t, supply, failures[0]), supply, failures[1..])
  }

  ghost predicate Ascending(xs: seq<nat>) {
    forall i, j :: 0 <= i < j < |xs| ==> xs[i] < xs[j]
  }

  /** A restart count is kept for the children and for nobody else. */
  predicate Counted(s: Sup, id: ActorId) { id in s.counts <==> id in s.ids }

  ghost predicate ChildAt(s: Sup, supply: Supply, i: nat) {
    i < |s.ids| && Issued(supply, |s.made|, s.ids[i])
  }

  /** The children are distinct actors made by the supervisor. */
  ghost predicate Distinct(s: Sup, supply: Supply) {
    NoDuplicates(s.ids) && forall i :: 0 <= i < |s.ids| ==> ChildAt(s, supply, i)
  }

  /** ... and exactly they have restart counts. */
  ghost predicate Children(s: Sup, supply: Supply) {
    Distinct(s, supply) && forall id :: Counted(s, id)
  }

  /** The restart count of the child at position `i` is that of its lineage. */
  predicate CountAt(s: Sup, lineage: seq<nat>, restarts: seq<nat>, i: nat) {
    i < |s.ids| && i < |lineage| && lineage[i] < |restarts| && CountOf(s, s.ids[i]) == restarts[lineage[i]]
  }

  ghost predicate CountsAgree(s: Sup, lineage: seq<nat>, restarts: seq<nat>) {
    |lineage| == |s.ids| && forall i :: 0 <= i < |s.ids| ==> CountAt(s, lineage, restarts, i)
  }

  /** No lineage is above its budget, and one without a child has used it up. */
  predicate SpentAt(lineage: seq<nat>, restarts: seq<nat>, max: nat, l: nat) {
    l < |restarts| && restarts[l] <= max && (l in lineage || restarts[l] == max)
  }

  ghost predicate Spent(lineage: seq<nat>, restarts: seq<nat>, max: nat) {
    forall l :: 0 <= l < |restarts| ==> SpentAt(lineage, restarts, max, l)
  }

  /** Every child's restart count is that of its lineage. */
  ghost predicate Lineages(t: Track) {
    && |t.restarts| == t.sup.factories && Ascending(t.lineage)
    && CountsAgree(t.sup, t.lineage, t.restarts)
    && Spent(t.lineage, t.restarts, t.sup.maxRestarts)
  }

  ghost predicate OneOk(t: Track, supply: Supply) {
    && t.sup.strategy == OneForOne && Children(t.sup, supply) && Lineages(t)
    && |t.sup.made| == t.sup.factories + Sum(t.restarts)
  }

  lemma {:induction false} SumZeros(n: nat)
    ensures Sum(seq(n, _ => 0)) == 0
  {
    if n > 0 {
      SumZeros(n - 1);
      assert seq(n, _ => 0)[1..] == seq(n - 1, _ => 0);
    }
  }

  lemma IssuedLater(supply: Supply, m: nat, n: nat, id: ActorId)
    requires Issued(supply, m, id) && m <= n
    ensures Issued(supply, n, id)
  {
    var k: nat :| k < m && supply(k) == id;
    assert k < n && supply(k) == id;
  }

  lemma NotYetIssued(supply: Supply, m: nat, k: nat)
    requires Fresh(supply) && m <= k
    ensures !Issued(supply, m, supply(k))
  {
  }

  lemma NewIdsChildren(s: Sup, supply: Supply, n: nat)
    requires Fresh(supply)
    ensures NoDuplicates(NewIds(s, supply, n))
    ensures forall i :: 0 <= i < n ==> Issued(supply, |s.made| + n, NewIds(s, supply, n)[i])
  {
    var ids := NewIds(s, supply, n);
    forall i | 0 <= i < n ensures Issued(supply, |s.made| + n, ids[i]) {
      assert supply(|s.made| + i) == ids[i];
    }
  }

  lemma StartedChildren(strategy: Strategy, maxRestarts: nat, n: nat, supply: Supply)
    requires Fresh(supply)
    ensures Children(Started(strategy, maxRestarts, n, supply), supply)
    ensures var s := Started(strategy, maxRestarts, n, supply);
            |s.ids| == |s.made| == n && forall id :: CountOf(s, id) == 0
  {
    var s0 := NewSupervisor(strategy, maxRestarts).(factories := n);
    NewIdsChildren(s0, supply, n);
    assert Started(strategy, maxRestarts, n, supply).ids == NewIds(s0, supply, n);
  }

  lemma BeginOk(maxRestarts: nat, n: nat, supply: Supply)
    requires Fresh(supply)
    ensures OneOk(Begin(maxRestarts, n, supply), supply)
  {
    SumZeros(n);
    StartedChildren(OneForOne, maxRestarts, n, supply);
    hide Children, CountOf, StartAll;
    var t := Begin(maxRestarts, n, supply);
    forall i | 0 <= i < n
      ensures CountAt(t.sup, t.lineage, t.restarts, i) && SpentAt(t.lineage, t.restarts, maxRestarts, i)
    {
      assert t.lineage[i] == i;
    }
    assert t.sup.factories == n && t.sup.maxRestarts == maxRestarts && t.sup.strategy == OneForOne by {
      KeptByStart(OneForOne, maxRestarts, n, supply);
    }
  }

  lemma KeptByStart(strategy: Strategy, maxRestarts: nat, n: nat, supply: Supply)
    ensures var s := Started(strategy, maxRestarts, n, supply);
            s.strategy == strategy && s.maxRestarts == maxRestarts && s.factories == n
  {
  }

  lemma {:induction false} WithoutAt(ids: seq<ActorId>, p: nat)
    requires p < |ids| && NoDuplicates(ids)
    ensures Without(ids, ids[p]) == CutAt(ids, p)
  {
    var tail := ids[1..];
    if p == 0 {
      assert forall i :: 0 <= i < |tail| ==> tail[i] == ids[i + 1] != ids[0];
      WithoutNone(tail, ids[0]);
      assert CutAt(ids, 0) == tail;
    } else {
      assert NoDuplicates(tail) && tail[p - 1] == ids[p] != ids[0];
      WithoutAt(tail, p - 1);
      hide Without, NoDuplicates;
      assert CutAt(ids, p) == [ids[0]] + CutAt(tail, p - 1);
      assert Without(ids, ids[p]) == [ids[0]] + Without(tail, ids[p]) by {
        WithoutOther(ids, ids[p]);
      }
    }
  }

  lemma WithoutOther(ids: seq<ActorId>, id: ActorId)
    requires ids != [] && ids[0] != id
    ensures Without(ids, id) == [ids[0]] + Without(ids[1..], id)
  {
  }

  lemma WithoutNone(ids: seq<ActorId>, id: ActorId)
    requires id !in ids
    ensures Without(ids, id) == ids
  {
    WithoutMembers(ids, id);
  }

  lemma Cut<T>(xs: seq<T>, p: nat)
    requires p < |xs|
    ensures |CutAt(xs, p)| == |xs| - 1
    ensures forall i :: 0 <= i < p ==> CutAt(xs, p)[i] == xs[i]
    ensures forall i :: p <= i < |xs| - 1 ==> CutAt(xs, p)[i] == xs[i + 1]
    ensures forall x :: x in xs ==> x == xs[p] || x in CutAt(xs, p)
  {
    assert xs == xs[..p] + [xs[p]] + xs[p + 1..];
  }

  lemma DropChildren(s: Sup, supply: Supply, p: nat)
    requires Children(s, supply) && p < |s.ids|
    ensures Children(Drop(s, s.ids[p]), supply) && Drop(s, s.ids[p]).ids == CutAt(s.ids, p)
  {
    WithoutAt(s.ids, p);
    WithoutMembers(s.ids, s.ids[p]);
    Cut(s.ids, p);
    hide Without, CutAt, Issued;
    var s' := Drop(s, s.ids[p]);
    forall i | 0 <= i < |s'.ids| ensures ChildAt(s', supply, i) {
      assert ChildAt(s, supply, if i < p then i else i + 1);
    }
    forall id ensures Counted(s', id) {
      assert Counted(s, id);
    }
  }

  lemma DropCounts(s: Sup, lineage: seq<nat>, restarts: seq<nat>, p: nat)
    requires CountsAgree(s, lineage, restarts) && NoDuplicates(s.ids) && p < |s.ids|
    ensures CountsAgree(Drop(s, s.ids[p]), CutAt(lineage, p), restarts)
  {
    WithoutAt(s.ids, p);
    Cut(s.ids, p);
    Cut(lineage, p);
    hide Without, CutAt;
    var s' := Drop(s, s.ids[p]);
    forall i | 0 <= i < |s'.ids| ensures CountAt(s', CutAt(lineage, p), restarts, i) {
      var k := if i < p then i else i + 1;
      assert CountAt(s, lineage, restarts, k) && s.ids[k] != s.ids[p];
    }
  }

  lemma CutAscending(xs: seq<nat>, p: nat)
    requires Ascending(xs) && p < |xs|
    ensures Ascending(CutAt(xs, p))
  {
  }

  lemma DropSpent(lineage: seq<nat>, restarts: seq<nat>, max: nat, p: nat)
    requires Spent(lineage, restarts, max) && p < |lineage| && lineage[p] < |restarts| && restarts[lineage[p]] >= max
    ensures Spent(CutAt(lineage, p), restarts, max)
  {
    Cut(lineage, p);
    hide CutAt;
    forall l | 0 <= l < |restarts| ensures SpentAt(CutAt(lineage, p), restarts, max, l) {
      assert SpentAt(lineage, restarts, max, l);
    }
  }

  lemma DropLineages(t: Track, supply: Supply, p: nat)
    requires Lineages(t) && NoDuplicates(t.sup.ids) && p < |t.sup.ids| && AtLimit(t.sup, t.sup.ids[p])
    ensures Lineages(t.(sup := Drop(t.sup, t.sup.ids[p]), lineage := CutAt(t.lineage, p)))
  {
    DropCounts(t.sup, t.lineage, t.restarts, p);
    CutAscending(t.lineage, p);
    assert CountAt(t.sup, t.lineage, t.restarts, p);
    DropSpent(t.lineage, t.restarts, t.sup.maxRestarts, p);
    hide CountsAgree, CutAt, Without, CountOf, Spent, Ascending;
  }

  lemma ReplaceDistinct(s: Sup, supply: Supply, p: nat, count: nat)
    requires Fresh(supply) && Distinct(s, supply) && p < |s.ids|
    ensures Distinct(Replace(s, supply, p, count), supply) && supply(|s.made|) !in s.ids
  {
    var id, s' := supply(|s.made|), Replace(s, supply, p, count);
    NotYetIssued(supply, |s.made|, |s.made|);
    assert supply(|s.made|) == id && |s.made| < |s'.made|;
    assert Issued(supply, |s'.made|, id);
    hide Issued, Fresh;
    forall i | 0 <= i < |s.ids| ensures s.ids[i] != id {
      assert ChildAt(s, supply, i);
    }
    forall i | 0 <= i < |s'.ids| ensures ChildAt(s', supply, i) {
      if i != p {
        assert ChildAt(s, supply, i);
        IssuedLater(supply, |s.made|, |s'.made|, s.ids[i]);
      }
    }
  }

  lemma ReplaceChildren(s: Sup, supply: Supply, p: nat, count: nat)
    requires Fresh(supply) && Children(s, supply) && p < |s.ids|
    ensures Children(Replace(s, supply, p, count), supply) && supply(|s.made|) !in s.ids
  {
    var id, s' := supply(|s.made|), Replace(s, supply, p, count);
    ReplaceDistinct(s, supply, p, count);
    hide Fresh, ChildAt;
    forall x ensures Counted(s', x) {
      assert Counted(s, x);
      UpdatedMembers(s.ids, p, id, x);
    }
  }

  lemma UpdatedMembers(ids: seq<ActorId>, p: nat, id: ActorId, x: ActorId)
    requires p < |ids| && NoDuplicates(ids) && id !in ids
    ensures x in ids[p := id] <==> x == id || (x in ids && x != ids[p])
  {
    var ids' := ids[p := id];
    assert ids'[p] == id;
    if x in ids && x != ids[p] {
      var i :| 0 <= i < |ids| && ids[i] == x;
      assert ids'[i] == x;
    }
  }

  lemma ReplaceCounts(s: Sup, supply: Supply, lineage: seq<nat>, restarts: seq<nat>, p: nat)
    requires CountsAgree(s, lineage, restarts) && NoDuplicates(s.ids) && Ascending(lineage) && p < |s.ids|
    requires supply(|s.made|) !in s.ids
    ensures p < |lineage| && lineage[p] < |restarts|
    ensures var l := lineage[p];
            CountsAgree(Replace(s, supply, p, CountOf(s, s.ids[p]) + 1), lineage, restarts[l := restarts[l] + 1])
  {
    assert CountAt(s, lineage, restarts, p);
    var l := lineage[p];
    var s', restarts' := Replace(s, supply, p, CountOf(s, s.ids[p]) + 1), restarts[l := restarts[l] + 1];
    forall i | 0 <= i < |s'.ids| ensures CountAt(s', lineage, restarts', i) {
      if i != p {
        assert CountAt(s, lineage, restarts, i);
        assert s.ids[i] != s.ids[p] && lineage[i] != l;
      }
    }
  }

  lemma ReplaceSpent(lineage: seq<nat>, restarts: seq<nat>, max: nat, p: nat)
    requires Spent(lineage, restarts, max) && p < |lineage| && lineage[p] < |restarts| && restarts[lineage[p]] < max
    ensures Spent(lineage, restarts[lineage[p] := restarts[lineage[p]] + 1], max)
  {
    var restarts' := restarts[lineage[p] := restarts[lineage[p]] + 1];
    forall l | 0 <= l < |restarts| ensures SpentAt(lineage, restarts', max, l) {
      assert SpentAt(lineage, restarts, max, l);
    }
  }

  lemma ReplaceLineages(t: Track, supply: Supply, p: nat)
    requires Lineages(t) && NoDuplicates(t.sup.ids) && p < |t.sup.ids| && !AtLimit(t.sup, t.sup.ids[p])
    requires supply(|t.sup.made|) !in t.sup.ids
    ensures p < |t.lineage| && t.lineage[p] < |t.restarts|
    ensures var l := t.lineage[p];
            Lineages(t.(sup := Replace(t.sup, supply, p, CountOf(t.sup, t.sup.ids[p]) + 1),
                        restarts := t.restarts[l := t.restarts[l] + 1]))
  {
    ReplaceCounts(t.sup, supply, t.lineage, t.restarts, p);
    assert CountAt(t.sup, t.lineage, t.restarts, p);
    ReplaceSpent(t.lineage, t.restarts, t.sup.maxRestarts, p);
    hide CountsAgree, CountOf, Spent, Ascending;
  }

  /** A report about anybody but a current child does nothing. */
  lemma FailUnknown(t: Track, supply: Supply, failed: ActorId)
    requires OneOk(t, supply) && Position(t.sup.ids, failed) == None
    ensures Fail(t, supply, failed) == t && HandleFailure(t.sup, supply, failed).1 == Restarted([])
  {
    assert Counted(t.sup, failed);
    WithoutNone(t.sup.ids, failed);
    assert t.sup.counts - {failed} == t.sup.counts;
  }

  /** What a report about the child at position `p` does. */
  ghost predicate FailsAt(t: Track, supply: Supply, p: nat) {
    && p < |t.sup.ids| && p < |t.lineage| && p <= t.lineage[p] < |t.restarts|
    && var failed, l := t.sup.ids[p], t.lineage[p];
       && (AtLimit(t.sup, failed) <==> t.restarts[l] == t.sup.maxRestarts)
       && Fail(t, supply, failed) ==
          (if AtLimit(t.sup, failed) then t.(sup := Drop(t.sup, failed), lineage := CutAt(t.lineage, p))
           else t.(sup := Replace(t.sup, supply, p, CountOf(t.sup, failed) + 1),
                   restarts := t.restarts[l := t.restarts[l] + 1]))
       && HandleFailure(t.sup, supply, failed).1
          == Restarted(if AtLimit(t.sup, failed) then [] else [supply(|t.sup.made|)])
  }

  /** A current child at its limit is removed, any other is restarted. The position of a child is
      always below the number of factories, so the index into them never fails. */
  lemma FailCurrent(t: Track, supply: Supply, p: nat)
    requires OneOk(t, supply) && p < |t.sup.ids|
    ensures FailsAt(t, supply, p) && Position(t.sup.ids, t.sup.ids[p]) == Some(p)
  {
    PositionAt(t, supply, p);
    AscendingAbove(t.lineage, p);
    assert CountAt(t.sup, t.lineage, t.restarts, p) && SpentAt(t.lineage, t.restarts, t.sup.maxRestarts, t.lineage[p]);
    hide CountOf, Replace, Drop, Children, CutAt, Ascending, CountsAgree, Spent, Position;
  }

  lemma PositionAt(t: Track, supply: Supply, p: nat)
    requires OneOk(t, supply) && p < |t.sup.ids|
    ensures Position(t.sup.ids, t.sup.ids[p]) == Some(p)
  {
    var q := Position(t.sup.ids, t.sup.ids[p]).value;
    assert t.sup.ids[q] == t.sup.ids[p];
  }

  lemma {:induction false} AscendingAbove(xs: seq<nat>, p: nat)
    requires Ascending(xs) && p < |xs|
    ensures p <= xs[p]
    decreases p
  {
    if p > 0 {
      AscendingAbove(xs, p - 1);
    }
  }

  lemma DropOk(t: Track, supply: Supply, p: nat)
    requires OneOk(t, supply) && p < |t.sup.ids| && AtLimit(t.sup, t.sup.ids[p]) && p < |t.lineage|
    ensures OneOk(t.(sup := Drop(t.sup, t.sup.ids[p]), lineage := CutAt(t.lineage, p)), supply)
  {
    DropChildren(t.sup, supply, p);
    DropLineages(t, supply, p);
    hide Children, Lineages, Without, CutAt;
  }

  lemma ReplaceOk(t: Track, supply: Supply, p: nat)
    requires Fresh(supply) && OneOk(t, supply) && p < |t.sup.ids| && !AtLimit(t.sup, t.sup.ids[p])
    requires p < |t.lineage| && t.lineage[p] < |t.restarts|
    ensures OneOk(t.(sup := Replace(t.sup, supply, p, CountOf(t.sup, t.sup.ids[p]) + 1),
                     restarts := t.restarts[t.lineage[p] := t.restarts[t.lineage[p]] + 1]), supply)
  {
    ReplaceChildren(t.sup, supply, p, CountOf(t.sup, t.sup.ids[p]) + 1);
    ReplaceLineages(t, supply, p);
    SumUpdate(t.restarts, t.lineage[p], t.restarts[t.lineage[p]] + 1);
    hide Children, Lineages, CountOf, Sum;
  }

  lemma FailOk(t: Track, supply: Supply, failed: ActorId)
    requires Fresh(supply) && OneOk(t, supply)
    ensures OneOk(Fail(t, supply, failed), supply)
  {
    hide Fail, OneOk, HandleFailure;
    match Position(t.sup.ids, failed)
    case None => FailUnknown(t, supply, failed);
    case Some(p) =>
      FailCurrent(t, supply, p);
      if AtLimit(t.sup, failed) {
        DropOk(t, supply, p);
      } else {
        ReplaceOk(t, supply, p);
      }
  }

  lemma {:induction false} FailsOk(t: Track, supply: Supply, failures: seq<ActorId>)
    requires Fresh(supply) && OneOk(t, supply)
    ensures OneOk(Fails(t, supply, failures), supply)
    ensures Fails(t, supply, failures).sup.factories == t.sup.factories
    ensures Fails(t, supply, failures).sup.maxRestarts == t.sup.maxRestarts
    decreases |failures|
  {
    hide OneOk, Fail;
    if failures != [] {
      FailOk(t, supply, failures[0]);
      FailKeeps(t, supply, failures[0]);
      FailsOk(Fail(t, supply, failures[0]), supply, failures[1..]);
    }
  }

  lemma FailKeeps(t: Track, supply: Supply, failed: ActorId)
    ensures Fail(t, supply, failed).sup.factories == t.sup.factories
    ensures Fail(t, supply, failed).sup.maxRestarts == t.sup.maxRestarts
  {
  }

  /** The restart budget: whatever failures are reported after the children were started, no
      more than children times `maxRestarts` restarts happen, at most `maxRestarts` per registered
      child, and exactly that many for a child that has been removed. */
  lemma RestartBudget(maxRestarts: nat, n: nat, supply: Supply, failures: seq<ActorId>)
    requires Fresh(supply)
    ensures var t := Fails(Begin(maxRestarts, n, supply), supply, failures);
            && |t.restarts| == n && |t.sup.made| == n + Sum(t.restarts)
            && (forall l :: 0 <= l < n ==> t.restarts[l] <= maxRestarts)
            && (forall l :: 0 <= l < n && l !in t.lineage ==> t.restarts[l] == maxRestarts)
            && Sum(t.restarts) + Sum(Remaining(t.restarts, maxRestarts)) == n * maxRestarts
            && |t.sup.made| - n <= n * maxRestarts
  {
    BeginOk(maxRestarts, n, supply);
    FailsOk(Begin(maxRestarts, n, supply), supply, failures);
    var t := Fails(Begin(maxRestarts, n, supply), supply, failures);
    SpentBounds(t);
    hide Fails, Begin, OneOk, Sum, Remaining;
    BudgetConserved(t.restarts, maxRestarts);
  }

  lemma SpentBounds(t: Track)
    requires Lineages(t)
    ensures |t.restarts| == t.sup.factories
    ensures forall l :: 0 <= l < |t.restarts| ==> t.restarts[l] <= t.sup.maxRestarts
    ensures forall l :: 0 <= l < |t.restarts| && l !in t.lineage ==> t.restarts[l] == t.sup.maxRestarts
  {
    forall l | 0 <= l < |t.restarts|
      ensures t.restarts[l] <= t.sup.maxRestarts && (l in t.lineage || t.restarts[l] == t.sup.maxRestarts)
    {
      assert SpentAt(t.lineage, t.restarts, t.sup.maxRestarts, l);
    }
  }

  /** A failure of a current child either spends one unit of the remaining budget or removes the
      child, and it removes the child exactly when its lineage has been restarted `maxRestarts`
      times. */
  lemma EachFailureSpends(t: Track, supply: Supply, p: nat)
    requires Fresh(supply) && OneOk(t, supply) && p < |t.sup.ids|
    ensures var t' := Fail(t, supply, t.sup.ids[p]);
            && p < |t.lineage| && t.lineage[p] < |t.restarts| && |t'.restarts| == |t.restarts|
            && (forall l :: 0 <= l < |t.restarts| ==>
                  t.restarts[l] <= t.sup.maxRestarts && t'.restarts[l] <= t.sup.maxRestarts)
            && var left := Sum(Remaining(t.restarts, t.sup.maxRestarts));
               var left' := Sum(Remaining(t'.restarts, t.sup.maxRestarts));
               if t.restarts[t.lineage[p]] == t.sup.maxRestarts then t'.lineage == CutAt(t.lineage, p) && left' == left
               else t'.lineage == t.lineage && left' == left - 1
  {
    var failed := t.sup.ids[p];
    FailCurrent(t, supply, p);
    FailOk(t, supply, failed);
    var t' := Fail(t, supply, failed);
    SpentBounds(t);
    SpentBounds(t');
    hide Fail, HandleFailure, OneOk, Sum, Remaining, CutAt, Drop, Replace, CountOf;
    BudgetConserved(t.restarts, t.sup.maxRestarts);
    BudgetConserved(t'.restarts, t.sup.maxRestarts);
    if t.restarts[t.lineage[p]] < t.sup.maxRestarts {
      SumUpdate(t.restarts, t.lineage[p], t.restarts[t.lineage[p]] + 1);
    }
  }

  // ---- which factory makes the replacement ----

  /** How many registered children below `l` no current child descends from. */
  function RemovedBelow(lineage: seq<nat>, l: nat): nat {
    if l == 0 then 0 else RemovedBelow(lineage, l - 1) + (if l - 1 in lineage then 0 else 1)
  }

  /** The first `p` lineages are those below `l`. */
  lemma {:induction false} AscendingGap(lineage: seq<nat>, p: nat, l: nat)
    requires Ascending(lineage) && p <= |lineage|
    requires forall i :: 0 <= i < |lineage| ==> (lineage[i] < l <==> i < p)
    ensures RemovedBelow(lineage, l) == l - p
    decreases l
  {
    if p > 0 {
      assert lineage[0] < l;
    }
    if l == 0 {
    } else if p > 0 && lineage[p - 1] == l - 1 {
      AscendingGap(lineage, p - 1, l - 1);
    } else {
      assert p > 0 ==> lineage[p - 1] < l - 1;
      AscendingGap(lineage, p, l - 1);
    }
  }

  /** None is missing exactly when all of them have a current child. */
  lemma {:induction false} NoneRemoved(lineage: seq<nat>, l: nat)
    ensures RemovedBelow(lineage, l) == 0 <==> forall x :: 0 <= x < l ==> x in lineage
  {
    if l > 0 {
      NoneRemoved(lineage, l - 1);
    }
  }

  /** Factory alignment. The replacement of the child descended from registered child `l` is made
      by factory `l` minus the number of removed children registered before it: by its own
      factory exactly when none of those has been removed. */
  lemma FactoryShift(t: Track, supply: Supply, p: nat)
    requires Fresh(supply) && OneOk(t, supply) && p < |t.sup.ids| && !AtLimit(t.sup, t.sup.ids[p])
    ensures p < |t.lineage|
    ensures var l, t' := t.lineage[p], Fail(t, supply, t.sup.ids[p]);
            var removed := RemovedBelow(t.lineage, l);
            && removed <= l
            && t'.sup.made == t.sup.made + [Made(l - removed, t'.sup.ids[p])]
            && t'.lineage[p] == l
            && (t'.sup.made[|t.sup.made|].factory == l <==> forall x :: 0 <= x < l ==> x in t.lineage)
  {
    FailCurrent(t, supply, p);
    AscendingGap(t.lineage, p, t.lineage[p]);
    NoneRemoved(t.lineage, t.lineage[p]);
    hide Fail, HandleFailure;
  }

  /** The present child at position `i` was made by factory `i`. */
  ghost predicate OwnFactory(s: Sup, i: nat) {
    i < |s.ids| && exists k :: 0 <= k < |s.made| && s.made[k] == Made(i, s.ids[i])
  }

  /** As long as no child has been removed every child is its own factory's. */
  ghost predicate Aligned(t: Track) {
    |t.lineage| == t.sup.factories ==> forall i :: 0 <= i < |t.sup.ids| ==> OwnFactory(t.sup, i)
  }

  lemma BeginAligned(maxRestarts: nat, n: nat, supply: Supply)
    ensures Aligned(Begin(maxRestarts, n, supply))
  {
    var s0, s := NewSupervisor(OneForOne, maxRestarts).(factories := n), Begin(maxRestarts, n, supply).sup;
    assert s.ids == NewIds(s0, supply, n) && s.made == NewMade(s0, supply, n);
    forall i | 0 <= i < |s.ids| ensures OwnFactory(s, i) {
      assert s.made[i] == Made(i, s.ids[i]);
    }
  }

  lemma ReplaceAligned(s: Sup, supply: Supply, p: nat, count: nat)
    requires p < |s.ids| && forall i :: 0 <= i < |s.ids| ==> OwnFactory(s, i)
    ensures forall i :: 0 <= i < |s.ids| ==> OwnFactory(Replace(s, supply, p, count), i)
  {
    var s' := Replace(s, supply, p, count);
    assert s'.made[|s.made|] == Made(p, s'.ids[p]);
    forall i | 0 <= i < |s.ids| ensures OwnFactory(s', i) {
      if i != p {
        assert OwnFactory(s, i);
        var k :| 0 <= k < |s.made| && s.made[k] == Made(i, s.ids[i]);
        assert s'.made[k] == Made(i, s'.ids[i]);
      }
    }
  }

  lemma FailAligned(t: Track, supply: Supply, failed: ActorId)
    requires Fresh(supply) && OneOk(t, supply) && Aligned(t)
    ensures Aligned(Fail(t, supply, failed))
  {
    AtMostFactoriesTracked(t);
    FailKeeps(t, supply, failed);
    match Position(t.sup.ids, failed)
    case None => FailUnknown(t, supply, failed);
    case Some(p) =>
      FailCurrent(t, supply, p);
      if !AtLimit(t.sup, failed) && |t.lineage| == t.sup.factories {
        ReplaceAligned(t.sup, supply, p, CountOf(t.sup, failed) + 1);
      }
  }

  lemma AtMostFactoriesTracked(t: Track)
    requires Lineages(t)
    ensures |t.lineage| <= t.sup.factories
  {
    if t.lineage != [] {
      AscendingAbove(t.lineage, |t.lineage| - 1);
      assert CountAt(t.sup, t.lineage, t.restarts, |t.lineage| - 1);
    }
  }

  lemma {:induction false} FailsAligned(t: Track, supply: Supply, failures: seq<ActorId>)
    requires Fresh(supply) && OneOk(t, supply) && Aligned(t)
    ensures Aligned(Fails(t, supply, failures))
    decreases |failures|
  {
    hide OneOk, Fail, Aligned;
    if failures != [] {
      FailOk(t, supply, failures[0]);
      FailAligned(t, supply, failures[0]);
      FailsAligned(Fail(t, supply, failures[0]), supply, failures[1..]);
    }
  }

  /** On every run without a removed child, the child at position `i` was made by factory `i`. */
  lemma AlignedWithoutRemoval(maxRestarts: nat, n: nat, supply: Supply, failures: seq<ActorId>, i: nat)
    requires Fresh(supply)
    requires var t := Fails(Begin(maxRestarts, n, supply), supply, failures); |t.sup.ids| == n && i < n
    ensures OwnFactory(Fails(Begin(maxRestarts, n, supply), supply, failures).sup, i)
  {
    var b := Begin(maxRestarts, n, supply);
    BeginOk(maxRestarts, n, supply);
    BeginAligned(maxRestarts, n, supply);
    FailsOk(b, supply, failures);
    FailsAligned(b, supply, failures);
  }

  // ---- all for one ----

  /** Nobody's count is ever more than zero, and unless every child is removed at once by a limit
      of zero there is one child per factory. */
  ghost predicate AllOk(s: Sup, supply: Supply) {
    && s.strategy == AllForOne && Children(s, supply) && (forall id :: CountOf(s, id) == 0)
    && (s.maxRestarts > 0 ==> |s.ids| == s.factories) && |s.ids| <= s.factories
  }

  lemma AllStarted(maxRestarts: nat, n: nat, supply: Supply)
    requires Fresh(supply)
    ensures AllOk(Started(AllForOne, maxRestarts, n, supply), supply)
  {
    StartedChildren(AllForOne, maxRestarts, n, supply);
    KeptByStart(AllForOne, maxRestarts, n, supply);
  }

  lemma RestartAllChildren(s: Sup, supply: Supply)
    requires Fresh(supply) && |s.ids| <= s.factories
    ensures Children(RestartAll(s, supply), supply) && RestartAll(s, supply).ids == NewIds(s, supply, s.factories)
    ensures forall id :: CountOf(RestartAll(s, supply), id) == 0
  {
    NewIdsChildren(s, supply, s.factories);
    assert RestartAll(s, supply).ids == NewIds(s, supply, s.factories);
  }

  /** After one start, whatever is reported, the counts stay in step with the children and at zero;
      so the limit is reached only if it is zero, for any report. */
  lemma AllForOneNeverCounts(s: Sup, supply: Supply, failed: ActorId)
    requires Fresh(supply) && AllOk(s, supply)
    ensures AtLimit(s, failed) <==> s.maxRestarts == 0
    ensures AllOk(HandleFailure(s, supply, failed).0, supply)
    ensures HandleFailure(s, supply, failed) ==
            if s.maxRestarts == 0 then (Drop(s, failed), Restarted([]))
            else (RestartAll(s, supply), Restarted(NewIds(s, supply, s.factories)))
  {
    assert CountOf(s, failed) == 0;
    if s.maxRestarts == 0 {
      DropAny(s, supply, failed);
    } else {
      RestartAllChildren(s, supply);
    }
  }

  lemma DropAny(s: Sup, supply: Supply, failed: ActorId)
    requires Children(s, supply)
    ensures Children(Drop(s, failed), supply) && |Drop(s, failed).ids| <= |s.ids|
    ensures forall id :: CountOf(s, id) == 0 ==> CountOf(Drop(s, failed), id) == 0
  {
    var p := Position(s.ids, failed);
    if p.Some? {
      DropChildren(s, supply, p.value);
      Cut(s.ids, p.value);
    } else {
      assert Counted(s, failed);
      WithoutNone(s.ids, failed);
      assert s.counts - {failed} == s.counts;
    }
  }

  function Members(ids: seq<ActorId>): set<ActorId> {
    set id | id in ids
  }

  lemma {:induction false} MembersSize(ids: seq<ActorId>)
    requires NoDuplicates(ids)
    ensures |Members(ids)| == |ids|
  {
    if ids != [] {
      MembersSize(ids[1..]);
      assert ids == [ids[0]] + ids[1..];
      assert Members(ids) == Members(ids[1..]) + {ids[0]};
    }
  }

  /** A supervisor and the actors of its making that are alive: the failed child is gone, and
      nothing in a restart stops anybody else. */
  datatype Family = Family(sup: Sup, live: set<ActorId>)

  function FailIn(f: Family, supply: Supply, failed: ActorId): Family {
    var (sup, response) := HandleFailure(f.sup, supply, failed);
    Family(sup, f.live - {failed} + (if response.Restarted? then Members(response.ids) else {}))
  }

  /** Each failure is one of a child of the moment. */
  ghost predicate OfChildren(f: Family, supply: Supply, failures: seq<ActorId>)
    decreases |failures|
  {
    failures == [] || (failures[0] in f.sup.ids && OfChildren(FailIn(f, supply, failures[0]), supply, failures[1..]))
  }

  function FailAllIn(f: Family, supply: Supply, failures: seq<ActorId>): Family
    decreases |failures|
  {
    if failures == [] then f else FailAllIn(FailIn(f, supply, failures[0]), supply, failures[1..])
  }

  ghost predicate AllIssued(live: set<ActorId>, supply: Supply, m: nat) {
    forall id :: id in live ==> Issued(supply, m, id)
  }

  ghost predicate FamilyOk(f: Family, supply: Supply) {
    && AllOk(f.sup, supply) && f.sup.maxRestarts > 0
    && Members(f.sup.ids) <= f.live && AllIssued(f.live, supply, |f.sup.made|)
  }

  lemma Exchange(live: set<ActorId>, failed: ActorId, ids: seq<ActorId>)
    requires failed in live && live !! Members(ids) && NoDuplicates(ids)
    ensures |live - {failed} + Members(ids)| == |live| - 1 + |ids|
  {
    MembersSize(ids);
    var rest := live - {failed};
    assert rest !! Members(ids);
    assert |rest + Members(ids)| == |rest| + |Members(ids)|;
  }

  lemma AllIssuedLater(live: set<ActorId>, supply: Supply, m: nat, n: nat)
    requires AllIssued(live, supply, m) && m <= n
    ensures AllIssued(live, supply, n)
  {
    forall id | id in live ensures Issued(supply, n, id) {
      IssuedLater(supply, m, n, id);
    }
  }

  lemma AllIssuedUnion(live: set<ActorId>, failed: ActorId, more: set<ActorId>, supply: Supply, m: nat)
    requires AllIssued(live, supply, m) && AllIssued(more, supply, m)
    ensures AllIssued(live - {failed} + more, supply, m)
  {
    hide Issued;
  }

  lemma RestartAllSizes(s: Sup, supply: Supply)
    requires |s.ids| <= s.factories
    ensures var s' := RestartAll(s, supply);
            && |s'.made| == |s.made| + s.factories && s'.factories == s.factories && s'.maxRestarts == s.maxRestarts
            && s'.ids == NewIds(s, supply, s.factories)
  {
  }

  /** With a positive limit every report restarts all. */
  lemma FailInRestarts(f: Family, supply: Supply, failed: ActorId)
    requires Fresh(supply) && FamilyOk(f, supply)
    ensures FailIn(f, supply, failed)
         == Family(RestartAll(f.sup, supply), f.live - {failed} + Members(NewIds(f.sup, supply, f.sup.factories)))
    ensures AllOk(RestartAll(f.sup, supply), supply)
  {
    AllForOneNeverCounts(f.sup, supply, failed);
    hide HandleFailure, AllOk, NewIds, RestartAll, Members, Fresh, AllIssued;
  }

  lemma RestartFamily(f: Family, supply: Supply, failed: ActorId)
    requires Fresh(supply) && FamilyOk(f, supply)
    ensures FamilyOk(FailIn(f, supply, failed), supply) && FailIn(f, supply, failed).sup.factories == f.sup.factories
  {
    var n, m := f.sup.factories, |f.sup.made|;
    FailInRestarts(f, supply, failed);
    AtMostFactories(f.sup, supply);
    RestartAllSizes(f.sup, supply);
    NewAreNew(f.sup, supply, f.live, n);
    AllIssuedLater(f.live, supply, m, m + n);
    AllIssuedUnion(f.live, failed, Members(NewIds(f.sup, supply, n)), supply, m + n);
    hide HandleFailure, FailIn, AllOk, NewIds, RestartAll, Members, Fresh, AllIssued;
  }

  /** The siblings of a failed child live on beside their replacements. */
  lemma SiblingsLiveOn(f: Family, supply: Supply, failed: ActorId)
    requires Fresh(supply) && FamilyOk(f, supply) && failed in f.sup.ids
    ensures var f' := FailIn(f, supply, failed);
            && (forall id :: id in f.live && id != failed ==> id in f'.live)
            && |f'.live| == |f.live| - 1 + f.sup.factories
  {
    var n := f.sup.factories;
    FailInRestarts(f, supply, failed);
    NewIdsChildren(f.sup, supply, n);
    NewAreNew(f.sup, supply, f.live, n);
    assert failed in Members(f.sup.ids);
    hide HandleFailure, FailIn, AllOk, NewIds, RestartAll, Members, Fresh, AllIssued, NoDuplicates, Issued;
    Exchange(f.live, failed, NewIds(f.sup, supply, n));
  }

  lemma AtMostFactories(s: Sup, supply: Supply)
    requires AllOk(s, supply)
    ensures |s.ids| <= s.factories
  {
  }

  lemma NewAreNew(s: Sup, supply: Supply, live: set<ActorId>, n: nat)
    requires Fresh(supply) && AllIssued(live, supply, |s.made|)
    ensures live !! Members(NewIds(s, supply, n))
    ensures AllIssued(Members(NewIds(s, supply, n)), supply, |s.made| + n)
  {
    NewIdsChildren(s, supply, n);
    var ids := NewIds(s, supply, n);
    forall id | id in Members(ids) ensures id !in live && Issued(supply, |s.made| + n, id) {
      var i :| 0 <= i < |ids| && ids[i] == id;
      NotYetIssued(supply, |s.made|, |s.made| + i);
    }
  }

  /** The family right after the start. */
  function StartFamily(maxRestarts: nat, n: nat, supply: Supply): Family {
    var s := Started(AllForOne, maxRestarts, n, supply);
    Family(s, Members(s.ids))
  }

  lemma StartFamilyOk(maxRestarts: nat, n: nat, supply: Supply)
    requires Fresh(supply) && maxRestarts > 0
    ensures var f := StartFamily(maxRestarts, n, supply);
            FamilyOk(f, supply) && |f.live| == f.sup.factories == n
  {
    var s := Started(AllForOne, maxRestarts, n, supply);
    AllStarted(maxRestarts, n, supply);
    StartedChildren(AllForOne, maxRestarts, n, supply);
    KeptByStart(AllForOne, maxRestarts, n, supply);
    ChildrenIssued(s, supply);
    assert NoDuplicates(s.ids);
    hide Fresh, AllOk, AllIssued, Children, Started;
    MembersSize(s.ids);
  }

  /** `k` failures of current children of `n` factories leave `n + k * (n - 1)` live actors, where
      the documentation promises `n`. */
  lemma AllForOnePilesUp(maxRestarts: nat, n: nat, supply: Supply, failures: seq<ActorId>)
    requires Fresh(supply) && maxRestarts > 0 && OfChildren(StartFamily(maxRestarts, n, supply), supply, failures)
    ensures |FailAllIn(StartFamily(maxRestarts, n, supply), supply, failures).live| == n + |failures| * (n - 1)
  {
    hide StartFamily, FailAllIn, OfChildren, FamilyOk, Fresh;
    StartFamilyOk(maxRestarts, n, supply);
    PilesUp(StartFamily(maxRestarts, n, supply), supply, failures);
  }

  lemma ChildrenIssued(s: Sup, supply: Supply)
    requires Children(s, supply)
    ensures AllIssued(Members(s.ids), supply, |s.made|)
  {
    forall id | id in Members(s.ids) ensures Issued(supply, |s.made|, id) {
      var i :| 0 <= i < |s.ids| && s.ids[i] == id;
      assert ChildAt(s, supply, i);
    }
  }

  lemma {:induction false} PilesUp(f: Family, supply: Supply, failures: seq<ActorId>)
    requires Fresh(supply) && FamilyOk(f, supply) && OfChildren(f, supply, failures)
    ensures |FailAllIn(f, supply, failures).live| == |f.live| + |failures| * (f.sup.factories - 1)
    decreases |failures|
  {
    hide FailIn, FamilyOk;
    if failures != [] {
      RestartFamily(f, supply, failures[0]);
      SiblingsLiveOn(f, supply, failures[0]);
      PilesUp(FailIn(f, supply, failures[0]), supply, failures[1..]);
      assert |failures| * (f.sup.factories - 1) == (|failures| - 1) * (f.sup.factories - 1) + (f.sup.factories - 1);
    }
  }

  /** Any sequence of reports. */
  function Reports(s: Sup, supply: Supply, failures: seq<ActorId>): Sup
    decreases |failures|
  {
    if failures == [] then s else Reports(HandleFailure(s, supply, failures[0]).0, supply, failures[1..])
  }

  lemma RestartMakes(s: Sup, supply: Supply, failed: ActorId)
    requires Fresh(supply) && AllOk(s, supply)
    ensures var s' := HandleFailure(s, supply, failed).0;
            && s'.factories == s.factories && s'.maxRestarts == s.maxRestarts
            && |s'.made| == |s.made| + (if s.maxRestarts > 0 then s.factories else 0)
            && (s.maxRestarts == 0 ==> forall id :: id in s'.ids <==> id in s.ids && id != failed)
  {
    AllForOneNeverCounts(s, supply, failed);
    if s.maxRestarts == 0 {
      WithoutMembers(s.ids, failed);
    } else {
      AtMostFactories(s, supply);
      RestartAllSizes(s, supply);
    }
    hide HandleFailure, AllOk, RestartAll, Without, Fresh;
  }

  lemma {:induction false} ReportsAllOk(s: Sup, supply: Supply, failures: seq<ActorId>)
    requires Fresh(supply) && AllOk(s, supply)
    ensures var s' := Reports(s, supply, failures);
            && AllOk(s', supply) && s'.factories == s.factories && s'.maxRestarts == s.maxRestarts
            && |s'.made| == |s.made| + |failures| * (if s.maxRestarts > 0 then s.factories else 0)
            && (s.maxRestarts == 0 ==> forall id :: id in s'.ids <==> id in s.ids && id !in failures)
    decreases |failures|
  {
    if failures != [] {
      var s1 := HandleFailure(s, supply, failures[0]).0;
      AllForOneNeverCounts(s, supply, failures[0]);
      RestartMakes(s, supply, failures[0]);
      hide HandleFailure, AllOk, Fresh;
      ReportsAllOk(s1, supply, failures[1..]);
      assert failures == [failures[0]] + failures[1..];
      Modular.OneTermMore(|failures| - 1, if s.maxRestarts > 0 then s.factories else 0);
    }
  }

  /** Over every sequence of reports after one start, of current, stale or unknown children alike:
      the counts are kept for exactly the children and are all zero. With a positive limit the limit
      is never reached and every report restarts all; with a limit of zero every report of a child
      removes it and nothing is ever restarted. */
  lemma AllForOneForEver(maxRestarts: nat, n: nat, supply: Supply, failures: seq<ActorId>)
    requires Fresh(supply)
    ensures var s0 := Started(AllForOne, maxRestarts, n, supply);
            var s := Reports(s0, supply, failures);
            && (forall id :: (id in s.counts <==> id in s.ids) && CountOf(s, id) == 0)
            && (forall failed :: AtLimit(s, failed) <==> maxRestarts == 0)
            && (maxRestarts > 0 ==> |s.ids| == n && |s.made| == n + |failures| * n)
            && (maxRestarts == 0 ==> |s.made| == n && forall id :: id in s.ids <==> id in s0.ids && id !in failures)
  {
    var s0 := Started(AllForOne, maxRestarts, n, supply);
    var s := Reports(s0, supply, failures);
    AllStarted(maxRestarts, n, supply);
    StartedChildren(AllForOne, maxRestarts, n, supply);
    KeptByStart(AllForOne, maxRestarts, n, supply);
    ReportsAllOk(s0, supply, failures);
    forall id ensures (id in s.counts <==> id in s.ids) && CountOf(s, id) == 0 {
      assert Counted(s, id);
    }
    hide Started, Reports, Children;
  }

  // ---- the index into the factories ----

  /** The calls of a supervisor's owner. */
  datatype Op = Register | Start | Report(failed: ActorId)

  function Do(s: Sup, supply: Supply, op: Op): Sup {
    match op
    case Register => s.(factories := s.factories + 1)
    case Start => StartAll(s, supply)
    case Report(failed) => HandleFailure(s, supply, failed).0
  }

  function DoAll(s: Sup, supply: Supply, ops: seq<Op>): Sup
    decreases |ops|
  {
    if ops == [] then s else DoAll(Do(s, supply, ops[0]), supply, ops[1..])
  }

  /** New children next to some of the old ones. */
  lemma MixDistinct(s: Sup, s': Sup, supply: Supply, n: nat, kept: seq<ActorId>)
    requires Fresh(supply) && NoDuplicates(kept) && |s'.made| == |s.made| + n
    requires forall i :: 0 <= i < |kept| ==> Issued(supply, |s.made|, kept[i])
    requires s'.ids == NewIds(s, supply, n) + kept || s'.ids == kept + NewIds(s, supply, n)
    ensures Distinct(s', supply)
  {
    var ids := NewIds(s, supply, n);
    NewIdsChildren(s, supply, n);
    forall i, j | 0 <= i < |kept| && 0 <= j < n ensures kept[i] != ids[j] {
      NotYetIssued(supply, |s.made|, |s.made| + j);
    }
    forall i | 0 <= i < |kept| ensures Issued(supply, |s'.made|, kept[i]) {
      IssuedLater(supply, |s.made|, |s'.made|, kept[i]);
    }
    hide Fresh, Issued, NewIds;
  }

  lemma StartDistinct(s: Sup, supply: Supply)
    requires Fresh(supply) && Distinct(s, supply)
    ensures Distinct(StartAll(s, supply), supply)
  {
    forall i | 0 <= i < |s.ids| ensures Issued(supply, |s.made|, s.ids[i]) {
      assert ChildAt(s, supply, i);
    }
    MixDistinct(s, StartAll(s, supply), supply, s.factories, s.ids);
  }

  lemma RestartAllDistinct(s: Sup, supply: Supply)
    requires Fresh(supply) && Distinct(s, supply)
    ensures Distinct(RestartAll(s, supply), supply)
  {
    var kept := if |s.ids| > s.factories then s.ids[s.factories..] else [];
    forall i | 0 <= i < |kept| ensures Issued(supply, |s.made|, kept[i]) {
      assert ChildAt(s, supply, s.factories + i);
    }
    MixDistinct(s, RestartAll(s, supply), supply, s.factories, kept);
  }

  lemma DropDistinct(s: Sup, supply: Supply, id: ActorId)
    requires Distinct(s, supply)
    ensures Distinct(Drop(s, id), supply)
  {
    WithoutMembers(s.ids, id);
    var ids := Without(s.ids, id);
    hide Without, Issued;
    forall i | 0 <= i < |ids| ensures ChildAt(Drop(s, id), supply, i) {
      assert ids[i] in s.ids;
      var j :| 0 <= j < |s.ids| && s.ids[j] == ids[i];
      assert ChildAt(s, supply, j);
    }
  }

  lemma DoDistinct(s: Sup, supply: Supply, op: Op)
    requires Fresh(supply) && Distinct(s, supply)
    ensures Distinct(Do(s, supply, op), supply)
  {
    match op
    case Register =>
      forall i | 0 <= i < |s.ids| ensures ChildAt(Do(s, supply, op), supply, i) {
        assert ChildAt(s, supply, i);
      }
    case Start => StartDistinct(s, supply);
    case Report(failed) =>
      DropDistinct(s, supply, failed);
      RestartAllDistinct(s, supply);
      match Position(s.ids, failed)
      case None =>
      case Some(p) => ReplaceDistinct(s, supply, p, CountOf(s, failed) + 1);
      hide Distinct, Drop, RestartAll, Replace, AtLimit, CountOf, Fresh, Position;
  }

  lemma {:induction false} DoAllDistinct(s: Sup, supply: Supply, ops: seq<Op>)
    requires Fresh(supply) && Distinct(s, supply)
    ensures Distinct(DoAll(s, supply, ops), supply)
    decreases |ops|
  {
    hide Fresh, Distinct, Do;
    if ops != [] {
      DoDistinct(s, supply, ops[0]);
      DoAllDistinct(Do(s, supply, ops[0]), supply, ops[1..]);
    }
  }

  // ---- what each call leaves alone ----

  /** The child at position `i` before the call is the one at position `j` after it, with its count. */
  ghost predicate SameChild(s: Sup, i: nat, s': Sup, j: nat) {
    && i < |s.ids| && j < |s'.ids| && s'.ids[j] == s.ids[i]
    && (s.ids[i] in s'.counts <==> s.ids[i] in s.counts) && CountOf(s', s.ids[i]) == CountOf(s, s.ids[i])
  }

  /** The child at position `i` has moved up by one. */
  ghost predicate ClosesUp(s: Sup, i: nat, s': Sup) { i > 0 && SameChild(s, i, s', i - 1) }

  /** What the next factory call but `k` returned sits at position `first + k`, with count zero. */
  ghost predicate NewChild(s: Sup, supply: Supply, k: nat, s': Sup, first: nat) {
    && first + k < |s'.ids| && s'.ids[first + k] == supply(|s.made| + k)
    && s'.ids[first + k] in s'.counts && s'.counts[s'.ids[first + k]] == 0
  }

  /** `start_all` keeps every child it finds, at its position and with its count, also when it is called
      again, and puts one new child per factory behind them. */
  lemma StartKeeps(s: Sup, supply: Supply)
    requires Fresh(supply) && Distinct(s, supply)
    ensures var s' := Do(s, supply, Start);
            && |s'.ids| == |s.ids| + s.factories
            && (forall i :: 0 <= i < |s.ids| ==> SameChild(s, i, s', i))
            && (forall k :: 0 <= k < s.factories ==> NewChild(s, supply, k, s', |s.ids|))
  {
    var s', ids := Do(s, supply, Start), NewIds(s, supply, s.factories);
    forall i | 0 <= i < |s.ids| ensures SameChild(s, i, s', i) {
      assert ChildAt(s, supply, i);
      forall k | 0 <= k < |ids| ensures ids[k] != s.ids[i] {
        NotYetIssued(supply, |s.made|, |s.made| + k);
      }
    }
    forall k | 0 <= k < s.factories ensures NewChild(s, supply, k, s', |s.ids|) {
      assert s'.ids[|s.ids| + k] == ids[k];
    }
  }

  /** `restart_all` puts the new children at the first positions; a child beyond the factories stays where
      it was and loses its count, as everybody does who is not new. */
  lemma RestartAllAt(s: Sup, supply: Supply, failed: ActorId)
    requires s.strategy == AllForOne && !AtLimit(s, failed)
    ensures var s' := Do(s, supply, Report(failed));
            && |s'.ids| == (if |s.ids| > s.factories then |s.ids| else s.factories)
            && (forall k :: 0 <= k < s.factories ==> NewChild(s, supply, k, s', 0))
            && (forall i :: s.factories <= i < |s.ids| ==> s'.ids[i] == s.ids[i])
            && (forall id :: id in s'.counts ==> exists k :: 0 <= k < s.factories && s'.ids[k] == id)
  {
    var s', ids := Do(s, supply, Report(failed)), NewIds(s, supply, s.factories);
    assert s' == RestartAll(s, supply);
    forall k | 0 <= k < s.factories ensures NewChild(s, supply, k, s', 0) {
      assert s'.ids[k] == ids[k];
    }
    forall id | id in s'.counts ensures exists k :: 0 <= k < s.factories && s'.ids[k] == id {
      var k :| 0 <= k < |ids| && ids[k] == id;
      assert s'.ids[k] == id;
    }
  }

  /** A child at its limit goes, with its count; all others close up, in order and with their counts. */
  lemma RemovalKeeps(s: Sup, supply: Supply, p: nat)
    requires NoDuplicates(s.ids) && p < |s.ids| && AtLimit(s, s.ids[p])
    ensures var s' := Do(s, supply, Report(s.ids[p]));
            && |s'.ids| == |s.ids| - 1 && s.ids[p] !in s'.ids && s.ids[p] !in s'.counts
            && (forall i :: 0 <= i < p ==> SameChild(s, i, s', i))
            && (forall i :: p < i < |s.ids| ==> ClosesUp(s, i, s'))
  {
    WithoutAt(s.ids, p);
    Cut(s.ids, p);
    var s' := Do(s, supply, Report(s.ids[p]));
    assert s'.ids == CutAt(s.ids, p);
  }

  /** One for one below the limit: the replacement takes the failed child's position, with one restart
      more; all others keep position and count. */
  lemma ReplacementKeeps(s: Sup, supply: Supply, p: nat)
    requires Fresh(supply) && Distinct(s, supply) && s.strategy == OneForOne
    requires p < |s.ids| && p < s.factories && !AtLimit(s, s.ids[p])
    ensures var s' := Do(s, supply, Report(s.ids[p]));
            && |s'.ids| == |s.ids| && s'.ids[p] == supply(|s.made|) && s.ids[p] !in s'.counts
            && CountOf(s', s'.ids[p]) == CountOf(s, s.ids[p]) + 1
            && (forall i :: 0 <= i < |s.ids| && i != p ==> SameChild(s, i, s', i))
  {
    var s' := Do(s, supply, Report(s.ids[p]));
    assert Position(s.ids, s.ids[p]) == Some(p) by {
      var q := Position(s.ids, s.ids[p]).value;
      assert s.ids[q] == s.ids[p];
    }
    assert s' == Replace(s, supply, p, CountOf(s, s.ids[p]) + 1);
    forall i | 0 <= i < |s.ids| ensures s.ids[i] != supply(|s.made|) {
      assert ChildAt(s, supply, i);
      NotYetIssued(supply, |s.made|, |s.made|);
    }
  }

  /** Over every sequence of calls: a further `start_all` changes no child's position and no child's
      count. */
  lemma StartAgainKeeps(strategy: Strategy, maxRestarts: nat, supply: Supply, ops: seq<Op>, i: nat)
    requires Fresh(supply) && i < |DoAll(NewSupervisor(strategy, maxRestarts), supply, ops).ids|
    ensures var s := DoAll(NewSupervisor(strategy, maxRestarts), supply, ops);
            SameChild(s, i, Do(s, supply, Start), i)
  {
    DoAllDistinct(NewSupervisor(strategy, maxRestarts), supply, ops);
    StartKeeps(DoAll(NewSupervisor(strategy, maxRestarts), supply, ops), supply);
    hide DoAll, SameChild, Fresh;
  }

  /** The child at position `p` sits beyond the factories and is below its limit. */
  predicate Stranded(s: Sup, p: int) {
    s.factories <= p < |s.ids| && !AtLimit(s, s.ids[p])
  }

  /** A report indexes the factories out of bounds exactly when it is about such a child, one for
      one. */
  lemma NoFactoryAt(s: Sup, supply: Supply, failed: ActorId)
    requires NoDuplicates(s.ids)
    ensures HandleFailure(s, supply, failed).1 == NoFactory <==>
              s.strategy == OneForOne && exists p :: Stranded(s, p) && s.ids[p] == failed
  {
    match Position(s.ids, failed)
    case None =>
    case Some(q) =>
      forall p | 0 <= p < |s.ids| && s.ids[p] == failed ensures p == q {
      }
      if q >= s.factories && !AtLimit(s, failed) {
        assert Stranded(s, q);
      }
  }

  lemma IndexSafe(s: Sup, supply: Supply)
    requires NoDuplicates(s.ids)
    ensures (forall failed :: HandleFailure(s, supply, failed).1 != NoFactory)
            <==> s.strategy == AllForOne || forall p :: !Stranded(s, p)
  {
    hide HandleFailure, AtLimit, NoDuplicates;
    forall failed ensures HandleFailure(s, supply, failed).1 == NoFactory <==>
                            s.strategy == OneForOne && exists p :: Stranded(s, p) && s.ids[p] == failed {
      NoFactoryAt(s, supply, failed);
    }
    if s.strategy == OneForOne && exists p :: Stranded(s, p) {
      var p :| Stranded(s, p);
      assert HandleFailure(s, supply, s.ids[p]).1 == NoFactory;
    }
  }

  /** Over every sequence of registrations, starts and reports: no report can index the factories
      out of bounds if and only if the strategy is all for one or every child beyond the registered
      factories is at its limit. */
  lemma IndexSafeIff(strategy: Strategy, maxRestarts: nat, supply: Supply, ops: seq<Op>)
    requires Fresh(supply)
    ensures var s := DoAll(NewSupervisor(strategy, maxRestarts), supply, ops);
            (forall failed :: HandleFailure(s, supply, failed).1 != NoFactory)
            <==> s.strategy == AllForOne || forall p :: s.factories <= p < |s.ids| ==> AtLimit(s, s.ids[p])
  {
    DoAllDistinct(NewSupervisor(strategy, maxRestarts), supply, ops);
    var s := DoAll(NewSupervisor(strategy, maxRestarts), supply, ops);
    hide DoAll, HandleFailure, AtLimit, Fresh, NoDuplicates;
    IndexSafe(s, supply);
    assert (forall p :: !Stranded(s, p)) <==> forall p :: s.factories <= p < |s.ids| ==> AtLimit(s, s.ids[p]) by {
      forall p | s.factories <= p < |s.ids| ensures Stranded(s, p) <==> !AtLimit(s, s.ids[p]) {
      }
    }
  }

  /** The shortest case: one factory, started twice, has a second child whose failure indexes the
      factories out of bounds. */
  lemma StartTwiceFails(maxRestarts: nat, supply: Supply)
    requires Fresh(supply) && maxRestarts > 0
    ensures var s := DoAll(NewSupervisor(OneForOne, maxRestarts), supply, [Register, Start, Start]);
            |s.ids| == 2 && HandleFailure(s, supply, s.ids[1]) == (s, NoFactory)
  {
    var s0 := NewSupervisor(OneForOne, maxRestarts).(factories := 1);
    var s1 := StartAll(s0, supply);
    var s := StartAll(s1, supply);
    var ops := [Register, Start, Start];
    assert ops[1..] == [Start, Start] && ops[1..][1..] == [Start] && ops[1..][1..][1..] == [];
    assert DoAll(NewSupervisor(OneForOne, maxRestarts), supply, ops) == s;
    assert s1.ids == [supply(0)];
    assert s.ids == [supply(0), supply(1)];
    assert Position(s.ids, s.ids[1]) == Some(1);
    assert s.counts[supply(1)] == 0;
  }
}

module SupervisorClass {
  import opened Actors
  import opened SchedulerSpec
  import opened SupervisorSpec

  class Supervisor {
    const strategy: Strategy
    const maxRestarts: nat
    var factories: nat
    var childIds: seq<ActorId>
    var restartCounts: map<ActorId, nat>
    var calls: nat
    ghost var made: seq<Made>

    ghost predicate Valid()
      reads this
    {
      calls == |made|
    }

    ghost function Value(): Sup
      reads this
    {
      Sup(strategy, maxRestarts, factories, childIds, restartCounts, made)
    }

    constructor (strategy: Strategy, maxRestarts: nat)
      ensures Valid() && Value() == NewSupervisor(strategy, maxRestarts)
    {
      this.strategy, this.maxRestarts := strategy, maxRestarts;
      factories, childIds, restartCounts, calls, made := 0, [], map[], 0, [];
    }

    /** Registering touches no child and never makes a report fail that did not fail before. */
    method RegisterChild()
      requires Valid()
      modifies this`factories
      ensures Valid() && Value() == old(Value()).(factories := old(factories) + 1)
      ensures forall supply: Supply, failed ::
                SupervisorSpec.HandleFailure(Value(), supply, failed).1 == NoFactory ==>
                  SupervisorSpec.HandleFailure(old(Value()), supply, failed).1 == NoFactory
    {
      factories := factories + 1;
    }

    /** Factory `i` spawns a child. */
    method Build(supply: Supply, i: nat) returns (id: ActorId)
      requires Valid()
      modifies this`calls, this`made
      ensures Valid() && id == supply(old(calls)) && made == old(made) + [Made(i, id)]
    {
      id := supply(calls);
      calls := calls + 1;
      made := made + [Made(i, id)];
    }

    method StartAll(supply: Supply)
      requires Valid()
      modifies this`childIds, this`restartCounts, this`calls, this`made
      ensures Valid() && Value() == SupervisorSpec.StartAll(old(Value()), supply)
    {
      hide NewIds, NewMade, Zeros;
      ghost var s := Value();
      NothingNew(s, supply);
      for i := 0 to factories
        invariant Valid() && childIds == s.ids + NewIds(s, supply, i)
        invariant restartCounts == s.counts + Zeros(NewIds(s, supply, i))
        invariant made == s.made + NewMade(s, supply, i)
      {
        NewSnoc(s, supply, i);
        var id := Build(supply, i);
        ZerosSnoc(s.counts, NewIds(s, supply, i), id);
        childIds := childIds + [id];
        restartCounts := restartCounts[id := 0];
      }
    }

    method HandleFailure(supply: Supply, failed: ActorId) returns (response: Response)
      requires Valid()
      modifies this`childIds, this`restartCounts, this`calls, this`made
      ensures Valid() && (Value(), response) == SupervisorSpec.HandleFailure(old(Value()), supply, failed)
    {
      var count := if failed in restartCounts then restartCounts[failed] else 0;
      if count >= maxRestarts {
        Retain(failed);
        restartCounts := restartCounts - {failed};
        return Restarted([]);
      }
      match strategy {
        case OneForOne => response := RestartOne(supply, failed, count);
        case AllForOne => var ids := RestartAll(supply); response := Restarted(ids);
      }
    }

    /** Keeps every other child, in order. */
    method Retain(failed: ActorId)
      modifies this`childIds
      ensures childIds == Without(old(childIds), failed)
    {
      var kept: seq<ActorId> := [];
      var i := |childIds|;
      while i > 0
        invariant 0 <= i <= |childIds| && kept == Without(childIds[i..], failed)
      {
        i := i - 1;
        assert childIds[i..][1..] == childIds[i + 1..];
        if childIds[i] != failed {
          kept := [childIds[i]] + kept;
        }
      }
      assert childIds[0..] == childIds;
      childIds := kept;
    }

    method Find(id: ActorId) returns (p: Option<nat>)
      ensures p == Position(childIds, id)
    {
      for i := 0 to |childIds|
        invariant id !in childIds[..i]
      {
        if childIds[i] == id {
          FirstPosition(childIds, i);
          return Some(i);
        }
      }
      assert childIds[..|childIds|] == childIds;
      p := None;
    }

    method RestartOne(supply: Supply, failed: ActorId, count: nat) returns (response: Response)
      requires Valid()
      modifies this`childIds, this`restartCounts, this`calls, this`made
      ensures Valid()
      ensures (Value(), response) ==
              match Position(old(childIds), failed)
              case None => (old(Value()), Restarted([]))
              case Some(idx) =>
                if idx >= factories then (old(Value()), NoFactory)
                else (Replace(old(Value()), supply, idx, count + 1), Restarted([supply(old(calls))]))
    {
      var idx := Find(failed);
      match idx {
        case None => response := Restarted([]);
        case Some(i) =>
          if i >= factories {
            return NoFactory;
          }
          var id := Build(supply, i);
          childIds := childIds[i := id];
          restartCounts := restartCounts - {failed};
          restartCounts := restartCounts[id := count + 1];
          response := Restarted([id]);
      }
    }

    method RestartAll(supply: Supply) returns (ids: seq<ActorId>)
      requires Valid()
      modifies this`childIds, this`restartCounts, this`calls, this`made
      ensures Valid() && Value() == SupervisorSpec.RestartAll(old(Value()), supply)
      ensures ids == NewIds(old(Value()), supply, factories)
    {
      hide NewIds, NewMade, Zeros, Overwritten;
      ghost var s := Value();
      NothingNew(s, supply);
      ids := [];
      NothingOverwritten(childIds);
      for i := 0 to factories
        invariant Valid() && ids == NewIds(s, supply, i) && made == s.made + NewMade(s, supply, i)
        invariant |ids| == i && childIds == Overwritten(s.ids, ids)
      {
        NewSnoc(s, supply, i);
        var id := Build(supply, i);
        OverwriteNext(s.ids, ids, id);
        if i < |childIds| {
          childIds := childIds[i := id];
        } else {
          childIds := childIds + [id];
        }
        restartCounts := restartCounts[id := 0];
        ids := ids + [id];
      }
      ResetCounts(ids);
    }

    method ResetCounts(ids: seq<ActorId>)
      modifies this`restartCounts
      ensures restartCounts == Zeros(ids)
    {
      restartCounts := map[];
      for k := 0 to |ids|
        invariant restartCounts == Zeros(ids[..k])
      {
        assert ids[..k + 1] == ids[..k] + [ids[k]];
        ZerosSnoc(map[], ids[..k], ids[k]);
        restartCounts := restartCounts[ids[k] := 0];
      }
      assert ids[..|ids|] == ids;
    }
  }
}
