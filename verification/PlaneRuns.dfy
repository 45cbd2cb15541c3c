/**
 Whole runs of the forwarding plane: any sequence of lock sections, interleaved with the
 passing of time. A clock reading `at` may be older than the moment its lock section runs.
 */
module PlaneRuns {
  import opened Options
  import opened AllocIds
  import opened ForwardPlane

  datatype Step =
    | Tick(d: nat)
    | DoInsert(id: Id, uri: string, at: int)
    | DoArm(id: Id, uri: string, nonce: Nonce, at: int)
    | DoPunch(id: Id, src: Addr, nonce: Nonce, at: int)
    | DoData(src: Addr, at: int)
    | DoForget(id: Id)
    | DoForgetAgent(uri: string)
    | DoGc(at: int)

  datatype Config = Config(ttl: int, idleTTL: int)
  datatype World = World(t: Tables, clock: int)

  function Do(c: Config, w: World, s: Step): World {
    match s
    case Tick(d) => w.(clock := w.clock + d)
    case DoInsert(id, uri, at) => w.(t := Insert(w.t, id, uri, at))
    case DoArm(id, uri, nonce, at) => w.(t := Arm(w.t, id, uri, nonce, at, c.ttl))
    case DoPunch(id, src, nonce, at) => w.(t := Punch(w.t, id, src, nonce, at, w.clock, c.ttl))
    case DoData(src, at) => w.(t := Touch(w.t, src, at))
    case DoForget(id) => w.(t := Release(w.t, {id}))
    case DoForgetAgent(uri) => w.(t := Release(w.t, Owned(w.t, uri)))
    case DoGc(at) => w.(t := Collect(w.t, at, c.idleTTL))
  }

  /** The world after the first `n` steps. */
  function At(c: Config, steps: seq<Step>, n: nat): World
    requires n <= |steps|
  {
    if n == 0 then World(EMPTY, 0) else Do(c, At(c, steps, n - 1), steps[n - 1])
  }

  /** The worlds a run passes through, one more than it has steps. */
  function Worlds(c: Config, steps: seq<Step>): (ws: seq<World>)
    ensures |ws| == |steps| + 1 && forall k :: 0 <= k <= |steps| ==> ws[k] == At(c, steps, k)
  {
    seq(|steps| + 1, k requires 0 <= k <= |steps| => At(c, steps, k))
  }

  /** Readings are not from the future, and an issued id is free when it is inserted. */
  predicate Allowed(w: World, s: Step) {
    match s
    case DoInsert(id, uri, at) => id !in w.t.byAlloc && uri != "" && at <= w.clock
    case DoArm(_, _, _, at) => at <= w.clock
    case DoPunch(_, _, _, at) => at <= w.clock
    case DoData(_, at) => at <= w.clock
    case DoGc(at) => at <= w.clock
    case _ => true
  }

  ghost predicate Legal(c: Config, steps: seq<Step>) {
    c.ttl > 0 && forall k :: 0 <= k < |steps| ==> Allowed(At(c, steps, k), steps[k])
  }

  lemma StepKeepsInv(c: Config, w: World, s: Step)
    requires Inv(w.t) && Allowed(w, s)
    ensures Inv(Do(c, w, s).t)
  {
    match s
    case Tick(_) =>
    case DoInsert(id, uri, at) => InsertKeepsInvIff(w.t, id, uri, at);
    case DoArm(id, uri, nonce, at) => ArmKeepsInv(w.t, id, uri, nonce, at, c.ttl);
    case DoPunch(id, src, nonce, at) => PunchKeepsInv(w.t, id, src, nonce, at, w.clock, c.ttl);
    case DoData(src, at) => TouchKeepsInv(w.t, src, at);
    case DoForget(id) => ReleaseKeepsInv(w.t, {id});
    case DoForgetAgent(uri) => ReleaseKeepsInv(w.t, Owned(w.t, uri));
    case DoGc(at) => CollectKeepsInv(w.t, at, c.idleTTL);
  }

  /** The five tables agree at every point of every legal run. */
  lemma {:induction false} RunKeepsInv(c: Config, steps: seq<Step>, n: nat)
    requires Legal(c, steps) && n <= |steps|
    ensures Inv(At(c, steps, n).t)
  {
    if n > 0 {
      RunKeepsInv(c, steps, n - 1);
      StepKeepsInv(c, At(c, steps, n - 1), steps[n - 1]);
    }
  }

  lemma {:induction false} AtPrefix(c: Config, steps: seq<Step>, more: seq<Step>, n: nat)
    requires n <= |steps|
    ensures At(c, steps + more, n) == At(c, steps, n)
  {
    if n > 0 { AtPrefix(c, steps, more, n - 1); }
  }

  /** Some legal run ends in `w`. */
  ghost predicate Reachable(c: Config, w: World) {
    exists steps :: Legal(c, steps) && At(c, steps, |steps|) == w
  }

  lemma {:induction false} AtThen(c: Config, steps: seq<Step>, s: Step, n: nat)
    requires n == |steps| + 1
    ensures At(c, steps + [s], n) == Do(c, At(c, steps, |steps|), s)
  {
    AtPrefix(c, steps, [s], |steps|);
  }

  /** A legal run can be prolonged by any allowed step. */
  lemma {:induction false} LegalThen(c: Config, steps: seq<Step>, s: Step)
    requires Legal(c, steps) && Allowed(At(c, steps, |steps|), s)
    ensures Legal(c, steps + [s])
  {
    var longer := steps + [s];
    forall k | 0 <= k < |longer| ensures Allowed(At(c, longer, k), longer[k]) {
      AtPrefix(c, steps, [s], k);
      if k < |steps| { assert longer[k] == steps[k]; }
    }
  }

  lemma {:induction false} StillReachable(c: Config, w: World, s: Step, w': World)
    requires Reachable(c, w) && Allowed(w, s) && w' == Do(c, w, s)
    ensures Reachable(c, w')
  {
    var steps :| Legal(c, steps) && At(c, steps, |steps|) == w;
    var longer := steps + [s];
    LegalThen(c, steps, s);
    AtThen(c, steps, s, |longer|);
  }

  // Ids are free when issued, until the counter wraps

  predicate InsertsBefore(steps: seq<Step>, n: nat, id: Id)
    requires n <= |steps|
  {
    exists k :: 0 <= k < n && steps[k].DoInsert? && steps[k].id == id
  }

  lemma NoNewIds(c: Config, w: World, s: Step, id: Id)
    requires id in Do(c, w, s).t.byAlloc && !(s.DoInsert? && s.id == id)
    ensures id in w.t.byAlloc
  {}

  lemma {:induction false} LiveWasInserted(c: Config, steps: seq<Step>, n: nat, id: Id)
    requires n <= |steps| && id in At(c, steps, n).t.byAlloc
    ensures InsertsBefore(steps, n, id)
  {
    if n > 0 {
      var s := steps[n - 1];
      if s.DoInsert? && s.id == id {
        assert steps[n - 1].DoInsert?;
      } else {
        NoNewIds(c, At(c, steps, n - 1), s, id);
        LiveWasInserted(c, steps, n - 1, id);
      }
    }
  }

  /**
   If the inserted ids come from the counter, each from its own issue, and the counter has
   not started over, then every id is free at its insertion, whatever the order of insertion.
   */
  lemma FirstTurnIdsAreFree(c: Config, steps: seq<Step>, issue: seq<nat>, n: nat)
    requires n < |steps| == |issue| && steps[n].DoInsert?
    requires forall k :: 0 <= k < |steps| && steps[k].DoInsert? ==>
               1 <= issue[k] <= TURN && steps[k].id == Issued(issue[k])
    requires forall k, l :: 0 <= k < l < |steps| && steps[k].DoInsert? && steps[l].DoInsert? ==> issue[k] != issue[l]
    ensures steps[n].id !in At(c, steps, n).t.byAlloc
  {
    if steps[n].id in At(c, steps, n).t.byAlloc {
      LiveWasInserted(c, steps, n, steps[n].id);
      var k :| 0 <= k < n && steps[k].DoInsert? && steps[k].id == steps[n].id;
      assert issue[k] != issue[n];
      if issue[k] < issue[n] { NearIssuesDiffer(issue[k], issue[n]); } else { NearIssuesDiffer(issue[n], issue[k]); }
    }
  }

  // Bulk teardown is the same as tearing down one by one

  function ForgetEach(t: Tables, ids: seq<Id>): Tables {
    if ids == [] then t else Release(ForgetEach(t, ids[..|ids| - 1]), {ids[|ids| - 1]})
  }

  function Elements(ids: seq<Id>): set<Id> {
    set id | id in ids
  }

  lemma {:induction false} ForgetEachReleases(t: Tables, ids: seq<Id>)
    requires Inv(t)
    ensures ForgetEach(t, ids) == Release(t, Elements(ids))
  {
    if ids == [] {
      ReleaseNothing(t);
      assert Elements(ids) == {};
    } else {
      var front, last := ids[..|ids| - 1], ids[|ids| - 1];
      ForgetEachReleases(t, front);
      ReleaseTwice(t, Elements(front), {last});
      assert ids == front + [last];
      assert Elements(ids) == Elements(front) + {last};
    }
  }

  /** `ForgetAgent` does what forgetting each of the agent's ids does, in any order. */
  lemma ForgetAgentIsForgettingEach(t: Tables, uri: string, ids: seq<Id>)
    requires Inv(t) && Elements(ids) == Owned(t, uri)
    ensures ForgetEach(t, ids) == Release(t, Owned(t, uri))
  {
    ForgetEachReleases(t, ids);
  }

  /** Other agents keep their allocations, their pending rows and every queued punch. */
  lemma ForgetAgentSparesOthers(t: Tables, uri: string, id: Id)
    requires Inv(t) && !(id in t.byAlloc && t.byAlloc[id].uri == uri)
    ensures var t' := Release(t, Owned(t, uri));
            && (id in t'.byAlloc <==> id in t.byAlloc) && (id in t.byAlloc ==> t'.byAlloc[id] == t.byAlloc[id])
            && (id in t'.pending <==> id in t.pending) && (id in t.pending ==> t'.pending[id] == t.pending[id])
            && (id in t'.queued <==> id in t.queued) && (id in t.queued ==> t'.queued[id] == t.queued[id])
  {
    assert id !in Owned(t, uri);
  }

  // The two halves of the handshake commute

  /**
   From a state with no register row for `id`, arming at `t1` and punching at `t2` gives the
   same tables as punching at `t1` and arming at `t2`, exactly when they are less than the
   TTL apart. At exactly the TTL only the first order binds.
   */
  lemma HandshakeOrderIrrelevantIff(t: Tables, id: Id, uri: string, src: Addr, nonce: Nonce, t1: int, t2: int, ttl: int)
    requires Inv(t) && ArmOutcomeOf(t, id, uri) == Armed && id !in t.pending && id !in t.queued
    requires t1 <= t2 && ttl > 0
    ensures Punch(Arm(t, id, uri, nonce, t1, ttl), id, src, nonce, t2, t2, ttl)
         == Arm(Punch(t, id, src, nonce, t1, t1, ttl), id, uri, nonce, t2, ttl)
       <==> t2 < t1 + ttl
  {
    var armed := Arm(t, id, uri, nonce, t1, ttl);
    var punched := Punch(t, id, src, nonce, t1, t1, ttl);
    assert t.queued - {id} == t.queued;
    assert armed.pending - {id} == t.pending;
    assert punched.queued - {id} == t.queued;
    assert armed == t.(pending := armed.pending) && punched == t.(queued := punched.queued);
    var (one, other) := (Punch(armed, id, src, nonce, t2, t2, ttl), Arm(punched, id, uri, nonce, t2, ttl));
    assert id !in one.pending;
    if t2 < t1 + ttl {
      assert one == Bind(t, id, src, t2) == other;
    } else {
      assert id in other.pending;
    }
  }

  // The reverse index

  /** No two live allocations are bound to the same source. */
  predicate Unshared(t: Tables) {
    forall i, j :: i in t.byAlloc && j in t.byAlloc && i != j && t.byAlloc[i].src.Some? ==>
      t.byAlloc[i].src != t.byAlloc[j].src
  }

  /** Every bound source is found in the reverse index. */
  predicate SrcComplete(t: Tables) {
    forall id :: id in t.byAlloc && t.byAlloc[id].src.Some? ==>
      t.byAlloc[id].src.value in t.src2id && t.src2id[t.byAlloc[id].src.value] == id
  }

  lemma ReleaseKeepsSrcComplete(t: Tables, ids: set<Id>)
    requires SrcComplete(t) && Unshared(t)
    ensures SrcComplete(Release(t, ids))
  {
    var t' := Release(t, ids);
    forall id | id in t'.byAlloc && t'.byAlloc[id].src.Some?
      ensures t'.byAlloc[id].src.value in t'.src2id
    {
      assert t.byAlloc[id].src.value !in SrcsOf(t.byAlloc, ids);
    }
  }

  lemma BindKeepsSrcComplete(t: Tables, id: Id, src: Addr, at: int)
    requires id in t.byAlloc && SrcComplete(t) && Unshared(t) && Unshared(Bind(t, id, src, at))
    ensures SrcComplete(Bind(t, id, src, at))
  {
    var t' := Bind(t, id, src, at);
    forall i | i in t'.byAlloc && t'.byAlloc[i].src.Some?
      ensures t'.byAlloc[i].src.value in t'.src2id && t'.src2id[t'.byAlloc[i].src.value] == i
    {
      if i != id {
        assert t.byAlloc[i].src != t.byAlloc[id].src;
        assert t'.byAlloc[i].src != t'.byAlloc[id].src;
      }
    }
  }

  lemma StepKeepsSrcComplete(c: Config, w: World, s: Step)
    requires PendingLive(w.t) && Allowed(w, s) && SrcComplete(w.t) && Unshared(w.t) && Unshared(Do(c, w, s).t)
    ensures SrcComplete(Do(c, w, s).t)
  {
    match s
    case DoForget(id) => ReleaseKeepsSrcComplete(w.t, {id});
    case DoForgetAgent(uri) => ReleaseKeepsSrcComplete(w.t, Owned(w.t, uri));
    case DoGc(at) => ReleaseKeepsSrcComplete(w.t, Idle(w.t, at, c.idleTTL));
    case DoArm(id, uri, nonce, at) =>
      if ArmOutcomeOf(w.t, id, uri) == Armed && Drains(w.t, id, nonce, at) {
        BindKeepsSrcComplete(w.t.(queued := w.t.queued - {id}), id, w.t.queued[id].src, at);
      }
    case DoPunch(id, src, nonce, at) =>
      if Completes(w.t, id, nonce, w.clock) {
        BindKeepsSrcComplete(w.t.(pending := w.t.pending - {id}), id, src, at);
      }
    case _ =>
  }

  /** No source is shared at any point of the run so far. */
  ghost predicate UnsharedUpTo(c: Config, steps: seq<Step>, n: nat)
    requires n <= |steps|
  {
    Unshared(At(c, steps, n).t) && (n > 0 ==> UnsharedUpTo(c, steps, n - 1))
  }

  /** At every point of the run so far, the reverse index is the inverse of the bound sources. */
  ghost predicate ExactUpTo(c: Config, steps: seq<Step>, n: nat)
    requires n <= |steps|
  {
    SrcComplete(At(c, steps, n).t) && SrcSound(At(c, steps, n).t) && (n > 0 ==> ExactUpTo(c, steps, n - 1))
  }

  lemma CompleteMeansUnshared(t: Tables)
    requires SrcComplete(t)
    ensures Unshared(t)
  {}

  lemma {:induction false} ExactRunIsUnshared(c: Config, steps: seq<Step>, n: nat)
    requires n <= |steps| && ExactUpTo(c, steps, n)
    ensures UnsharedUpTo(c, steps, n)
  {
    CompleteMeansUnshared(At(c, steps, n).t);
    if n > 0 { ExactRunIsUnshared(c, steps, n - 1); }
  }

  lemma {:induction false} UnsharedRunIsComplete(c: Config, steps: seq<Step>, n: nat)
    requires Legal(c, steps) && n <= |steps| && UnsharedUpTo(c, steps, n)
    ensures SrcComplete(At(c, steps, n).t)
  {
    if n > 0 {
      UnsharedRunIsComplete(c, steps, n - 1);
      RunKeepsInv(c, steps, n - 1);
      StepKeepsSrcComplete(c, At(c, steps, n - 1), steps[n - 1]);
    }
  }

  lemma {:induction false} UnsharedRunIsExact(c: Config, steps: seq<Step>, n: nat)
    requires Legal(c, steps) && n <= |steps| && UnsharedUpTo(c, steps, n)
    ensures ExactUpTo(c, steps, n)
  {
    RunKeepsInv(c, steps, n);
    UnsharedRunIsComplete(c, steps, n);
    if n > 0 { UnsharedRunIsExact(c, steps, n - 1); }
  }

  /**
   The reverse index is the exact inverse of the bound sources all through a run if and only
   if no two live allocations ever share a source in it.
   */
  lemma ReverseIndexExactIffUnshared(c: Config, steps: seq<Step>, n: nat)
    requires Legal(c, steps) && n <= |steps|
    ensures ExactUpTo(c, steps, n) <==> UnsharedUpTo(c, steps, n)
  {
    if ExactUpTo(c, steps, n) {
      ExactRunIsUnshared(c, steps, n);
    } else if UnsharedUpTo(c, steps, n) {
      UnsharedRunIsExact(c, steps, n);
    }
  }

  // Sources are shared in some runs

  const ONE_BOUND := Tables(map[1 := AllocEntry("a", Some(9), 0)], map["a" := {1}], map[9 := 1], map[], map[])

  const TWO_BOUND := Tables(map[1 := AllocEntry("a", Some(9), 0), 2 := AllocEntry("b", Some(9), 0)],
                            map["a" := {1}, "b" := {2}], map[9 := 2], map[], map[])

  /** `id` issued to `uri` and bound to source 9, all at time 0. */
  function WithBound(t: Tables, id: Id, uri: string): Tables {
    t.(byAlloc := t.byAlloc[id := AllocEntry(uri, Some(9), 0)], byURI := t.byURI[uri := {id}], src2id := t.src2id[9 := id])
  }

  lemma IssueArmPunch(t: Tables, id: Id, uri: string, ttl: int)
    requires id !in t.byAlloc && uri !in t.byURI && uri != "" && ttl > 0 && t.pending == map[] && t.queued == map[]
    ensures Punch(Arm(Insert(t, id, uri, 0), id, uri, 0, 0, ttl), id, 9, 0, 0, 0, ttl) == WithBound(t, id, uri)
  {
    var t1 := Insert(t, id, uri, 0);
    var t2 := Arm(t1, id, uri, 0, 0, ttl);
    assert t1.queued - {id} == t.queued;
    assert {} + {id} == {id};
    assert t2 == t1.(pending := map[id := PendingEntry(uri, 0, ttl)]);
    assert t2.pending - {id} == t.pending;
    assert t1.byAlloc[id := AllocEntry(uri, Some(9), 0)] == t.byAlloc[id := AllocEntry(uri, Some(9), 0)];
  }

  lemma BoundIsReachable(c: Config, t: Tables, id: Id, uri: string)
    requires Reachable(c, World(t, 0)) && c.ttl > 0
    requires id !in t.byAlloc && uri !in t.byURI && uri != "" && t.pending == map[] && t.queued == map[]
    ensures Reachable(c, World(WithBound(t, id, uri), 0))
  {
    var t1 := Insert(t, id, uri, 0);
    var t2 := Arm(t1, id, uri, 0, 0, c.ttl);
    var t3 := Punch(t2, id, 9, 0, 0, 0, c.ttl);
    StillReachable(c, World(t, 0), DoInsert(id, uri, 0), World(t1, 0));
    StillReachable(c, World(t1, 0), DoArm(id, uri, 0, 0), World(t2, 0));
    StillReachable(c, World(t2, 0), DoPunch(id, 9, 0, 0), World(t3, 0));
    IssueArmPunch(t, id, uri, c.ttl);
  }

  /**
   Two agents behind one source: after a legal run two live allocations share a source, and
   the reverse index finds only one of them.
   */
  lemma SharedSourceHappens(c: Config)
    requires c.ttl > 0
    ensures Reachable(c, World(TWO_BOUND, 0)) && !Unshared(TWO_BOUND) && !SrcComplete(TWO_BOUND)
  {
    assert Legal(c, []) && At(c, [], 0) == World(EMPTY, 0);
    BoundIsReachable(c, EMPTY, 1, "a");
    assert WithBound(EMPTY, 1, "a") == ONE_BOUND;
    BoundIsReachable(c, ONE_BOUND, 2, "b");
    assert WithBound(ONE_BOUND, 2, "b") == TWO_BOUND;
    var m := TWO_BOUND.byAlloc;
    assert 1 in m && 2 in m && m[1].src == m[2].src == Some(9) && TWO_BOUND.src2id[9] == 2;
  }
}
