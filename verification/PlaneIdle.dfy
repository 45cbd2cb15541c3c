/**
 Idle reclamation. A sweep takes exactly what has been idle for longer than the idle TTL, so
 an allocation whose source keeps sending is never taken. Here each datagram is one step:
 its clock reading is the time of the step.
 */
module PlaneIdle {
  import opened Options
  import opened ForwardPlane
  import opened PlaneRuns

  /** What a sweep leaves: the allocations seen recently enough, and unexpired rows of survivors. */
  lemma SweepIsExact(t: Tables, at: int, idleTTL: int, id: Id)
    requires Inv(t)
    ensures var t' := Collect(t, at, idleTTL);
            && (id in t'.byAlloc <==> id in t.byAlloc && t.byAlloc[id].lastSeen >= at - idleTTL)
            && (id in t'.byAlloc ==> t'.byAlloc[id] == t.byAlloc[id])
            && (id in t'.pending <==> id in t.pending && id in t'.byAlloc && at <= t.pending[id].expires)
            && (id in t'.queued <==>
                  id in t.queued && (id in t.byAlloc ==> id in t'.byAlloc) && at <= t.queued[id].expires)
  {
    assert id in Idle(t, at, idleTTL) <==> id in t.byAlloc && t.byAlloc[id].lastSeen < at - idleTTL;
  }

  ghost predicate SeenInPast(w: World) {
    forall id :: id in w.t.byAlloc ==> w.t.byAlloc[id].lastSeen <= w.clock
  }

  lemma StepSeesInPast(c: Config, w: World, s: Step)
    requires SeenInPast(w) && Allowed(w, s)
    ensures SeenInPast(Do(c, w, s))
  {}

  lemma {:induction false} NothingSeenInFuture(c: Config, steps: seq<Step>, n: nat)
    requires Legal(c, steps) && n <= |steps|
    ensures SeenInPast(At(c, steps, n))
  {
    if n > 0 {
      NothingSeenInFuture(c, steps, n - 1);
      StepSeesInPast(c, At(c, steps, n - 1), steps[n - 1]);
    }
  }

  /** When `src` last sent a datagram in steps m .. n; `first` if it has not. */
  function LastSent(steps: seq<Step>, m: nat, n: nat, src: Addr, first: int): int
    requires m <= n <= |steps|
  {
    if n == m then first
    else if steps[n - 1].DoData? && steps[n - 1].src == src then steps[n - 1].at
    else LastSent(steps, m, n - 1, src, first)
  }

  /**
   The step is prompt, does not tear `id` down or move it to another source, and if it is a
   sweep then the source has sent within the idle TTL before it.
   */
  predicate Sparing(c: Config, w: World, s: Step, id: Id, uri: string, src: Addr, sent: int) {
    match s
    case DoForget(x) => x != id
    case DoForgetAgent(u) => u != uri
    case DoGc(at) => sent >= at - c.idleTTL
    case DoData(_, at) => at == w.clock
    case DoArm(x, _, nonce, at) => at == w.clock && (x == id && Drains(w.t, id, nonce, at) ==> w.t.queued[id].src == src)
    case DoPunch(x, from, nonce, at) => at == w.clock && (x == id && Completes(w.t, id, nonce, w.clock) ==> from == src)
    case _ => true
  }

  ghost predicate SparedUpTo(c: Config, steps: seq<Step>, m: nat, n: nat, id: Id, uri: string, src: Addr, first: int)
    requires m <= n <= |steps|
  {
    n > m ==> SparedUpTo(c, steps, m, n - 1, id, uri, src, first)
              && Sparing(c, At(c, steps, n - 1), steps[n - 1], id, uri, src, LastSent(steps, m, n - 1, src, first))
  }

  predicate AliveSince(t: Tables, id: Id, uri: string, src: Addr, sent: int) {
    id in t.byAlloc && t.byAlloc[id].uri == uri && t.byAlloc[id].src == Some(src) && t.byAlloc[id].lastSeen >= sent
  }

  /** No other live allocation is bound to `src`. */
  predicate Alone(t: Tables, id: Id, src: Addr) {
    forall x :: x in t.byAlloc && x != id ==> t.byAlloc[x].src != Some(src)
  }

  ghost predicate AloneUpTo(c: Config, steps: seq<Step>, m: nat, n: nat, id: Id, src: Addr)
    requires m <= n <= |steps|
  {
    Alone(At(c, steps, n).t, id, src) && (n > m ==> AloneUpTo(c, steps, m, n - 1, id, src))
  }

  /** The reverse index leads from `src` to `id`. */
  predicate Leads(t: Tables, src: Addr, id: Id) { src in t.src2id && t.src2id[src] == id }

  lemma SparingStepKeepsAlive(c: Config, w: World, s: Step, id: Id, uri: string, src: Addr, sent: int)
    requires Allowed(w, s) && Leads(w.t, src, id) && SeenInPast(w)
    requires AliveSince(w.t, id, uri, src, sent) && Sparing(c, w, s, id, uri, src, sent)
    ensures AliveSince(Do(c, w, s).t, id, uri, src, if s.DoData? && s.src == src then s.at else sent)
  {}

  lemma ReleaseKeepsLead(t: Tables, ids: set<Id>, id: Id, src: Addr)
    requires Leads(t, src, id) && Alone(t, id, src) && id !in ids
    ensures Leads(Release(t, ids), src, id)
  {
    assert src !in SrcsOf(t.byAlloc, ids);
  }

  lemma BindKeepsLead(t: Tables, x: Id, from: Addr, at: int, id: Id, src: Addr)
    requires Leads(t, src, id) && Alone(t, id, src) && x in t.byAlloc && Alone(Bind(t, x, from, at), id, src)
    requires id in t.byAlloc && t.byAlloc[id].src == Some(src) && (x == id ==> from == src)
    ensures Leads(Bind(t, x, from, at), src, id)
  {
    assert x != id ==> Bind(t, x, from, at).byAlloc[x].src == Some(from);
  }

  /** A step that spares the allocation and leaves its source to it keeps the lead as well. */
  lemma SparingStepKeepsLead(c: Config, w: World, s: Step, id: Id, uri: string, src: Addr, sent: int)
    requires PendingLive(w.t) && Leads(w.t, src, id) && AliveSince(w.t, id, uri, src, sent)
    requires Sparing(c, w, s, id, uri, src, sent) && Alone(w.t, id, src) && Alone(Do(c, w, s).t, id, src)
    ensures Leads(Do(c, w, s).t, src, id)
  {
    match s
    case DoForget(x) => ReleaseKeepsLead(w.t, {x}, id, src);
    case DoForgetAgent(u) => ReleaseKeepsLead(w.t, Owned(w.t, u), id, src);
    case DoGc(at) => ReleaseKeepsLead(w.t, Idle(w.t, at, c.idleTTL), id, src);
    case DoArm(x, u, nonce, at) =>
      if ArmOutcomeOf(w.t, x, u) == Armed && Drains(w.t, x, nonce, at) {
        BindKeepsLead(w.t.(queued := w.t.queued - {x}), x, w.t.queued[x].src, at, id, src);
      }
    case DoPunch(x, from, nonce, at) =>
      if Completes(w.t, x, nonce, w.clock) {
        BindKeepsLead(w.t.(pending := w.t.pending - {x}), x, from, at, id, src);
      }
    case _ =>
  }

  lemma SparedRunStep(c: Config, steps: seq<Step>, k: nat, n: nat, id: Id, uri: string, src: Addr, sent: int)
    requires Legal(c, steps) && n == k + 1 <= |steps|
    requires Alone(At(c, steps, k).t, id, src) && Alone(At(c, steps, n).t, id, src)
    requires AliveSince(At(c, steps, k).t, id, uri, src, sent) && Leads(At(c, steps, k).t, src, id)
    requires Sparing(c, At(c, steps, k), steps[k], id, uri, src, sent)
    ensures AliveSince(At(c, steps, n).t, id, uri, src,
                       if steps[k].DoData? && steps[k].src == src then steps[k].at else sent)
    ensures Leads(At(c, steps, n).t, src, id)
  {
    var w := At(c, steps, k);
    RunKeepsInv(c, steps, k);
    NothingSeenInFuture(c, steps, k);
    SparingStepKeepsAlive(c, w, steps[k], id, uri, src, sent);
    SparingStepKeepsLead(c, w, steps[k], id, uri, src, sent);
  }

  /**
   From a moment on at which the reverse index leads from `src` to the allocation, and while no
   other live allocation is bound to `src`: if the allocation is not torn down or moved and
   its source sends within the idle TTL before every sweep, it stays alive and is still found.
   */
  lemma {:induction false} ActiveSourceIsNeverReclaimed(c: Config, steps: seq<Step>, m: nat, n: nat,
                                                       id: Id, uri: string, src: Addr, first: int)
    requires Legal(c, steps) && m <= n <= |steps| && AloneUpTo(c, steps, m, n, id, src)
    requires AliveSince(At(c, steps, m).t, id, uri, src, first) && Leads(At(c, steps, m).t, src, id)
    requires SparedUpTo(c, steps, m, n, id, uri, src, first)
    ensures AliveSince(At(c, steps, n).t, id, uri, src, LastSent(steps, m, n, src, first))
    ensures Leads(At(c, steps, n).t, src, id)
  {
    if n > m {
      var k := n - 1;
      var sent := LastSent(steps, m, k, src, first);
      assert AloneUpTo(c, steps, m, k, id, src);
      ActiveSourceIsNeverReclaimed(c, steps, m, k, id, uri, src, first);
      SparedRunStep(c, steps, k, n, id, uri, src, sent);
    }
  }

  /**
   With a shared source it can go wrong: a legal run reaches a point at which a bound
   allocation's source sends and a sweep at that very moment still reclaims the allocation.
   */
  lemma SharedActiveSourceIsReclaimed(c: Config) returns (w: World)
    requires c.ttl > 0 && c.idleTTL >= 0
    ensures Reachable(c, w) && 1 in w.t.byAlloc && w.t.byAlloc[1].src == Some(9)
    ensures var data, gc := DoData(9, w.clock), DoGc(w.clock);
            && Allowed(w, data) && Allowed(Do(c, w, data), gc)
            && 1 !in Do(c, Do(c, w, data), gc).t.byAlloc
  {
    var t := c.idleTTL + 1;
    w := World(TWO_BOUND, t);
    SharedSourceHappens(c);
    StillReachable(c, World(TWO_BOUND, 0), Tick(t), w);
    var touched := Touch(TWO_BOUND, 9, t);
    assert touched.byAlloc[1].lastSeen == 0;
    assert 1 in Idle(touched, t, c.idleTTL);
  }

  /** Neither does being alone on the source help once the lead is lost: its sharer took it along. */
  lemma LoneActiveSourceIsReclaimed(c: Config) returns (w: World)
    requires c.ttl > 0 && c.idleTTL >= 0
    ensures Reachable(c, w) && 1 in w.t.byAlloc && w.t.byAlloc[1].src == Some(9) && Alone(w.t, 1, 9)
    ensures var data, gc := DoData(9, w.clock), DoGc(w.clock);
            && Allowed(w, data) && Allowed(Do(c, w, data), gc)
            && 1 !in Do(c, Do(c, w, data), gc).t.byAlloc
  {
    var t := c.idleTTL + 1;
    var rest := Release(TWO_BOUND, {2});
    w := World(rest, t);
    SharedSourceHappens(c);
    StillReachable(c, World(TWO_BOUND, 0), DoForget(2), World(rest, 0));
    StillReachable(c, World(rest, 0), Tick(t), w);
    assert 2 in TWO_BOUND.byAlloc && 9 in SrcsOf(TWO_BOUND.byAlloc, {2});
    assert Touch(rest, 9, t) == rest;
    assert 1 in Idle(rest, t, c.idleTTL);
  }

  // Exactly when an active allocation is safe

  /** No further allocation comes to be bound to `src`. */
  predicate NoNewcomer(t: Tables, t': Tables, id: Id, src: Addr) {
    forall x :: x in t'.byAlloc && x != id && t'.byAlloc[x].src == Some(src) ==>
      x in t.byAlloc && t.byAlloc[x].src == Some(src)
  }

  ghost predicate NoNewcomerUpTo(c: Config, steps: seq<Step>, m: nat, n: nat, id: Id, src: Addr)
    requires m <= n <= |steps|
  {
    n > m ==> NoNewcomerUpTo(c, steps, m, n - 1, id, src)
              && NoNewcomer(At(c, steps, n - 1).t, At(c, steps, n).t, id, src)
  }

  /** A legal run that, from its step `m` on, spares the allocation and brings no newcomer to its source. */
  ghost predicate Spares(c: Config, steps: seq<Step>, m: nat, id: Id, uri: string, src: Addr, first: int) {
    && Legal(c, steps) && m <= |steps|
    && SparedUpTo(c, steps, m, |steps|, id, uri, src, first)
    && NoNewcomerUpTo(c, steps, m, |steps|, id, src)
  }

  /** The run can go on, sparing the allocation, to a point at which it is gone. */
  ghost predicate MayBeReclaimed(c: Config, steps: seq<Step>, m: nat, id: Id, uri: string, src: Addr, first: int) {
    exists longer :: steps <= longer && Spares(c, longer, m, id, uri, src, first)
                     && id !in At(c, longer, |longer|).t.byAlloc
  }

  lemma {:induction false} LastSentPrefix(steps: seq<Step>, s: Step, m: nat, n: nat, src: Addr, first: int)
    requires m <= n <= |steps|
    ensures LastSent(steps + [s], m, n, src, first) == LastSent(steps, m, n, src, first)
  {
    if n > m { LastSentPrefix(steps, s, m, n - 1, src, first); }
  }

  lemma {:induction false} SparedPrefix(c: Config, steps: seq<Step>, s: Step, m: nat, n: nat,
                                       id: Id, uri: string, src: Addr, first: int)
    requires m <= n <= |steps| && SparedUpTo(c, steps, m, n, id, uri, src, first)
    ensures SparedUpTo(c, steps + [s], m, n, id, uri, src, first)
  {
    if n > m {
      SparedPrefix(c, steps, s, m, n - 1, id, uri, src, first);
      AtPrefix(c, steps, [s], n - 1);
      LastSentPrefix(steps, s, m, n - 1, src, first);
    }
  }

  lemma {:induction false} NoNewcomerPrefix(c: Config, steps: seq<Step>, s: Step, m: nat, n: nat, id: Id, src: Addr)
    requires m <= n <= |steps| && NoNewcomerUpTo(c, steps, m, n, id, src)
    ensures NoNewcomerUpTo(c, steps + [s], m, n, id, src)
  {
    if n > m {
      NoNewcomerPrefix(c, steps, s, m, n - 1, id, src);
      AtPrefix(c, steps, [s], n - 1);
      AtPrefix(c, steps, [s], n);
    }
  }

  /** Such a run goes on with any allowed step that spares the allocation and brings no newcomer. */
  lemma {:induction false} SparesThen(c: Config, steps: seq<Step>, m: nat, s: Step, w: World, w': World, sent: int,
                                     id: Id, uri: string, src: Addr, first: int) returns (longer: seq<Step>)
    requires Spares(c, steps, m, id, uri, src, first)
    requires w == At(c, steps, |steps|) && sent == LastSent(steps, m, |steps|, src, first)
    requires Allowed(w, s) && w' == Do(c, w, s) && Sparing(c, w, s, id, uri, src, sent) && NoNewcomer(w.t, w'.t, id, src)
    ensures steps <= longer && Spares(c, longer, m, id, uri, src, first) && At(c, longer, |longer|) == w'
    ensures LastSent(longer, m, |longer|, src, first) == if s.DoData? && s.src == src then s.at else sent
  {
    longer := steps + [s];
    var n := |steps|;
    LegalThen(c, steps, s);
    AtThen(c, steps, s, n + 1);
    AtPrefix(c, steps, [s], n);
    LastSentPrefix(steps, s, m, n, src, first);
    SparedPrefix(c, steps, s, m, n, id, uri, src, first);
    NoNewcomerPrefix(c, steps, s, m, n, id, src);
  }

  /** Without the lead, a datagram and a sweep one idle TTL later reclaim the allocation. */
  lemma SendThenSweep(c: Config, w: World, id: Id, src: Addr, w1: World, w2: World, w3: World)
    requires c.idleTTL >= 0 && SeenInPast(w) && id in w.t.byAlloc && !Leads(w.t, src, id)
    requires w1 == Do(c, w, Tick(c.idleTTL + 1)) && w2 == Do(c, w1, DoData(src, w1.clock)) && w3 == Do(c, w2, DoGc(w1.clock))
    ensures NoNewcomer(w.t, w1.t, id, src) && NoNewcomer(w1.t, w2.t, id, src) && NoNewcomer(w2.t, w3.t, id, src)
    ensures id !in w3.t.byAlloc
  {
    assert w2.t.byAlloc[id] == w.t.byAlloc[id];
    assert id in Idle(w2.t, w1.clock, c.idleTTL);
  }

  lemma {:induction false} NoLeadMayBeReclaimed(c: Config, steps: seq<Step>, m: nat, w: World,
                                               id: Id, uri: string, src: Addr, first: int)
    requires c.idleTTL >= 0 && Spares(c, steps, m, id, uri, src, first) && w == At(c, steps, |steps|)
    requires id in w.t.byAlloc && !Leads(w.t, src, id)
    ensures MayBeReclaimed(c, steps, m, id, uri, src, first)
  {
    var tick := Tick(c.idleTTL + 1);
    var w1 := Do(c, w, tick);
    var data, gc := DoData(src, w1.clock), DoGc(w1.clock);
    var w2 := Do(c, w1, data);
    var w3 := Do(c, w2, gc);
    NothingSeenInFuture(c, steps, |steps|);
    SendThenSweep(c, w, id, src, w1, w2, w3);
    var sent := LastSent(steps, m, |steps|, src, first);
    var steps1 := SparesThen(c, steps, m, tick, w, w1, sent, id, uri, src, first);
    var steps2 := SparesThen(c, steps1, m, data, w1, w2, sent, id, uri, src, first);
    var steps3 := SparesThen(c, steps2, m, gc, w2, w3, w1.clock, id, uri, src, first);
  }

  /** Forgetting a sharer takes the lead away and leaves the allocation. */
  lemma ForgetSharer(t: Tables, x: Id, id: Id, src: Addr)
    requires x in t.byAlloc && x != id && t.byAlloc[x].src == Some(src) && id in t.byAlloc
    ensures id in Release(t, {x}).byAlloc && !Leads(Release(t, {x}), src, id)
    ensures NoNewcomer(t, Release(t, {x}), id, src)
  {
    assert src in SrcsOf(t.byAlloc, {x});
  }

  lemma {:induction false} AloneAllAlong(c: Config, steps: seq<Step>, m: nat, n: nat, id: Id, src: Addr)
    requires m <= n <= |steps| && Alone(At(c, steps, m).t, id, src) && NoNewcomerUpTo(c, steps, m, n, id, src)
    ensures AloneUpTo(c, steps, m, n, id, src)
  {
    if n > m { AloneAllAlong(c, steps, m, n - 1, id, src); }
  }

  lemma {:induction false} LeadAndAloneIsSafe(c: Config, steps: seq<Step>, longer: seq<Step>, m: nat,
                                             id: Id, uri: string, src: Addr, first: int)
    requires steps <= longer && m == |steps| && Spares(c, longer, m, id, uri, src, first)
    requires var t := At(c, steps, m).t;
             AliveSince(t, id, uri, src, first) && Leads(t, src, id) && Alone(t, id, src)
    ensures id in At(c, longer, |longer|).t.byAlloc
  {
    assert longer == steps + longer[m..];
    AtPrefix(c, steps, longer[m..], m);
    AloneAllAlong(c, longer, m, |longer|, id, src);
    ActiveSourceIsNeverReclaimed(c, longer, m, |longer|, id, uri, src, first);
  }

  /**
   A bound allocation can be reclaimed although nothing tears it down or moves it, no further
   allocation comes to its source, and its source sends within the idle TTL before every sweep,
   if and only if the reverse index does not lead from the source to it, or another live
   allocation is bound to that source already.
   */
  lemma ActiveMayBeReclaimedIff(c: Config, steps: seq<Step>, id: Id, uri: string, src: Addr, first: int)
    requires Legal(c, steps) && c.idleTTL >= 0 && AliveSince(At(c, steps, |steps|).t, id, uri, src, first)
    ensures MayBeReclaimed(c, steps, |steps|, id, uri, src, first)
       <==> !(Leads(At(c, steps, |steps|).t, src, id) && Alone(At(c, steps, |steps|).t, id, src))
  {
    var m := |steps|;
    var w := At(c, steps, m);
    assert Spares(c, steps, m, id, uri, src, first);
    if !Leads(w.t, src, id) {
      NoLeadMayBeReclaimed(c, steps, m, w, id, uri, src, first);
    } else if !Alone(w.t, id, src) {
      var x :| x in w.t.byAlloc && x != id && w.t.byAlloc[x].src == Some(src);
      var w' := Do(c, w, DoForget(x));
      ForgetSharer(w.t, x, id, src);
      var next := SparesThen(c, steps, m, DoForget(x), w, w', first, id, uri, src, first);
      NoLeadMayBeReclaimed(c, next, m, w', id, uri, src, first);
    } else if MayBeReclaimed(c, steps, m, id, uri, src, first) {
      var longer :| steps <= longer && Spares(c, longer, m, id, uri, src, first)
                    && id !in At(c, longer, |longer|).t.byAlloc;
      LeadAndAloneIsSafe(c, steps, longer, m, id, uri, src, first);
    }
  }

  // From the issue on, bound or not

  /** The reading with which the step marks `id` as seen, if it does: a binding or a datagram it is found for. */
  function Stamped(w: World, s: Step, id: Id): Option<int> {
    match s
    case DoArm(x, u, nonce, at) =>
      if x == id && u != "" && id in w.t.byAlloc && w.t.byAlloc[id].uri == u
         && id in w.t.queued && at < w.t.queued[id].expires && w.t.queued[id].nonce == nonce then Some(at) else None
    case DoPunch(x, _, nonce, at) =>
      if x == id && id in w.t.pending && w.clock <= w.t.pending[id].expires && w.t.pending[id].nonce == nonce
      then Some(at) else None
    case DoData(src, at) => if src in w.t.src2id && w.t.src2id[src] == id then Some(at) else None
    case _ => None
  }

  /** The last reading with which steps m .. n marked `id` as seen; `issued` if none did. */
  ghost function Stamp(c: Config, steps: seq<Step>, m: nat, n: nat, id: Id, issued: int): int
    requires m <= n <= |steps|
  {
    if n == m then issued
    else
      var now := Stamped(At(c, steps, n - 1), steps[n - 1], id);
      if now.Some? then now.value else Stamp(c, steps, m, n - 1, id, issued)
  }

  /** The step does not tear `id` down, and if it is a sweep, it is not later than the idle TTL after `stamp`. */
  predicate Keeps(c: Config, s: Step, id: Id, uri: string, stamp: int) {
    match s
    case DoForget(x) => x != id
    case DoForgetAgent(u) => u != uri
    case DoGc(at) => at <= stamp + c.idleTTL
    case _ => true
  }

  ghost predicate KeptUpTo(c: Config, steps: seq<Step>, m: nat, n: nat, id: Id, uri: string, issued: int)
    requires m <= n <= |steps|
  {
    n > m ==> KeptUpTo(c, steps, m, n - 1, id, uri, issued)
              && Keeps(c, steps[n - 1], id, uri, Stamp(c, steps, m, n - 1, id, issued))
  }

  predicate LiveAs(t: Tables, id: Id, uri: string, seen: int) {
    id in t.byAlloc && t.byAlloc[id].uri == uri && t.byAlloc[id].lastSeen == seen
  }

  lemma KeepingStep(c: Config, w: World, s: Step, id: Id, uri: string, seen: int)
    requires PendingLive(w.t) && Allowed(w, s) && LiveAs(w.t, id, uri, seen) && Keeps(c, s, id, uri, seen)
    ensures LiveAs(Do(c, w, s).t, id, uri, if Stamped(w, s, id).Some? then Stamped(w, s, id).value else seen)
  {}

  lemma {:induction false} KeepingRunStep(c: Config, steps: seq<Step>, k: nat, n: nat, id: Id, uri: string, seen: int)
    requires Legal(c, steps) && n == k + 1 <= |steps| && LiveAs(At(c, steps, k).t, id, uri, seen)
    requires Keeps(c, steps[k], id, uri, seen)
    ensures var now := Stamped(At(c, steps, k), steps[k], id);
            LiveAs(At(c, steps, n).t, id, uri, if now.Some? then now.value else seen)
  {
    RunKeepsInv(c, steps, k);
    KeepingStep(c, At(c, steps, k), steps[k], id, uri, seen);
  }

  lemma {:induction false} LivesFromThere(c: Config, steps: seq<Step>, m: nat, n: nat, id: Id, uri: string, issued: int)
    requires Legal(c, steps) && m <= n <= |steps| && LiveAs(At(c, steps, m).t, id, uri, issued)
    requires KeptUpTo(c, steps, m, n, id, uri, issued)
    ensures LiveAs(At(c, steps, n).t, id, uri, Stamp(c, steps, m, n, id, issued))
  {
    if n > m {
      var k := n - 1;
      LivesFromThere(c, steps, m, k, id, uri, issued);
      KeepingRunStep(c, steps, k, n, id, uri, Stamp(c, steps, m, k, id, issued));
    }
  }

  lemma {:induction false} LiveOnceIssued(c: Config, steps: seq<Step>, m: nat, m': nat, id: Id, uri: string, at: int)
    requires m' == m + 1 <= |steps| && steps[m] == DoInsert(id, uri, at)
    ensures LiveAs(At(c, steps, m').t, id, uri, at)
  {}

  lemma {:induction false} LivesSinceIssue(c: Config, steps: seq<Step>, m: nat, m': nat, n: nat, id: Id, uri: string, at: int)
    requires Legal(c, steps) && m' == m + 1 <= n <= |steps| && steps[m] == DoInsert(id, uri, at)
    requires KeptUpTo(c, steps, m', n, id, uri, at)
    ensures LiveAs(At(c, steps, n).t, id, uri, Stamp(c, steps, m', n, id, at))
  {
    LiveOnceIssued(c, steps, m, m', id, uri, at);
    LivesFromThere(c, steps, m', n, id, uri, at);
  }

  lemma {:induction false} SweepTakes(c: Config, steps: seq<Step>, n: nat, n': nat, at: int, id: Id, uri: string, seen: int)
    requires n' == n + 1 <= |steps| && steps[n] == DoGc(at) && LiveAs(At(c, steps, n).t, id, uri, seen)
    ensures id in At(c, steps, n').t.byAlloc <==> at <= seen + c.idleTTL
  {}

  /**
   From its issue at step `m` on, an allocation that is not torn down lives, under its owner, and
   a sweep at step `n` takes it if and only if its reading is more than the idle TTL after the
   last one that marked the allocation as seen: its issue, a binding, or a datagram it was found
   for. The primed numbers are the next ones.
   */
  lemma {:induction false} SweptIffUnseenForIdleTTL(c: Config, steps: seq<Step>, m: nat, m': nat, n: nat, n': nat,
                                                   id: Id, uri: string, at: int, sweep: int)
    requires Legal(c, steps) && m' == m + 1 <= n < n' == n + 1 <= |steps|
    requires steps[m] == DoInsert(id, uri, at) && steps[n] == DoGc(sweep)
    requires KeptUpTo(c, steps, m', n, id, uri, at)
    ensures id in At(c, steps, n).t.byAlloc && At(c, steps, n).t.byAlloc[id].uri == uri
    ensures id in At(c, steps, n').t.byAlloc <==> sweep <= Stamp(c, steps, m', n, id, at) + c.idleTTL
  {
    var seen := Stamp(c, steps, m', n, id, at);
    LivesSinceIssue(c, steps, m, m', n, id, uri, at);
    SweepTakes(c, steps, n, n', sweep, id, uri, seen);
  }

  /** The step's reading is not older than the issue's, and a sweep's is within the idle TTL after it. */
  predicate Timely(c: Config, s: Step, id: Id, uri: string, issued: int) {
    match s
    case DoArm(_, _, _, at) => at >= issued
    case DoPunch(_, _, _, at) => at >= issued
    case DoData(_, at) => at >= issued
    case DoForget(x) => x != id
    case DoForgetAgent(u) => u != uri
    case DoGc(at) => at <= issued + c.idleTTL
    case _ => true
  }

  lemma {:induction false} TimelyStepsKeep(c: Config, steps: seq<Step>, m: nat, n: nat, id: Id, uri: string, issued: int)
    requires m <= n <= |steps| && forall k :: m <= k < n ==> Timely(c, steps[k], id, uri, issued)
    ensures KeptUpTo(c, steps, m, n, id, uri, issued) && Stamp(c, steps, m, n, id, issued) >= issued
  {
    if n > m { TimelyStepsKeep(c, steps, m, n - 1, id, uri, issued); }
  }

  /** A new allocation outlives every sweep within the idle TTL of its issue, bound or not. */
  lemma {:induction false} NewAllocationSurvives(c: Config, steps: seq<Step>, m: nat, m': nat, n: nat, id: Id, uri: string, at: int)
    requires Legal(c, steps) && m' == m + 1 <= n <= |steps| && steps[m] == DoInsert(id, uri, at)
    requires forall k :: m' <= k < n ==> Timely(c, steps[k], id, uri, at)
    ensures id in At(c, steps, n).t.byAlloc && At(c, steps, n).t.byAlloc[id].uri == uri
  {
    TimelyStepsKeep(c, steps, m', n, id, uri, at);
    LivesSinceIssue(c, steps, m, m', n, id, uri, at);
  }

  lemma {:induction false} NothingStamps(c: Config, steps: seq<Step>, m: nat, n: nat, id: Id, issued: int)
    requires m <= n <= |steps| && forall k :: m <= k < n ==> Stamped(At(c, steps, k), steps[k], id).None?
    ensures Stamp(c, steps, m, n, id, issued) == issued
  {
    if n > m {
      assert Stamped(At(c, steps, n - 1), steps[n - 1], id).None?;
      NothingStamps(c, steps, m, n - 1, id, issued);
    }
  }

  /** An allocation that nobody uses is reclaimed by the first sweep later than that. */
  lemma {:induction false} UnusedAllocationIsReclaimed(c: Config, steps: seq<Step>, m: nat, m': nat, n: nat, n': nat,
                                                      id: Id, uri: string, at: int, sweep: int)
    requires Legal(c, steps) && m' == m + 1 <= n < n' == n + 1 <= |steps|
    requires steps[m] == DoInsert(id, uri, at) && steps[n] == DoGc(sweep) && sweep > at + c.idleTTL
    requires KeptUpTo(c, steps, m', n, id, uri, at)
    requires forall k :: m' <= k < n ==> Stamped(At(c, steps, k), steps[k], id).None?
    ensures id !in At(c, steps, n').t.byAlloc
  {
    NothingStamps(c, steps, m', n, id, at);
    SweptIffUnseenForIdleTTL(c, steps, m, m', n, n', id, uri, at, sweep);
  }

  /** A reading older than the issue's can undo that: a punch that read its clock before marks the allocation as old. */
  lemma StaleReadingIsReclaimed(c: Config) returns (w: World, issued: int)
    requires c.ttl > 0 && c.idleTTL >= 0
    ensures issued == w.clock && Reachable(c, World(EMPTY, issued))
    ensures var w1 := Do(c, World(EMPTY, issued), DoInsert(1, "a", issued));
            var w2 := Do(c, w1, DoArm(1, "a", 0, issued));
            w == Do(c, w2, DoPunch(1, 9, 0, 0))
    ensures Reachable(c, w) && Allowed(w, DoGc(issued)) && 1 in w.t.byAlloc && 1 !in Do(c, w, DoGc(issued)).t.byAlloc
  {
    issued := c.idleTTL + 1;
    var w0 := World(EMPTY, issued);
    assert Legal(c, []) && At(c, [], 0) == World(EMPTY, 0);
    StillReachable(c, World(EMPTY, 0), Tick(issued), w0);
    var w1 := Do(c, w0, DoInsert(1, "a", issued));
    StillReachable(c, w0, DoInsert(1, "a", issued), w1);
    var w2 := Do(c, w1, DoArm(1, "a", 0, issued));
    StillReachable(c, w1, DoArm(1, "a", 0, issued), w2);
    w := Do(c, w2, DoPunch(1, 9, 0, 0));
    StillReachable(c, w2, DoPunch(1, 9, 0, 0), w);
    assert w.t.byAlloc[1].lastSeen == 0;
    assert 1 in Idle(w.t, issued, c.idleTTL);
  }
}
