/**
 The handshake completes. `PlaneProvenance` says that every binding is earned; here is the other
 half: whoever earns a binding gets it, whatever else happens to the plane in between.
 */
module PlaneHandshake {
  import opened Options
  import opened ForwardPlane
  import opened PlaneRuns

  /** `id` belongs to `uri` and waits for a punch with `nonce` until `expires`. */
  predicate Waiting(t: Tables, id: Id, uri: string, nonce: Nonce, expires: int) {
    && id in t.byAlloc && t.byAlloc[id].uri == uri
    && id in t.pending && t.pending[id] == PendingEntry(uri, nonce, expires)
  }

  /** A punch for `id` from `src` with `nonce` waits for an arming until `expires`. */
  predicate Queued(t: Tables, id: Id, src: Addr, nonce: Nonce, expires: int) {
    id in t.queued && t.queued[id] == QueuedPunch(src, nonce, expires)
  }

  predicate OwnedBy(t: Tables, id: Id, uri: string) {
    id in t.byAlloc && t.byAlloc[id].uri == uri && uri != ""
  }

  predicate BoundTo(t: Tables, id: Id, uri: string, src: Addr, at: int) {
    id in t.byAlloc && t.byAlloc[id] == AllocEntry(uri, Some(src), at) && id !in t.pending && id !in t.queued
  }

  predicate SweptAway(c: Config, t: Tables, at: int, id: Id) {
    id in t.byAlloc && t.byAlloc[id].lastSeen < at - c.idleTTL
  }

  /**
   The step neither re-arms nor tears down the allocation, is no matching punch, and is no
   punch or sweep after the row's expiry. Punches with other nonces are allowed.
   */
  predicate LeavesWaiting(c: Config, w: World, s: Step, id: Id, uri: string, nonce: Nonce, expires: int) {
    match s
    case DoArm(x, u, _, _) => x != id || u != uri
    case DoPunch(x, _, n, _) => x != id || (n != nonce && w.clock <= expires)
    case DoForget(x) => x != id
    case DoForgetAgent(u) => u != uri
    case DoGc(at) => at <= expires && !SweptAway(c, w.t, at, id)
    case _ => true
  }

  ghost predicate LeftWaiting(c: Config, steps: seq<Step>, m: nat, n: nat, id: Id, uri: string, nonce: Nonce, expires: int)
    requires m <= n <= |steps|
  {
    n > m ==> LeftWaiting(c, steps, m, n - 1, id, uri, nonce, expires)
              && LeavesWaiting(c, At(c, steps, n - 1), steps[n - 1], id, uri, nonce, expires)
  }

  lemma StepLeavesWaiting(c: Config, w: World, s: Step, id: Id, uri: string, nonce: Nonce, expires: int)
    requires Allowed(w, s) && Waiting(w.t, id, uri, nonce, expires) && LeavesWaiting(c, w, s, id, uri, nonce, expires)
    ensures Waiting(Do(c, w, s).t, id, uri, nonce, expires)
  {}

  /** The row stays, whatever other punches arrive. */
  lemma {:induction false} RowStays(c: Config, steps: seq<Step>, m: nat, n: nat, id: Id, uri: string, nonce: Nonce, expires: int)
    requires Legal(c, steps) && m <= n <= |steps| && Waiting(At(c, steps, m).t, id, uri, nonce, expires)
    requires LeftWaiting(c, steps, m, n, id, uri, nonce, expires)
    ensures Waiting(At(c, steps, n).t, id, uri, nonce, expires)
  {
    if n > m {
      RowStays(c, steps, m, n - 1, id, uri, nonce, expires);
      StepLeavesWaiting(c, At(c, steps, n - 1), steps[n - 1], id, uri, nonce, expires);
    }
  }

  /** The owner's arming installs its row unless a fresh queued punch carries the nonce. */
  lemma ArmingWaits(c: Config, w: World, id: Id, uri: string, nonce: Nonce, at: int)
    requires OwnedBy(w.t, id, uri)
    requires !(id in w.t.queued && at < w.t.queued[id].expires && w.t.queued[id].nonce == nonce)
    ensures var t := Do(c, w, DoArm(id, uri, nonce, at)).t;
            Waiting(t, id, uri, nonce, at + c.ttl) && id !in t.queued && t.byAlloc == w.t.byAlloc && t.src2id == w.t.src2id
  {}

  /** A punch with the row's nonce, no later than its expiry, binds the allocation to its source. */
  lemma MatchingPunchBinds(c: Config, w: World, id: Id, uri: string, src: Addr, nonce: Nonce, at: int, expires: int)
    requires Waiting(w.t, id, uri, nonce, expires) && w.clock <= expires && w.t.pending.Keys !! w.t.queued.Keys
    ensures BoundTo(Do(c, w, DoPunch(id, src, nonce, at)).t, id, uri, src, at)
  {}

  /** A punch with another nonce changes nothing before the expiry. */
  lemma StrayPunchChangesNothing(c: Config, w: World, id: Id, uri: string, src: Addr, nonce: Nonce, stray: Nonce,
                                 at: int, expires: int)
    requires Waiting(w.t, id, uri, nonce, expires) && w.clock <= expires && stray != nonce
    ensures Do(c, w, DoPunch(id, src, stray, at)) == w
  {}

  /** After the expiry, a punch with any nonce takes the row away, and that is all it does. */
  lemma LatePunchClearsRow(c: Config, w: World, id: Id, uri: string, src: Addr, nonce: Nonce, any: Nonce, at: int, expires: int)
    requires Waiting(w.t, id, uri, nonce, expires) && w.clock > expires
    ensures Do(c, w, DoPunch(id, src, any, at)) == w.(t := w.t.(pending := w.t.pending - {id}))
  {}

  lemma {:induction false} ArmStep(c: Config, steps: seq<Step>, m: nat, m': nat, id: Id, uri: string, nonce: Nonce, at: int)
    requires m' == m + 1 <= |steps| && steps[m] == DoArm(id, uri, nonce, at)
    requires var t := At(c, steps, m).t;
             OwnedBy(t, id, uri) && !(id in t.queued && at < t.queued[id].expires && t.queued[id].nonce == nonce)
    ensures Waiting(At(c, steps, m').t, id, uri, nonce, at + c.ttl)
  {
    ArmingWaits(c, At(c, steps, m), id, uri, nonce, at);
  }

  lemma {:induction false} PunchStep(c: Config, steps: seq<Step>, n: nat, n': nat, id: Id, uri: string, src: Addr,
                                    nonce: Nonce, at: int, expires: int)
    requires Legal(c, steps) && n' == n + 1 <= |steps| && steps[n] == DoPunch(id, src, nonce, at)
    requires Waiting(At(c, steps, n).t, id, uri, nonce, expires) && At(c, steps, n).clock <= expires
    ensures BoundTo(At(c, steps, n').t, id, uri, src, at)
  {
    RunKeepsInv(c, steps, n);
    MatchingPunchBinds(c, At(c, steps, n), id, uri, src, nonce, at, expires);
  }

  /**
   Arm first. If the owner's arming, the step before `m`, finds no fresh queued punch with its
   nonce, and until step `n` the allocation is neither re-armed nor torn down and no punch or
   sweep comes after the expiry, then the punch at step `n` with that nonce binds it, unless it
   is late. Any number of punches with other nonces may come in between.
   */
  lemma {:induction false} ArmedHandshakeCompletes(c: Config, steps: seq<Step>, m: nat, n: nat, n': nat, id: Id, uri: string,
                                                  nonce: Nonce, at: int, src: Addr, at': int)
    requires Legal(c, steps) && 0 < m <= n < n' == n + 1 <= |steps|
    requires steps[m - 1] == DoArm(id, uri, nonce, at) && steps[n] == DoPunch(id, src, nonce, at')
    requires var t := At(c, steps, m - 1).t;
             OwnedBy(t, id, uri) && !(id in t.queued && at < t.queued[id].expires && t.queued[id].nonce == nonce)
    requires LeftWaiting(c, steps, m, n, id, uri, nonce, at + c.ttl)
    requires At(c, steps, n).clock <= at + c.ttl
    ensures BoundTo(At(c, steps, n').t, id, uri, src, at')
  {
    ArmStep(c, steps, m - 1, m, id, uri, nonce, at);
    RowStays(c, steps, m, n, id, uri, nonce, at + c.ttl);
    PunchStep(c, steps, n, n', id, uri, src, nonce, at', at + c.ttl);
  }

  /** For one: a stray punch between an arming and its punch does not cancel the handshake. */
  lemma StrayPunchDoesNotCancel(c: Config, w: World, id: Id, uri: string, nonce: Nonce, stray: Nonce, src: Addr, other: Addr)
    requires c.ttl > 0 && Inv(w.t) && OwnedBy(w.t, id, uri) && id !in w.t.queued && stray != nonce
    ensures var w1 := Do(c, w, DoArm(id, uri, nonce, w.clock));
            var w2 := Do(c, w1, DoPunch(id, other, stray, w.clock));
            BoundTo(Do(c, w2, DoPunch(id, src, nonce, w.clock)).t, id, uri, src, w.clock)
  {
    var w1 := Do(c, w, DoArm(id, uri, nonce, w.clock));
    ArmingWaits(c, w, id, uri, nonce, w.clock);
    ArmKeepsInv(w.t, id, uri, nonce, w.clock, c.ttl);
    StrayPunchChangesNothing(c, w1, id, uri, other, nonce, stray, w.clock, w.clock + c.ttl);
    MatchingPunchBinds(c, w1, id, uri, src, nonce, w.clock, w.clock + c.ttl);
  }

  /**
   The step is no other punch for the id, no arming by its owner, no teardown, and no sweep
   after the punch's expiry. The id may be issued meanwhile.
   */
  predicate LeavesQueued(c: Config, w: World, s: Step, id: Id, expires: int) {
    match s
    case DoArm(x, u, _, _) => x != id || !OwnedBy(w.t, id, u)
    case DoPunch(x, _, _, _) => x != id
    case DoForget(x) => x != id
    case DoForgetAgent(u) => !(id in w.t.byAlloc && w.t.byAlloc[id].uri == u)
    case DoGc(at) => at <= expires && !SweptAway(c, w.t, at, id)
    case _ => true
  }

  ghost predicate LeftQueued(c: Config, steps: seq<Step>, m: nat, n: nat, id: Id, expires: int)
    requires m <= n <= |steps|
  {
    n > m ==> LeftQueued(c, steps, m, n - 1, id, expires) && LeavesQueued(c, At(c, steps, n - 1), steps[n - 1], id, expires)
  }

  lemma StepLeavesQueued(c: Config, w: World, s: Step, id: Id, src: Addr, nonce: Nonce, expires: int)
    requires Queued(w.t, id, src, nonce, expires) && LeavesQueued(c, w, s, id, expires)
    ensures Queued(Do(c, w, s).t, id, src, nonce, expires)
  {}

  lemma {:induction false} PunchStays(c: Config, steps: seq<Step>, m: nat, n: nat, id: Id, src: Addr, nonce: Nonce, expires: int)
    requires m <= n <= |steps| && Queued(At(c, steps, m).t, id, src, nonce, expires)
    requires LeftQueued(c, steps, m, n, id, expires)
    ensures Queued(At(c, steps, n).t, id, src, nonce, expires)
  {
    if n > m {
      PunchStays(c, steps, m, n - 1, id, src, nonce, expires);
      StepLeavesQueued(c, At(c, steps, n - 1), steps[n - 1], id, src, nonce, expires);
    }
  }

  lemma EarlyPunchWaits(c: Config, w: World, id: Id, src: Addr, nonce: Nonce, at: int)
    requires id !in w.t.pending
    ensures var t := Do(c, w, DoPunch(id, src, nonce, at)).t;
            Queued(t, id, src, nonce, at + c.ttl) && t.byAlloc == w.t.byAlloc && t.pending == w.t.pending
  {}

  lemma MatchingArmingBinds(c: Config, w: World, id: Id, uri: string, src: Addr, nonce: Nonce, at: int, expires: int)
    requires Queued(w.t, id, src, nonce, expires) && OwnedBy(w.t, id, uri) && at < expires
    requires w.t.pending.Keys !! w.t.queued.Keys
    ensures BoundTo(Do(c, w, DoArm(id, uri, nonce, at)).t, id, uri, src, at)
  {}

  lemma {:induction false} EarlyPunchStep(c: Config, steps: seq<Step>, m: nat, m': nat, id: Id, src: Addr, nonce: Nonce, at: int)
    requires m' == m + 1 <= |steps| && steps[m] == DoPunch(id, src, nonce, at) && id !in At(c, steps, m).t.pending
    ensures Queued(At(c, steps, m').t, id, src, nonce, at + c.ttl)
  {
    EarlyPunchWaits(c, At(c, steps, m), id, src, nonce, at);
  }

  lemma {:induction false} LateArmStep(c: Config, steps: seq<Step>, n: nat, n': nat, id: Id, uri: string, src: Addr,
                                      nonce: Nonce, at: int, expires: int)
    requires Legal(c, steps) && n' == n + 1 <= |steps| && steps[n] == DoArm(id, uri, nonce, at)
    requires Queued(At(c, steps, n).t, id, src, nonce, expires) && OwnedBy(At(c, steps, n).t, id, uri) && at < expires
    ensures BoundTo(At(c, steps, n').t, id, uri, src, at)
  {
    RunKeepsInv(c, steps, n);
    MatchingArmingBinds(c, At(c, steps, n), id, uri, src, nonce, at, expires);
  }

  /**
   Punch first. If the punch, the step before `m`, finds no pending row, and until step `n` no
   other punch for the id arrives, its owner does not arm it, it is not torn down and no sweep
   comes after the punch's expiry, then the owner's arming at step `n` with the punch's nonce
   binds it at once, unless it is read too late. The id may even be issued in between.
   */
  lemma {:induction false} PunchedHandshakeCompletes(c: Config, steps: seq<Step>, m: nat, n: nat, n': nat, id: Id, uri: string,
                                                    nonce: Nonce, src: Addr, at: int, at': int)
    requires Legal(c, steps) && 0 < m <= n < n' == n + 1 <= |steps|
    requires steps[m - 1] == DoPunch(id, src, nonce, at) && steps[n] == DoArm(id, uri, nonce, at')
    requires id !in At(c, steps, m - 1).t.pending && LeftQueued(c, steps, m, n, id, at + c.ttl)
    requires OwnedBy(At(c, steps, n).t, id, uri) && at' < at + c.ttl
    ensures BoundTo(At(c, steps, n').t, id, uri, src, at')
  {
    EarlyPunchStep(c, steps, m - 1, m, id, src, nonce, at);
    PunchStays(c, steps, m, n, id, src, nonce, at + c.ttl);
    LateArmStep(c, steps, n, n', id, uri, src, nonce, at', at + c.ttl);
  }
}
