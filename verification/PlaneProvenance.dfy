/**
 Where a binding comes from. Beside the run, `HistoryAt` records which step armed each
 pending row, which step queued each punch, and every binding with the two steps that made
 it. The plane itself never reads this record.
 */
module PlaneProvenance {
  import opened Options
  import opened ForwardPlane
  import opened PlaneRuns

  /** Allocation `id` was bound to `src` by the arming at step `arm` and the punch at step `punch`. */
  datatype Binding = Binding(id: Id, src: Addr, arm: nat, punch: nat)

  datatype History = History(
    armedBy: map<Id, nat>,     // pending row -> the step that armed it
    queuedBy: map<Id, nat>,    // queued punch -> the step that queued it
    insertedBy: map<Id, nat>,  // live allocation -> the step that issued it
    boundBy: map<Id, nat>,     // bound allocation -> its binding
    bindings: seq<Binding>)

  /** The step is an arming of `id` by its owner. */
  predicate Arms(w: World, s: Step, id: Id) {
    s.DoArm? && s.id == id && ArmOutcomeOf(w.t, id, s.uri) == Armed
  }

  predicate Punches(s: Step, id: Id) { s.DoPunch? && s.id == id }

  predicate BindsByArm(w: World, s: Step) {
    s.DoArm? && Arms(w, s, s.id) && Drains(w.t, s.id, s.nonce, s.at)
  }

  predicate BindsByPunch(w: World, s: Step) {
    s.DoPunch? && Completes(w.t, s.id, s.nonce, w.clock)
  }

  function Lookup(m: map<Id, nat>, id: Id): nat { if id in m then m[id] else 0 }

  /** The record after step number `n`, which took the plane from `w` to `w'`. */
  function Record(h: History, w: World, s: Step, w': World, n: nat): History {
    var binds := BindsByArm(w, s) || BindsByPunch(w, s);
    History(
      map id | id in w'.t.pending :: if Arms(w, s, id) then n else Lookup(h.armedBy, id),
      map id | id in w'.t.queued :: if Punches(s, id) then n else Lookup(h.queuedBy, id),
      map id | id in w'.t.byAlloc :: if s.DoInsert? && s.id == id then n else Lookup(h.insertedBy, id),
      map id | id in w'.t.byAlloc && w'.t.byAlloc[id].src.Some? ::
        if binds && s.id == id then |h.bindings| else Lookup(h.boundBy, id),
      if BindsByArm(w, s) then h.bindings + [Binding(s.id, w.t.queued[s.id].src, n, Lookup(h.queuedBy, s.id))]
      else if BindsByPunch(w, s) then h.bindings + [Binding(s.id, s.src, Lookup(h.armedBy, s.id), n)]
      else h.bindings)
  }

  function HistoryAt(c: Config, steps: seq<Step>, n: nat): History
    requires n <= |steps|
  {
    if n == 0 then History(map[], map[], map[], map[], [])
    else Record(HistoryAt(c, steps, n - 1), At(c, steps, n - 1), steps[n - 1], At(c, steps, n), n - 1)
  }

  // What one step can do to the rows of one id

  predicate PendingExplained(c: Config, w: World, s: Step, w': World, id: Id) {
    id in w'.t.pending ==>
      && !(BindsByPunch(w, s) && s.id == id)
      && if Arms(w, s, id) then !BindsByArm(w, s) && w'.t.pending[id] == PendingEntry(s.uri, s.nonce, s.at + c.ttl)
         else id in w.t.pending && w.t.pending[id] == w'.t.pending[id]
  }

  predicate QueuedExplained(c: Config, w: World, s: Step, w': World, id: Id) {
    id in w'.t.queued ==>
      && !(BindsByArm(w, s) && s.id == id)
      && if Punches(s, id) then !BindsByPunch(w, s) && w'.t.queued[id] == QueuedPunch(s.src, s.nonce, s.at + c.ttl)
         else id in w.t.queued && w.t.queued[id] == w'.t.queued[id]
  }

  predicate RowsExplained(c: Config, w: World, s: Step, w': World, id: Id) {
    PendingExplained(c, w, s, w', id) && QueuedExplained(c, w, s, w', id)
  }

  predicate EntryExplained(w: World, s: Step, w': World, id: Id) {
    && (id in w'.t.pending ==> id in w'.t.byAlloc && !(s.DoInsert? && s.id == id))
    && (id in w'.t.byAlloc ==>
          var e := w'.t.byAlloc[id];
          if s.DoInsert? && s.id == id then e.src == None && e.uri == s.uri
          else id in w.t.byAlloc && e.uri == w.t.byAlloc[id].uri
               && e.src == (if BindsByArm(w, s) && s.id == id then Some(w.t.queued[id].src)
                            else if BindsByPunch(w, s) && s.id == id then Some(s.src)
                            else w.t.byAlloc[id].src))
  }

  lemma StepExplainsPending(c: Config, w: World, s: Step, id: Id)
    requires PendingLive(w.t) && w.t.pending.Keys !! w.t.queued.Keys && Allowed(w, s)
    ensures PendingExplained(c, w, s, Do(c, w, s), id)
  {}

  lemma StepExplainsQueued(c: Config, w: World, s: Step, id: Id)
    requires PendingLive(w.t) && w.t.pending.Keys !! w.t.queued.Keys && Allowed(w, s)
    ensures QueuedExplained(c, w, s, Do(c, w, s), id)
  {}

  lemma StepExplainsEntry(c: Config, w: World, s: Step, id: Id)
    requires PendingLive(w.t) && w.t.pending.Keys !! w.t.queued.Keys && Allowed(w, s)
    ensures EntryExplained(w, s, Do(c, w, s), id)
  {}

  // The invariant of the record

  /** Step `k` is an accepted arming of `id`, and no later step before `n` is. */
  ghost predicate LatestArming(ws: seq<World>, steps: seq<Step>, k: nat, n: nat, id: Id) {
    && k < n <= |steps| < |ws|
    && Arms(ws[k], steps[k], id)
    && forall j :: k < j < n ==> !Arms(ws[j], steps[j], id)
  }

  /** Step `k` is a punch for `id`, and no later step before `n` is. */
  ghost predicate LatestPunch(steps: seq<Step>, k: nat, n: nat, id: Id) {
    k < n <= |steps| && Punches(steps[k], id) && forall j :: k < j < n ==> !Punches(steps[j], id)
  }

  /** The pending row of `id` was made by its latest accepted arming, in its present life. */
  ghost predicate ArmedOk(c: Config, ws: seq<World>, steps: seq<Step>, n: nat, h: History, id: Id)
    requires n < |ws|
  {
    var t := ws[n].t;
    id in t.pending ==>
      && id in h.armedBy && id in h.insertedBy && h.insertedBy[id] < h.armedBy[id]
      && LatestArming(ws, steps, h.armedBy[id], n, id)
      && steps[h.armedBy[id]].uri == t.pending[id].uri
      && steps[h.armedBy[id]].nonce == t.pending[id].nonce
      && steps[h.armedBy[id]].at + c.ttl == t.pending[id].expires
  }

  ghost predicate QueuedOk(c: Config, ws: seq<World>, steps: seq<Step>, n: nat, h: History, id: Id)
    requires n < |ws|
  {
    var t := ws[n].t;
    id in t.queued ==>
      && id in h.queuedBy
      && LatestPunch(steps, h.queuedBy[id], n, id)
      && steps[h.queuedBy[id]].src == t.queued[id].src
      && steps[h.queuedBy[id]].nonce == t.queued[id].nonce
      && steps[h.queuedBy[id]].at + c.ttl == t.queued[id].expires
  }

  /**
   A binding is justified by an accepted arming and a punch that carries the armed nonce from
   the bound source. If the arming came first, no later arming had retired its nonce, and the
   punch arrived no later than the TTL after it. If the punch came first, it was the latest
   punch, and the arming was read less than the TTL after it.
   */
  ghost predicate Justified(c: Config, ws: seq<World>, steps: seq<Step>, b: Binding) {
    && b.arm < |steps| < |ws| && b.punch < |steps| && b.arm != b.punch
    && Arms(ws[b.arm], steps[b.arm], b.id) && Punches(steps[b.punch], b.id)
    && steps[b.arm].nonce == steps[b.punch].nonce && steps[b.punch].src == b.src
    && if b.arm < b.punch
       then LatestArming(ws, steps, b.arm, b.punch, b.id) && ws[b.punch].clock <= steps[b.arm].at + c.ttl
       else LatestPunch(steps, b.punch, b.arm, b.id) && steps[b.arm].at < steps[b.punch].at + c.ttl
  }

  /** A live allocation knows its issue, and a bound one its binding since that issue. */
  ghost predicate BoundOk(ws: seq<World>, steps: seq<Step>, n: nat, h: History, id: Id)
    requires n < |ws|
  {
    var t := ws[n].t;
    id in t.byAlloc ==>
      && id in h.insertedBy && h.insertedBy[id] < n
      && (t.byAlloc[id].src.Some? ==>
            && id in h.boundBy && h.boundBy[id] < |h.bindings|
            && var b := h.bindings[h.boundBy[id]];
               && b.id == id && Some(b.src) == t.byAlloc[id].src
               && h.insertedBy[id] < b.arm < |steps| && steps[b.arm].DoArm? && steps[b.arm].uri == t.byAlloc[id].uri)
  }

  /** The binding is justified, and its arming and its punch are neither reused nor still waiting. */
  ghost predicate BindingOk(c: Config, ws: seq<World>, steps: seq<Step>, n: nat, h: History, x: nat)
    requires x < |h.bindings|
  {
    var b := h.bindings[x];
    && Justified(c, ws, steps, b) && b.arm < n && b.punch < n
    && (b.id in h.armedBy ==> b.arm != h.armedBy[b.id])
    && (b.id in h.queuedBy ==> b.punch != h.queuedBy[b.id])
    && forall y :: x < y < |h.bindings| ==> b.arm != h.bindings[y].arm && b.punch != h.bindings[y].punch
  }

  ghost predicate RowsOk(c: Config, ws: seq<World>, steps: seq<Step>, n: nat, h: History, id: Id)
    requires n < |ws|
  {
    ArmedOk(c, ws, steps, n, h, id) && QueuedOk(c, ws, steps, n, h, id) && BoundOk(ws, steps, n, h, id)
  }

  ghost predicate HistoryOk(c: Config, ws: seq<World>, steps: seq<Step>, n: nat, h: History)
    requires n < |ws|
  {
    && h.armedBy.Keys == ws[n].t.pending.Keys && h.queuedBy.Keys == ws[n].t.queued.Keys
    && (forall id :: RowsOk(c, ws, steps, n, h, id))
    && (forall x :: 0 <= x < |h.bindings| ==> BindingOk(c, ws, steps, n, h, x))
  }

  /** The situation in which step `n` extends the record `h`. */
  ghost predicate Extending(c: Config, ws: seq<World>, steps: seq<Step>, n: nat, h: History, h': History) {
    n < |steps| < |ws| && h' == Record(h, ws[n], steps[n], ws[n + 1], n)
  }

  lemma ArmedStep(c: Config, ws: seq<World>, steps: seq<Step>, n: nat, h: History, h': History, id: Id)
    requires Extending(c, ws, steps, n, h, h') && RowsOk(c, ws, steps, n, h, id)
    requires RowsExplained(c, ws[n], steps[n], ws[n + 1], id) && EntryExplained(ws[n], steps[n], ws[n + 1], id)
    ensures ArmedOk(c, ws, steps, n + 1, h', id)
  {}

  lemma QueuedStep(c: Config, ws: seq<World>, steps: seq<Step>, n: nat, h: History, h': History, id: Id)
    requires Extending(c, ws, steps, n, h, h') && RowsOk(c, ws, steps, n, h, id)
    requires RowsExplained(c, ws[n], steps[n], ws[n + 1], id)
    ensures QueuedOk(c, ws, steps, n + 1, h', id)
  {}

  lemma BoundStep(c: Config, ws: seq<World>, steps: seq<Step>, n: nat, h: History, h': History, id: Id)
    requires Extending(c, ws, steps, n, h, h') && RowsOk(c, ws, steps, n, h, id) && PendingLive(ws[n].t)
    requires EntryExplained(ws[n], steps[n], ws[n + 1], id)
    ensures BoundOk(ws, steps, n + 1, h', id)
  {}

  /** The binding made by this step is justified by the row it consumed. */
  lemma NewBindingOk(c: Config, ws: seq<World>, steps: seq<Step>, n: nat, h: History, h': History)
    requires Extending(c, ws, steps, n, h, h')
    requires BindsByArm(ws[n], steps[n]) || BindsByPunch(ws[n], steps[n])
    requires RowsOk(c, ws, steps, n, h, steps[n].id)
    requires RowsExplained(c, ws[n], steps[n], ws[n + 1], steps[n].id)
    ensures |h'.bindings| == |h.bindings| + 1 && BindingOk(c, ws, steps, n + 1, h', |h.bindings|)
  {}

  /** A waiting row does not stem from a step that a binding has used. */
  lemma UsedStepsDoNotWait(c: Config, ws: seq<World>, steps: seq<Step>, n: nat, h: History, x: nat, id: Id)
    requires n < |ws| && x < |h.bindings| && HistoryOk(c, ws, steps, n, h)
    ensures id in ws[n].t.pending ==> h.bindings[x].arm != h.armedBy[id]
    ensures id in ws[n].t.queued ==> h.bindings[x].punch != h.queuedBy[id]
  {
    assert BindingOk(c, ws, steps, n, h, x) && RowsOk(c, ws, steps, n, h, id);
  }

  lemma OldBindingOk(c: Config, ws: seq<World>, steps: seq<Step>, n: nat, h: History, h': History, x: nat)
    requires Extending(c, ws, steps, n, h, h') && HistoryOk(c, ws, steps, n, h) && x < |h.bindings|
    requires RowsExplained(c, ws[n], steps[n], ws[n + 1], h.bindings[x].id)
    ensures x < |h'.bindings| && BindingOk(c, ws, steps, n + 1, h', x)
  {
    var w, s, b := ws[n], steps[n], h.bindings[x];
    assert BindingOk(c, ws, steps, n, h, x);
    UsedStepsDoNotWait(c, ws, steps, n, h, x, b.id);
    if BindsByArm(w, s) || BindsByPunch(w, s) {
      UsedStepsDoNotWait(c, ws, steps, n, h, x, s.id);
    }
  }

  lemma HistoryStep(c: Config, ws: seq<World>, steps: seq<Step>, n: nat, m: nat, h: History, h': History)
    requires Extending(c, ws, steps, n, h, h') && HistoryOk(c, ws, steps, n, h) && PendingLive(ws[n].t)
    requires m == n + 1 && forall id :: RowsExplained(c, ws[n], steps[n], ws[m], id)
    requires forall id :: EntryExplained(ws[n], steps[n], ws[m], id)
    ensures HistoryOk(c, ws, steps, m, h')
  {
    forall id ensures RowsOk(c, ws, steps, m, h', id) {
      assert RowsOk(c, ws, steps, n, h, id) && RowsExplained(c, ws[n], steps[n], ws[m], id);
      assert EntryExplained(ws[n], steps[n], ws[m], id);
      ArmedStep(c, ws, steps, n, h, h', id);
      QueuedStep(c, ws, steps, n, h, h', id);
      BoundStep(c, ws, steps, n, h, h', id);
    }
    forall x | 0 <= x < |h'.bindings| ensures BindingOk(c, ws, steps, m, h', x) {
      if x < |h.bindings| {
        assert RowsExplained(c, ws[n], steps[n], ws[m], h.bindings[x].id);
        OldBindingOk(c, ws, steps, n, h, h', x);
      } else {
        assert RowsOk(c, ws, steps, n, h, steps[n].id);
        NewBindingOk(c, ws, steps, n, h, h');
      }
    }
  }

  lemma StepIsExplained(c: Config, w: World, s: Step, w': World, id: Id)
    requires PendingLive(w.t) && w.t.pending.Keys !! w.t.queued.Keys && Allowed(w, s) && w' == Do(c, w, s)
    ensures RowsExplained(c, w, s, w', id) && EntryExplained(w, s, w', id)
  {
    StepExplainsPending(c, w, s, id);
    StepExplainsQueued(c, w, s, id);
    StepExplainsEntry(c, w, s, id);
  }

  lemma {:induction false} RowsAgree(c: Config, steps: seq<Step>, k: nat)
    requires Legal(c, steps) && k <= |steps|
    ensures var t := At(c, steps, k).t; PendingLive(t) && t.pending.Keys !! t.queued.Keys
  {
    RunKeepsInv(c, steps, k);
  }

  lemma {:induction false} WorldsStep(c: Config, steps: seq<Step>, k: nat, n: nat, w: World, w': World)
    requires Legal(c, steps) && n == k + 1 <= |steps| && w == At(c, steps, k) && w' == At(c, steps, n)
    ensures PendingLive(w.t) && w.t.pending.Keys !! w.t.queued.Keys && Allowed(w, steps[k]) && w' == Do(c, w, steps[k])
  {
    RowsAgree(c, steps, k);
  }

  lemma StepExplained(c: Config, w: World, s: Step, w': World)
    requires PendingLive(w.t) && w.t.pending.Keys !! w.t.queued.Keys && Allowed(w, s) && w' == Do(c, w, s)
    ensures forall id :: RowsExplained(c, w, s, w', id)
    ensures forall id :: EntryExplained(w, s, w', id)
  {
    forall id ensures RowsExplained(c, w, s, w', id) && EntryExplained(w, s, w', id) { StepIsExplained(c, w, s, w', id); }
  }

  lemma {:induction false} RunKeepsHistory(c: Config, steps: seq<Step>, n: nat)
    requires Legal(c, steps) && n <= |steps|
    ensures HistoryOk(c, Worlds(c, steps), steps, n, HistoryAt(c, steps, n))
  {
    if n > 0 {
      var k, ws := n - 1, Worlds(c, steps);
      RunKeepsHistory(c, steps, k);
      WorldsStep(c, steps, k, n, ws[k], ws[n]);
      StepExplained(c, ws[k], steps[k], ws[n]);
      HistoryStep(c, ws, steps, k, n, HistoryAt(c, steps, k), HistoryAt(c, steps, n));
    }
  }

  // What every run guarantees

  /**
   A live allocation with a UDP source was armed by its present owner, after it was issued,
   with a nonce that a punch from exactly that source carried, within the TTL either way round.
   */
  lemma EveryBindingIsEarned(c: Config, steps: seq<Step>, n: nat, id: Id)
    requires Legal(c, steps) && n <= |steps|
    requires id in At(c, steps, n).t.byAlloc && At(c, steps, n).t.byAlloc[id].src.Some?
    ensures var e, h := At(c, steps, n).t.byAlloc[id], HistoryAt(c, steps, n);
            && id in h.boundBy && id in h.insertedBy && h.boundBy[id] < |h.bindings|
            && var b := h.bindings[h.boundBy[id]];
               && Justified(c, Worlds(c, steps), steps, b) && b.id == id && Some(b.src) == e.src
               && h.insertedBy[id] < b.arm < n && b.punch < n
               && steps[b.arm].DoArm? && steps[b.arm].uri == e.uri
  {
    RunKeepsHistory(c, steps, n);
    var ws, h := Worlds(c, steps), HistoryAt(c, steps, n);
    assert RowsOk(c, ws, steps, n, h, id);
    assert BindingOk(c, ws, steps, n, h, h.boundBy[id]);
  }

  /** No arming and no punch ever accounts for two bindings. */
  lemma EachHalfBindsOnce(c: Config, steps: seq<Step>, n: nat, x: nat, y: nat)
    requires Legal(c, steps) && n <= |steps|
    requires x < y < |HistoryAt(c, steps, n).bindings|
    ensures var bs := HistoryAt(c, steps, n).bindings;
            bs[x].arm != bs[y].arm && bs[x].punch != bs[y].punch
  {
    RunKeepsHistory(c, steps, n);
    assert BindingOk(c, Worlds(c, steps), steps, n, HistoryAt(c, steps, n), x);
  }
}
