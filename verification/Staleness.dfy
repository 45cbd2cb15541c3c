/**
 How stale a policy answer may be.

 Evaluations run concurrently with one watcher that swaps in new snapshots and flushes the
 cache after each swap. Every lock section, every atomic load and every clock reading is its
 own step, and steps interleave freely. The state carries history beside the real data
 (`origin`, `maxGap`, `flushedVer`, `straddlers`, `answeredBefore`); no step depends on it.
 */
module Staleness {
  import opened Policy
  import opened DecisionCache

  /** Where an answer came from: which evaluation decided it, from which snapshot, and when. */
  datatype Origin = Origin(who: nat, ver: nat, loadedAt: int, decidedAt: int, putAt: int)

  datatype Phase =
    | Asked                                                     // about to read the cache
    | ReadHit(entry: Entry, from: Origin)                       // read an entry, expiry not yet checked
    | ReadExpired                                               // about to drop the expired entry
    | Missed                                                    // about to load the snapshot
    | Loaded(ver: nat, loadedAt: int)                           // holds a snapshot
    | Decided(res: Result, ver: nat, loadedAt: int, decidedAt: int)  // about to store the result
    | Answered(result: Result, source: Origin, at: int)

  datatype Eval = Eval(q: Query, phase: Phase)
  datatype Install = Install(at: int, snap: Snapshot)

  datatype State = State(
    now: int,
    installs: seq<Install>,       // every snapshot ever published; the last one is current
    flushDue: bool,               // the watcher has swapped and not yet flushed
    table: Table,
    evals: seq<Eval>,
    // history
    origin: map<Query, Origin>,   // where each cached entry came from
    maxGap: int,                  // the longest time from a load to the matching put
    flushedVer: nat,              // the snapshot that was current at the last flush
    straddlers: set<nat>,         // evaluations that held something outdated across the last flush
    answeredBefore: set<nat>)     // evaluations already answered at the last flush

  datatype Action =
    | Tick(d: nat)
    | Ask(query: Query)
    | Read(e: nat)
    | CheckExpiry(e: nat)
    | Drop(e: nat)
    | Load(e: nat)
    | Judge(e: nat)
    | Store(e: nat, evictNow: int, kept: Table)
    | Swap(snap: Snapshot)
    | Flush

  function Ms(ns: int): (ms: int)
    ensures ms * 1_000_000 <= ns < (ms + 1) * 1_000_000
  {
    ns / 1_000_000
  }

  function Current(s: State): int { |s.installs| - 1 }

  /** What a snapshot answers to a query at a time in nanoseconds. */
  type Judge = (Snapshot, Query, int) -> Result

  function Answer(judge: Judge, s: State, ver: nat, q: Query, at: int): Result
    requires ver < |s.installs|
  {
    judge(s.installs[ver].snap, q, at)
  }

  /** The evaluation holds an entry, a snapshot or a decision older than the current snapshot. */
  predicate HoldsOld(s: State, p: Phase) {
    match p
    case ReadHit(entry, from) => from.ver < Current(s) && Fresh(entry, s.now)
    case Loaded(ver, _) => ver < Current(s)
    case Decided(_, ver, _, _) => ver < Current(s)
    case _ => false
  }

  function OldHolders(s: State): set<nat> {
    set e: nat | 0 <= e < |s.evals| && HoldsOld(s, s.evals[e].phase)
  }

  function Finished(s: State): set<nat> {
    set e: nat | 0 <= e < |s.evals| && s.evals[e].phase.Answered?
  }

  ghost predicate Enabled(s: State, a: Action) {
    match a
    case Tick(_) => true
    case Ask(_) => true
    case Read(e) => e < |s.evals| && s.evals[e].phase.Asked?
    case CheckExpiry(e) => e < |s.evals| && s.evals[e].phase.ReadHit?
    case Drop(e) => e < |s.evals| && s.evals[e].phase.ReadExpired?
    case Load(e) => e < |s.evals| && s.evals[e].phase.Missed? && s.installs != []
    case Judge(e) => e < |s.evals| && s.evals[e].phase.Loaded? && s.evals[e].phase.ver < |s.installs|
    case Store(e, evictNow, kept) => e < |s.evals| && s.evals[e].phase.Decided? && MayKeep(s.table, evictNow, kept)
    case Swap(_) => !s.flushDue
    case Flush => s.flushDue && s.installs != []
  }

  function Put(s: State, e: nat, p: Phase): State
    requires e < |s.evals|
  {
    s.(evals := s.evals[e := s.evals[e].(phase := p)])
  }

  /** Where an entry came from; every entry of a reachable table has an origin. */
  function OriginOf(s: State, q: Query): Origin {
    if q in s.origin then s.origin[q] else Origin(0, 0, 0, 0, 0)
  }

  function AfterRead(s: State, q: Query): Phase {
    if q in s.table then ReadHit(s.table[q], OriginOf(s, q)) else Missed
  }

  function AfterCheck(s: State, p: Phase): Phase
    requires p.ReadHit?
  {
    if Fresh(p.entry, s.now) then Answered(p.entry.res, p.from, s.now) else ReadExpired
  }

  function AfterJudge(judge: Judge, s: State, v: Eval): Phase
    requires v.phase.Loaded? && v.phase.ver < |s.installs|
  {
    Decided(Answer(judge, s, v.phase.ver, v.q, s.now), v.phase.ver, v.phase.loadedAt, s.now)
  }

  function OriginsOf(origin: map<Query, Origin>, table: Table): map<Query, Origin> {
    map q | q in origin && q in table :: origin[q]
  }

  /** The decided result enters the cache, and is the answer. */
  function Stored(s: State, e: nat, kept: Table): State
    requires e < |s.evals| && s.evals[e].phase.Decided?
  {
    var p, q := s.evals[e].phase, s.evals[e].q;
    var o := Origin(e, p.ver, p.loadedAt, p.decidedAt, s.now);
    var gap := s.now - p.loadedAt;
    Put(s.(table := kept[q := Entry(p.res, s.now + TTL)],
           origin := OriginsOf(s.origin, kept)[q := o],
           maxGap := if gap > s.maxGap then gap else s.maxGap),
        e, Answered(p.res, o, s.now))
  }

  ghost function Apply(judge: Judge, s: State, a: Action): State
    requires Enabled(s, a)
  {
    match a
    case Tick(d) => s.(now := s.now + d)
    case Ask(q) => s.(evals := s.evals + [Eval(q, Asked)])
    case Read(e) => Put(s, e, AfterRead(s, s.evals[e].q))
    case CheckExpiry(e) => Put(s, e, AfterCheck(s, s.evals[e].phase))
    case Drop(e) =>
      var q := s.evals[e].q;
      Put(s.(table := s.table - {q}, origin := s.origin - {q}), e, Missed)
    case Load(e) => Put(s, e, Loaded(Current(s), s.now))
    case Judge(e) => Put(s, e, AfterJudge(judge, s, s.evals[e]))
    case Store(e, _, kept) => Stored(s, e, kept)
    case Swap(snap) => s.(installs := s.installs + [Install(s.now, snap)], flushDue := true)
    case Flush =>
      s.(flushDue := false, table := map[], origin := map[], flushedVer := Current(s),
         straddlers := OldHolders(s), answeredBefore := Finished(s))
  }

  predicate Init(s: State) {
    && |s.installs| == 1 && s.installs[0].at <= s.now
    && !s.flushDue && s.table == map[] && s.evals == [] && s.origin == map[]
    && s.maxGap == 0 && s.flushedVer == 0 && s.straddlers == {} && s.answeredBefore == {}
  }

  ghost predicate Run(judge: Judge, states: seq<State>, actions: seq<Action>) {
    && |states| == |actions| + 1 && Init(states[0])
    && forall i :: 0 <= i < |actions| ==> Enabled(states[i], actions[i]) && states[i + 1] == Apply(judge, states[i], actions[i])
  }

  // The invariant

  /** Snapshot `ver` was the current one at time `t`. */
  predicate CurrentAt(s: State, ver: nat, t: int) {
    && ver < |s.installs|
    && s.installs[ver].at <= t <= s.now
    && (ver + 1 < |s.installs| ==> t <= s.installs[ver + 1].at)
  }

  predicate InstallsOrdered(s: State) {
    && s.installs != []
    && forall i, j :: 0 <= i <= j < |s.installs| ==> s.installs[i].at <= s.installs[j].at <= s.now
  }

  /** `res` is what snapshot `o.ver` answered to `q`, and the times in `o` are in order. */
  ghost predicate Sound(judge: Judge, s: State, q: Query, res: Result, o: Origin) {
    && o.who < |s.evals|
    && CurrentAt(s, o.ver, o.loadedAt)
    && o.loadedAt <= o.decidedAt <= o.putAt <= s.now
    && o.putAt - o.loadedAt <= s.maxGap
    && res == Answer(judge, s, o.ver, q, o.decidedAt)
  }

  /** Nothing older than the last flush, except what a straddler carried over. */
  predicate NotOutlived(s: State, o: Origin) {
    o.ver >= s.flushedVer || o.who in s.straddlers
  }

  ghost predicate EntrySound(judge: Judge, s: State, q: Query, entry: Entry, o: Origin) {
    Sound(judge, s, q, entry.res, o) && entry.expires == o.putAt + TTL && NotOutlived(s, o)
  }

  ghost predicate TableSound(judge: Judge, s: State, table: Table, origin: map<Query, Origin>) {
    && |table| <= CAPACITY
    && table.Keys == origin.Keys
    && forall q :: q in table && q in origin ==> EntrySound(judge, s, q, table[q], origin[q])
  }

  ghost predicate EvalSound(judge: Judge, s: State, e: nat)
    requires e < |s.evals|
  {
    match s.evals[e].phase
    case Asked => true
    case ReadExpired => true
    case Missed => true
    case ReadHit(entry, from) =>
      && Sound(judge, s, s.evals[e].q, entry.res, from) && entry.expires == from.putAt + TTL
      && (NotOutlived(s, from) || e in s.straddlers || !Fresh(entry, s.now))
    case Loaded(ver, loadedAt) =>
      && CurrentAt(s, ver, loadedAt)
      && (ver >= s.flushedVer || e in s.straddlers)
    case Decided(res, ver, loadedAt, decidedAt) =>
      && CurrentAt(s, ver, loadedAt) && loadedAt <= decidedAt <= s.now
      && res == Answer(judge, s, ver, s.evals[e].q, decidedAt)
      && (ver >= s.flushedVer || e in s.straddlers)
    case Answered(res, from, at) =>
      && Sound(judge, s, s.evals[e].q, res, from)
      && from.putAt <= at <= s.now && at < from.putAt + TTL
      && (NotOutlived(s, from) || e in s.straddlers || e in s.answeredBefore)
  }

  ghost predicate Inv(judge: Judge, s: State) {
    && InstallsOrdered(s) && TableSound(judge, s, s.table, s.origin) && s.maxGap >= 0
    && s.flushedVer < |s.installs|
    && (forall e :: 0 <= e < |s.evals| ==> EvalSound(judge, s, e))
  }

  /** `t` comes after `s` with no flush in between. */
  predicate Extends(s: State, t: State) {
    && s.installs <= t.installs && s.now <= t.now && s.maxGap <= t.maxGap && |s.evals| <= |t.evals|
    && (forall i :: |s.installs| <= i < |t.installs| ==> s.now <= t.installs[i].at)
    && t.flushedVer == s.flushedVer && t.straddlers == s.straddlers && t.answeredBefore == s.answeredBefore
  }

  lemma SoundKept(judge: Judge, s: State, t: State, q: Query, res: Result, o: Origin)
    requires Sound(judge, s, q, res, o) && Extends(s, t)
    ensures Sound(judge, t, q, res, o)
  {}

  lemma EvalKept(judge: Judge, s: State, t: State, e: nat)
    requires e < |s.evals| && EvalSound(judge, s, e) && Extends(s, t) && t.evals[e] == s.evals[e]
    ensures EvalSound(judge, t, e)
  {
    var q := s.evals[e].q;
    match s.evals[e].phase
    case ReadHit(entry, from) => SoundKept(judge, s, t, q, entry.res, from);
    case Answered(res, from, _) => SoundKept(judge, s, t, q, res, from);
    case _ =>
  }

  lemma EntryKept(judge: Judge, s: State, t: State, q: Query, entry: Entry, o: Origin)
    requires EntrySound(judge, s, q, entry, o) && Extends(s, t)
    ensures EntrySound(judge, t, q, entry, o)
  {
    SoundKept(judge, s, t, q, entry.res, o);
  }

  lemma TableKept(judge: Judge, s: State, t: State, table: Table, origin: map<Query, Origin>)
    requires TableSound(judge, s, table, origin) && Extends(s, t)
    ensures TableSound(judge, t, table, origin)
  {
    forall q | q in table && q in origin ensures EntrySound(judge, t, q, table[q], origin[q]) {
      EntryKept(judge, s, t, q, table[q], origin[q]);
    }
  }

  /** A smaller table with the same entries stays sound. */
  lemma SmallerTableSound(judge: Judge, s: State, table: Table, origin: map<Query, Origin>, kept: Table)
    requires TableSound(judge, s, table, origin) && SubTable(kept, table)
    ensures TableSound(judge, s, kept, OriginsOf(origin, kept))
  {
    SubTableSize(kept, table);
  }

  /** Storing one sound entry into a table with room keeps it sound. */
  lemma LargerTableSound(judge: Judge, s: State, table: Table, origin: map<Query, Origin>, q: Query, entry: Entry, o: Origin)
    requires TableSound(judge, s, table, origin) && |table| < CAPACITY && EntrySound(judge, s, q, entry, o)
    ensures TableSound(judge, s, table[q := entry], origin[q := o])
  {}

  /** `t` is `s` with evaluation `e` moved to phase `p`, and perhaps another table. */
  predicate MovesOne(s: State, t: State, e: nat, p: Phase) {
    && e < |s.evals| && Extends(s, t) && t.installs == s.installs && t.now == s.now
    && t.evals == s.evals[e := s.evals[e].(phase := p)]
  }

  /** Such a step only has to account for the table and for the evaluation that moved. */
  lemma MoveKeepsInv(judge: Judge, s: State, t: State, e: nat, p: Phase)
    requires Inv(judge, s) && MovesOne(s, t, e, p)
    requires TableSound(judge, t, t.table, t.origin) && EvalSound(judge, t, e)
    ensures Inv(judge, t)
  {
    forall i | 0 <= i < |t.evals| ensures EvalSound(judge, t, i) {
      if i != e { EvalKept(judge, s, t, i); }
    }
  }

  lemma PhaseStepKeepsInv(judge: Judge, s: State, e: nat, p: Phase)
    requires Inv(judge, s) && e < |s.evals|
    requires EvalSound(judge, Put(s, e, p), e)
    ensures Inv(judge, Put(s, e, p))
  {
    var t := Put(s, e, p);
    assert MovesOne(s, t, e, p);
    TableKept(judge, s, t, s.table, s.origin);
    MoveKeepsInv(judge, s, t, e, p);
  }

  lemma DropOrigin(table: Table, origin: map<Query, Origin>, q: Query)
    requires table.Keys == origin.Keys
    ensures SubTable(table - {q}, table) && OriginsOf(origin, table - {q}) == origin - {q}
  {}

  lemma DropKeepsTable(judge: Judge, s: State, t: State, q: Query)
    requires TableSound(judge, s, s.table, s.origin) && Extends(s, t)
    ensures TableSound(judge, t, s.table - {q}, s.origin - {q})
  {
    DropOrigin(s.table, s.origin, q);
    SmallerTableSound(judge, s, s.table, s.origin, s.table - {q});
    TableKept(judge, s, t, s.table - {q}, s.origin - {q});
  }

  lemma DropKeepsInv(judge: Judge, s: State, e: nat)
    requires Inv(judge, s) && Enabled(s, Drop(e))
    ensures Inv(judge, Apply(judge, s, Drop(e)))
  {
    var t := Apply(judge, s, Drop(e));
    assert MovesOne(s, t, e, Missed);
    DropKeepsTable(judge, s, t, s.evals[e].q);
    MoveKeepsInv(judge, s, t, e, Missed);
  }

  /** The stored entry, and the answer given with it, are what the held snapshot decided. */
  lemma StoredSound(judge: Judge, s: State, e: nat, kept: Table)
    requires e < |s.evals| && s.evals[e].phase.Decided? && EvalSound(judge, s, e)
    ensures var t := Stored(s, e, kept);
            var q := s.evals[e].q;
            && MovesOne(s, t, e, t.evals[e].phase)
            && EvalSound(judge, t, e) && EntrySound(judge, t, q, t.table[q], t.origin[q])
  {}

  lemma EvictThenStore(judge: Judge, s: State, t: State, q: Query, evictNow: int, kept: Table, entry: Entry, o: Origin)
    requires TableSound(judge, s, s.table, s.origin) && MayKeep(s.table, evictNow, kept) && Extends(s, t)
    requires EntrySound(judge, t, q, entry, o)
    ensures TableSound(judge, t, kept[q := entry], OriginsOf(s.origin, kept)[q := o])
  {
    KeptLeavesRoom(s.table, evictNow, kept);
    SmallerTableSound(judge, s, s.table, s.origin, kept);
    TableKept(judge, s, t, kept, OriginsOf(s.origin, kept));
    LargerTableSound(judge, t, kept, OriginsOf(s.origin, kept), q, entry, o);
  }

  lemma StoreKeepsTable(judge: Judge, s: State, e: nat, evictNow: int, kept: Table)
    requires TableSound(judge, s, s.table, s.origin) && MayKeep(s.table, evictNow, kept)
    requires e < |s.evals| && s.evals[e].phase.Decided? && EvalSound(judge, s, e)
    ensures var t := Stored(s, e, kept); TableSound(judge, t, t.table, t.origin)
  {
    var t, q := Stored(s, e, kept), s.evals[e].q;
    StoredSound(judge, s, e, kept);
    EvictThenStore(judge, s, t, q, evictNow, kept, t.table[q], t.origin[q]);
  }

  lemma StoreKeepsInv(judge: Judge, s: State, e: nat, evictNow: int, kept: Table)
    requires Inv(judge, s) && e < |s.evals| && s.evals[e].phase.Decided? && MayKeep(s.table, evictNow, kept)
    ensures Inv(judge, Stored(s, e, kept))
  {
    var t := Stored(s, e, kept);
    assert EvalSound(judge, s, e);
    StoredSound(judge, s, e, kept);
    StoreKeepsTable(judge, s, e, evictNow, kept);
    MoveKeepsInv(judge, s, t, e, t.evals[e].phase);
  }

  lemma FlushKeepsEval(judge: Judge, s: State, t: State, e: nat)
    requires s.installs != [] && e < |s.evals| && EvalSound(judge, s, e)
    requires t.installs == s.installs && t.evals == s.evals && t.now == s.now && t.maxGap == s.maxGap
    requires t.flushedVer == Current(s) && t.straddlers == OldHolders(s) && t.answeredBefore == Finished(s)
    ensures EvalSound(judge, t, e)
  {
    assert HoldsOld(s, s.evals[e].phase) ==> e in t.straddlers;
    assert s.evals[e].phase.Answered? ==> e in t.answeredBefore;
  }

  lemma FlushKeepsInv(judge: Judge, s: State)
    requires Inv(judge, s) && Enabled(s, Flush)
    ensures Inv(judge, Apply(judge, s, Flush))
  {
    var t := Apply(judge, s, Flush);
    forall i | 0 <= i < |t.evals| ensures EvalSound(judge, t, i) {
      assert EvalSound(judge, s, i);
      FlushKeepsEval(judge, s, t, i);
    }
  }

  lemma GrowKeepsInv(judge: Judge, s: State, a: Action)
    requires Inv(judge, s) && Enabled(s, a)
    requires a.Tick? || a.Ask? || a.Swap?
    ensures Inv(judge, Apply(judge, s, a))
  {
    var t := Apply(judge, s, a);
    assert Extends(s, t);
    TableKept(judge, s, t, s.table, s.origin);
    forall i | 0 <= i < |t.evals| ensures EvalSound(judge, t, i) {
      if i < |s.evals| { EvalKept(judge, s, t, i); }
    }
  }

  // The steps of an evaluation that do not write the cache

  lemma ReadSound(judge: Judge, s: State, e: nat)
    requires e < |s.evals| && TableSound(judge, s, s.table, s.origin)
    ensures EvalSound(judge, Put(s, e, AfterRead(s, s.evals[e].q)), e)
  {}

  lemma CheckExpirySound(judge: Judge, s: State, e: nat)
    requires e < |s.evals| && EvalSound(judge, s, e) && s.evals[e].phase.ReadHit?
    ensures EvalSound(judge, Put(s, e, AfterCheck(s, s.evals[e].phase)), e)
  {}

  lemma LoadSound(judge: Judge, s: State, e: nat)
    requires e < |s.evals| && InstallsOrdered(s) && s.flushedVer < |s.installs|
    ensures EvalSound(judge, Put(s, e, Loaded(Current(s), s.now)), e)
  {}

  lemma JudgeSound(judge: Judge, s: State, e: nat)
    requires e < |s.evals| && EvalSound(judge, s, e) && s.evals[e].phase.Loaded?
    ensures EvalSound(judge, Put(s, e, AfterJudge(judge, s, s.evals[e])), e)
  {}

  lemma StepKeepsInv(judge: Judge, s: State, a: Action)
    requires Inv(judge, s) && Enabled(s, a)
    ensures Inv(judge, Apply(judge, s, a))
  {
    match a
    case Tick(_) => GrowKeepsInv(judge, s, a);
    case Ask(_) => GrowKeepsInv(judge, s, a);
    case Swap(_) => GrowKeepsInv(judge, s, a);
    case Store(e, evictNow, kept) => StoreKeepsInv(judge, s, e, evictNow, kept);
    case Flush => FlushKeepsInv(judge, s);
    case Drop(e) => DropKeepsInv(judge, s, e);
    case Read(e) =>
      ReadSound(judge, s, e);
      PhaseStepKeepsInv(judge, s, e, AfterRead(s, s.evals[e].q));
    case CheckExpiry(e) =>
      CheckExpirySound(judge, s, e);
      PhaseStepKeepsInv(judge, s, e, AfterCheck(s, s.evals[e].phase));
    case Load(e) =>
      LoadSound(judge, s, e);
      PhaseStepKeepsInv(judge, s, e, Loaded(Current(s), s.now));
    case Judge(e) =>
      JudgeSound(judge, s, e);
      PhaseStepKeepsInv(judge, s, e, AfterJudge(judge, s, s.evals[e]));
  }

  lemma {:induction false} RunKeepsInv(judge: Judge, states: seq<State>, actions: seq<Action>)
    requires Run(judge, states, actions)
    ensures Inv(judge, states[|actions|])
  {
    if actions != [] {
      var n := |actions| - 1;
      RunKeepsInv(judge, states[..n + 1], actions[..n]);
      StepKeepsInv(judge, states[n], actions[n]);
    }
  }

  // What a run guarantees

  /**
   Every answer ever given is what some published snapshot answers to that query, loaded
   while it was current, by an evaluation whose store was less than `TTL` before the answer.
   The table never holds more than `CAPACITY` entries.
   */
  lemma EveryAnswerIsASnapshotAnswer(judge: Judge, states: seq<State>, actions: seq<Action>, e: nat)
    requires Run(judge, states, actions)
    ensures |states[|actions|].table| <= CAPACITY
    ensures var s := states[|actions|];
            e < |s.evals| && s.evals[e].phase.Answered? ==>
              var Answered(res, from, at) := s.evals[e].phase;
              && CurrentAt(s, from.ver, from.loadedAt)
              && res == Answer(judge, s, from.ver, s.evals[e].q, from.decidedAt)
              && from.loadedAt <= from.decidedAt <= from.putAt <= at < from.putAt + TTL
              && from.putAt - from.loadedAt <= s.maxGap
  {
    RunKeepsInv(judge, states, actions);
    var s := states[|actions|];
    if e < |s.evals| { assert EvalSound(judge, s, e); }
  }

  /**
   Once `TTL` plus the longest load-to-store gap has passed since snapshot `w` was published,
   no older snapshot is answered any more.
   */
  lemma OldSnapshotsDieOut(judge: Judge, states: seq<State>, actions: seq<Action>, e: nat, w: nat)
    requires Run(judge, states, actions)
    requires e < |states[|actions|].evals| && states[|actions|].evals[e].phase.Answered?
    requires w < |states[|actions|].installs|
    ensures var s := states[|actions|];
            var Answered(res, from, at) := s.evals[e].phase;
            at >= s.installs[w].at + TTL + s.maxGap ==> from.ver >= w
  {
    RunKeepsInv(judge, states, actions);
    var s := states[|actions|];
    assert EvalSound(judge, s, e);
    var from := s.evals[e].phase.source;
    if from.ver < w {
      assert from.loadedAt <= s.installs[from.ver + 1].at <= s.installs[w].at;
    }
  }

  /** The evaluation answers, not already before the last flush, from a snapshot older than it. */
  predicate StaleAnswer(s: State, e: nat) {
    && e < |s.evals| && s.evals[e].phase.Answered? && e !in s.answeredBefore
    && s.evals[e].phase.source.ver < s.flushedVer
  }

  /**
   After a flush, an answer older than the flushed-in snapshot needs an evaluation that held
   something outdated across that flush: the answering one itself or the one that stored the
   entry it read.
   */
  lemma StaleAfterFlushNeedsStraddler(judge: Judge, states: seq<State>, actions: seq<Action>, e: nat)
    requires Run(judge, states, actions) && StaleAnswer(states[|actions|], e)
    ensures var s := states[|actions|];
            s.evals[e].phase.source.who in s.straddlers || e in s.straddlers
  {
    RunKeepsInv(judge, states, actions);
    assert EvalSound(judge, states[|actions|], e);
  }

  /** The relay's own judge: the indexed lookup of the policy engine, on milliseconds. */
  ghost function EngineJudge(): Judge {
    (snap: Snapshot, q: Query, at: int) => Verdict(Select(snap, q, Ms(at)))
  }

  /** With the policy engine as judge, an answer is the index lookup in the snapshot it came from. */
  lemma EngineAnswersFromItsSnapshots(states: seq<State>, actions: seq<Action>, e: nat)
    requires Run(EngineJudge(), states, actions)
    requires e < |states[|actions|].evals| && states[|actions|].evals[e].phase.Answered?
    ensures var s := states[|actions|];
            var Answered(res, from, _) := s.evals[e].phase;
            && CurrentAt(s, from.ver, from.loadedAt)
            && SnapshotSays(s.installs[from.ver].snap, s.evals[e].q, Ms(from.decidedAt), res)
  {
    EveryAnswerIsASnapshotAnswer(EngineJudge(), states, actions, e);
    var s := states[|actions|];
    var Answered(_, from, _) := s.evals[e].phase;
    SelectSays(s.installs[from.ver].snap, s.evals[e].q, Ms(from.decidedAt));
  }

  // An evaluation that nothing interrupts does what the cache and the engine do in one go

  /** An unexpired entry is the answer, and stays. */
  lemma FreshEntryAnswers(judge: Judge, s: State, e: nat)
    requires Enabled(s, Read(e)) && s.evals[e].q in s.table && s.now < s.table[s.evals[e].q].expires
    ensures var s1 := Apply(judge, s, Read(e));
            && Enabled(s1, CheckExpiry(e))
            && var s2 := Apply(judge, s1, CheckExpiry(e));
               && s2.evals[e].phase.Answered? && s2.evals[e].phase.result == s.table[s.evals[e].q].res
               && s2.table == s.table
  {}

  /** An expired entry is dropped, and the query goes to the engine. */
  lemma ExpiredEntryIsDropped(judge: Judge, s: State, e: nat)
    requires Enabled(s, Read(e)) && s.evals[e].q in s.table && s.now >= s.table[s.evals[e].q].expires
    ensures var s1 := Apply(judge, s, Read(e));
            && Enabled(s1, CheckExpiry(e))
            && var s2 := Apply(judge, s1, CheckExpiry(e));
               && Enabled(s2, Drop(e))
               && var s3 := Apply(judge, s2, Drop(e));
                  s3.evals[e].phase.Missed? && s3.table == s.table - {s.evals[e].q}
  {}

  /** A query without an entry goes to the engine. */
  lemma NoEntryMisses(judge: Judge, s: State, e: nat)
    requires Enabled(s, Read(e)) && s.evals[e].q !in s.table
    ensures var s1 := Apply(judge, s, Read(e)); s1.evals[e].phase.Missed? && s1.table == s.table
  {}

  /** The engine judges by the snapshot current now, and the cache keeps the answer for `TTL`. */
  lemma MissIsJudgedNow(judge: Judge, s: State, e: nat, evictNow: int, kept: Table)
    requires e < |s.evals| && s.evals[e].phase.Missed? && s.installs != [] && MayKeep(s.table, evictNow, kept)
    ensures var s1 := Apply(judge, s, Load(e));
            && Enabled(s1, Action.Judge(e))
            && var s2 := Apply(judge, s1, Action.Judge(e));
               && Enabled(s2, Store(e, evictNow, kept))
               && var s3 := Apply(judge, s2, Store(e, evictNow, kept));
                  var res := judge(s.installs[|s.installs| - 1].snap, s.evals[e].q, s.now);
                  && s3.evals[e].phase.Answered? && s3.evals[e].phase.result == res
                  && s3.table == kept[s.evals[e].q := Entry(res, s.now + TTL)]
  {}

  // Exactly when a flush does not end stale answers

  lemma RunThen(judge: Judge, states: seq<State>, actions: seq<Action>, a: Action, t: State)
    requires Run(judge, states, actions)
    requires Enabled(states[|actions|], a) && t == Apply(judge, states[|actions|], a)
    ensures Run(judge, states + [t], actions + [a])
  {}

  /** The run goes on with `more` to the states `after`. */
  ghost predicate Continues(judge: Judge, states: seq<State>, actions: seq<Action>, after: seq<State>, more: seq<Action>) {
    |after| == |more| && Run(judge, states + after, actions + more)
  }

  /** Without a further flush the run can go on to a stale answer. */
  ghost predicate StaleLater(judge: Judge, states: seq<State>, actions: seq<Action>) {
    exists after, more, e :: Continues(judge, states, actions, after, more) && Flush !in more
                             && StaleAnswer((states + after)[|actions + more|], e)
  }

  lemma {:induction false} RunPrefix(judge: Judge, states: seq<State>, actions: seq<Action>, n: nat)
    requires Run(judge, states, actions) && n <= |actions|
    ensures Run(judge, states[..n + 1], actions[..n])
  {}

  lemma StepKeepsStraddlers(judge: Judge, s: State, a: Action)
    requires Enabled(s, a) && a != Flush
    ensures Apply(judge, s, a).straddlers == s.straddlers
  {}

  lemma {:induction false} StraddlersFixed(judge: Judge, states: seq<State>, actions: seq<Action>, n: nat)
    requires Run(judge, states, actions) && n <= |actions|
    requires forall i :: n <= i < |actions| ==> actions[i] != Flush
    ensures states[|actions|].straddlers == states[n].straddlers
  {
    if n < |actions| {
      var k := |actions| - 1;
      RunPrefix(judge, states, actions, k);
      StraddlersFixed(judge, states[..k + 1], actions[..k], n);
      StepKeepsStraddlers(judge, states[k], actions[k]);
    }
  }

  lemma OneStepToStale(judge: Judge, states: seq<State>, actions: seq<Action>, a: Action, e: nat)
    requires Run(judge, states, actions) && Enabled(states[|actions|], a) && a != Flush
    requires StaleAnswer(Apply(judge, states[|actions|], a), e)
    ensures StaleLater(judge, states, actions)
  {
    var t := Apply(judge, states[|actions|], a);
    RunThen(judge, states, actions, a, t);
    assert Continues(judge, states, actions, [t], [a]);
    assert (states + [t])[|actions + [a]|] == t;
  }

  lemma LaterFromNext(judge: Judge, states: seq<State>, actions: seq<Action>, a: Action, t: State)
    requires |states| == |actions| + 1 && a != Flush && StaleLater(judge, states + [t], actions + [a])
    ensures StaleLater(judge, states, actions)
  {
    var after, more, e :| Continues(judge, states + [t], actions + [a], after, more) && Flush !in more
                          && StaleAnswer((states + [t] + after)[|actions + [a] + more|], e);
    assert states + [t] + after == states + ([t] + after) && actions + [a] + more == actions + ([a] + more);
    assert Continues(judge, states, actions, [t] + after, [a] + more);
  }

  /** A straddler can go on to its stale answer at once. */
  lemma StraddlerAnswers(judge: Judge, states: seq<State>, actions: seq<Action>, e: nat)
    requires Run(judge, states, actions)
    requires var s := states[|actions|];
             && InstallsOrdered(s) && s.table == map[] && s.flushedVer == Current(s)
             && e < |s.evals| && HoldsOld(s, s.evals[e].phase) && e !in s.answeredBefore
    ensures StaleLater(judge, states, actions)
  {
    var s := states[|actions|];
    match s.evals[e].phase
    case ReadHit(_, _) => OneStepToStale(judge, states, actions, CheckExpiry(e), e);
    case Decided(_, _, _, _) => OneStepToStale(judge, states, actions, Store(e, s.now, map[]), e);
    case Loaded(_, _) =>
      var t := Apply(judge, s, Action.Judge(e));
      RunThen(judge, states, actions, Action.Judge(e), t);
      OneStepToStale(judge, states + [t], actions + [Action.Judge(e)], Store(e, t.now, map[]), e);
      LaterFromNext(judge, states, actions, Action.Judge(e), t);
  }

  /**
   A flush leaves a stale answer possible, for an evaluation not yet answered, if and only if
   some evaluation holds an unexpired entry, a snapshot or a decision older than the current
   snapshot at that moment.
   */
  lemma FlushEndsStalenessIff(judge: Judge, states: seq<State>, actions: seq<Action>, t: State)
    requires Run(judge, states, actions) && Enabled(states[|actions|], Flush) && t == Apply(judge, states[|actions|], Flush)
    ensures Run(judge, states + [t], actions + [Flush])
    ensures StaleLater(judge, states + [t], actions + [Flush]) <==> OldHolders(states[|actions|]) != {}
  {
    var s := states[|actions|];
    var states1, actions1 := states + [t], actions + [Flush];
    RunThen(judge, states, actions, Flush, t);
    assert states1[|actions1|] == t;
    if StaleLater(judge, states1, actions1) {
      var after, more, e :| Continues(judge, states1, actions1, after, more) && Flush !in more
                            && StaleAnswer((states1 + after)[|actions1 + more|], e);
      StaleAfterFlushNeedsStraddler(judge, states1 + after, actions1 + more, e);
      StraddlersFixed(judge, states1 + after, actions1 + more, |actions1|);
      assert (states1 + after)[|actions1|] == t;
    }
    if OldHolders(s) != {} {
      var e :| e in OldHolders(s);
      RunKeepsInv(judge, states, actions);
      StraddlerAnswers(judge, states1, actions1, e);
    }
  }

  // The exception is real

  const EMPTY_SNAPSHOT := Snapshot(map[], [])
  const ANY_QUERY := Query("c", "t", "m")

  /** The first half of the example: load, then swap and flush before deciding. */
  lemma LoadThenFlush(judge: Judge, next: Snapshot) returns (states: seq<State>, actions: seq<Action>)
    ensures Run(judge, states, actions)
    ensures states[|actions|] == State(0, [Install(0, EMPTY_SNAPSHOT), Install(0, next)], false, map[],
                                       [Eval(ANY_QUERY, Loaded(0, 0))], map[], 0, 1, {0}, {})
  {
    var q := ANY_QUERY;
    var s0 := State(0, [Install(0, EMPTY_SNAPSHOT)], false, map[], [], map[], 0, 0, {}, {});
    var s1 := s0.(evals := [Eval(q, Asked)]);
    var s2 := s0.(evals := [Eval(q, Missed)]);
    var s3 := s0.(evals := [Eval(q, Loaded(0, 0))]);
    var s4 := s3.(installs := [Install(0, EMPTY_SNAPSHOT), Install(0, next)], flushDue := true);
    var s5 := s4.(flushDue := false, flushedVer := 1, straddlers := {0});
    states, actions := [s0], [];
    RunThen(judge, states, actions, Ask(q), s1);
    states, actions := states + [s1], actions + [Ask(q)];
    RunThen(judge, states, actions, Read(0), s2);
    states, actions := states + [s2], actions + [Read(0)];
    RunThen(judge, states, actions, Load(0), s3);
    states, actions := states + [s3], actions + [Load(0)];
    RunThen(judge, states, actions, Swap(next), s4);
    states, actions := states + [s4], actions + [Swap(next)];
    assert OldHolders(s4) == {0} && Finished(s4) == {};
    RunThen(judge, states, actions, Flush, s5);
    states, actions := states + [s5], actions + [Flush];
  }

  /**
   An evaluation that loads the old snapshot before the swap and stores after the flush puts
   an old answer into the fresh cache, and a later evaluation is answered from it.
   */
  lemma StraddlerLeavesStaleEntry(judge: Judge, next: Snapshot)
    returns (states: seq<State>, actions: seq<Action>)
    ensures Run(judge, states, actions)
    ensures var s := states[|actions|];
            && |s.evals| == 2 && s.evals[1].phase.Answered?
            && 1 !in s.straddlers && 1 !in s.answeredBefore
            && s.evals[1].phase.source.ver < s.flushedVer == 1
            && |s.installs| == 2 && s.installs[1].snap == next
  {
    states, actions := LoadThenFlush(judge, next);
    var q, s5 := ANY_QUERY, states[|actions|];
    var res := judge(EMPTY_SNAPSHOT, q, 0);
    var o := Origin(0, 0, 0, 0, 0);
    var done := Eval(q, Answered(res, o, 0));
    var s6 := s5.(evals := [Eval(q, Decided(res, 0, 0, 0))]);
    var s7 := s5.(evals := [done], table := map[q := Entry(res, TTL)], origin := map[q := o]);
    var s8 := s7.(evals := [done, Eval(q, Asked)]);
    var s9 := s7.(evals := [done, Eval(q, ReadHit(Entry(res, TTL), o))]);
    var s10 := s7.(evals := [done, done]);
    RunThen(judge, states, actions, Action.Judge(0), s6);
    states, actions := states + [s6], actions + [Action.Judge(0)];
    RunThen(judge, states, actions, Store(0, 0, map[]), s7);
    states, actions := states + [s7], actions + [Store(0, 0, map[])];
    RunThen(judge, states, actions, Ask(q), s8);
    states, actions := states + [s8], actions + [Ask(q)];
    RunThen(judge, states, actions, Read(1), s9);
    states, actions := states + [s9], actions + [Read(1)];
    RunThen(judge, states, actions, CheckExpiry(1), s10);
    states, actions := states + [s10], actions + [CheckExpiry(1)];
  }
}
