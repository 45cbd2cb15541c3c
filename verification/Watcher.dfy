/**
 The policy watcher: one session is a finite stream of events from the controller, folded
 into the engine's working set. The rules of the initial snapshot are held back until
 SNAPSHOT_END and then replace the working set in one go.

 `LastWord` is the reference reading of a stream: for each rule id, the last event that
 mentions it decides.
 */
module Watching {
  import opened Options
  import opened Policy
  import opened DecisionCache

  datatype Event =
    | Added(rule: Option<Rule>)
    | Removed(id: string)
    | SnapshotEnd
    | Unknown

  datatype Progress = Progress(rules: map<string, Rule>, pending: seq<Rule>, inSnapshot: bool)

  /** What one received event does. */
  function Absorb(p: Progress, ev: Event): Progress {
    match ev
    case Added(None) => p
    case Added(Some(r)) =>
      if p.inSnapshot then p.(pending := p.pending + [r]) else p.(rules := p.rules[r.id := r])
    case Removed(id) => if id == "" then p else p.(rules := p.rules - {id})
    case SnapshotEnd => Progress(LastWins(p.pending), [], false)
    case Unknown => p
  }

  function AbsorbAll(p: Progress, evs: seq<Event>): Progress {
    if evs == [] then p else Absorb(AbsorbAll(p, evs[..|evs| - 1]), evs[|evs| - 1])
  }

  /** The working set after a session that started from `rules`. */
  function Session(rules: map<string, Rule>, evs: seq<Event>): map<string, Rule> {
    AbsorbAll(Progress(rules, [], true), evs).rules
  }

  function Sessions(rules: map<string, Rule>, ss: seq<seq<Event>>): map<string, Rule> {
    if ss == [] then rules else Session(Sessions(rules, ss[..|ss| - 1]), ss[|ss| - 1])
  }

  class Watcher {
    const engine: Engine
    const cache: Cache

    constructor (engine: Engine, cache: Cache)
      ensures this.engine == engine && this.cache == cache
    {
      this.engine, this.cache := engine, cache;
    }

    /** What the loop does with one event; every published change is followed by a flush. */
    method Handle(ev: Event, pending: seq<Rule>, inSnapshot: bool) returns (pending': seq<Rule>, inSnapshot': bool)
      requires engine.Valid()
      modifies engine, cache
      ensures engine.Valid()
      ensures Progress(engine.rules, pending', inSnapshot') == Absorb(Progress(old(engine.rules), pending, inSnapshot), ev)
      ensures cache.m == map[] || (cache.m == old(cache.m) && engine.cur == old(engine.cur))
    {
      pending', inSnapshot' := pending, inSnapshot;
      match ev
      case Added(None) =>
      case Added(Some(r)) =>
        if inSnapshot {
          pending' := pending + [r];
        } else {
          engine.Add(r);
          cache.Flush();
        }
      case Removed(id) =>
        if id != "" {
          engine.Remove(id);
          cache.Flush();
        }
      case SnapshotEnd =>
        engine.Set(pending);
        cache.Flush();
        pending', inSnapshot' := [], false;
      case Unknown =>
    }

    /** One watch session; an empty `evs` is a stream that failed to open. */
    method RunOnce(evs: seq<Event>)
      requires engine.Valid()
      modifies engine, cache
      ensures engine.Valid() && engine.rules == Session(old(engine.rules), evs)
      ensures cache.m == map[] || (cache.m == old(cache.m) && engine.cur == old(engine.cur))
    {
      var pending: seq<Rule> := [];
      var inSnapshot := true;
      ghost var start := Progress(engine.rules, [], true);
      for i := 0 to |evs|
        invariant engine.Valid()
        invariant Progress(engine.rules, pending, inSnapshot) == AbsorbAll(start, evs[..i])
        invariant cache.m == map[] || (cache.m == old(cache.m) && engine.cur == old(engine.cur))
      {
        assert evs[..i + 1][..i] == evs[..i];
        pending, inSnapshot := Handle(evs[i], pending, inSnapshot);
      }
      assert evs[..|evs|] == evs;
    }

    /** Reconnect after every session, whatever ended it. */
    method Run(sessions: seq<seq<Event>>)
      requires engine.Valid()
      modifies engine, cache
      ensures engine.Valid() && engine.rules == Sessions(old(engine.rules), sessions)
    {
      for i := 0 to |sessions|
        invariant engine.Valid() && engine.rules == Sessions(old(engine.rules), sessions[..i])
      {
        assert sessions[..i + 1][..i] == sessions[..i];
        RunOnce(sessions[i]);
      }
      assert sessions[..|sessions|] == sessions;
    }
  }

  // The reference reading

  datatype Word = Silent | Absent | Present(rule: Rule)

  function WordOf(ev: Event, id: string): Word {
    match ev
    case Added(Some(r)) => if r.id == id then Present(r) else Silent
    case Removed(x) => if x == id && id != "" then Absent else Silent
    case _ => Silent
  }

  function LastWord(evs: seq<Event>, id: string): Word {
    if evs == [] then Silent
    else
      var w := WordOf(evs[|evs| - 1], id);
      if w.Silent? then LastWord(evs[..|evs| - 1], id) else w
  }

  /** The last rule with this id that the stream added, removals set aside. */
  function LastAdded(evs: seq<Event>, id: string): Word {
    if evs == [] then Silent
    else
      var w := WordOf(evs[|evs| - 1], id);
      if w.Present? then w else LastAdded(evs[..|evs| - 1], id)
  }

  function Saying(rules: map<string, Rule>, id: string): Word {
    if id in rules then Present(rules[id]) else Absent
  }

  /** The working set is what the stream says, id by id; an id never mentioned is absent. */
  ghost predicate Reads(rules: map<string, Rule>, evs: seq<Event>) {
    forall id :: Saying(rules, id) == (if LastWord(evs, id).Silent? then Absent else LastWord(evs, id))
  }

  predicate NoEnd(evs: seq<Event>) { SnapshotEnd !in evs }

  predicate NoRemoval(evs: seq<Event>) { forall ev :: ev in evs && ev.Removed? ==> ev.id == "" }

  lemma {:induction false} LastWordConcat(a: seq<Event>, b: seq<Event>, id: string)
    ensures LastWord(a + b, id) == if LastWord(b, id).Silent? then LastWord(a, id) else LastWord(b, id)
  {
    if b == [] {
      assert a + b == a;
    } else {
      assert (a + b)[..|a + b| - 1] == a + b[..|b| - 1];
      LastWordConcat(a, b[..|b| - 1], id);
    }
  }

  lemma {:induction false} AbsorbConcat(p: Progress, a: seq<Event>, b: seq<Event>)
    ensures AbsorbAll(p, a + b) == AbsorbAll(AbsorbAll(p, a), b)
  {
    if b == [] {
      assert a + b == a;
    } else {
      assert (a + b)[..|a + b| - 1] == a + b[..|b| - 1];
      AbsorbConcat(p, a, b[..|b| - 1]);
    }
  }

  lemma {:induction false} LastWinsSnoc(rules: seq<Rule>, r: Rule)
    ensures LastWins(rules + [r]) == LastWins(rules)[r.id := r]
  {
    assert (rules + [r])[..|rules|] == rules;
  }

  /** During the snapshot the buffer holds the additions. */
  lemma {:induction false} BufferHoldsAdditions(p: Progress, evs: seq<Event>, id: string)
    requires p.inSnapshot && p.pending == [] && NoEnd(evs)
    ensures var q := AbsorbAll(p, evs);
            && q.inSnapshot
            && LastAdded(evs, id) == (if id in LastWins(q.pending) then Present(LastWins(q.pending)[id]) else Silent)
  {
    if evs != [] {
      var n := |evs| - 1;
      assert evs[n] in evs && NoEnd(evs[..n]);
      BufferHoldsAdditions(p, evs[..n], id);
      var q := AbsorbAll(p, evs[..n]);
      if evs[n].Added? && evs[n].rule.Some? { LastWinsSnoc(q.pending, evs[n].rule.value); }
    }
  }

  /** During the snapshot only removals reach the rules in force. */
  lemma {:induction false} SnapshotOnlyRemoves(p: Progress, evs: seq<Event>, id: string)
    requires p.inSnapshot && NoEnd(evs)
    ensures var q := AbsorbAll(p, evs);
            && q.inSnapshot
            && (id in q.rules <==> id in p.rules && (id == "" || Removed(id) !in evs))
            && (id in q.rules ==> q.rules[id] == p.rules[id])
  {
    if evs != [] {
      var n := |evs| - 1;
      assert evs == evs[..n] + [evs[n]];
      assert evs[n] in evs && NoEnd(evs[..n]);
      SnapshotOnlyRemoves(p, evs[..n], id);
    }
  }

  /** After the snapshot every event takes effect at once. */
  lemma {:induction false} LivePhase(p: Progress, evs: seq<Event>, id: string)
    requires !p.inSnapshot && NoEnd(evs)
    ensures var q := AbsorbAll(p, evs);
            && !q.inSnapshot && q.pending == p.pending
            && Saying(q.rules, id) == (if LastWord(evs, id).Silent? then Saying(p.rules, id) else LastWord(evs, id))
  {
    if evs != [] {
      var n := |evs| - 1;
      assert evs[n] in evs && NoEnd(evs[..n]);
      LivePhase(p, evs[..n], id);
    }
  }

  /** Id by id: later events first, the buffered additions otherwise, never the old rules. */
  lemma CompleteSessionSays(rules: map<string, Rule>, pre: seq<Event>, post: seq<Event>, id: string)
    requires NoEnd(pre) && NoEnd(post)
    ensures Saying(Session(rules, pre + [SnapshotEnd] + post), id)
         == if !LastWord(post, id).Silent? then LastWord(post, id)
            else if LastAdded(pre, id).Present? then LastAdded(pre, id) else Absent
  {
    var start := Progress(rules, [], true);
    AbsorbConcat(start, pre + [SnapshotEnd], post);
    AbsorbConcat(start, pre, [SnapshotEnd]);
    var mid := AbsorbAll(start, pre);
    assert AbsorbAll(mid, [SnapshotEnd]) == Absorb(AbsorbAll(mid, []), SnapshotEnd);
    BufferHoldsAdditions(start, pre, id);
    LivePhase(Absorb(mid, SnapshotEnd), post, id);
  }

  lemma {:induction false} AddedVersusWord(evs: seq<Event>, id: string)
    ensures !LastAdded(evs, id).Absent?
    ensures LastWord(evs, id).Present? ==> LastAdded(evs, id) == LastWord(evs, id)
    ensures LastWord(evs, id).Silent? ==> LastAdded(evs, id).Silent?
    ensures NoRemoval(evs) ==> !LastWord(evs, id).Absent?
  {
    if evs != [] {
      AddedVersusWord(evs[..|evs| - 1], id);
      assert evs[|evs| - 1] in evs;
      assert forall ev :: ev in evs[..|evs| - 1] ==> ev in evs;
    }
  }

  /** A second SNAPSHOT_END finds an empty buffer: only what follows it counts. */
  lemma SecondEndForgetsEverything(rules: map<string, Rule>, before: seq<Event>, mid: seq<Event>, post: seq<Event>)
    requires NoEnd(mid) && NoEnd(post)
    ensures Reads(Session(rules, before + [SnapshotEnd] + mid + [SnapshotEnd] + post), post)
  {
    var start := Progress(rules, [], true);
    var p0 := AbsorbAll(start, before);
    var p1 := AbsorbAll(start, before + [SnapshotEnd]);
    AbsorbConcat(start, before, [SnapshotEnd]);
    assert AbsorbAll(p0, [SnapshotEnd]) == Absorb(AbsorbAll(p0, []), SnapshotEnd);
    AbsorbConcat(start, before + [SnapshotEnd], mid);
    var p2 := AbsorbAll(p1, mid);
    LivePhase(p1, mid, "");
    AbsorbConcat(start, before + [SnapshotEnd] + mid, [SnapshotEnd]);
    assert AbsorbAll(p2, [SnapshotEnd]) == Absorb(AbsorbAll(p2, []), SnapshotEnd);
    AbsorbConcat(start, before + [SnapshotEnd] + mid + [SnapshotEnd], post);
    forall id ensures Saying(Session(rules, before + [SnapshotEnd] + mid + [SnapshotEnd] + post), id)
                   == (if LastWord(post, id).Silent? then Absent else LastWord(post, id))
    {
      LivePhase(Absorb(p2, SnapshotEnd), post, id);
    }
  }

  /** An id that one SNAPSHOT_END loses: added, then removed, and not mentioned after it. */
  predicate LosesRemoval(pre: seq<Event>, post: seq<Event>, id: string) {
    LastWord(pre, id).Absent? && LastAdded(pre, id).Present? && LastWord(post, id).Silent?
  }

  /** An id that a repeated SNAPSHOT_END loses: it should be present, and is not mentioned after it. */
  predicate LosesRule(before: seq<Event>, post: seq<Event>, id: string) {
    LastWord(before, id).Present? && LastWord(post, id).Silent?
  }

  /** What the last SNAPSHOT_END, with `before` before it and `post` after it, loses. */
  ghost predicate Loses(before: seq<Event>, post: seq<Event>) {
    exists id :: if NoEnd(before) then LosesRemoval(before, post, id) else LosesRule(before, post, id)
  }

  lemma LastWordAroundEnd(before: seq<Event>, post: seq<Event>, id: string)
    ensures LastWord(before + [SnapshotEnd] + post, id)
         == if LastWord(post, id).Silent? then LastWord(before, id) else LastWord(post, id)
  {
    LastWordConcat(before + [SnapshotEnd], post, id);
    LastWordConcat(before, [SnapshotEnd], id);
    assert LastWord([SnapshotEnd], id) == LastWord([SnapshotEnd][..0], id) == Silent;
  }

  lemma {:induction false} SplitAtLastEnd(evs: seq<Event>) returns (k: nat)
    requires !NoEnd(evs)
    ensures k < |evs| && evs == evs[..k] + [SnapshotEnd] + evs[k + 1..] && NoEnd(evs[k + 1..])
  {
    var n := |evs| - 1;
    if evs[n] == SnapshotEnd {
      k := n;
    } else {
      assert evs == evs[..n] + [evs[n]];
      k := SplitAtLastEnd(evs[..n]);
      assert evs[k + 1..] == evs[..n][k + 1..] + [evs[n]];
    }
  }

  lemma OneEndReadsIff(rules: map<string, Rule>, pre: seq<Event>, post: seq<Event>)
    requires NoEnd(pre) && NoEnd(post)
    ensures Reads(Session(rules, pre + [SnapshotEnd] + post), pre + [SnapshotEnd] + post) <==> !Loses(pre, post)
  {
    var evs := pre + [SnapshotEnd] + post;
    forall id
      ensures Saying(Session(rules, evs), id) == (if LastWord(evs, id).Silent? then Absent else LastWord(evs, id))
         <==> !LosesRemoval(pre, post, id)
    {
      CompleteSessionSays(rules, pre, post, id);
      LastWordAroundEnd(pre, post, id);
      AddedVersusWord(pre, id);
    }
  }

  lemma ManyEndsReadIff(rules: map<string, Rule>, before: seq<Event>, post: seq<Event>)
    requires !NoEnd(before) && NoEnd(post)
    ensures Reads(Session(rules, before + [SnapshotEnd] + post), before + [SnapshotEnd] + post) <==> !Loses(before, post)
  {
    var evs := before + [SnapshotEnd] + post;
    var k := SplitAtLastEnd(before);
    SecondEndForgetsEverything(rules, before[..k], before[k + 1..], post);
    assert evs == before[..k] + [SnapshotEnd] + before[k + 1..] + [SnapshotEnd] + post;
    forall id
      ensures Saying(Session(rules, evs), id) == (if LastWord(evs, id).Silent? then Absent else LastWord(evs, id))
         <==> !LosesRule(before, post, id)
    {
      LastWordAroundEnd(before, post, id);
    }
  }

  /**
   A session that reaches a SNAPSHOT_END, however many it has, leaves exactly the rules its own
   events say, whatever was in force before, if and only if its last SNAPSHOT_END loses
   nothing: `before` is what precedes that one and `post` what follows it.
   */
  lemma SessionReadsItsEventsIff(rules: map<string, Rule>, before: seq<Event>, post: seq<Event>)
    requires NoEnd(post)
    ensures Reads(Session(rules, before + [SnapshotEnd] + post), before + [SnapshotEnd] + post) <==> !Loses(before, post)
  {
    if NoEnd(before) { OneEndReadsIff(rules, before, post); } else { ManyEndsReadIff(rules, before, post); }
  }

  /** A stream without removals before its SNAPSHOT_END is always read correctly. */
  lemma OrderlySessionReadsItsEvents(rules: map<string, Rule>, pre: seq<Event>, post: seq<Event>)
    requires NoEnd(pre) && NoEnd(post) && NoRemoval(pre)
    ensures Reads(Session(rules, pre + [SnapshotEnd] + post), pre + [SnapshotEnd] + post)
  {
    SessionReadsItsEventsIff(rules, pre, post);
    forall id ensures !LastWord(pre, id).Absent? { AddedVersusWord(pre, id); }
  }

  /** A removal inside the snapshot really is undone by SNAPSHOT_END. */
  lemma SnapshotRemovalIsLost(r: Rule)
    requires r.id != ""
    ensures var pre := [Added(Some(r)), Removed(r.id)];
            && r.id in Session(map[], pre + [SnapshotEnd] + [])
            && LastWord(pre + [SnapshotEnd] + [], r.id).Absent?
  {
    var pre := [Added(Some(r)), Removed(r.id)];
    assert pre[..1] == [Added(Some(r))] && pre[..1][..0] == [];
    assert LastAdded(pre, r.id) == LastAdded(pre[..1], r.id) == Present(r);
    CompleteSessionSays(map[], pre, [], r.id);
    LastWordAroundEnd(pre, [], r.id);
  }

  /** A repeated SNAPSHOT_END drops a rule that nothing removed. */
  lemma RepeatedEndDropsRule(r: Rule)
    ensures var before := [Added(Some(r)), SnapshotEnd];
            && r.id !in Session(map[], before + [SnapshotEnd] + [])
            && LastWord(before + [SnapshotEnd] + [], r.id) == Present(r)
  {
    var before := [Added(Some(r)), SnapshotEnd];
    assert before[..1] == [Added(Some(r))] && before[..1][..0] == [];
    assert LastWord(before, r.id) == LastWord(before[..1], r.id) == Present(r);
    LastWordAroundEnd(before, [], r.id);
    SecondEndForgetsEverything(map[], [Added(Some(r))], [], []);
    assert before + [SnapshotEnd] + [] == [Added(Some(r))] + [SnapshotEnd] + [] + [SnapshotEnd] + [];
    assert LastWord([], r.id).Silent?;
  }

  /** Until its SNAPSHOT_END arrives, a session without removals changes nothing. */
  lemma UnfinishedSessionKeepsRules(rules: map<string, Rule>, evs: seq<Event>)
    requires NoEnd(evs) && NoRemoval(evs)
    ensures Session(rules, evs) == rules
  {
    forall id ensures (id in Session(rules, evs) <==> id in rules)
                   && (id in Session(rules, evs) ==> Session(rules, evs)[id] == rules[id])
    {
      SnapshotOnlyRemoves(Progress(rules, [], true), evs, id);
    }
  }

  lemma {:induction false} UnfinishedSessionsKeepRules(rules: map<string, Rule>, ss: seq<seq<Event>>)
    requires forall evs :: evs in ss ==> NoEnd(evs) && NoRemoval(evs)
    ensures Sessions(rules, ss) == rules
  {
    if ss != [] {
      assert ss[|ss| - 1] in ss;
      UnfinishedSessionsKeepRules(rules, ss[..|ss| - 1]);
      UnfinishedSessionKeepsRules(rules, ss[|ss| - 1]);
    }
  }

  lemma {:induction false} SessionsConcat(rules: map<string, Rule>, a: seq<seq<Event>>, b: seq<seq<Event>>)
    ensures Sessions(rules, a + b) == Sessions(Sessions(rules, a), b)
  {
    if b == [] {
      assert a + b == a;
    } else {
      assert (a + b)[..|a + b| - 1] == a + b[..|b| - 1];
      SessionsConcat(rules, a, b[..|b| - 1]);
    }
  }

  /**
   Over any number of sessions, the rules in force are those of the last session that reached
   its SNAPSHOT_END: nothing earlier survives it, and unfinished later sessions do not disturb it.
   */
  lemma LastCompleteSessionRules(rules: map<string, Rule>, earlier: seq<seq<Event>>, pre: seq<Event>,
                                 post: seq<Event>, later: seq<seq<Event>>)
    requires NoEnd(pre) && NoEnd(post) && NoRemoval(pre)
    requires forall evs :: evs in later ==> NoEnd(evs) && NoRemoval(evs)
    ensures Reads(Sessions(rules, earlier + [pre + [SnapshotEnd] + post] + later), pre + [SnapshotEnd] + post)
  {
    var s := pre + [SnapshotEnd] + post;
    var base := Sessions(rules, earlier);
    SessionsConcat(rules, earlier + [s], later);
    assert (earlier + [s])[..|earlier|] == earlier;
    OrderlySessionReadsItsEvents(base, pre, post);
    UnfinishedSessionsKeepRules(Session(base, s), later);
  }
}
