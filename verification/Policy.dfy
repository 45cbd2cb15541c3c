/**
 The policy engine: rules, the target index built from them, and the hot-swapped engine.

 The engine keeps its rules in an unordered map and lists them in an arbitrary order every
 time it rebuilds the index. `PossibleAnswers` therefore characterises the set of answers
 the engine may give, over all listing orders.
 */
module Policy {
  import opened Options
  import Glob

  datatype Decision = Deny | Allow
  datatype P2PMode = P2PAllowed | P2PForbidden | P2PRequired
  datatype RelayMode = Splice | Forward

  datatype Rule = Rule(
    id: string,
    callerPattern: string,
    targetPattern: string,
    methodPattern: string,   // "" matches anything
    decision: Decision,
    expiresUnixMs: int,      // 0 = never
    p2p: P2PMode,
    relay: RelayMode)

  datatype Result = Result(decision: Decision, reason: string, p2p: P2PMode, relay: RelayMode)

  datatype Query = Query(caller: string, target: string, call: string)

  const NO_SNAPSHOT := Result(Deny, "no policy snapshot", P2PAllowed, Splice)
  const NO_RULE := Result(Deny, "no matching rule", P2PAllowed, Splice)

  /** FORBIDDEN beats REQUIRED beats ALLOWED. */
  function CombineP2PModes(a: P2PMode, b: P2PMode): P2PMode {
    if a == P2PForbidden || b == P2PForbidden then P2PForbidden
    else if a == P2PRequired || b == P2PRequired then P2PRequired
    else P2PAllowed
  }

  predicate Expired(r: Rule, nowMs: int) {
    r.expiresUnixMs > 0 && nowMs >= r.expiresUnixMs
  }

  /** The rule is in force at `nowMs` and all three of its patterns match the query. */
  ghost predicate Applies(r: Rule, q: Query, nowMs: int) {
    && !Expired(r, nowMs)
    && Glob.Matches(r.callerPattern, q.caller)
    && Glob.Matches(r.targetPattern, q.target)
    && (r.methodPattern != "" ==> Glob.Matches(r.methodPattern, q.call))
  }

  predicate StarTarget(r: Rule) {
    Glob.STAR in r.targetPattern
  }

  /** The first rule of a list that applies. */
  ghost function FirstMatch(rs: seq<Rule>, q: Query, nowMs: int): Option<Rule> {
    if rs == [] then None
    else if Applies(rs[0], q, nowMs) then Some(rs[0])
    else FirstMatch(rs[1..], q, nowMs)
  }

  lemma {:induction false} FirstMatchIsFirst(rs: seq<Rule>, q: Query, nowMs: int)
    ensures FirstMatch(rs, q, nowMs).None? ==> forall r :: r in rs ==> !Applies(r, q, nowMs)
    ensures FirstMatch(rs, q, nowMs).Some? ==>
              exists i :: 0 <= i < |rs| && FirstMatch(rs, q, nowMs) == Some(rs[i]) && Applies(rs[i], q, nowMs)
                          && forall j :: 0 <= j < i ==> !Applies(rs[j], q, nowMs)
  {
    if rs != [] && !Applies(rs[0], q, nowMs) {
      var m := FirstMatch(rs[1..], q, nowMs);
      FirstMatchIsFirst(rs[1..], q, nowMs);
      assert forall j :: 0 < j < |rs| ==> rs[j] == rs[1..][j - 1];
      if m.Some? {
        var i :| 0 <= i < |rs[1..]| && m == Some(rs[1..][i]) && Applies(rs[1..][i], q, nowMs)
                 && forall j :: 0 <= j < i ==> !Applies(rs[1..][j], q, nowMs);
        assert rs[i + 1] == rs[1..][i];
      }
    }
  }

  /** Every field of the result comes from the rule. */
  predicate ComesFrom(res: Result, r: Rule) {
    res.decision == r.decision && res.reason == r.id && res.p2p == r.p2p && res.relay == r.relay
  }

  /** Nobody allowed it, so it is denied. */
  predicate ClosedWorld(res: Result) {
    res.decision == Deny && res.reason == "no matching rule" && res.p2p == P2PAllowed && res.relay == Splice
  }

  function Verdict(m: Option<Rule>): (res: Result)
    ensures if m.Some? then ComesFrom(res, m.value) else ClosedWorld(res)
  {
    match m
    case None => NO_RULE
    case Some(r) => Result(r.decision, r.id, r.p2p, r.relay)
  }

  method MatchFirst(rs: seq<Rule>, q: Query, nowMs: int) returns (m: Option<Rule>)
    ensures m == FirstMatch(rs, q, nowMs)
  {
    var i := 0;
    while i < |rs|
      invariant 0 <= i <= |rs|
      invariant FirstMatch(rs, q, nowMs) == FirstMatch(rs[i..], q, nowMs)
    {
      var r := rs[i];
      assert rs[i..][0] == r && rs[i..][1..] == rs[i + 1..];
      i := i + 1;
      if Expired(r, nowMs) { continue; }
      var callerOk := Glob.MatchGlob(r.callerPattern, q.caller);
      if !callerOk { continue; }
      var targetOk := Glob.MatchGlob(r.targetPattern, q.target);
      if !targetOk { continue; }
      if r.methodPattern != "" {
        var methodOk := Glob.MatchGlob(r.methodPattern, q.call);
        if !methodOk { continue; }
      }
      return Some(r);
    }
    return None;
  }

  // The target index

  datatype Snapshot = Snapshot(byTarget: map<string, seq<Rule>>, wildcard: seq<Rule>)

  function WithStar(rules: seq<Rule>): seq<Rule> {
    if rules == [] then []
    else (if StarTarget(rules[0]) then [rules[0]] else []) + WithStar(rules[1..])
  }

  function WithoutStar(rules: seq<Rule>): seq<Rule> {
    if rules == [] then []
    else (if StarTarget(rules[0]) then [] else [rules[0]]) + WithoutStar(rules[1..])
  }

  /** The rules naming exactly the target `t`, in order. */
  function Naming(rules: seq<Rule>, t: string): seq<Rule> {
    if rules == [] then []
    else (if !StarTarget(rules[0]) && rules[0].targetPattern == t then [rules[0]] else []) + Naming(rules[1..], t)
  }

  /** The list the index stands for: rules with a plain target first, then the others. */
  function PlainFirst(rules: seq<Rule>): seq<Rule> {
    WithoutStar(rules) + WithStar(rules)
  }

  ghost predicate Indexes(s: Snapshot, rules: seq<Rule>) {
    && s.wildcard == WithStar(rules)
    && forall t :: (t in s.byTarget <==> Naming(rules, t) != [])
                && (t in s.byTarget ==> s.byTarget[t] == Naming(rules, t))
  }

  lemma {:induction false} StarSnoc(rules: seq<Rule>, r: Rule)
    ensures WithStar(rules + [r]) == WithStar(rules) + (if StarTarget(r) then [r] else [])
  {
    if rules == [] {
      assert rules + [r] == [r];
      assert WithStar([r][1..]) == [];
    } else {
      StarSnoc(rules[1..], r);
      assert (rules + [r])[1..] == rules[1..] + [r];
    }
  }

  lemma {:induction false} NamingSnoc(rules: seq<Rule>, r: Rule, t: string)
    ensures Naming(rules + [r], t) == Naming(rules, t) + (if !StarTarget(r) && r.targetPattern == t then [r] else [])
  {
    if rules == [] {
      assert rules + [r] == [r];
      assert Naming([r][1..], t) == [];
    } else {
      NamingSnoc(rules[1..], r, t);
      assert (rules + [r])[1..] == rules[1..] + [r];
    }
  }

  function Bucket(s: Snapshot, t: string): seq<Rule> {
    if t in s.byTarget then s.byTarget[t] else []
  }

  /** The index with one more rule. */
  function Filed(s: Snapshot, r: Rule): Snapshot {
    if StarTarget(r) then s.(wildcard := s.wildcard + [r])
    else s.(byTarget := s.byTarget[r.targetPattern := Bucket(s, r.targetPattern) + [r]])
  }

  lemma IndexSnoc(s: Snapshot, rules: seq<Rule>, r: Rule)
    requires Indexes(s, rules)
    ensures Indexes(Filed(s, r), rules + [r])
  {
    StarSnoc(rules, r);
    forall t ensures Naming(rules + [r], t)
                  == Naming(rules, t) + (if !StarTarget(r) && r.targetPattern == t then [r] else [])
    {
      NamingSnoc(rules, r, t);
    }
  }

  method BuildSnapshot(rules: seq<Rule>) returns (s: Snapshot)
    ensures Indexes(s, rules)
  {
    var byTarget: map<string, seq<Rule>> := map[];
    var wildcard: seq<Rule> := [];
    for i := 0 to |rules|
      invariant Indexes(Snapshot(byTarget, wildcard), rules[..i])
    {
      var r := rules[i];
      assert rules[..i + 1] == rules[..i] + [r];
      IndexSnoc(Snapshot(byTarget, wildcard), rules[..i], r);
      if StarTarget(r) {
        wildcard := wildcard + [r];
        continue;
      }
      var bucket := if r.targetPattern in byTarget then byTarget[r.targetPattern] else [];
      byTarget := byTarget[r.targetPattern := bucket + [r]];
    }
    assert rules[..|rules|] == rules;
    return Snapshot(byTarget, wildcard);
  }

  /** The rule an index picks: the exact bucket first, the wildcard list when that misses. */
  ghost function Select(s: Snapshot, q: Query, nowMs: int): Option<Rule> {
    var exact := if q.target in s.byTarget then FirstMatch(s.byTarget[q.target], q, nowMs) else None;
    if exact.Some? then exact else FirstMatch(s.wildcard, q, nowMs)
  }

  // What an answer says

  ghost predicate NoneApplies(rs: seq<Rule>, q: Query, nowMs: int) {
    forall i :: 0 <= i < |rs| ==> !Applies(rs[i], q, nowMs)
  }

  /** The result comes from the first rule of the list that applies. */
  ghost predicate FirstSays(rs: seq<Rule>, q: Query, nowMs: int, res: Result) {
    exists i :: 0 <= i < |rs| && Applies(rs[i], q, nowMs) && NoneApplies(rs[..i], q, nowMs) && ComesFrom(res, rs[i])
  }

  /** What a snapshot says: its bucket for the target first, then its wildcard list, then no. */
  ghost predicate SnapshotSays(s: Snapshot, q: Query, nowMs: int, res: Result) {
    || FirstSays(Bucket(s, q.target), q, nowMs, res)
    || (NoneApplies(Bucket(s, q.target), q, nowMs) && FirstSays(s.wildcard, q, nowMs, res))
    || (NoneApplies(Bucket(s, q.target), q, nowMs) && NoneApplies(s.wildcard, q, nowMs) && ClosedWorld(res))
  }

  lemma FirstMatchSays(rs: seq<Rule>, q: Query, nowMs: int)
    ensures var m := FirstMatch(rs, q, nowMs);
            if m.Some? then FirstSays(rs, q, nowMs, Verdict(m)) else NoneApplies(rs, q, nowMs)
  {
    FirstMatchIsFirst(rs, q, nowMs);
    var m := FirstMatch(rs, q, nowMs);
    if m.Some? {
      var i :| 0 <= i < |rs| && m == Some(rs[i]) && Applies(rs[i], q, nowMs)
               && forall j :: 0 <= j < i ==> !Applies(rs[j], q, nowMs);
      assert NoneApplies(rs[..i], q, nowMs);
    }
  }

  lemma SelectSays(s: Snapshot, q: Query, nowMs: int)
    ensures SnapshotSays(s, q, nowMs, Verdict(Select(s, q, nowMs)))
  {
    FirstMatchSays(Bucket(s, q.target), q, nowMs);
    FirstMatchSays(s.wildcard, q, nowMs);
  }

  method SnapshotDecide(s: Option<Snapshot>, q: Query, nowMs: int) returns (res: Result)
    ensures s.None? ==> res.decision == Deny && res.reason == "no policy snapshot"
    ensures s.Some? ==> SnapshotSays(s.value, q, nowMs, res) && res == Verdict(Select(s.value, q, nowMs))
  {
    if s.None? { return NO_SNAPSHOT; }
    SelectSays(s.value, q, nowMs);
    if q.target in s.value.byTarget {
      var r := MatchFirst(s.value.byTarget[q.target], q, nowMs);
      if r.Some? { return Verdict(r); }
    }
    var r := MatchFirst(s.value.wildcard, q, nowMs);
    return Verdict(r);
  }

  lemma {:induction false} FirstMatchConcat(a: seq<Rule>, b: seq<Rule>, q: Query, nowMs: int)
    ensures FirstMatch(a + b, q, nowMs)
         == if FirstMatch(a, q, nowMs).Some? then FirstMatch(a, q, nowMs) else FirstMatch(b, q, nowMs)
  {
    if a == [] {
      assert a + b == b;
    } else {
      FirstMatchConcat(a[1..], b, q, nowMs);
      assert (a + b)[1..] == a[1..] + b;
    }
  }

  /** A plain-target rule that applies names the query's target, so its bucket loses nothing. */
  lemma {:induction false} BucketSuffices(rules: seq<Rule>, q: Query, nowMs: int)
    ensures FirstMatch(WithoutStar(rules), q, nowMs) == FirstMatch(Naming(rules, q.target), q, nowMs)
  {
    if rules != [] {
      var r := rules[0];
      BucketSuffices(rules[1..], q, nowMs);
      if !StarTarget(r) {
        Glob.StarFreeMatchesOnlyItself(r.targetPattern, q.target);
        FirstMatchConcat([r], WithoutStar(rules[1..]), q, nowMs);
        if r.targetPattern == q.target {
          FirstMatchConcat([r], Naming(rules[1..], q.target), q, nowMs);
        } else {
          assert FirstMatch([r], q, nowMs).None?;
          assert Naming(rules, q.target) == Naming(rules[1..], q.target);
        }
      } else {
        assert WithoutStar(rules) == WithoutStar(rules[1..]);
        assert Naming(rules, q.target) == Naming(rules[1..], q.target);
      }
    }
  }

  /** The index answers every query as a plain scan of `PlainFirst(rules)` would. */
  lemma IndexEqualsScan(s: Snapshot, rules: seq<Rule>, q: Query, nowMs: int)
    requires Indexes(s, rules)
    ensures Select(s, q, nowMs) == FirstMatch(PlainFirst(rules), q, nowMs)
  {
    FirstMatchConcat(WithoutStar(rules), WithStar(rules), q, nowMs);
    BucketSuffices(rules, q, nowMs);
    assert q.target !in s.byTarget ==> FirstMatch(Naming(rules, q.target), q, nowMs).None?;
  }

  // Listing an unordered rule set

  /** `keys` lists every id of the working set exactly once. */
  ghost predicate Enumerates(keys: seq<string>, m: map<string, Rule>) {
    && (forall k :: k in keys <==> k in m)
    && forall i, j :: 0 <= i < j < |keys| ==> keys[i] != keys[j]
  }

  function Listing(keys: seq<string>, m: map<string, Rule>): (rs: seq<Rule>)
    requires forall k :: k in keys ==> k in m
    ensures |rs| == |keys| && forall i :: 0 <= i < |rs| ==> rs[i] == m[keys[i]]
  {
    seq(|keys|, i requires 0 <= i < |keys| => m[keys[i]])
  }

  /** Some listing order of the working set makes the engine pick `ans`. */
  ghost predicate MayAnswer(m: map<string, Rule>, q: Query, nowMs: int, ans: Option<Rule>) {
    exists keys :: Enumerates(keys, m) && ans == FirstMatch(PlainFirst(Listing(keys, m)), q, nowMs)
  }

  /** `r` applies, and it has a plain target unless no applying rule does. */
  ghost predicate InWinningTier(m: map<string, Rule>, q: Query, nowMs: int, r: Rule) {
    && (exists k :: k in m && m[k] == r)
    && Applies(r, q, nowMs)
    && (StarTarget(r) ==> forall k :: k in m && Applies(m[k], q, nowMs) ==> StarTarget(m[k]))
  }

  lemma {:induction false} FilterMembers(rules: seq<Rule>)
    ensures forall r :: r in WithStar(rules) <==> r in rules && StarTarget(r)
    ensures forall r :: r in WithoutStar(rules) <==> r in rules && !StarTarget(r)
  {
    if rules != [] {
      FilterMembers(rules[1..]);
      assert rules == [rules[0]] + rules[1..];
    }
  }

  /** Any one key can be listed first. */
  lemma EnumerationFrom(keys: set<string>, m: map<string, Rule>, first: string) returns (ks: seq<string>)
    requires keys <= m.Keys && first in keys
    ensures ks != [] && ks[0] == first
    ensures forall k :: k in ks <==> k in keys
    ensures forall i, j :: 0 <= i < j < |ks| ==> ks[i] != ks[j]
    decreases keys
  {
    var rest := keys - {first};
    if rest == {} {
      ks := [first];
    } else {
      var next :| next in rest;
      var tail := EnumerationFrom(rest, m, next);
      ks := [first] + tail;
    }
  }

  lemma SomeEnumeration(m: map<string, Rule>) returns (ks: seq<string>)
    ensures Enumerates(ks, m)
  {
    if m.Keys == {} {
      ks := [];
    } else {
      var first :| first in m.Keys;
      ks := EnumerationFrom(m.Keys, m, first);
    }
  }

  lemma ListingMembers(keys: seq<string>, m: map<string, Rule>)
    requires Enumerates(keys, m)
    ensures forall r :: r in Listing(keys, m) <==> exists k :: k in m && m[k] == r
  {
    forall k | k in m ensures m[k] in Listing(keys, m) {
      var i :| 0 <= i < |keys| && keys[i] == k;
      assert Listing(keys, m)[i] == m[k];
    }
    forall r | r in Listing(keys, m) ensures exists k :: k in m && m[k] == r {
      var i :| 0 <= i < |keys| && Listing(keys, m)[i] == r;
      assert keys[i] in keys;
    }
  }

  lemma AnswerIsInWinningTier(keys: seq<string>, m: map<string, Rule>, q: Query, nowMs: int)
    requires Enumerates(keys, m)
    ensures var ans := FirstMatch(PlainFirst(Listing(keys, m)), q, nowMs);
            && (ans.None? <==> forall k :: k in m ==> !Applies(m[k], q, nowMs))
            && (ans.Some? ==> InWinningTier(m, q, nowMs, ans.value))
  {
    var list := Listing(keys, m);
    var plain, star := WithoutStar(list), WithStar(list);
    ListingMembers(keys, m);
    FilterMembers(list);
    FirstMatchConcat(plain, star, q, nowMs);
    FirstMatchIsFirst(plain, q, nowMs);
    FirstMatchIsFirst(star, q, nowMs);
    var ans := FirstMatch(PlainFirst(list), q, nowMs);
    forall k | k in m && Applies(m[k], q, nowMs)
      ensures ans.Some? && (StarTarget(ans.value) ==> StarTarget(m[k]))
    {
      assert m[k] in list;
      if !StarTarget(m[k]) {
        assert m[k] in plain;
        assert FirstMatch(plain, q, nowMs).Some?;
      } else {
        assert m[k] in star;
      }
    }
    if ans.Some? {
      assert ans.value in plain || ans.value in star;
    }
  }

  lemma FirstListedWins(keys: seq<string>, m: map<string, Rule>, q: Query, nowMs: int)
    requires Enumerates(keys, m) && keys != [] && InWinningTier(m, q, nowMs, m[keys[0]])
    ensures FirstMatch(PlainFirst(Listing(keys, m)), q, nowMs) == Some(m[keys[0]])
  {
    var list := Listing(keys, m);
    var plain, star := WithoutStar(list), WithStar(list);
    FirstMatchConcat(plain, star, q, nowMs);
    ListingMembers(keys, m);
    FilterMembers(list);
    if !StarTarget(list[0]) {
      assert plain[0] == list[0];
    } else {
      assert star[0] == list[0];
      FirstMatchIsFirst(plain, q, nowMs);
      forall r | r in plain ensures !Applies(r, q, nowMs) {
        assert r in list;
      }
    }
  }

  /**
   The answers the engine may give, over all listing orders: no rule exactly when none
   applies, and otherwise any rule of the winning tier and no other.
   */
  lemma PossibleAnswers(m: map<string, Rule>, q: Query, nowMs: int, ans: Option<Rule>)
    ensures MayAnswer(m, q, nowMs, ans) <==>
            match ans
            case None => forall k :: k in m ==> !Applies(m[k], q, nowMs)
            case Some(r) => InWinningTier(m, q, nowMs, r)
  {
    if MayAnswer(m, q, nowMs, ans) {
      var keys :| Enumerates(keys, m) && ans == FirstMatch(PlainFirst(Listing(keys, m)), q, nowMs);
      AnswerIsInWinningTier(keys, m, q, nowMs);
    }
    match ans
    case None =>
      if forall k :: k in m ==> !Applies(m[k], q, nowMs) {
        var keys := SomeEnumeration(m);
        AnswerIsInWinningTier(keys, m, q, nowMs);
      }
    case Some(r) =>
      if InWinningTier(m, q, nowMs, r) {
        var k :| k in m && m[k] == r;
        var keys := EnumerationFrom(m.Keys, m, k);
        FirstListedWins(keys, m, q, nowMs);
      }
  }

  /** What a rule set says, listed in any order: a rule of the winning tier, or no if nothing applies. */
  ghost predicate RulesSay(m: map<string, Rule>, q: Query, nowMs: int, res: Result) {
    || (exists k :: k in m && InWinningTier(m, q, nowMs, m[k]) && ComesFrom(res, m[k]))
    || ((forall k :: k in m ==> !Applies(m[k], q, nowMs)) && ClosedWorld(res))
  }

  /** The results the engine may return are exactly those the rule set says. */
  lemma PossibleResults(m: map<string, Rule>, q: Query, nowMs: int, res: Result)
    ensures (exists ans :: MayAnswer(m, q, nowMs, ans) && res == Verdict(ans)) <==> RulesSay(m, q, nowMs, res)
  {
    if ans :| MayAnswer(m, q, nowMs, ans) && res == Verdict(ans) {
      PossibleAnswers(m, q, nowMs, ans);
    }
    if k :| k in m && InWinningTier(m, q, nowMs, m[k]) && ComesFrom(res, m[k]) {
      PossibleAnswers(m, q, nowMs, Some(m[k]));
      assert res == Verdict(Some(m[k]));
    }
    if (forall k :: k in m ==> !Applies(m[k], q, nowMs)) && ClosedWorld(res) {
      PossibleAnswers(m, q, nowMs, None);
      assert res == Verdict(None);
    }
  }

  /** Only a rule can allow: without an applying rule, and with a winning tier that denies, the answer is no. */
  lemma AllowNeedsARule(m: map<string, Rule>, q: Query, nowMs: int, res: Result)
    requires RulesSay(m, q, nowMs, res)
    ensures res.decision == Allow ==>
              exists k :: k in m && InWinningTier(m, q, nowMs, m[k]) && m[k].decision == Allow && ComesFrom(res, m[k])
    ensures (forall k :: k in m && InWinningTier(m, q, nowMs, m[k]) ==> m[k].decision == Deny) ==> res.decision == Deny
    ensures (forall k :: k in m ==> !Applies(m[k], q, nowMs)) ==> res.decision == Deny
  {}

  /**
   Alone in the set, a rule answers exactly the queries that its patterns match, until the
   millisecond of its expiry; an expiry that is not positive never comes, and an empty method
   pattern matches every method.
   */
  lemma LoneRuleAnswersIff(r: Rule, q: Query, nowMs: int)
    ensures MayAnswer(map[r.id := r], q, nowMs, Some(r)) <==>
            && (r.expiresUnixMs <= 0 || nowMs < r.expiresUnixMs)
            && Glob.Matches(r.callerPattern, q.caller) && Glob.Matches(r.targetPattern, q.target)
            && (r.methodPattern == "" || Glob.Matches(r.methodPattern, q.call))
  {
    var m := map[r.id := r];
    assert m[r.id] == r;
    PossibleAnswers(m, q, nowMs, Some(r));
  }

  predicate SameEffect(a: Result, b: Result) {
    a.decision == b.decision && a.p2p == b.p2p && a.relay == b.relay
  }

  /**
   The decision and the modes do not depend on the listing order exactly when the rules of
   the winning tier agree on them.
   */
  lemma OrderIndependentIffTierAgrees(m: map<string, Rule>, q: Query, nowMs: int)
    ensures (forall a, b :: MayAnswer(m, q, nowMs, a) && MayAnswer(m, q, nowMs, b)
                       ==> SameEffect(Verdict(a), Verdict(b)))
       <==> (forall r, r' :: InWinningTier(m, q, nowMs, r) && InWinningTier(m, q, nowMs, r')
                       ==> SameEffect(Verdict(Some(r)), Verdict(Some(r'))))
  {
    forall ans: Option<Rule>
      ensures MayAnswer(m, q, nowMs, ans) <==>
              match ans
              case None => forall k :: k in m ==> !Applies(m[k], q, nowMs)
              case Some(r) => InWinningTier(m, q, nowMs, r)
    {
      PossibleAnswers(m, q, nowMs, ans);
    }
    if exists r, r' :: InWinningTier(m, q, nowMs, r) && InWinningTier(m, q, nowMs, r')
                       && !SameEffect(Verdict(Some(r)), Verdict(Some(r'))) {
      var r, r' :| InWinningTier(m, q, nowMs, r) && InWinningTier(m, q, nowMs, r')
                   && !SameEffect(Verdict(Some(r)), Verdict(Some(r')));
      assert MayAnswer(m, q, nowMs, Some(r)) && MayAnswer(m, q, nowMs, Some(r'));
    }
  }

  /** Two catch-all rules that disagree. */
  const CATCH_ALL := Rule("allow", "*", "*", "", Allow, 0, P2PAllowed, Splice)
  const CONFLICTING := map["allow" := CATCH_ALL, "deny" := CATCH_ALL.(id := "deny", decision := Deny)]

  /** It does depend on it: with two catch-all rules, both decisions are possible answers to every query. */
  lemma ListingOrderDecides(q: Query, nowMs: int)
    ensures MayAnswer(CONFLICTING, q, nowMs, Some(CONFLICTING["allow"]))
    ensures MayAnswer(CONFLICTING, q, nowMs, Some(CONFLICTING["deny"]))
    ensures !SameEffect(Verdict(Some(CONFLICTING["allow"])), Verdict(Some(CONFLICTING["deny"])))
  {
    Glob.LoneStarMatchesAll(q.caller);
    Glob.LoneStarMatchesAll(q.target);
    assert CATCH_ALL.targetPattern[0] == Glob.STAR;
    forall k | k in CONFLICTING ensures InWinningTier(CONFLICTING, q, nowMs, CONFLICTING[k]) {}
    PossibleAnswers(CONFLICTING, q, nowMs, Some(CONFLICTING["allow"]));
    PossibleAnswers(CONFLICTING, q, nowMs, Some(CONFLICTING["deny"]));
  }

  // The engine

  /** Later rules replace earlier ones with the same id. */
  function LastWins(rules: seq<Rule>): map<string, Rule> {
    if rules == [] then map[]
    else LastWins(rules[..|rules| - 1])[rules[|rules| - 1].id := rules[|rules| - 1]]
  }

  class Engine {
    var rules: map<string, Rule>   // the working set
    var cur: Snapshot              // what readers see

    /** The published snapshot indexes some listing of the working set. */
    ghost predicate Valid()
      reads this
    {
      exists keys :: Enumerates(keys, rules) && Indexes(cur, Listing(keys, rules))
    }

    constructor ()
      ensures Valid() && rules == map[]
    {
      rules := map[];
      cur := Snapshot(map[], []);
      new;
      assert Enumerates([], rules) && Indexes(cur, Listing([], rules));
    }

    /** List the working set in any order, index it, publish the index. */
    method Rebuild()
      modifies this`cur
      ensures Valid()
    {
      var list: seq<Rule> := [];
      ghost var keys: seq<string> := [];
      var todo := rules.Keys;
      while todo != {}
        invariant todo <= rules.Keys
        invariant forall k :: k in keys <==> k in rules && k !in todo
        invariant forall i, j :: 0 <= i < j < |keys| ==> keys[i] != keys[j]
        invariant list == Listing(keys, rules)
        decreases todo
      {
        var k :| k in todo;
        list := list + [rules[k]];
        keys := keys + [k];
        todo := todo - {k};
      }
      cur := BuildSnapshot(list);
      assert Enumerates(keys, rules) && Indexes(cur, Listing(keys, rules));
    }

    method Set(rs: seq<Rule>)
      modifies this
      ensures Valid() && rules == LastWins(rs)
    {
      rules := map[];
      for i := 0 to |rs|
        invariant rules == LastWins(rs[..i])
      {
        assert rs[..i + 1][..i] == rs[..i];
        rules := rules[rs[i].id := rs[i]];
      }
      assert rs[..|rs|] == rs;
      Rebuild();
    }

    method Add(r: Rule)
      modifies this
      ensures Valid() && rules == old(rules)[r.id := r]
    {
      rules := rules[r.id := r];
      Rebuild();
    }

    method Remove(id: string)
      modifies this
      ensures Valid() && rules == old(rules) - {id}
    {
      rules := rules - {id};
      Rebuild();
    }

    /** The answer is one the working set may give under some listing order. */
    method Decide(q: Query, nowMs: int) returns (res: Result)
      requires Valid()
      ensures RulesSay(rules, q, nowMs, res) && SnapshotSays(cur, q, nowMs, res)
    {
      ghost var keys :| Enumerates(keys, rules) && Indexes(cur, Listing(keys, rules));
      IndexEqualsScan(cur, Listing(keys, rules), q, nowMs);
      assert MayAnswer(rules, q, nowMs, Select(cur, q, nowMs));
      res := SnapshotDecide(Some(cur), q, nowMs);
      PossibleResults(rules, q, nowMs, res);
    }
  }
}
