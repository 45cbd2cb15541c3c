/**
 The successor list: every other relay of the fleet, same-region relays first, each group in
 id order. `slices.SortFunc` is not stable, so it is modelled by its contract alone: some
 ordered rearrangement.
 */
module Fleet {
  import opened Options

  datatype Relay = Relay(id: string, region: string, endpoint: string)

  // Go's string order

  predicate Below(a: string, b: string) {
    if b == "" then false
    else if a == "" then true
    else a[0] < b[0] || (a[0] == b[0] && Below(a[1..], b[1..]))
  }

  lemma {:induction false} BelowIsIrreflexive(a: string)
    ensures !Below(a, a)
  {
    if a != "" { BelowIsIrreflexive(a[1..]); }
  }

  lemma {:induction false} BelowIsTotal(a: string, b: string)
    ensures a == b || Below(a, b) || Below(b, a)
    ensures !(Below(a, b) && Below(b, a)) && !Below(a, a)
    decreases |a| + |b|
  {
    if a != "" && b != "" {
      BelowIsTotal(a[1..], b[1..]);
      assert a == [a[0]] + a[1..] && b == [b[0]] + b[1..];
    }
    if a != "" { BelowIsIrreflexive(a); }
  }

  lemma {:induction false} BelowIsTransitive(a: string, b: string, c: string)
    requires Below(a, b) && Below(b, c)
    ensures Below(a, c)
    decreases |a|
  {
    if a != "" && b != "" && c != "" && a[0] == b[0] == c[0] { BelowIsTransitive(a[1..], b[1..], c[1..]); }
  }

  /** At position `k` the first difference: `a` ends there, or has the smaller character. */
  predicate DiffersAt(a: string, b: string, k: nat) {
    k <= |a| && k < |b| && a[..k] == b[..k] && (k == |a| || a[k] < b[k])
  }

  /** The order is the usual one: `a` is a proper prefix of `b`, or smaller where they first differ. */
  lemma {:induction false} BelowIff(a: string, b: string)
    ensures Below(a, b) <==> exists k: nat :: DiffersAt(a, b, k)
    decreases |a|
  {
    forall k: nat ensures DiffersAt(a, b, k) && k > 0 ==> a != "" && b != "" && a[0] == b[0] {
      if DiffersAt(a, b, k) && k > 0 { assert a[..k][0] == b[..k][0]; }
    }
    if a != "" && b != "" && a[0] == b[0] {
      BelowIff(a[1..], b[1..]);
      if k: nat :| DiffersAt(a[1..], b[1..], k) {
        assert a[..k + 1] == [a[0]] + a[1..][..k] && b[..k + 1] == [b[0]] + b[1..][..k];
        assert DiffersAt(a, b, k + 1);
      }
      if k: nat :| DiffersAt(a, b, k) {
        assert k > 0;
        assert a[1..][..k - 1] == a[..k][1..] && b[1..][..k - 1] == b[..k][1..];
        assert DiffersAt(a[1..], b[1..], k - 1);
      }
    } else {
      assert a[..0] == b[..0];
      assert b != "" && (a == "" || a[0] < b[0]) ==> DiffersAt(a, b, 0);
    }
  }

  // Ordered rearrangements

  ghost predicate Sorted<T>(s: seq<T>, le: (T, T) -> bool) {
    forall i, j :: 0 <= i < j < |s| ==> le(s[i], s[j])
  }

  lemma ConsSorted<T>(x: T, s: seq<T>, le: (T, T) -> bool)
    requires Sorted(s, le) && forall y :: y in s ==> le(x, y)
    ensures Sorted([x] + s, le)
  {
    var t := [x] + s;
    forall i, j | 0 <= i < j < |t| ensures le(t[i], t[j]) { assert t[j] == s[j - 1] && s[j - 1] in s; }
  }

  lemma DropSame<T>(a: seq<T>, b: seq<T>, k: nat)
    requires a != [] && k < |b| && b[k] == a[0] && multiset(a) == multiset(b)
    ensures multiset(a[1..]) == multiset(b[..k] + b[k + 1..])
  {
    assert a == [a[0]] + a[1..] && b == b[..k] + [b[k]] + b[k + 1..];
    assert multiset(a[1..]) == multiset(a) - multiset{a[0]};
    assert multiset(b[..k] + b[k + 1..]) == multiset(b) - multiset{a[0]};
  }

  lemma FindIn<T>(x: T, b: seq<T>) returns (k: nat)
    requires x in multiset(b)
    ensures k < |b| && b[k] == x
  {
    k :| 0 <= k < |b| && b[k] == x;
  }

  /** Only equal elements of `s` are ordered both ways. */
  ghost predicate Antisymmetric<T>(s: seq<T>, le: (T, T) -> bool) {
    forall i, j :: 0 <= i < |s| && 0 <= j < |s| && le(s[i], s[j]) && le(s[j], s[i]) ==> s[i] == s[j]
  }

  lemma HeadsAgree<T>(a: seq<T>, b: seq<T>, le: (T, T) -> bool)
    requires a != [] && Sorted(a, le) && Sorted(b, le) && multiset(a) == multiset(b) && Antisymmetric(a, le)
    ensures b != [] && a[0] == b[0]
  {
    assert a[0] in multiset(a);
    var k := FindIn(a[0], b);
    assert b[0] in multiset(b);
    var m := FindIn(b[0], a);
  }

  lemma TailFacts<T>(a: seq<T>, le: (T, T) -> bool)
    requires a != [] && Sorted(a, le)
    ensures Sorted(a[1..], le)
    ensures Antisymmetric(a, le) ==> Antisymmetric(a[1..], le)
  {}

  lemma DropHeads<T>(a: seq<T>, b: seq<T>)
    requires a != [] && b != [] && a[0] == b[0] && multiset(a) == multiset(b)
    ensures multiset(a[1..]) == multiset(b[1..])
    ensures a[1..] == b[1..] ==> a == b
  {
    DropSame(a, b, 0);
    assert b[..0] + b[1..] == b[1..];
    assert a == [a[0]] + a[1..] && b == [b[0]] + b[1..];
  }

  /** If only equal elements are ordered both ways, an ordered rearrangement is unique. */
  lemma {:induction false} SortedIsUnique<T>(a: seq<T>, b: seq<T>, le: (T, T) -> bool)
    requires Sorted(a, le) && Sorted(b, le) && multiset(a) == multiset(b) && Antisymmetric(a, le)
    ensures a == b
  {
    if a == [] {
      assert |multiset(b)| == |b|;
    } else {
      HeadsAgree(a, b, le);
      DropHeads(a, b);
      TailFacts(a, le);
      TailFacts(b, le);
      SortedIsUnique(a[1..], b[1..], le);
    }
  }

  /** Earlier group first, then by id. */
  predicate NotAfter(region: string, r: Relay, s: Relay) {
    var (near, near') := (r.region == region, s.region == region);
    if near == near' then r.id == s.id || Below(r.id, s.id) else near
  }

  function Order(region: string): (Relay, Relay) -> bool {
    (r: Relay, s: Relay) => NotAfter(region, r, s)
  }

  lemma NotAfterIsTotal(region: string, r: Relay, s: Relay)
    ensures NotAfter(region, r, s) || NotAfter(region, s, r)
    ensures NotAfter(region, r, s) && NotAfter(region, s, r) ==>
              r.id == s.id && (r.region == region <==> s.region == region)
  {
    BelowIsTotal(r.id, s.id);
  }

  predicate Eligible(selfID: string, r: Relay) {
    r.id != selfID && r.endpoint != ""
  }

  function Others(selfID: string, fleet: seq<Relay>): seq<Relay> {
    if fleet == [] then []
    else Others(selfID, fleet[..|fleet| - 1])
         + (if Eligible(selfID, fleet[|fleet| - 1]) then [fleet[|fleet| - 1]] else [])
  }

  function Endpoints(order: seq<Relay>): (es: seq<string>)
    ensures |es| == |order| && forall i :: 0 <= i < |es| ==> es[i] == order[i].endpoint
  {
    seq(|order|, i requires 0 <= i < |order| => order[i].endpoint)
  }

  /** `order` lists exactly the other relays with an endpoint, same region first, each group by id. */
  ghost predicate Ranks(selfID: string, region: string, fleet: seq<Relay>, order: seq<Relay>) {
    multiset(order) == multiset(Others(selfID, fleet)) && Sorted(order, Order(region))
  }

  // The source's loop and sort

  predicate IdNotAfter(r: Relay, s: Relay) { r.id == s.id || Below(r.id, s.id) }

  function InsertOne(t: seq<Relay>, r: Relay): seq<Relay> {
    if t == [] then [r]
    else if IdNotAfter(t[0], r) then [t[0]] + InsertOne(t[1..], r)
    else [r] + t
  }

  /** One result `slices.SortFunc` may give for the id comparison. */
  function SortById(s: seq<Relay>): seq<Relay> {
    if s == [] then [] else InsertOne(SortById(s[..|s| - 1]), s[|s| - 1])
  }

  lemma {:induction false} InsertOneAdds(t: seq<Relay>, r: Relay)
    ensures multiset(InsertOne(t, r)) == multiset(t) + multiset{r}
  {
    if t != [] {
      assert t == [t[0]] + t[1..];
      InsertOneAdds(t[1..], r);
    }
  }

  lemma {:induction false} InsertOneSorts(t: seq<Relay>, r: Relay)
    requires Sorted(t, IdNotAfter)
    ensures Sorted(InsertOne(t, r), IdNotAfter)
  {
    if t != [] {
      if IdNotAfter(t[0], r) {
        var rest := InsertOne(t[1..], r);
        InsertOneSorts(t[1..], r);
        InsertOneAdds(t[1..], r);
        forall x | x in rest ensures IdNotAfter(t[0], x) { assert x in multiset(rest); }
        ConsSorted(t[0], rest, IdNotAfter);
      } else {
        forall x | x in t ensures IdNotAfter(r, x) {
          BelowIsTotal(r.id, t[0].id);
          if Below(t[0].id, x.id) { BelowIsTransitive(r.id, t[0].id, x.id); }
        }
        ConsSorted(r, t, IdNotAfter);
      }
    }
  }

  lemma {:induction false} SortByIdSorts(s: seq<Relay>)
    ensures Sorted(SortById(s), IdNotAfter) && multiset(SortById(s)) == multiset(s)
  {
    if s != [] {
      var front, last := s[..|s| - 1], s[|s| - 1];
      assert s == front + [last];
      SortByIdSorts(front);
      InsertOneSorts(SortById(front), last);
      InsertOneAdds(SortById(front), last);
    }
  }

  lemma GroupsInOrder(region: string, near: seq<Relay>, far: seq<Relay>)
    requires Sorted(near, IdNotAfter) && Sorted(far, IdNotAfter)
    requires forall r :: r in near ==> r.region == region
    requires forall r :: r in far ==> r.region != region
    ensures Sorted(near + far, Order(region))
  {
    var all := near + far;
    forall i, j | 0 <= i < j < |all| ensures Order(region)(all[i], all[j]) {
      assert i < |near| ==> all[i] in near;
      assert i >= |near| ==> all[i] in far;
      assert j < |near| ==> all[j] in near;
      assert j >= |near| ==> all[j] in far;
    }
  }

  /** The other relays inside (or outside) the region, in fleet order. */
  function Group(selfID: string, region: string, fleet: seq<Relay>, near: bool): seq<Relay> {
    if fleet == [] then []
    else
      var r := fleet[|fleet| - 1];
      Group(selfID, region, fleet[..|fleet| - 1], near)
      + (if Eligible(selfID, r) && (r.region == region) == near then [r] else [])
  }

  lemma {:induction false} GroupsMakeOthers(selfID: string, region: string, fleet: seq<Relay>)
    ensures multiset(Group(selfID, region, fleet, true)) + multiset(Group(selfID, region, fleet, false))
         == multiset(Others(selfID, fleet))
    ensures forall r :: r in Group(selfID, region, fleet, true) ==> r.region == region
    ensures forall r :: r in Group(selfID, region, fleet, false) ==> r.region != region
  {
    if fleet != [] { GroupsMakeOthers(selfID, region, fleet[..|fleet| - 1]); }
  }

  method SplitByRegion(selfID: string, region: string, fleet: seq<Relay>) returns (same: seq<Relay>, other: seq<Relay>)
    ensures multiset(same) + multiset(other) == multiset(Others(selfID, fleet))
    ensures forall r :: r in same ==> r.region == region
    ensures forall r :: r in other ==> r.region != region
  {
    same, other := [], [];
    for i := 0 to |fleet|
      invariant same == Group(selfID, region, fleet[..i], true)
      invariant other == Group(selfID, region, fleet[..i], false)
    {
      var r := fleet[i];
      assert fleet[..i + 1][..i] == fleet[..i];
      if r.id == selfID || r.endpoint == "" { continue; }
      if r.region == region { same := same + [r]; } else { other := other + [r]; }
    }
    assert fleet[..|fleet|] == fleet;
    GroupsMakeOthers(selfID, region, fleet);
  }

  /** Sorting each group and putting the near one first ranks the fleet. */
  lemma SortedGroupsRank(selfID: string, region: string, fleet: seq<Relay>, same: seq<Relay>, other: seq<Relay>)
    requires multiset(same) + multiset(other) == multiset(Others(selfID, fleet))
    requires forall r :: r in same ==> r.region == region
    requires forall r :: r in other ==> r.region != region
    ensures Ranks(selfID, region, fleet, SortById(same) + SortById(other))
  {
    var (near, far) := (SortById(same), SortById(other));
    SortByIdSorts(same);
    SortByIdSorts(other);
    forall r | r in near ensures r.region == region { assert r in multiset(near) && r in multiset(same); }
    forall r | r in far ensures r.region != region { assert r in multiset(far) && r in multiset(other); }
    GroupsInOrder(region, near, far);
  }

  /** The two appending loops. */
  method ListEndpoints(near: seq<Relay>, far: seq<Relay>) returns (out: seq<string>)
    ensures out == Endpoints(near + far)
  {
    out := [];
    for i := 0 to |near|
      invariant out == Endpoints(near + far)[..i]
    {
      out := out + [near[i].endpoint];
    }
    for i := 0 to |far|
      invariant out == Endpoints(near + far)[..|near| + i]
    {
      out := out + [far[i].endpoint];
    }
  }

  method Successors(selfID: string, region: string, fleet: seq<Relay>) returns (out: seq<string>)
    ensures exists order :: Ranks(selfID, region, fleet, order) && out == Endpoints(order)
  {
    var same, other := SplitByRegion(selfID, region, fleet);
    SortedGroupsRank(selfID, region, fleet, same, other);
    out := ListEndpoints(SortById(same), SortById(other));
  }

  // The order is a function of the fleet

  /** Ids are distinct across the fleet. */
  predicate DistinctIds(fleet: seq<Relay>) {
    forall i, j :: 0 <= i < j < |fleet| ==> fleet[i].id != fleet[j].id
  }

  lemma {:induction false} OthersMembers(selfID: string, fleet: seq<Relay>, r: Relay)
    ensures multiset(Others(selfID, fleet))[r] == if Eligible(selfID, r) then multiset(fleet)[r] else 0
  {
    if fleet != [] {
      var n := |fleet| - 1;
      OthersMembers(selfID, fleet[..n], r);
      assert fleet == fleet[..n] + [fleet[n]];
    }
  }

  lemma SameMembers(fleet: seq<Relay>, r: Relay, s: Relay)
    requires DistinctIds(fleet) && r in fleet && s in fleet && r.id == s.id
    ensures r == s
  {
    var i :| 0 <= i < |fleet| && fleet[i] == r;
    var j :| 0 <= j < |fleet| && fleet[j] == s;
    assert i == j;
  }

  lemma RankedInFleet(selfID: string, region: string, fleet: seq<Relay>, order: seq<Relay>, r: Relay)
    requires Ranks(selfID, region, fleet, order)
    ensures r in order <==> r in fleet && Eligible(selfID, r)
  {
    OthersMembers(selfID, fleet, r);
    assert r in order <==> multiset(order)[r] > 0;
    assert r in fleet <==> multiset(fleet)[r] > 0;
  }

  /** With distinct ids, relays ordered both ways are the same relay. */
  lemma RankedOnce(selfID: string, region: string, fleet: seq<Relay>, order: seq<Relay>, r: Relay, s: Relay)
    requires DistinctIds(fleet) && Ranks(selfID, region, fleet, order) && r in order && s in order
    requires NotAfter(region, r, s) && NotAfter(region, s, r)
    ensures r == s
  {
    NotAfterIsTotal(region, r, s);
    RankedInFleet(selfID, region, fleet, order, r);
    RankedInFleet(selfID, region, fleet, order, s);
    SameMembers(fleet, r, s);
  }

  /** Any rearrangement of a fleet with distinct ids gives the same list. */
  lemma SuccessorsIgnoreFleetOrder(selfID: string, region: string, fleet: seq<Relay>, fleet': seq<Relay>,
                                   order: seq<Relay>, order': seq<Relay>)
    requires DistinctIds(fleet) && multiset(fleet) == multiset(fleet')
    requires Ranks(selfID, region, fleet, order) && Ranks(selfID, region, fleet', order')
    ensures order == order'
  {
    forall r ensures multiset(order)[r] == multiset(order')[r] {
      OthersMembers(selfID, fleet, r);
      OthersMembers(selfID, fleet', r);
    }
    assert multiset(order) == multiset(order');
    forall i, j | 0 <= i < |order| && 0 <= j < |order| && Order(region)(order[i], order[j]) && Order(region)(order[j], order[i])
      ensures order[i] == order[j]
    {
      RankedOnce(selfID, region, fleet, order, order[i], order[j]);
    }
    SortedIsUnique(order, order', Order(region));
  }

  /**
   What a ranking is: each other relay with an endpoint as often as the fleet has it and nothing
   else, no relay of the region after one of another, and ids ascending within either group.
   */
  lemma RankingMeans(selfID: string, region: string, fleet: seq<Relay>, order: seq<Relay>)
    requires Ranks(selfID, region, fleet, order)
    ensures forall r :: multiset(order)[r] == if r.id != selfID && r.endpoint != "" then multiset(fleet)[r] else 0
    ensures forall i, j :: 0 <= i < j < |order| && order[j].region == region ==> order[i].region == region
    ensures forall i, j :: 0 <= i < j < |order| && (order[i].region == region <==> order[j].region == region) ==>
              order[i].id == order[j].id || Below(order[i].id, order[j].id)
  {
    forall r ensures multiset(order)[r] == if r.id != selfID && r.endpoint != "" then multiset(fleet)[r] else 0 {
      OthersMembers(selfID, fleet, r);
    }
    forall i, j | 0 <= i < j < |order| ensures NotAfter(region, order[i], order[j]) {
      assert Order(region)(order[i], order[j]);
    }
  }

  /** Two relays of one group share an id but not an endpoint. */
  ghost predicate Ambiguous(selfID: string, region: string, fleet: seq<Relay>) {
    exists r, s :: r in fleet && s in fleet && Eligible(selfID, r) && Eligible(selfID, s)
                   && r.id == s.id && (r.region == region <==> s.region == region) && r.endpoint != s.endpoint
  }

  /** What the comparison and the result can see of a relay. */
  datatype Entry = Entry(near: bool, id: string, endpoint: string)

  function EntryOf(region: string): Relay -> Entry {
    (r: Relay) => Entry(r.region == region, r.id, r.endpoint)
  }

  predicate EntryNotAfter(e: Entry, f: Entry) {
    if e.near == f.near then e.id == f.id || Below(e.id, f.id) else e.near
  }

  function Mapped<T, U>(s: seq<T>, f: T -> U): (t: seq<U>)
    ensures |t| == |s| && forall i :: 0 <= i < |t| ==> t[i] == f(s[i])
  {
    seq(|s|, i requires 0 <= i < |s| => f(s[i]))
  }

  lemma TakeOutMapped<T, U>(b: seq<T>, f: T -> U, k: nat, rest: seq<T>)
    requires k < |b| && rest == b[..k] + b[k + 1..]
    ensures multiset(Mapped(b, f)) == multiset(Mapped(rest, f)) + multiset{f(b[k])}
  {
    var (es, er) := (Mapped(b, f), Mapped(rest, f));
    assert es == er[..k] + [es[k]] + er[k..];
    assert er == er[..k] + er[k..];
  }

  /** Rearranging a sequence rearranges its image. */
  lemma {:induction false} MappedRearranges<T, U>(a: seq<T>, b: seq<T>, f: T -> U)
    requires multiset(a) == multiset(b)
    ensures multiset(Mapped(a, f)) == multiset(Mapped(b, f))
  {
    if a == [] {
      assert |multiset(b)| == |b|;
      assert b == [];
      assert Mapped(a, f) == Mapped(b, f);
    } else {
      assert a[0] in multiset(a);
      var k := FindIn(a[0], b);
      var ra, rb := a[1..], b[..k] + b[k + 1..];
      DropSame(a, b, k);
      MappedRearranges(ra, rb, f);
      TakeOutMapped(b, f, k, rb);
      TakeOutMapped(a, f, 0, ra);
    }
  }

  lemma UnambiguousMeansDetermined(selfID: string, region: string, fleet: seq<Relay>, a: seq<Relay>, b: seq<Relay>)
    requires !Ambiguous(selfID, region, fleet)
    requires Ranks(selfID, region, fleet, a) && Ranks(selfID, region, fleet, b)
    ensures Endpoints(a) == Endpoints(b)
  {
    var (ea, eb) := (Mapped(a, EntryOf(region)), Mapped(b, EntryOf(region)));
    MappedRearranges(a, b, EntryOf(region));
    forall i, j | 0 <= i < |ea| && 0 <= j < |ea| && EntryNotAfter(ea[i], ea[j]) && EntryNotAfter(ea[j], ea[i])
      ensures ea[i] == ea[j]
    {
      BelowIsTotal(ea[i].id, ea[j].id);
      RankedInFleet(selfID, region, fleet, a, a[i]);
      RankedInFleet(selfID, region, fleet, a, a[j]);
    }
    forall i, j | 0 <= i < j < |ea| ensures EntryNotAfter(ea[i], ea[j]) { assert Order(region)(a[i], a[j]); }
    forall i, j | 0 <= i < j < |eb| ensures EntryNotAfter(eb[i], eb[j]) { assert Order(region)(b[i], b[j]); }
    SortedIsUnique(ea, eb, EntryNotAfter);
    assert forall i :: 0 <= i < |a| ==> Endpoints(a)[i] == ea[i].endpoint == eb[i].endpoint == Endpoints(b)[i];
  }

  lemma SomeRanking(selfID: string, region: string, fleet: seq<Relay>) returns (order: seq<Relay>)
    ensures Ranks(selfID, region, fleet, order)
  {
    var (same, other) := (Group(selfID, region, fleet, true), Group(selfID, region, fleet, false));
    GroupsMakeOthers(selfID, region, fleet);
    SortedGroupsRank(selfID, region, fleet, same, other);
    order := SortById(same) + SortById(other);
  }

  /** Swapping two relays that compare equal gives another ranking. */
  lemma SwapEquals(selfID: string, region: string, fleet: seq<Relay>, order: seq<Relay>, i: nat, j: nat)
    requires Ranks(selfID, region, fleet, order) && i < |order| && j < |order|
    requires order[i].id == order[j].id && (order[i].region == region <==> order[j].region == region)
    ensures Ranks(selfID, region, fleet, order[i := order[j]][j := order[i]])
  {
    var t := order[i := order[j]][j := order[i]];
    forall p, q | 0 <= p < q < |t| ensures Order(region)(t[p], t[q]) {
      assert Order(region)(order[p], order[q]);
    }
    assert multiset(t) == multiset(order);
  }

  /** The advertised list is determined by the fleet if and only if the fleet is not ambiguous. */
  lemma ListDeterminedIffUnambiguous(selfID: string, region: string, fleet: seq<Relay>)
    ensures (forall a, b :: Ranks(selfID, region, fleet, a) && Ranks(selfID, region, fleet, b) ==> Endpoints(a) == Endpoints(b))
       <==> !Ambiguous(selfID, region, fleet)
  {
    if Ambiguous(selfID, region, fleet) {
      var r, s :| r in fleet && s in fleet && Eligible(selfID, r) && Eligible(selfID, s)
                  && r.id == s.id && (r.region == region <==> s.region == region) && r.endpoint != s.endpoint;
      var order := SomeRanking(selfID, region, fleet);
      RankedInFleet(selfID, region, fleet, order, r);
      RankedInFleet(selfID, region, fleet, order, s);
      var i :| 0 <= i < |order| && order[i] == r;
      var j :| 0 <= j < |order| && order[j] == s;
      SwapEquals(selfID, region, fleet, order, i, j);
      var swapped := order[i := order[j]][j := order[i]];
      assert Endpoints(order)[i] != Endpoints(swapped)[i];
    } else {
      forall a, b | Ranks(selfID, region, fleet, a) && Ranks(selfID, region, fleet, b) ensures Endpoints(a) == Endpoints(b) {
        UnambiguousMeansDetermined(selfID, region, fleet, a, b);
      }
    }
  }

  /** It need not be determined: two relays under one id can be listed either way. */
  lemma SameIdLeavesAChoice(selfID: string, region: string, r: Relay, s: Relay)
    requires Eligible(selfID, r) && Eligible(selfID, s) && r.id == s.id && r.region == s.region && r.endpoint != s.endpoint
    ensures Ranks(selfID, region, [r, s], [r, s]) && Ranks(selfID, region, [r, s], [s, r])
    ensures Endpoints([r, s]) != Endpoints([s, r])
  {
    var fleet := [r, s];
    assert fleet[..1] == [r] && [r][..0] == [];
    assert Others(selfID, [r]) == [r];
    assert Others(selfID, fleet) == [r, s];
    assert multiset([r, s]) == multiset([s, r]);
    assert Endpoints([r, s])[0] != Endpoints([s, r])[0];
  }

  /** The list without the relay `id`. */
  function Without(order: seq<Relay>, id: string): seq<Relay> {
    if order == [] then []
    else (if order[0].id == id then [] else [order[0]]) + Without(order[1..], id)
  }

  lemma {:induction false} WithoutKeepsOrder(order: seq<Relay>, id: string, le: (Relay, Relay) -> bool)
    requires Sorted(order, le)
    ensures Sorted(Without(order, id), le)
    ensures forall r :: multiset(Without(order, id))[r] == if r.id == id then 0 else multiset(order)[r]
  {
    if order != [] {
      assert order == [order[0]] + order[1..];
      WithoutKeepsOrder(order[1..], id, le);
      var rest := Without(order[1..], id);
      forall r | r in rest ensures le(order[0], r) {
        assert r in multiset(rest);
        assert r in multiset(order[1..]);
      }
      assert Without(order, id) == (if order[0].id == id then [] else [order[0]]) + rest;
    }
  }

  lemma WithoutMembers(selfID: string, region: string, fleet: seq<Relay>, order: seq<Relay>, id: string, r: Relay)
    requires Ranks(selfID, region, fleet, order)
    ensures multiset(Without(order, id))[r]
         == if r.id != selfID && r.id != id && r.endpoint != "" then multiset(fleet)[r] else 0
    ensures r in Without(order, id) ==> r in order
  {
    WithoutKeepsOrder(order, id, Order(region));
    OthersMembers(selfID, fleet, r);
    assert r in Without(order, id) ==> multiset(Without(order, id))[r] > 0;
    assert multiset(order)[r] > 0 ==> r in order;
  }

  /**
   Two relays of one region advertise the same relays in the same order, once each leaves the
   other out.
   */
  lemma RelaysOfARegionAgree(x: string, y: string, region: string, fleet: seq<Relay>,
                             orderX: seq<Relay>, orderY: seq<Relay>)
    requires DistinctIds(fleet) && Ranks(x, region, fleet, orderX) && Ranks(y, region, fleet, orderY)
    ensures Without(orderX, y) == Without(orderY, x)
  {
    var a, b := Without(orderX, y), Without(orderY, x);
    forall r ensures multiset(a)[r] == multiset(b)[r] {
      WithoutMembers(x, region, fleet, orderX, y, r);
      WithoutMembers(y, region, fleet, orderY, x, r);
    }
    assert multiset(a) == multiset(b);
    forall i, j | 0 <= i < |a| && 0 <= j < |a| && Order(region)(a[i], a[j]) && Order(region)(a[j], a[i])
      ensures a[i] == a[j]
    {
      WithoutMembers(x, region, fleet, orderX, y, a[i]);
      WithoutMembers(x, region, fleet, orderX, y, a[j]);
      RankedOnce(x, region, fleet, orderX, a[i], a[j]);
    }
    WithoutKeepsOrder(orderX, y, Order(region));
    WithoutKeepsOrder(orderY, x, Order(region));
    SortedIsUnique(a, b, Order(region));
  }

  // The heartbeat

  class Heartbeat {
    const id: string
    const region: string
    var last: seq<string>
    var published: seq<seq<string>>   // what each subscriber has been called with, in order

    constructor (id: string, region: string)
      ensures Valid() && published == [] && this.id == id && this.region == region
    {
      this.id, this.region, last, published := id, region, [], [];
    }

    /** Subscribers hear of changes only: no list is published twice in a row. */
    ghost predicate Valid()
      reads this
    {
      && last == (if published == [] then [] else published[|published| - 1])
      && (published != [] ==> published[0] != [])
      && forall i :: 0 < i < |published| ==> published[i - 1] != published[i]
    }

    /** One beat; None is a failed upsert, which leaves the previous list in effect. */
    method Beat(fleet: Option<seq<Relay>>)
      requires Valid()
      modifies this
      ensures Valid()
      ensures fleet.None? ==> last == old(last) && published == old(published)
      ensures fleet.Some? ==> exists order :: Ranks(id, region, fleet.value, order) && last == Endpoints(order)
      ensures published == if last == old(last) then old(published) else old(published) + [last]
    {
      if fleet.None? { return; }
      var next := Successors(id, region, fleet.value);
      if next != last {
        last := next;
        published := published + [next];
      }
    }
  }
}
