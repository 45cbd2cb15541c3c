/**
 The decision cache in front of the policy engine: entries live for `TTL`, and the table is
 trimmed when it reaches `CAPACITY`. Clock readings are passed in as nanoseconds.
 */
module DecisionCache {
  import opened Options
  import opened Policy

  const TTL: int := 5_000_000_000
  const CAPACITY: nat := 64 * 1024

  datatype Entry = Entry(res: Result, expires: int)
  type Table = map<Query, Entry>

  predicate Fresh(e: Entry, now: int) {
    now < e.expires
  }

  function FreshPart(m: Table, now: int): Table {
    map q | q in m && Fresh(m[q], now) :: m[q]
  }

  ghost predicate SubTable(part: Table, whole: Table) {
    forall q :: q in part ==> q in whole && part[q] == whole[q]
  }

  /**
   What eviction may keep. Below capacity, everything. At capacity, the fresh entries, and if
   those still fill the table, all but an arbitrary eighth of the capacity.
   */
  ghost predicate MayKeep(m: Table, now: int, kept: Table) {
    var live := FreshPart(m, now);
    if |m| < CAPACITY then kept == m
    else if |live| < CAPACITY then kept == live
    else SubTable(kept, live) && |kept| == |live| - CAPACITY / 8
  }

  lemma SubTableSize(part: Table, whole: Table)
    requires SubTable(part, whole)
    ensures |part| <= |whole|
  {
    SetSize(part.Keys, whole.Keys);
  }

  lemma SetSize<T>(a: set<T>, b: set<T>)
    requires a <= b
    ensures |a| <= |b|
  {
    assert b == a + (b - a);
  }

  /** Eviction always leaves room for one more entry. */
  lemma KeptLeavesRoom(m: Table, now: int, kept: Table)
    requires |m| <= CAPACITY && MayKeep(m, now, kept)
    ensures |kept| < CAPACITY && SubTable(kept, m)
  {
    SubTableSize(FreshPart(m, now), m);
  }

  class Cache {
    var m: Table

    constructor ()
      ensures m == map[]
    {
      m := map[];
    }

    /** A hit is exactly a stored entry that has not expired; an expired entry is dropped. */
    method Get(q: Query, now: int) returns (r: Option<Result>)
      modifies this
      ensures r.Some? <==> q in old(m) && now < old(m)[q].expires
      ensures r.Some? ==> r.value == old(m)[q].res && m == old(m)
      ensures r.None? ==> m == old(m) - {q}
    {
      if q !in m {
        assert m - {q} == m;
        return None;
      }
      var e := m[q];
      if !Fresh(e, now) {
        m := m - {q};
        return None;
      }
      return Some(e.res);
    }

    method DropExpired(now: int)
      modifies this
      ensures m == FreshPart(old(m), now)
    {
      var todo := m.Keys;
      while todo != {}
        invariant todo <= m.Keys && SubTable(m, old(m))
        invariant forall k :: k in old(m) && Fresh(old(m)[k], now) ==> k in m
        invariant forall k :: k in m && k !in todo ==> Fresh(m[k], now)
        decreases todo
      {
        var k :| k in todo;
        todo := todo - {k};
        if !Fresh(m[k], now) { m := m - {k}; }
      }
    }

    /** Drop an arbitrary `CAPACITY / 8` entries. */
    method TrimEighth()
      requires |m| >= CAPACITY
      modifies this
      ensures SubTable(m, old(m)) && |m| == |old(m)| - CAPACITY / 8
    {
      for i := 0 to CAPACITY / 8
        invariant SubTable(m, old(m)) && |m| == |old(m)| - i
      {
        assert m.Keys != {};
        var k :| k in m.Keys;
        ghost var before := m;
        m := m - {k};
        assert m.Keys == before.Keys - {k};
      }
    }

    method Evict(now: int)
      modifies this
      ensures MayKeep(old(m), now, m)
    {
      if |m| >= CAPACITY {
        DropExpired(now);
        if |m| >= CAPACITY { TrimEighth(); }
      }
    }

    /** `evictNow` and `now` are the two clock readings made under the lock. */
    method Put(q: Query, r: Result, evictNow: int, now: int)
      modifies this
      ensures exists kept :: MayKeep(old(m), evictNow, kept) && m == kept[q := Entry(r, now + TTL)]
      ensures |old(m)| <= CAPACITY ==> |m| <= CAPACITY
      ensures |old(m)| < CAPACITY ==> m == old(m)[q := Entry(r, now + TTL)]
      ensures forall k :: k in m && k != q ==> k in old(m) && m[k] == old(m)[k]
      ensures |old(m)| >= CAPACITY ==> forall k :: k in m && k != q ==> evictNow < m[k].expires
      ensures |(set k | k in old(m) && evictNow < old(m)[k].expires)| < CAPACITY ==>
              forall k :: k in old(m) && evictNow < old(m)[k].expires && k != q ==> k in m
    {
      Evict(evictNow);
      ghost var kept := m;
      assert (set k | k in old(m) && evictNow < old(m)[k].expires) == FreshPart(old(m), evictNow).Keys;
      m := m[q := Entry(r, now + TTL)];
      if |old(m)| <= CAPACITY {
        KeptLeavesRoom(old(m), evictNow, kept);
        assert m.Keys == kept.Keys + {q};
      }
    }

    method Flush()
      modifies this
      ensures m == map[]
    {
      m := map[];
    }
  }
}
