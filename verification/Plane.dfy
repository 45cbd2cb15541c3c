/**
 The UDP forwarding plane: five tables that must agree with each other.

 Each function below is what one lock section does to the tables; class `Plane` is the
 plane itself, whose methods are proved to do exactly that. Clock readings are passed in:
 `at` is one taken before the lock, `clock` one taken under it.
 */
module ForwardPlane {
  import opened Options
  import opened AllocIds

  type Id = nat
  type Addr = nat      // a valid UDP source; the zero address is None
  type Nonce = nat     // sixteen opaque bytes, only ever compared

  const DEFAULT_PENDING_TTL: int := 5_000_000_000

  datatype AllocEntry = AllocEntry(uri: string, src: Option<Addr>, lastSeen: int)
  datatype PendingEntry = PendingEntry(uri: string, nonce: Nonce, expires: int)
  datatype QueuedPunch = QueuedPunch(src: Addr, nonce: Nonce, expires: int)

  datatype Tables = Tables(
    byAlloc: map<Id, AllocEntry>,
    byURI: map<string, set<Id>>,
    src2id: map<Addr, Id>,
    pending: map<Id, PendingEntry>,
    queued: map<Id, QueuedPunch>)

  const EMPTY := Tables(map[], map[], map[], map[], map[])

  /** A pending TTL that is not positive stands for the default. */
  function PendingTTL(configured: int): (ttl: int)
    ensures ttl > 0 && (configured > 0 ==> ttl == configured) && (configured <= 0 ==> ttl == 5_000_000_000)
  {
    if configured <= 0 then DEFAULT_PENDING_TTL else configured
  }

  // What each lock section does

  function Insert(t: Tables, id: Id, uri: string, at: int): Tables {
    t.(byAlloc := t.byAlloc[id := AllocEntry(uri, None, at)],
       byURI := t.byURI[uri := (if uri in t.byURI then t.byURI[uri] else {}) + {id}])
  }

  function DropSrc(src2id: map<Addr, Id>, src: Option<Addr>): map<Addr, Id> {
    if src.Some? then src2id - {src.value} else src2id
  }

  /** The handshake succeeded: `id` now belongs to source `src`. */
  function Bind(t: Tables, id: Id, src: Addr, at: int): Tables
    requires id in t.byAlloc
  {
    var e := t.byAlloc[id];
    t.(byAlloc := t.byAlloc[id := e.(src := Some(src), lastSeen := at)],
       src2id := if e.src == Some(src) then t.src2id else DropSrc(t.src2id, e.src)[src := id])
  }

  datatype ArmOutcome = Armed | UnknownAlloc | OwnerMismatch

  function ArmOutcomeOf(t: Tables, id: Id, uri: string): ArmOutcome {
    if uri == "" then OwnerMismatch
    else if id !in t.byAlloc then UnknownAlloc
    else if t.byAlloc[id].uri != uri then OwnerMismatch
    else Armed
  }

  /** A queued punch that an arming at `at` accepts; its expiry is exclusive. */
  predicate Drains(t: Tables, id: Id, nonce: Nonce, at: int) {
    id in t.queued && at < t.queued[id].expires && t.queued[id].nonce == nonce
  }

  function Arm(t: Tables, id: Id, uri: string, nonce: Nonce, at: int, ttl: int): Tables {
    if ArmOutcomeOf(t, id, uri) != Armed then t
    else
      var rest := t.(queued := t.queued - {id});
      if Drains(t, id, nonce, at) then Bind(rest, id, t.queued[id].src, at)
      else rest.(pending := rest.pending[id := PendingEntry(uri, nonce, at + ttl)])
  }

  /** A pending row that a punch at `clock` accepts; its expiry is inclusive. */
  predicate Completes(t: Tables, id: Id, nonce: Nonce, clock: int) {
    id in t.pending && clock <= t.pending[id].expires && t.pending[id].nonce == nonce
  }

  function Punch(t: Tables, id: Id, src: Addr, nonce: Nonce, at: int, clock: int, ttl: int): Tables {
    if id !in t.pending then t.(queued := t.queued[id := QueuedPunch(src, nonce, at + ttl)])
    else if clock > t.pending[id].expires then t.(pending := t.pending - {id})
    else if t.pending[id].nonce != nonce then t
    else if id !in t.byAlloc then t.(pending := t.pending - {id})
    else Bind(t.(pending := t.pending - {id}), id, src, at)
  }

  /** A data datagram from `src`: its sender is alive. */
  function Touch(t: Tables, src: Addr, at: int): Tables {
    if src in t.src2id && t.src2id[src] in t.byAlloc then
      var id := t.src2id[src];
      t.(byAlloc := t.byAlloc[id := t.byAlloc[id].(lastSeen := at)])
    else t
  }

  function SrcsOf(byAlloc: map<Id, AllocEntry>, ids: set<Id>): set<Addr> {
    set id | id in ids && id in byAlloc && byAlloc[id].src.Some? :: byAlloc[id].src.value
  }

  function WithoutIds(byURI: map<string, set<Id>>, ids: set<Id>): map<string, set<Id>> {
    map u | u in byURI && !(byURI[u] <= ids) :: byURI[u] - ids
  }

  /** Every trace of the allocations `ids` is gone, and nothing else. */
  function Release(t: Tables, ids: set<Id>): Tables {
    Tables(t.byAlloc - ids, WithoutIds(t.byURI, ids), t.src2id - SrcsOf(t.byAlloc, ids),
           t.pending - ids, t.queued - ids)
  }

  function Owned(t: Tables, uri: string): set<Id> {
    set id | id in t.byAlloc && t.byAlloc[id].uri == uri
  }

  function Idle(t: Tables, at: int, idleTTL: int): set<Id> {
    set id | id in t.byAlloc && t.byAlloc[id].lastSeen < at - idleTTL
  }

  function LivePending(m: map<Id, PendingEntry>, at: int): map<Id, PendingEntry> {
    map id | id in m && at <= m[id].expires :: m[id]
  }

  function LiveQueued(m: map<Id, QueuedPunch>, at: int): map<Id, QueuedPunch> {
    map id | id in m && at <= m[id].expires :: m[id]
  }

  function Collect(t: Tables, at: int, idleTTL: int): Tables {
    var r := Release(t, Idle(t, at, idleTTL));
    r.(pending := LivePending(r.pending, at), queued := LiveQueued(r.queued, at))
  }

  // The joint invariant of the tables

  /** `byURI` is the partition of the live ids by owner, with no empty parts. */
  ghost predicate OwnersExact(t: Tables) {
    && (forall u :: u in t.byURI ==> t.byURI[u] == Owned(t, u) && t.byURI[u] != {})
    && (forall id :: id in t.byAlloc ==> t.byAlloc[id].uri in t.byURI && t.byAlloc[id].uri != "")
  }

  predicate PendingLive(t: Tables) {
    forall id :: id in t.pending ==> id in t.byAlloc && t.byAlloc[id].uri == t.pending[id].uri
  }

  /** A reverse-index entry names a live allocation bound to that very source. */
  predicate SrcSound(t: Tables) {
    forall a :: a in t.src2id ==> t.src2id[a] in t.byAlloc && t.byAlloc[t.src2id[a]].src == Some(a)
  }

  ghost predicate Inv(t: Tables) {
    OwnersExact(t) && PendingLive(t) && SrcSound(t) && t.pending.Keys !! t.queued.Keys
  }

  lemma InsertKeepsOwners(t: Tables, id: Id, uri: string, at: int)
    requires OwnersExact(t) && uri != "" && (id in t.byAlloc ==> t.byAlloc[id].uri == uri)
    ensures OwnersExact(Insert(t, id, uri, at))
  {
    var t' := Insert(t, id, uri, at);
    assert Owned(t', uri) == Owned(t, uri) + {id};
    forall u | u != uri ensures Owned(t', u) == Owned(t, u) {}
  }

  lemma InsertTakesOver(t: Tables, id: Id, uri: string, at: int)
    requires OwnersExact(t) && id in t.byAlloc && t.byAlloc[id].uri != uri
    ensures !OwnersExact(Insert(t, id, uri, at))
  {
    var (t', u) := (Insert(t, id, uri, at), t.byAlloc[id].uri);
    assert id in t.byURI[u] && t'.byURI[u] == t.byURI[u] && id !in Owned(t', u);
  }

  lemma InsertKeepsSrcSoundIff(t: Tables, id: Id, uri: string, at: int)
    requires SrcSound(t)
    ensures SrcSound(Insert(t, id, uri, at)) <==> id !in t.src2id.Values
  {
    if id in t.src2id.Values {
      var a :| a in t.src2id && t.src2id[a] == id;
      assert Insert(t, id, uri, at).byAlloc[id].src == None;
    }
  }

  /**
   Issuing an id keeps the invariant exactly when the id is free, or already belongs to the
   same agent and is not the target of a reverse-index entry.
   */
  lemma InsertKeepsInvIff(t: Tables, id: Id, uri: string, at: int)
    requires Inv(t) && uri != ""
    ensures Inv(Insert(t, id, uri, at)) <==>
            id in t.byAlloc ==> t.byAlloc[id].uri == uri && id !in t.src2id.Values
  {
    InsertKeepsSrcSoundIff(t, id, uri, at);
    if id in t.byAlloc && t.byAlloc[id].uri != uri {
      InsertTakesOver(t, id, uri, at);
    } else {
      InsertKeepsOwners(t, id, uri, at);
    }
  }

  /** The owner partition depends only on who owns what. */
  lemma SameOwnersSameParts(t: Tables, t': Tables)
    requires OwnersExact(t) && t'.byURI == t.byURI && t'.byAlloc.Keys == t.byAlloc.Keys
    requires forall id :: id in t.byAlloc ==> t'.byAlloc[id].uri == t.byAlloc[id].uri
    ensures OwnersExact(t')
  {
    forall u ensures Owned(t', u) == Owned(t, u) {}
  }

  lemma BindKeepsInv(t: Tables, id: Id, src: Addr, at: int)
    requires Inv(t) && id in t.byAlloc
    ensures Inv(Bind(t, id, src, at))
  {
    SameOwnersSameParts(t, Bind(t, id, src, at));
  }

  /** Losing register rows never hurts. */
  lemma FewerRowsKeepInv(t: Tables, t': Tables)
    requires Inv(t) && t' == t.(pending := t'.pending, queued := t'.queued)
    requires t'.queued.Keys <= t.queued.Keys
    requires forall id :: id in t'.pending ==> id in t.pending && t'.pending[id] == t.pending[id]
    ensures Inv(t')
  {
    SameOwnersSameParts(t, t');
  }

  lemma ArmKeepsInv(t: Tables, id: Id, uri: string, nonce: Nonce, at: int, ttl: int)
    requires Inv(t)
    ensures Inv(Arm(t, id, uri, nonce, at, ttl))
  {
    if ArmOutcomeOf(t, id, uri) == Armed {
      var rest := t.(queued := t.queued - {id});
      FewerRowsKeepInv(t, rest);
      if Drains(t, id, nonce, at) {
        BindKeepsInv(rest, id, t.queued[id].src, at);
      } else {
        SameOwnersSameParts(t, Arm(t, id, uri, nonce, at, ttl));
      }
    }
  }

  lemma PunchKeepsInv(t: Tables, id: Id, src: Addr, nonce: Nonce, at: int, clock: int, ttl: int)
    requires Inv(t)
    ensures Inv(Punch(t, id, src, nonce, at, clock, ttl))
  {
    var t' := Punch(t, id, src, nonce, at, clock, ttl);
    if id !in t.pending {
      SameOwnersSameParts(t, t');
    } else {
      var rest := t.(pending := t.pending - {id});
      FewerRowsKeepInv(t, rest);
      if Completes(t, id, nonce, clock) { BindKeepsInv(rest, id, src, at); }
    }
  }

  /** A pending row always belongs to a live allocation, so a punch never finds it orphaned. */
  lemma PunchNeverFindsOrphan(t: Tables, id: Id, src: Addr, nonce: Nonce, at: int, clock: int, ttl: int)
    requires Inv(t) && Completes(t, id, nonce, clock)
    ensures id in t.byAlloc
    ensures Punch(t, id, src, nonce, at, clock, ttl).byAlloc[id]
         == t.byAlloc[id].(src := Some(src), lastSeen := at)
  {}

  lemma TouchKeepsInv(t: Tables, src: Addr, at: int)
    requires Inv(t)
    ensures Inv(Touch(t, src, at))
  {
    SameOwnersSameParts(t, Touch(t, src, at));
  }

  lemma ReleaseKeepsInv(t: Tables, ids: set<Id>)
    requires Inv(t)
    ensures Inv(Release(t, ids))
  {
    var t' := Release(t, ids);
    forall u | u in t'.byURI ensures t'.byURI[u] == Owned(t', u) && t'.byURI[u] != {} {
      var id :| id in t.byURI[u] && id !in ids;
      assert t'.byURI[u] == t.byURI[u] - ids && id in t'.byURI[u];
    }
    forall id | id in t'.byAlloc ensures t'.byAlloc[id].uri in t'.byURI {
      assert id in t.byURI[t.byAlloc[id].uri] - ids;
    }
    forall a | a in t'.src2id ensures t'.src2id[a] in t'.byAlloc {
      assert t.src2id[a] in ids ==> a in SrcsOf(t.byAlloc, ids);
    }
  }

  lemma CollectKeepsInv(t: Tables, at: int, idleTTL: int)
    requires Inv(t)
    ensures Inv(Collect(t, at, idleTTL))
  {
    ReleaseKeepsInv(t, Idle(t, at, idleTTL));
    FewerRowsKeepInv(Release(t, Idle(t, at, idleTTL)), Collect(t, at, idleTTL));
  }

  lemma WithoutIdsTwice(m: map<string, set<Id>>, a: set<Id>, b: set<Id>)
    ensures WithoutIds(WithoutIds(m, a), b) == WithoutIds(m, a + b)
  {
    forall u | u in m ensures m[u] - a - b == m[u] - (a + b)
                      ensures m[u] <= a + b <==> m[u] <= a || m[u] - a <= b
    {}
  }

  /** Releasing in two batches is releasing the union. */
  lemma ReleaseTwice(t: Tables, a: set<Id>, b: set<Id>)
    ensures Release(Release(t, a), b) == Release(t, a + b)
  {
    WithoutIdsTwice(t.byURI, a, b);
    var rest := t.byAlloc - a;
    assert SrcsOf(t.byAlloc, a + b) == SrcsOf(t.byAlloc, a) + SrcsOf(rest, b);
    assert t.src2id - SrcsOf(t.byAlloc, a) - SrcsOf(rest, b) == t.src2id - SrcsOf(t.byAlloc, a + b);
    assert t.byAlloc - a - b == t.byAlloc - (a + b);
    assert t.pending - a - b == t.pending - (a + b);
    assert t.queued - a - b == t.queued - (a + b);
  }

  /** Sets that are not touched by `ids` stay as they are. */
  lemma UntouchedSets(m: map<string, set<Id>>, ids: set<Id>)
    ensures forall u :: u in m && m[u] != {} && m[u] !! ids ==> u in WithoutIds(m, ids) && WithoutIds(m, ids)[u] == m[u]
  {
    forall u | u in m && m[u] != {} && m[u] !! ids ensures !(m[u] <= ids) && m[u] - ids == m[u] {
      var id :| id in m[u];
      assert id !in ids;
    }
  }

  /** Taking one live id out of its owner's set is taking it out of the whole partition. */
  lemma UnlinkOne(t: Tables, id: Id)
    requires Inv(t) && id in t.byAlloc
    ensures var uri := t.byAlloc[id].uri;
            && uri in t.byURI
            && WithoutIds(t.byURI, {id})
               == (if t.byURI[uri] - {id} == {} then t.byURI - {uri} else t.byURI[uri := t.byURI[uri] - {id}])
            && t.src2id - SrcsOf(t.byAlloc, {id}) == DropSrc(t.src2id, t.byAlloc[id].src)
  {
    var uri := t.byAlloc[id].uri;
    assert id in t.byURI[uri];
    UntouchedSets(t.byURI, {id});
    forall u | u in t.byURI && u != uri ensures t.byURI[u] !! {id} {}
    assert SrcsOf(t.byAlloc, {id}) == if t.byAlloc[id].src.Some? then {t.byAlloc[id].src.value} else {};
  }

  lemma UnlinkNone(t: Tables, id: Id)
    requires Inv(t) && id !in t.byAlloc
    ensures Release(t, {id}) == t.(pending := t.pending - {id}, queued := t.queued - {id})
  {
    UntouchedSets(t.byURI, {id});
    forall u | u in t.byURI ensures t.byURI[u] !! {id} {}
    assert WithoutIds(t.byURI, {id}) == t.byURI;
  }

  lemma UnlinkOwner(t: Tables, uri: string)
    requires Inv(t)
    ensures WithoutIds(t.byURI, Owned(t, uri)) == t.byURI - {uri}
    ensures Owned(t, uri) == if uri in t.byURI then t.byURI[uri] else {}
  {
    var ids := Owned(t, uri);
    if uri !in t.byURI { assert ids == {}; }
    UntouchedSets(t.byURI, ids);
    forall u | u in t.byURI && u != uri ensures t.byURI[u] !! ids {}
  }

  lemma SrcsOfUnion(byAlloc: map<Id, AllocEntry>, m: map<Addr, Id>, ids: set<Id>, id: Id)
    requires id in byAlloc
    ensures DropSrc(m - SrcsOf(byAlloc, ids), byAlloc[id].src) == m - SrcsOf(byAlloc, ids + {id})
  {
    var src := byAlloc[id].src;
    assert SrcsOf(byAlloc, ids + {id}) == SrcsOf(byAlloc, ids) + (if src.Some? then {src.value} else {});
  }

  lemma MinusOne<V>(m: map<Id, V>, ids: set<Id>, id: Id)
    ensures m - ids - {id} == m - (ids + {id})
  {}

  lemma ReleaseNothing(t: Tables)
    requires Inv(t)
    ensures Release(t, {}) == t
  {
    UntouchedSets(t.byURI, {});
    assert WithoutIds(t.byURI, {}) == t.byURI;
    assert SrcsOf(t.byAlloc, {}) == {};
    assert t.src2id - {} == t.src2id && t.byAlloc - {} == t.byAlloc;
    assert t.pending - {} == t.pending && t.queued - {} == t.queued;
  }

  /** Of the ids `live`, those in `gone` are done and the others are still to do. */
  predicate Splits(live: set<Id>, gone: set<Id>, todo: set<Id>) {
    gone !! todo && gone <= live <= gone + todo
  }

  lemma SplitsOn(live: set<Id>, gone: set<Id>, todo: set<Id>, id: Id)
    requires Splits(live, gone, todo) && id in todo
    ensures id in live ==> Splits(live, gone + {id}, todo - {id}) && |gone + {id}| == |gone| + 1
    ensures id !in live ==> Splits(live, gone, todo - {id})
  {}

  /** What the bulk teardown does to the tables: the owner's set goes, and every live id in it. */
  function DropOwner(t: Tables, uri: string): Tables {
    if uri == "" || uri !in t.byURI then t
    else
      var live := t.byURI[uri] * t.byAlloc.Keys;
      Tables(t.byAlloc - live, t.byURI - {uri}, t.src2id - SrcsOf(t.byAlloc, live), t.pending - live, t.queued - live)
  }

  lemma DropOwnerReleases(t: Tables, uri: string)
    requires Inv(t)
    ensures DropOwner(t, uri) == Release(t, Owned(t, uri)) && Inv(DropOwner(t, uri))
    ensures uri in t.byURI ==> uri != "" && t.byURI[uri] * t.byAlloc.Keys == Owned(t, uri)
    ensures uri !in t.byURI ==> Owned(t, uri) == {}
  {
    UnlinkOwner(t, uri);
    ReleaseKeepsInv(t, Owned(t, uri));
    if uri in t.byURI {
      var id :| id in t.byURI[uri];
      assert id in Owned(t, uri);
      assert t.byURI[uri] * t.byAlloc.Keys == t.byURI[uri];
    } else {
      assert Owned(t, uri) == {};
      ReleaseNothing(t);
    }
  }

  class Plane {
    var byAlloc: map<Id, AllocEntry>
    var byURI: map<string, set<Id>>
    var src2id: map<Addr, Id>
    var pending: map<Id, PendingEntry>
    var queued: map<Id, QueuedPunch>
    var nextID: Word32
    ghost var issues: nat          // how many ids have been issued
    const idleTTL: int
    const pendingTTL: int

    function View(): Tables
      reads this
    {
      Tables(byAlloc, byURI, src2id, pending, queued)
    }

    ghost predicate Valid()
      reads this
    {
      Inv(View())
    }

    /** The counter stands where `issues` issues from the start leave it. */
    ghost predicate Counted()
      reads this
    {
      nextID == Issued(issues)
    }

    constructor (idleTTL: int, pendingTTL: int)
      ensures Valid() && View() == EMPTY && issues == 0 && Counted()
      ensures this.idleTTL == idleTTL && this.pendingTTL == pendingTTL
    {
      byAlloc, byURI, src2id, pending, queued := map[], map[], map[], map[], map[];
      nextID, issues := 0, 0;
      this.idleTTL, this.pendingTTL := idleTTL, pendingTTL;
    }

    /** The first half of `Allocate`, outside the lock: take the next id from the counter. */
    method Take() returns (id: Id)
      modifies this`nextID, this`issues
      ensures id == nextID == After(old(nextID)) != 0 && issues == old(issues) + 1
      ensures old(Counted()) ==> Counted()
    {
      ghost var rounds;
      nextID, rounds := Issue(nextID);
      issues := issues + 1;
      id := nextID;
    }

    /** The second half, under the lock: enter the id into the tables. */
    method Enter(id: Id, uri: string, at: int)
      requires uri != ""
      modifies this`byAlloc, this`byURI
      ensures View() == Insert(old(View()), id, uri, at)
      ensures old(Valid()) && id !in old(byAlloc) ==> Valid()
    {
      if old(Valid()) { InsertKeepsInvIff(View(), id, uri, at); }
      byAlloc := byAlloc[id := AllocEntry(uri, None, at)];
      var owned := if uri in byURI then byURI[uri] else {};
      byURI := byURI[uri := owned + {id}];
    }

    /** The precondition is the panic on an empty URI. */
    method Allocate(uri: string, at: int) returns (id: Id)
      requires uri != ""
      modifies this
      ensures id == nextID == After(old(nextID)) != 0 && issues == old(issues) + 1
      ensures View() == Insert(old(View()), id, uri, at)
      ensures old(Valid()) && id !in old(byAlloc) ==> Valid()
    {
      id := Take();
      Enter(id, uri, at);
    }

    /** The handshake succeeded: move `id` to source `src`. */
    method Rebind(id: Id, src: Addr, at: int)
      requires id in byAlloc
      modifies this`byAlloc, this`src2id
      ensures View() == Bind(old(View()), id, src, at)
    {
      var entry := byAlloc[id];
      if entry.src != Some(src) {
        src2id := DropSrc(src2id, entry.src)[src := id];
      }
      byAlloc := byAlloc[id := entry.(src := Some(src), lastSeen := at)];
    }

    method ArmPending(id: Id, uri: string, nonce: Nonce, at: int) returns (outcome: ArmOutcome)
      modifies this
      ensures old(Valid()) ==> Valid()
      ensures nextID == old(nextID) && issues == old(issues)
      ensures outcome == UnknownAlloc <==> uri != "" && id !in old(byAlloc)
      ensures outcome == OwnerMismatch <==> uri == "" || (id in old(byAlloc) && old(byAlloc)[id].uri != uri)
      ensures outcome != Armed ==> View() == old(View())
      ensures View() == Arm(old(View()), id, uri, nonce, at, PendingTTL(pendingTTL))
    {
      if Valid() { ArmKeepsInv(View(), id, uri, nonce, at, PendingTTL(pendingTTL)); }
      if uri == "" { return OwnerMismatch; }
      var ttl := PendingTTL(pendingTTL);
      if id !in byAlloc { return UnknownAlloc; }
      if byAlloc[id].uri != uri { return OwnerMismatch; }
      var drained := false;
      if id in queued {
        var q := queued[id];
        queued := queued - {id};
        if at < q.expires && q.nonce == nonce {
          Rebind(id, q.src, at);
          drained := true;
        }
      } else {
        assert queued - {id} == queued;
      }
      if !drained {
        pending := pending[id := PendingEntry(uri, nonce, at + ttl)];
      }
      return Armed;
    }

    /** The UDP half of the handshake. */
    method Register(id: Id, src: Addr, nonce: Nonce, at: int, clock: int)
      modifies this
      ensures old(Valid()) ==> Valid()
      ensures nextID == old(nextID) && issues == old(issues)
      ensures View() == Punch(old(View()), id, src, nonce, at, clock, PendingTTL(pendingTTL))
    {
      if Valid() { PunchKeepsInv(View(), id, src, nonce, at, clock, PendingTTL(pendingTTL)); }
      var ttl := PendingTTL(pendingTTL);
      if id !in pending {
        queued := queued[id := QueuedPunch(src, nonce, at + ttl)];
        return;
      }
      var pend := pending[id];
      if clock > pend.expires {
        pending := pending - {id};
        return;
      }
      if pend.nonce != nonce { return; }
      if id in byAlloc { Rebind(id, src, at); }
      pending := pending - {id};
    }

    /** The data branch of the receive loop: where the payload goes, if anywhere. */
    method Datagram(peer: Id, src: Addr, at: int) returns (dst: Option<Addr>)
      modifies this
      ensures old(Valid()) ==> Valid()
      ensures nextID == old(nextID) && issues == old(issues)
      ensures View() == Touch(old(View()), src, at)
      ensures dst == if peer in old(byAlloc) then old(byAlloc)[peer].src else None
    {
      if Valid() { TouchKeepsInv(View(), src, at); }
      dst := if peer in byAlloc then byAlloc[peer].src else None;
      if src in src2id {
        var sender := src2id[src];
        if sender in byAlloc {
          byAlloc := byAlloc[sender := byAlloc[sender].(lastSeen := at)];
        }
      }
    }

    /** Delete a live entry and keep the indexes in step. */
    method Unlink(id: Id)
      requires id in byAlloc
      modifies this
      ensures byAlloc == old(byAlloc) - {id} && nextID == old(nextID) && issues == old(issues)
      ensures old(Valid()) ==> Valid() && View() == Release(old(View()), {id})
    {
      if Valid() {
        UnlinkOne(View(), id);
        ReleaseKeepsInv(View(), {id});
      }
      var entry := byAlloc[id];
      byAlloc := byAlloc - {id};
      src2id := DropSrc(src2id, entry.src);
      if entry.uri in byURI {
        var rest := byURI[entry.uri] - {id};
        byURI := if rest == {} then byURI - {entry.uri} else byURI[entry.uri := rest];
      }
      pending := pending - {id};
      queued := queued - {id};
    }

    method Forget(id: Id)
      modifies this
      ensures byAlloc == old(byAlloc) - {id} && nextID == old(nextID) && issues == old(issues)
      ensures old(Valid()) ==> Valid() && View() == Release(old(View()), {id})
    {
      if id in byAlloc {
        Unlink(id);
      } else {
        if Valid() {
          UnlinkNone(View(), id);
          ReleaseKeepsInv(View(), {id});
        }
        pending := pending - {id};
        queued := queued - {id};
      }
    }

    /** Every index but `byURI` has forgotten `gone`, and nothing else, since the tables were `was`. */
    ghost predicate Dropped(was: Tables, gone: set<Id>)
      reads this
    {
      && byAlloc == was.byAlloc - gone && src2id == was.src2id - SrcsOf(was.byAlloc, gone)
      && pending == was.pending - gone && queued == was.queued - gone
    }

    lemma DroppedNothing()
      ensures Dropped(View(), {})
    {
      assert SrcsOf(byAlloc, {}) == {};
    }

    /** The body of the bulk loop. */
    method DropRow(id: Id, ghost was: Tables, ghost gone: set<Id>)
      requires id in byAlloc && Dropped(was, gone)
      modifies this`byAlloc, this`src2id, this`pending, this`queued
      ensures Dropped(was, gone + {id})
    {
      var entry := byAlloc[id];
      SrcsOfUnion(was.byAlloc, was.src2id, gone, id);
      MinusOne(was.byAlloc, gone, id);
      MinusOne(was.pending, gone, id);
      MinusOne(was.queued, gone, id);
      byAlloc := byAlloc - {id};
      src2id := DropSrc(src2id, entry.src);
      pending := pending - {id};
      queued := queued - {id};
    }

    /** The loop of the bulk teardown: every index but `byURI` forgets the ids that are live. */
    method DropEach(ids: set<Id>) returns (released: nat)
      modifies this`byAlloc, this`src2id, this`pending, this`queued
      ensures released == |ids * old(byAlloc).Keys| && Dropped(old(View()), ids * old(byAlloc).Keys)
    {
      released := 0;
      var todo := ids;
      ghost var was := View();
      ghost var live, gone: set<Id> := ids * byAlloc.Keys, {};
      DroppedNothing();
      while todo != {}
        invariant todo <= ids && Splits(live, gone, todo) && live == ids * was.byAlloc.Keys
        invariant released == |gone| && Dropped(was, gone)
        decreases todo
      {
        var id :| id in todo;
        SplitsOn(live, gone, todo, id);
        todo := todo - {id};
        if id !in byAlloc { continue; }
        DropRow(id, was, gone);
        released := released + 1;
        gone := gone + {id};
      }
      assert gone == live;
    }

    /** Everything the agent owned is released at once; the result counts it. */
    method ForgetAgent(uri: string) returns (released: nat)
      modifies this
      ensures nextID == old(nextID) && issues == old(issues) && View() == DropOwner(old(View()), uri)
      ensures old(Valid()) ==>
              && Valid() && released == |Owned(old(View()), uri)|
              && View() == Release(old(View()), Owned(old(View()), uri))
    {
      if Valid() { DropOwnerReleases(View(), uri); }
      if uri == "" || uri !in byURI { return 0; }
      released := DropEach(byURI[uri]);
      byURI := byURI - {uri};
    }

    method EvictIdle(at: int)
      modifies this
      ensures nextID == old(nextID) && issues == old(issues)
      ensures byAlloc == old(byAlloc) - Idle(old(View()), at, idleTTL)
      ensures old(Valid()) ==> Valid() && View() == Release(old(View()), Idle(old(View()), at, idleTTL))
    {
      ghost var was := View();
      var cutoff := at - idleTTL;
      var todo := byAlloc.Keys;
      ghost var gone: set<Id> := {};
      if Inv(was) { ReleaseNothing(was); }
      ghost var idle := Idle(was, at, idleTTL);
      while todo != {}
        invariant byAlloc == was.byAlloc - gone && nextID == old(nextID) && issues == old(issues)
        invariant Inv(was) ==> View() == Release(was, gone)
        invariant todo <= was.byAlloc.Keys && gone !! todo && gone <= idle <= gone + todo
        decreases todo
      {
        var id :| id in todo;
        todo := todo - {id};
        assert id in byAlloc && byAlloc[id] == was.byAlloc[id];
        if byAlloc[id].lastSeen < cutoff {
          if Inv(was) { ReleaseKeepsInv(was, gone); }
          Unlink(id);
          MinusOne(was.byAlloc, gone, id);
          if Inv(was) { ReleaseTwice(was, gone, {id}); }
          gone := gone + {id};
        }
      }
      assert gone == idle;
      if Inv(was) { ReleaseKeepsInv(was, idle); }
    }

    method SweepPending(at: int)
      modifies this`pending
      ensures pending == LivePending(old(pending), at)
    {
      var todo := pending.Keys;
      while todo != {}
        invariant todo <= pending.Keys
        invariant forall id :: id in pending <==> id in old(pending) && (id in todo || at <= old(pending)[id].expires)
        invariant forall id :: id in pending ==> pending[id] == old(pending)[id]
        decreases todo
      {
        var id :| id in todo;
        todo := todo - {id};
        if at > pending[id].expires { pending := pending - {id}; }
      }
    }

    method SweepQueued(at: int)
      modifies this`queued
      ensures queued == LiveQueued(old(queued), at)
    {
      var todo := queued.Keys;
      while todo != {}
        invariant todo <= queued.Keys
        invariant forall id :: id in queued <==> id in old(queued) && (id in todo || at <= old(queued)[id].expires)
        invariant forall id :: id in queued ==> queued[id] == old(queued)[id]
        decreases todo
      {
        var id :| id in todo;
        todo := todo - {id};
        if at > queued[id].expires { queued := queued - {id}; }
      }
    }

    method SweepRows(at: int)
      modifies this`pending, this`queued
      ensures View() == old(View()).(pending := LivePending(old(pending), at), queued := LiveQueued(old(queued), at))
    {
      SweepPending(at);
      SweepQueued(at);
    }

    /** Reclaims exactly the idle allocations and the expired register rows. */
    method GcOnce(at: int)
      modifies this
      ensures nextID == old(nextID) && issues == old(issues)
      ensures byAlloc == old(byAlloc) - Idle(old(View()), at, idleTTL)
      ensures old(Valid()) ==> Valid() && View() == Collect(old(View()), at, idleTTL)
    {
      if Valid() { CollectKeepsInv(View(), at, idleTTL); }
      EvictIdle(at);
      SweepRows(at);
    }
  }
}
