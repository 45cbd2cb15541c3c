/** The plane's allocation ids: a wrapping 32-bit counter that never hands out 0. */
module AllocIds {

  const MODULUS: nat := 0x1_0000_0000
  const TURN: nat := 0xFFFF_FFFF   // ids before the counter starts over

  type Word32 = x: nat | x < MODULUS

  /** `atomic.Uint32.Add(1)`. */
  function Next(x: Word32): Word32 {
    (x + 1) % MODULUS
  }

  /** The id one issue hands out, and the counter's new value: the next value that is not 0. */
  function After(x: Word32): Word32 {
    if Next(x) == 0 then Next(0) else Next(x)
  }

  /** The counter after `k` issues from a fresh plane; it equals the k-th id. */
  function Issued(k: nat): Word32 {
    if k == 0 then 0 else After(Issued(k - 1))
  }

  /** The k-th id runs through 1, ..., 2^32 - 1 and starts over; 0 is never issued. */
  lemma {:induction false} KthId(k: nat)
    requires k >= 1
    ensures Issued(k) == (k - 1) % TURN + 1
    ensures Issued(k) != 0
  {
    if k > 1 { KthId(k - 1); }
  }

  /** Two issues give the same id exactly when a whole number of turns lies between them. */
  lemma {:induction false} SameIdIffWholeTurns(i: nat, j: nat)
    requires 1 <= i <= j
    ensures Issued(i) == Issued(j) <==> (j - i) % TURN == 0
  {
    KthId(i);
    KthId(j);
    var a, d := i - 1, j - i;
    SameRemainder(a, d);
    assert j - 1 == a + d;
    assert Issued(i) == a % TURN + 1 && Issued(j) == (a + d) % TURN + 1;
  }

  lemma SameRemainder(a: nat, d: nat)
    ensures a % TURN == (a + d) % TURN <==> d % TURN == 0
  {
    var (qa, ra) := (a / TURN, a % TURN);
    var (qb, rb) := ((a + d) / TURN, (a + d) % TURN);
    var (q, r) := (d / TURN, d % TURN);
    assert a == qa * TURN + ra && a + d == qb * TURN + rb && d == q * TURN + r;
    assert rb - ra - r == (q + qa - qb) * TURN;
    var k := q + qa - qb;
    assert -2 * TURN < k * TURN < TURN;
  }

  /** Any 2^32 - 1 consecutive issues are pairwise different. */
  lemma {:induction false} NearIssuesDiffer(i: nat, j: nat)
    requires 1 <= i < j && j - i < TURN
    ensures Issued(i) != Issued(j)
  {
    SameIdIffWholeTurns(i, j);
  }

  /** The loop that skips 0 goes round at most twice. */
  method Issue(counter: Word32) returns (id: Word32, ghost rounds: nat)
    ensures id == After(counter) != 0
    ensures rounds <= 2
  {
    id := Next(counter);
    rounds := 1;
    while id == 0
      invariant 1 <= rounds <= 2
      invariant rounds == 1 ==> id == Next(counter)
      invariant rounds == 2 ==> id == Next(0) && Next(counter) == 0
      decreases 2 - rounds
    {
      id := Next(id);
      rounds := rounds + 1;
    }
  }

  // The counter is shared: the adds of different threads interleave

  /** What the n-th add to the counter returns, whichever thread makes it. */
  function Value(n: nat): Word32 { n % MODULUS }

  /** How many of the first `n` adds returned something other than 0. */
  function NonZero(n: nat): nat {
    if n == 0 then 0 else NonZero(n - 1) + (if Value(n) != 0 then 1 else 0)
  }

  /** The adds that are not skipped return the ids in order, however the threads interleave. */
  lemma {:induction false} AddsReturnIdsInOrder(n: nat)
    ensures Value(n) != 0 ==> Issued(NonZero(n)) == Value(n)
    ensures Value(n) == 0 && n > 0 ==> Issued(NonZero(n)) == TURN
  {
    if n > 0 {
      AddsReturnIdsInOrder(n - 1);
      assert Value(n) == Next(Value(n - 1));
    }
  }

  lemma AddAfterZero(n: nat, gap: nat)
    requires Value(n) == 0 && gap < TURN
    ensures Value(n + gap + 1) == gap + 1
  {}

  /**
   The same loop with other threads adding between its rounds, `gaps[i]` times before the i-th
   retry: it hands out the id of its own last add, and goes round at most twice unless the
   others take a whole turn in between.
   */
  method IssueAmongOthers(adds: nat, gaps: seq<nat>) returns (id: Word32, last: nat, ghost rounds: nat)
    ensures last > adds && id == Value(last) == Issued(NonZero(last)) && id != 0
    ensures (forall gap :: gap in gaps ==> gap < TURN) ==> rounds <= 2
  {
    last := adds + 1;
    id := Value(last);
    rounds := 1;
    var i := 0;
    while id == 0
      invariant 0 <= i <= |gaps| && last > adds && id == Value(last)
      invariant (forall gap :: gap in gaps ==> gap < TURN) ==> rounds <= 1 || (rounds == 2 && id != 0)
      decreases |gaps| - i, if id == 0 then 1 else 0
    {
      var gap := if i < |gaps| then gaps[i] else 0;
      assert i < |gaps| ==> gap in gaps;
      if gap < TURN { AddAfterZero(last, gap); }
      last := last + gap + 1;
      id := Value(last);
      if i < |gaps| { i := i + 1; }
      rounds := rounds + 1;
    }
    AddsReturnIdsInOrder(last);
  }
}
