/**
 The FORWARD_RESUME matcher and its drivers, as interleaved threads.

 Unlike STREAM_RESUME, the first arrival learns of the pairing by its channel being closed,
 which both of its readers see, and only the second arrival does the work: it issues two
 allocations and writes one grant to each agent. A step is one critical section, one channel
 operation, one id issue, or one write.
 */
module ForwardResume {
  import opened Options
  import opened Pairing
  import opened AllocIds

  datatype Role = Single | First(second: nat) | Second(first: nat)

  datatype Handler =
    | Arriving
    | Handing(peer: nat)              // about to send the parked half to itself
    | Shutting(peer: nat)             // about to close the parked half's channel
    | Waiting
    | Checking                        // its channel was closed; about to read timedOut
    | Issuing(peer: nat)              // about to allocate for itself
    | IssuingPeer(peer: nat)          // about to allocate for the peer
    | Granting(peer: nat)             // about to write its own grant
    | GrantingPeer(peer: nat)         // about to write the peer's grant
    | Drove | Stood | TimedOut        // finished: drove the pair, left it to the peer, nobody came

  datatype Timer = NoTimer | Running | Fired | Removed | Flagged | Over

  /** An AllocGranted frame for one side. */
  datatype Grant = Grant(to: nat, stream: StreamId, my: Word32, peer: Word32)

  datatype Half = Half(
    id: StreamId,
    box: Option<nat>,
    closed: bool,
    timedOut: bool,
    handler: Handler,
    timer: Timer,
    mine: nat, theirs: nat,           // the numbers of the two issues its handler made
    role: Role,                       // history
    grants: seq<Grant>)               // history: what its handler has written

  datatype State = State(halves: seq<Half>, pending: Pending, issues: nat, panicked: bool)

  datatype Action =
    | Arrive(id: StreamId)
    | Enter(h: nat)
    | Hand(h: nat)
    | ShutPeer(h: nat)
    | Receive(h: nat)
    | Check(h: nat)
    | Issue(h: nat)
    | IssuePeer(h: nat)
    | Give(h: nat)
    | GivePeer(h: nat)
    | OtherIssue            // some other part of the relay allocates
    | Fire(h: nat)
    | SeeClosed(h: nat)     // the expiry thread finds the channel closed
    | Expire(h: nat)
    | SetFlag(h: nat)
    | Shut(h: nat)

  predicate Enabled(s: State, a: Action) {
    match a
    case Arrive(_) => true
    case OtherIssue => true
    case Enter(h) => h < |s.halves| && s.halves[h].handler.Arriving?
    case Hand(h) => h < |s.halves| && s.halves[h].handler.Handing? && s.halves[h].box.None?
    case ShutPeer(h) => h < |s.halves| && s.halves[h].handler.Shutting? && s.halves[h].handler.peer < |s.halves|
                        && s.halves[h].handler.peer != h
    case Receive(h) => h < |s.halves| && s.halves[h].handler.Waiting? && (s.halves[h].box.Some? || s.halves[h].closed)
    case Check(h) => h < |s.halves| && s.halves[h].handler.Checking?
    case Issue(h) => h < |s.halves| && s.halves[h].handler.Issuing?
    case IssuePeer(h) => h < |s.halves| && s.halves[h].handler.IssuingPeer?
    case Give(h) => h < |s.halves| && s.halves[h].handler.Granting?
    case GivePeer(h) => h < |s.halves| && s.halves[h].handler.GrantingPeer?
    case Fire(h) => h < |s.halves| && s.halves[h].timer.Running?
    case SeeClosed(h) => h < |s.halves| && s.halves[h].timer.Running? && s.halves[h].closed && s.halves[h].box.None?
    case Expire(h) => h < |s.halves| && s.halves[h].timer.Fired?
    case SetFlag(h) => h < |s.halves| && s.halves[h].timer.Removed?
    case Shut(h) => h < |s.halves| && s.halves[h].timer.Flagged?
  }

  function Set(s: State, h: nat, x: Half): State
    requires h < |s.halves|
  {
    s.(halves := s.halves[h := x])
  }

  function Apply(s: State, a: Action): State
    requires Enabled(s, a)
  {
    match a
    case Arrive(id) => s.(halves := s.halves + [Half(id, None, false, false, Arriving, NoTimer, 0, 0, Single, [])])
    case OtherIssue => s.(issues := s.issues + 1)
    case Enter(h) =>
      var x := s.halves[h];
      var s' := s.(pending := AfterMeet(s.pending, x.id, h));
      (match Parked(s.pending, x.id)
       case None => Set(s', h, x.(handler := Waiting, timer := Running))
       case Some(p) =>
         var s'' := Set(s', h, x.(handler := Handing(p), role := Second(p)));
         if p < |s.halves| then Set(s'', p, s''.halves[p].(role := First(h))) else s'')
    case Hand(h) =>
      var x := s.halves[h];
      if x.closed then s.(panicked := true)
      else Set(s, h, x.(box := Some(x.handler.peer), handler := Shutting(x.handler.peer)))
    case ShutPeer(h) =>
      var x := s.halves[h];
      var p := x.handler.peer;
      var s' := Set(s, h, x.(handler := Waiting));
      if s.halves[p].closed then s'.(panicked := true) else Set(s', p, s.halves[p].(closed := true))
    case Receive(h) =>
      var x := s.halves[h];
      if x.box.Some? then Set(s, h, x.(box := None, handler := Issuing(x.box.value)))
      else Set(s, h, x.(handler := Checking))
    case Check(h) => Set(s, h, s.halves[h].(handler := if s.halves[h].timedOut then TimedOut else Stood))
    case Issue(h) =>
      var x := s.halves[h];
      Set(s.(issues := s.issues + 1), h, x.(mine := s.issues + 1, handler := IssuingPeer(x.handler.peer)))
    case IssuePeer(h) =>
      var x := s.halves[h];
      Set(s.(issues := s.issues + 1), h, x.(theirs := s.issues + 1, handler := Granting(x.handler.peer)))
    case Give(h) =>
      var x := s.halves[h];
      Set(s, h, x.(handler := GrantingPeer(x.handler.peer),
                   grants := x.grants + [Grant(h, x.id, Issued(x.mine), Issued(x.theirs))]))
    case GivePeer(h) =>
      var x := s.halves[h];
      Set(s, h, x.(handler := Drove,
                   grants := x.grants + [Grant(x.handler.peer, x.id, Issued(x.theirs), Issued(x.mine))]))
    case Fire(h) => Set(s, h, s.halves[h].(timer := Fired))
    case SeeClosed(h) => Set(s, h, s.halves[h].(timer := Over))
    case Expire(h) =>
      var x := s.halves[h];
      Set(s.(pending := AfterExpire(s.pending, x.id, h)), h,
          x.(timer := if Parked(s.pending, x.id) == Some(h) then Removed else Over))
    case SetFlag(h) => Set(s, h, s.halves[h].(timer := Flagged, timedOut := true))
    case Shut(h) =>
      var x := s.halves[h];
      if x.closed then s.(panicked := true) else Set(s, h, x.(timer := Over, closed := true))
  }

  const START := State([], map[], 0, false)

  function Exec(actions: seq<Action>): Option<State> {
    if actions == [] then Some(START)
    else
      var s := Exec(actions[..|actions| - 1]);
      var a := actions[|actions| - 1];
      if s.Some? && Enabled(s.value, a) then Some(Apply(s.value, a)) else None
  }

  // Counting halves of one stream

  datatype Totals = Totals(submitted: int, pairs: int, expired: int)

  /** The half has left the map without a peer. */
  predicate IsExpired(x: Half) {
    x.role.Single? && (x.timer.Removed? || x.timer.Flagged? || x.timer.Over?)
  }

  function One(x: Half, id: StreamId): Totals {
    if x.id != id then Totals(0, 0, 0)
    else Totals(if x.handler.Arriving? then 0 else 1, if x.role.Second? then 1 else 0, if IsExpired(x) then 1 else 0)
  }

  function Plus(a: Totals, b: Totals): Totals {
    Totals(a.submitted + b.submitted, a.pairs + b.pairs, a.expired + b.expired)
  }

  function Sum(hs: seq<Half>, f: Half -> Totals): Totals {
    if hs == [] then Totals(0, 0, 0) else Plus(Sum(hs[..|hs| - 1], f), f(hs[|hs| - 1]))
  }

  function Of(id: StreamId): Half -> Totals { (x: Half) => One(x, id) }

  function Tally(hs: seq<Half>, id: StreamId): Totals { Sum(hs, Of(id)) }

  lemma {:induction false} SumUpdate(hs: seq<Half>, h: nat, y: Half, f: Half -> Totals)
    requires h < |hs|
    ensures Plus(Sum(hs[h := y], f), f(hs[h])) == Plus(Sum(hs, f), f(y))
  {
    var n := |hs| - 1;
    if h < n {
      SumUpdate(hs[..n], h, y, f);
      assert hs[h := y][..n] == hs[..n][h := y];
    } else {
      assert hs[h := y][..n] == hs[..n];
    }
  }

  lemma SumUpdateTwo(hs: seq<Half>, h: nat, y: Half, p: nat, z: Half, f: Half -> Totals)
    requires h < |hs| && p < |hs| && h != p
    ensures Plus(Sum(hs[h := y][p := z], f), Plus(f(hs[h]), f(hs[p]))) == Plus(Sum(hs, f), Plus(f(y), f(z)))
  {
    SumUpdate(hs, h, y, f);
    SumUpdate(hs[h := y], p, z, f);
  }

  lemma TallyUpdate(hs: seq<Half>, h: nat, y: Half, id: StreamId)
    requires h < |hs|
    ensures Plus(Tally(hs[h := y], id), One(hs[h], id)) == Plus(Tally(hs, id), One(y, id))
  {
    SumUpdate(hs, h, y, Of(id));
  }

  lemma TallyUpdateTwo(hs: seq<Half>, h: nat, y: Half, p: nat, z: Half, id: StreamId)
    requires h < |hs| && p < |hs| && h != p
    ensures Plus(Tally(hs[h := y][p := z], id), Plus(One(hs[h], id), One(hs[p], id)))
         == Plus(Tally(hs, id), Plus(One(y, id), One(z, id)))
  {
    SumUpdateTwo(hs, h, y, p, z, Of(id));
  }

  /** Every submitted half is parked, in a pair, or expired. */
  predicate Balanced(s: State, id: StreamId) {
    var n := Tally(s.halves, id);
    n.submitted == (if id in s.pending then 1 else 0) + 2 * n.pairs + n.expired
  }

  // The invariant, one half at a time

  predicate IsParked(s: State, g: nat) { Waits(s.pending, g) }

  function Mate(s: State, g: nat): nat
    requires g < |s.halves|
  {
    match s.halves[g].role
    case Single => g
    case First(k) => k
    case Second(k) => k
  }

  predicate FirstOk(x: Half, m: Half) {
    && !x.timedOut && x.box.None? && x.grants == []
    && (x.timer.Running? || x.timer.Fired? || x.timer.Over?)
    && (x.closed <==> !m.handler.Handing? && !m.handler.Shutting?)
    && (x.handler.Waiting? || (x.closed && (x.handler.Checking? || x.handler.Stood?)))
  }

  /** The two mirrored grants of a pair. */
  function Mirrored(h: nat, p: nat, x: Half): seq<Grant> {
    [Grant(h, x.id, Issued(x.mine), Issued(x.theirs)), Grant(p, x.id, Issued(x.theirs), Issued(x.mine))]
  }

  predicate SecondOk(x: Half, h: nat, p: nat, issues: nat) {
    && !x.closed && !x.timedOut && x.timer.NoTimer?
    && (match x.handler
        case Handing(k) => k == p && x.box.None? && x.grants == []
        case Shutting(k) => k == p && x.box == Some(p) && x.grants == []
        case Waiting => x.box == Some(p) && x.grants == []
        case Issuing(k) => k == p && x.box.None? && x.grants == []
        case IssuingPeer(k) => k == p && x.box.None? && x.grants == [] && 1 <= x.mine <= issues
        case Granting(k) => k == p && x.box.None? && x.grants == [] && 1 <= x.mine < x.theirs <= issues
        case GrantingPeer(k) =>
          k == p && x.box.None? && x.grants == Mirrored(h, p, x)[..1] && 1 <= x.mine < x.theirs <= issues
        case Drove => x.box.None? && x.grants == Mirrored(h, p, x) && 1 <= x.mine < x.theirs <= issues
        case _ => false)
  }

  predicate SingleOk(x: Half, parked: bool) {
    && x.box.None? && x.grants == []
    && (if x.handler.Arriving? then !parked && !x.closed && !x.timedOut && x.timer.NoTimer?
        else if parked then !x.closed && !x.timedOut && x.handler.Waiting? && (x.timer.Running? || x.timer.Fired?)
        else if x.timer.Removed? then !x.closed && !x.timedOut && x.handler.Waiting?
        else if x.timer.Flagged? then !x.closed && x.timedOut && x.handler.Waiting?
        else x.timer.Over? && x.closed && x.timedOut && (x.handler.Waiting? || x.handler.Checking? || x.handler.TimedOut?))
  }

  predicate HalfOk(x: Half, h: nat, m: Half, parked: bool, issues: nat) {
    match x.role
    case Single => SingleOk(x, parked)
    case First(_) => !parked && FirstOk(x, m)
    case Second(k) => !parked && SecondOk(x, h, k, issues)
  }

  predicate RoleOk(s: State, g: nat)
    requires g < |s.halves|
  {
    match s.halves[g].role
    case Single => true
    case First(k) => k < |s.halves| && k != g && s.halves[k].role == Second(g) && s.halves[k].id == s.halves[g].id
    case Second(k) => k < |s.halves| && k != g && s.halves[k].role == First(g) && s.halves[k].id == s.halves[g].id
  }

  ghost predicate Sound(s: State, g: nat)
    requires g < |s.halves|
  {
    RoleOk(s, g) && HalfOk(s.halves[g], g, s.halves[Mate(s, g)], IsParked(s, g), s.issues)
  }

  predicate PendingOk(s: State) {
    forall id :: id in s.pending ==>
      s.pending[id] < |s.halves| && s.halves[s.pending[id]].id == id && s.halves[s.pending[id]].role.Single?
  }

  ghost predicate Inv(s: State) {
    !s.panicked && PendingOk(s) && forall g :: 0 <= g < |s.halves| ==> Sound(s, g)
  }

  lemma Untouched(s: State, t: State, g: nat)
    requires g < |s.halves| <= |t.halves| && Sound(s, g) && s.issues <= t.issues
    requires t.halves[g] == s.halves[g] && t.halves[Mate(s, g)] == s.halves[Mate(s, g)]
    requires IsParked(s, g) == IsParked(t, g)
    ensures Sound(t, g)
  {}

  lemma ArriveKeepsInv(s: State, id: StreamId)
    requires Inv(s)
    ensures Inv(Apply(s, Arrive(id)))
  {
    var t := Apply(s, Arrive(id));
    forall g | 0 <= g < |t.halves| ensures Sound(t, g) {
      if g < |s.halves| {
        assert Sound(s, g);
        Untouched(s, t, g);
      } else {
        assert !IsParked(t, g);
      }
    }
  }

  lemma OtherIssueKeepsInv(s: State)
    requires Inv(s)
    ensures Inv(Apply(s, OtherIssue))
  {
    var t := Apply(s, OtherIssue);
    forall g | 0 <= g < |t.halves| ensures Sound(t, g) {
      assert Sound(s, g);
      Untouched(s, t, g);
    }
  }

  /** Steps that change one half and leave the pending map alone. */
  lemma OneHalfKeepsInv(s: State, h: nat, x: Half, issues: nat)
    requires Inv(s) && h < |s.halves| && Sound(s, h) && x.role == s.halves[h].role && x.id == s.halves[h].id
    requires s.issues <= issues
    requires HalfOk(x, h, s.halves[Mate(s, h)], IsParked(s, h), issues)
    requires x.role.Second? ==> FirstOk(s.halves[Mate(s, h)], x)
    ensures Inv(Set(s.(issues := issues), h, x))
  {
    var t := Set(s.(issues := issues), h, x);
    forall g | 0 <= g < |t.halves| ensures Sound(t, g) {
      assert Sound(s, g) && IsParked(s, g) == IsParked(t, g);
      if g != h && Mate(s, g) != h { Untouched(s, t, g); }
    }
  }

  lemma ShutPeerKeepsInv(s: State, h: nat)
    requires Inv(s) && Enabled(s, ShutPeer(h))
    ensures Inv(Apply(s, ShutPeer(h)))
  {
    var t := Apply(s, ShutPeer(h));
    var p := Mate(s, h);
    assert Sound(s, h) && Sound(s, p);
    var x := s.halves[h].(handler := Waiting);
    var y := s.halves[p].(closed := true);
    assert t == Set(Set(s, h, x), p, y);
    forall g | 0 <= g < |t.halves| ensures Sound(t, g) {
      assert Sound(s, g) && IsParked(s, g) == IsParked(t, g);
      if g != h && g != p { Untouched(s, t, g); }
    }
  }

  lemma PairingKeepsInv(s: State, h: nat)
    requires Inv(s) && Enabled(s, Enter(h)) && s.halves[h].id in s.pending
    ensures Inv(Apply(s, Enter(h)))
  {
    var t := Apply(s, Enter(h));
    var id := s.halves[h].id;
    var p := s.pending[id];
    assert Sound(s, h) && Sound(s, p);
    assert IsParked(s, p);
    TakenOut(s.pending, id);
    forall g | 0 <= g < |t.halves| ensures Sound(t, g) {
      assert Sound(s, g);
      if g != h && g != p { Untouched(s, t, g); }
    }
  }

  lemma ParkingKeepsInv(s: State, h: nat)
    requires Inv(s) && Enabled(s, Enter(h)) && s.halves[h].id !in s.pending
    ensures Inv(Apply(s, Enter(h)))
  {
    var t := Apply(s, Enter(h));
    var id := s.halves[h].id;
    assert Sound(s, h);
    forall g | 0 <= g < |t.halves| ensures Sound(t, g) {
      assert Sound(s, g);
      if g == h { assert t.pending[id] == h; } else {
        PutIn(s.pending, id, h, g);
        Untouched(s, t, g);
      }
    }
  }

  lemma ExpireKeepsInv(s: State, h: nat)
    requires Inv(s) && Enabled(s, Expire(h))
    ensures Inv(Apply(s, Expire(h)))
  {
    var t := Apply(s, Expire(h));
    var x := s.halves[h];
    assert Sound(s, h);
    if Parked(s.pending, x.id) == Some(h) {
      assert IsParked(s, h);
      TakenOut(s.pending, x.id);
      forall g | 0 <= g < |t.halves| ensures Sound(t, g) {
        assert Sound(s, g);
        if g != h && Mate(s, g) != h { Untouched(s, t, g); }
      }
    } else {
      assert !IsParked(s, h);
      OneHalfKeepsInv(s, h, x.(timer := Over), s.issues);
    }
  }

  lemma LocalKeepsInv(s: State, a: Action)
    requires Inv(s) && Enabled(s, a)
    requires !a.Arrive? && !a.OtherIssue? && !a.Enter? && !a.ShutPeer? && !a.Expire?
    ensures Inv(Apply(s, a))
  {
    var t := Apply(s, a);
    assert Sound(s, a.h) && Sound(s, Mate(s, a.h));
    OneHalfKeepsInv(s, a.h, t.halves[a.h], t.issues);
  }

  lemma StepKeepsInv(s: State, a: Action)
    requires Inv(s) && Enabled(s, a)
    ensures Inv(Apply(s, a))
  {
    match a
    case Arrive(id) => ArriveKeepsInv(s, id);
    case OtherIssue => OtherIssueKeepsInv(s);
    case Enter(h) => if s.halves[h].id in s.pending { PairingKeepsInv(s, h); } else { ParkingKeepsInv(s, h); }
    case Expire(h) => ExpireKeepsInv(s, h);
    case ShutPeer(h) => ShutPeerKeepsInv(s, h);
    case _ => LocalKeepsInv(s, a);
  }

  lemma {:induction false} RunKeepsInv(actions: seq<Action>)
    requires Exec(actions).Some?
    ensures Inv(Exec(actions).value)
  {
    if actions != [] {
      RunKeepsInv(actions[..|actions| - 1]);
      StepKeepsInv(Exec(actions[..|actions| - 1]).value, actions[|actions| - 1]);
    }
  }

  /** What a half adds to one side of the balance, less what it adds to the other. */
  function Weight(x: Half, id: StreamId): int {
    var n := One(x, id);
    n.submitted - 2 * n.pairs - n.expired
  }

  function InMap(s: State, id: StreamId): int { if id in s.pending then 1 else 0 }

  /** A step that changes the half `h` only. */
  lemma OneHalfBalanced(s: State, t: State, h: nat, id: StreamId)
    requires Balanced(s, id) && h < |s.halves| && |t.halves| == |s.halves| && t.halves == s.halves[h := t.halves[h]]
    requires Weight(t.halves[h], id) - Weight(s.halves[h], id) == InMap(t, id) - InMap(s, id)
    ensures Balanced(t, id)
  {
    TallyUpdate(s.halves, h, t.halves[h], id);
  }

  /** A step that changes the halves `h` and `p` only. */
  lemma TwoHalvesBalanced(s: State, t: State, h: nat, p: nat, id: StreamId)
    requires Balanced(s, id) && h < |s.halves| && p < |s.halves| && h != p && |t.halves| == |s.halves|
    requires t.halves == s.halves[h := t.halves[h]][p := t.halves[p]]
    requires Weight(t.halves[h], id) + Weight(t.halves[p], id) - Weight(s.halves[h], id) - Weight(s.halves[p], id)
          == InMap(t, id) - InMap(s, id)
    ensures Balanced(t, id)
  {
    TallyUpdateTwo(s.halves, h, t.halves[h], p, t.halves[p], id);
  }

  lemma PairingBalanced(s: State, h: nat, id: StreamId)
    requires Inv(s) && Enabled(s, Enter(h)) && s.halves[h].id in s.pending && Balanced(s, id)
    ensures Balanced(Apply(s, Enter(h)), id)
  {
    var t := Apply(s, Enter(h));
    var p := s.pending[s.halves[h].id];
    assert IsParked(s, p);
    assert Sound(s, h) && Sound(s, p);
    assert t.halves == s.halves[h := t.halves[h]][p := t.halves[p]];
    TwoHalvesBalanced(s, t, h, p, id);
  }

  lemma ShutPeerBalanced(s: State, h: nat, id: StreamId)
    requires Enabled(s, ShutPeer(h)) && Balanced(s, id) && !Apply(s, ShutPeer(h)).panicked
    ensures Balanced(Apply(s, ShutPeer(h)), id)
  {
    var t := Apply(s, ShutPeer(h));
    var p := s.halves[h].handler.peer;
    assert t.halves == s.halves[h := t.halves[h]][p := t.halves[p]];
    TwoHalvesBalanced(s, t, h, p, id);
  }

  lemma ExpireBalanced(s: State, h: nat, id: StreamId)
    requires Inv(s) && Enabled(s, Expire(h)) && Balanced(s, id)
    ensures Balanced(Apply(s, Expire(h)), id)
  {
    assert Sound(s, h);
    if Parked(s.pending, s.halves[h].id) == Some(h) { assert IsParked(s, h); }
    OneHalfBalanced(s, Apply(s, Expire(h)), h, id);
  }

  lemma ParkingBalanced(s: State, h: nat, id: StreamId)
    requires Inv(s) && Enabled(s, Enter(h)) && s.halves[h].id !in s.pending && Balanced(s, id)
    ensures Balanced(Apply(s, Enter(h)), id)
  {
    assert Sound(s, h);
    OneHalfBalanced(s, Apply(s, Enter(h)), h, id);
  }

  lemma ArriveBalanced(s: State, x: StreamId, id: StreamId)
    requires Balanced(s, id)
    ensures Balanced(Apply(s, Arrive(x)), id)
  {
    assert Apply(s, Arrive(x)).halves[..|s.halves|] == s.halves;
  }

  lemma HandlerBalanced(s: State, a: Action, id: StreamId)
    requires Enabled(s, a) && Balanced(s, id) && !Apply(s, a).panicked
    requires a.Hand? || a.Receive? || a.Check? || a.Issue? || a.IssuePeer? || a.Give? || a.GivePeer?
    ensures Balanced(Apply(s, a), id)
  {
    OneHalfBalanced(s, Apply(s, a), a.h, id);
  }

  lemma TimerBalanced(s: State, a: Action, id: StreamId)
    requires Enabled(s, a) && Balanced(s, id) && !Apply(s, a).panicked
    requires (a.Fire? || a.SeeClosed? || a.SetFlag? || a.Shut?) && Sound(s, a.h)
    ensures Balanced(Apply(s, a), id)
  {
    OneHalfBalanced(s, Apply(s, a), a.h, id);
  }

  lemma StepNeverPanics(s: State, a: Action)
    requires Inv(s) && Enabled(s, a)
    ensures !Apply(s, a).panicked
  {
    StepKeepsInv(s, a);
  }

  lemma StepKeepsBalance(s: State, a: Action, id: StreamId)
    requires Inv(s) && Enabled(s, a) && Balanced(s, id)
    ensures Balanced(Apply(s, a), id)
  {
    StepNeverPanics(s, a);
    match a
    case Arrive(x) => ArriveBalanced(s, x, id);
    case OtherIssue =>
    case ShutPeer(h) => ShutPeerBalanced(s, h, id);
    case Enter(h) => if s.halves[h].id in s.pending { PairingBalanced(s, h, id); } else { ParkingBalanced(s, h, id); }
    case Expire(h) => ExpireBalanced(s, h, id);
    case Fire(h) => TimerBalanced(s, a, id);
    case SeeClosed(h) => TimerBalanced(s, a, id);
    case SetFlag(h) => TimerBalanced(s, a, id);
    case Shut(h) => TimerBalanced(s, a, id);
    case _ => HandlerBalanced(s, a, id);
  }

  lemma {:induction false} RunKeepsBalance(actions: seq<Action>, id: StreamId)
    requires Exec(actions).Some?
    ensures Balanced(Exec(actions).value, id)
  {
    if actions != [] {
      RunKeepsBalance(actions[..|actions| - 1], id);
      RunKeepsInv(actions[..|actions| - 1]);
      StepKeepsBalance(Exec(actions[..|actions| - 1]).value, actions[|actions| - 1], id);
    }
  }

  lemma {:induction false} SoundAt(actions: seq<Action>, g: nat)
    requires Exec(actions).Some? && g < |Exec(actions).value.halves|
    ensures Sound(Exec(actions).value, g)
  {
    RunKeepsInv(actions);
  }

  // What every run guarantees

  /** No closed channel is sent on or closed again, and no half of any stream is lost or doubled. */
  lemma {:induction false} HalvesAreConserved(actions: seq<Action>, id: StreamId)
    requires Exec(actions).Some?
    ensures !Exec(actions).value.panicked && Balanced(Exec(actions).value, id)
  {
    RunKeepsInv(actions);
    RunKeepsBalance(actions, id);
  }

  /**
   A handler that has finished reports a timeout exactly when its half expired, stands back
   exactly when it was the first of a pair, and has driven exactly when it was the second. The
   flag it reads is set on expired halves only, and before their channel is closed.
   */
  lemma {:induction false} TimeoutIsToldApart(actions: seq<Action>, g: nat)
    requires Exec(actions).Some? && g < |Exec(actions).value.halves|
    ensures var x := Exec(actions).value.halves[g];
            && (x.handler.TimedOut? || x.handler.Stood? || x.handler.Drove? ==>
                  && (x.handler.TimedOut? <==> IsExpired(x))
                  && (x.handler.Stood? <==> x.role.First?)
                  && (x.handler.Drove? <==> x.role.Second?))
            && (x.closed ==> (x.timedOut <==> IsExpired(x)))
            && (x.timedOut ==> IsExpired(x))
            && (x.role.Second? ==> !x.closed)
  {
    RunKeepsInv(actions);
    assert Sound(Exec(actions).value, g);
  }

  /** No thread of the half or of its mate can move. */
  ghost predicate Quiet(s: State, g: nat) {
    forall a: Action :: !a.Arrive? && !a.OtherIssue? && (a.h == g || (g < |s.halves| && a.h == Mate(s, g))) ==> !Enabled(s, a)
  }

  lemma QuietSingle(s: State, g: nat)
    requires Inv(s) && g < |s.halves| && s.halves[g].role.Single?
    requires !Enabled(s, Enter(g)) && !Enabled(s, Receive(g)) && !Enabled(s, Check(g)) && !Enabled(s, Fire(g))
    requires !Enabled(s, Expire(g)) && !Enabled(s, SetFlag(g)) && !Enabled(s, Shut(g))
    ensures s.halves[g].handler.TimedOut?
  {
    assert Sound(s, g);
  }

  lemma QuietSecond(s: State, k: nat)
    requires Inv(s) && k < |s.halves| && s.halves[k].role.Second?
    requires !Enabled(s, Hand(k)) && !Enabled(s, ShutPeer(k)) && !Enabled(s, Receive(k)) && !Enabled(s, Issue(k))
    requires !Enabled(s, IssuePeer(k)) && !Enabled(s, Give(k)) && !Enabled(s, GivePeer(k))
    ensures s.halves[k].handler.Drove?
  {
    assert Sound(s, k);
  }

  lemma QuietFirst(s: State, g: nat)
    requires Inv(s) && g < |s.halves| && s.halves[g].role.First? && Mate(s, g) < |s.halves|
    requires s.halves[Mate(s, g)].handler.Drove? && !Enabled(s, Receive(g)) && !Enabled(s, Check(g))
    ensures s.halves[g].handler.Stood?
  {
    assert Sound(s, g);
  }

  /** No handler is ever stuck: when a half and its mate are at rest, each has finished in its role. */
  lemma {:induction false} HandlersFinish(actions: seq<Action>, g: nat)
    requires Exec(actions).Some? && g < |Exec(actions).value.halves| && Quiet(Exec(actions).value, g)
    ensures var x := Exec(actions).value.halves[g];
            x.handler == match x.role case Single => TimedOut case First(_) => Stood case Second(_) => Drove
  {
    RunKeepsInv(actions);
    var s := Exec(actions).value;
    assert Sound(s, g);
    match s.halves[g].role
    case Single => QuietSingle(s, g);
    case Second(_) => QuietSecond(s, g);
    case First(k) =>
      QuietSecond(s, k);
      QuietFirst(s, g);
  }

  // Whose issues are whose

  /** The numbers of the issues that a half's handler has made so far. */
  function Numbers(x: Half): set<nat> {
    match x.handler
    case IssuingPeer(_) => {x.mine}
    case Granting(_) => {x.mine, x.theirs}
    case GrantingPeer(_) => {x.mine, x.theirs}
    case Drove => {x.mine, x.theirs}
    case _ => {}
  }

  lemma NumbersAreIssued(s: State, g: nat)
    requires Inv(s) && g < |s.halves|
    ensures forall n :: n in Numbers(s.halves[g]) ==> n <= s.issues
  {
    assert Sound(s, g);
  }

  lemma IssueAddsNumber(s: State, a: Action, g: nat)
    requires Enabled(s, a) && g < |s.halves| && (a.Issue? || a.IssuePeer?)
    ensures |Apply(s, a).halves| == |s.halves|
    ensures Numbers(Apply(s, a).halves[g]) == Numbers(s.halves[g]) + (if a.h == g then {s.issues + 1} else {})
  {}

  lemma PairStepKeepsNumbers(s: State, a: Action, g: nat)
    requires Enabled(s, a) && g < |s.halves| && (a.Enter? || a.ShutPeer?)
    ensures g < |Apply(s, a).halves| && Numbers(Apply(s, a).halves[g]) == Numbers(s.halves[g])
  {}

  lemma LoneStepKeepsNumbers(s: State, a: Action, g: nat)
    requires Enabled(s, a) && g < |s.halves| && !a.Enter? && !a.ShutPeer? && !a.Issue? && !a.IssuePeer?
    ensures g < |Apply(s, a).halves| && Numbers(Apply(s, a).halves[g]) == Numbers(s.halves[g])
  {}

  /** A step changes the numbers of one half at most, and by one new issue. */
  lemma StepAddsNumber(s: State, a: Action, g: nat)
    requires Enabled(s, a) && g < |s.halves|
    ensures g < |Apply(s, a).halves|
    ensures Numbers(Apply(s, a).halves[g])
         == Numbers(s.halves[g]) + (if a == Issue(g) || a == IssuePeer(g) then {s.issues + 1} else {})
  {
    if a.Issue? || a.IssuePeer? {
      IssueAddsNumber(s, a, g);
    } else if a.Enter? || a.ShutPeer? {
      PairStepKeepsNumbers(s, a, g);
    } else {
      LoneStepKeepsNumbers(s, a, g);
    }
  }

  lemma StepKeepsNumbersApart(s: State, a: Action, g: nat, k: nat)
    requires Inv(s) && Enabled(s, a) && g < |s.halves| && k < |s.halves| && g != k
    requires Numbers(s.halves[g]) !! Numbers(s.halves[k])
    ensures Numbers(Apply(s, a).halves[g]) !! Numbers(Apply(s, a).halves[k])
  {
    StepAddsNumber(s, a, g);
    StepAddsNumber(s, a, k);
    NumbersAreIssued(s, g);
    NumbersAreIssued(s, k);
  }

  lemma NewcomerHasNone(s: State, a: Action, g: nat)
    requires Enabled(s, a) && |s.halves| <= g < |Apply(s, a).halves|
    ensures Numbers(Apply(s, a).halves[g]) == {}
  {}

  /** No issue is ever used by two drivers. */
  lemma {:induction false} DriversShareNoIssue(actions: seq<Action>, g: nat, k: nat)
    requires Exec(actions).Some? && g < |Exec(actions).value.halves| && k < |Exec(actions).value.halves| && g != k
    ensures Numbers(Exec(actions).value.halves[g]) !! Numbers(Exec(actions).value.halves[k])
  {
    if actions != [] {
      var before, a := actions[..|actions| - 1], actions[|actions| - 1];
      var s := Exec(before).value;
      if g < |s.halves| && k < |s.halves| {
        DriversShareNoIssue(before, g, k);
        RunKeepsInv(before);
        StepKeepsNumbersApart(s, a, g, k);
      } else {
        NewcomerHasNone(s, a, if g < |s.halves| then k else g);
      }
    }
  }

  /** The two issues of a half that has driven are no other half's. */
  ghost predicate OwnIssues(hs: seq<Half>, g: nat)
    requires g < |hs|
  {
    forall k :: 0 <= k < |hs| && k != g ==> {hs[g].mine, hs[g].theirs} !! Numbers(hs[k])
  }

  lemma {:induction false} DroveOwnIssues(actions: seq<Action>, g: nat)
    requires Exec(actions).Some? && g < |Exec(actions).value.halves| && Exec(actions).value.halves[g].handler.Drove?
    ensures OwnIssues(Exec(actions).value.halves, g)
  {
    var hs := Exec(actions).value.halves;
    forall k | 0 <= k < |hs| && k != g ensures {hs[g].mine, hs[g].theirs} !! Numbers(hs[k]) {
      DriversShareNoIssue(actions, g, k);
    }
  }

  /**
   The half `g` has driven its pair: two grants, each naming the other's allocation as its peer,
   whose ids differ if and only if no whole number of turns lies between their issues.
   */
  predicate Driven(s: State, g: nat)
    requires g < |s.halves|
  {
    var x := s.halves[g];
    && x.role.Second? && x.role.first < |s.halves| && s.halves[x.role.first].role == First(g)
    && |x.grants| == 2
    && x.grants[0].to == g && x.grants[1].to == x.role.first
    && x.grants[0].stream == x.grants[1].stream == x.id == s.halves[x.role.first].id
    && x.grants[0].my == x.grants[1].peer == Issued(x.mine) && x.grants[0].peer == x.grants[1].my == Issued(x.theirs)
    && x.mine < x.theirs && (x.grants[0].my != x.grants[1].my <==> (x.theirs - x.mine) % TURN != 0)
  }

  lemma SoundIsDriven(s: State, g: nat)
    requires g < |s.halves| && Sound(s, g)
    ensures s.halves[g].grants != [] ==> s.halves[g].role.Second?
    ensures s.halves[g].handler.Drove? ==> Driven(s, g)
  {
    if s.halves[g].handler.Drove? { SameIdIffWholeTurns(s.halves[g].mine, s.halves[g].theirs); }
  }

  /**
   Only the second half of a pair drives. When it is done it has written exactly two grants,
   each naming the other's allocation as its peer, from two issues that no other driver made;
   the two ids differ if and only if no whole number of turns lies between the issues.
   */
  lemma {:induction false} DriverGrantsMirrorEachOther(actions: seq<Action>, g: nat)
    requires Exec(actions).Some? && g < |Exec(actions).value.halves|
    ensures Exec(actions).value.halves[g].grants != [] ==> Exec(actions).value.halves[g].role.Second?
    ensures Exec(actions).value.halves[g].handler.Drove? ==>
              Driven(Exec(actions).value, g) && OwnIssues(Exec(actions).value.halves, g)
  {
    SoundAt(actions, g);
    SoundIsDriven(Exec(actions).value, g);
    if Exec(actions).value.halves[g].handler.Drove? { DroveOwnIssues(actions, g); }
  }
}
