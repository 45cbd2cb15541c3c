/**
 The STREAM_RESUME matcher and the handlers around it, as interleaved threads.

 Each half of a resumed stream has a handler thread; a half that is parked also has an expiry
 thread. A step is one critical section, one channel operation, or one decision. Sending on or
 closing a closed channel, and closing a nil one, is a panic, recorded in `panicked`.

 A parked half's `matched` channel holds one value but has two readers, its handler and its
 expiry thread. The model keeps that: `stolen` marks the halves whose expiry thread took it.
 */
module Resume {
  import opened Options
  import opened Pairing

  /** Which half of which pair; history, set when the pair forms. */
  datatype Role = Single | First(second: nat) | Second(first: nat)

  datatype Done = NoDone | DoneOpen | DoneClosed

  datatype Handler =
    | Arriving
    | Pairing(peer: nat)      // has taken the parked half out
    | Notifying(peer: nat)    // about to send itself to the parked half
    | Confirming(peer: nat)   // about to send the parked half to itself
    | Waiting                 // blocked on its own channel
    | Matched(peer: nat)      // has its peer, about to look at the splicer flag
    | Held                    // waits for the splicer to close `done`
    | Splicing(peer: nat)
    | Expired                 // the channel was closed: no peer came
    | Released                // `done` was closed
    | Spliced                 // ran the splice and closed the peer's `done`

  datatype Timer = NoTimer | Running | Fired | Removed | Over

  datatype Half = Half(
    id: StreamId,
    splicer: bool,
    box: Option<nat>,         // the one-place buffer of `matched`
    closed: bool,             // `matched` is closed
    done: Done,
    handler: Handler,
    timer: Timer,
    role: Role,               // history
    splices: nat,             // history: how often its handler entered the splice
    stolen: bool)             // history: its expiry thread took the value meant for its handler

  datatype State = State(halves: seq<Half>, pending: Pending, panicked: bool)

  // Steps

  datatype Action =
    | Arrive(id: StreamId)
    | Enter(h: nat)         // Submit's critical section
    | Flag(h: nat)          // set both splicer flags
    | SendPeer(h: nat)
    | SendSelf(h: nat)
    | Receive(h: nat)       // the handler reads its channel
    | Look(h: nat)          // the handler looks at its splicer flag
    | Finish(h: nat)        // the splice ends; close the peer's done
    | Wake(h: nat)          // done was closed
    | Fire(h: nat)          // the window elapses
    | Steal(h: nat)         // the expiry thread reads the channel
    | Expire(h: nat)        // the expiry thread's critical section
    | Shut(h: nat)          // the expiry thread closes the channel

  predicate Enabled(s: State, a: Action) {
    match a
    case Arrive(_) => true
    case Enter(h) => h < |s.halves| && s.halves[h].handler.Arriving?
    case Flag(h) => h < |s.halves| && s.halves[h].handler.Pairing? && s.halves[h].handler.peer < |s.halves|
    case SendPeer(h) => h < |s.halves| && s.halves[h].handler.Notifying? && s.halves[h].handler.peer < |s.halves|
                        && s.halves[s.halves[h].handler.peer].box.None?
    case SendSelf(h) => h < |s.halves| && s.halves[h].handler.Confirming? && s.halves[h].box.None?
    case Receive(h) => h < |s.halves| && s.halves[h].handler.Waiting? && (s.halves[h].box.Some? || s.halves[h].closed)
    case Look(h) => h < |s.halves| && s.halves[h].handler.Matched?
    case Finish(h) => h < |s.halves| && s.halves[h].handler.Splicing? && s.halves[h].handler.peer < |s.halves|
    case Wake(h) => h < |s.halves| && s.halves[h].handler.Held? && s.halves[h].done.DoneClosed?
    case Fire(h) => h < |s.halves| && s.halves[h].timer.Running?
    case Steal(h) => h < |s.halves| && s.halves[h].timer.Running? && s.halves[h].box.Some?
    case Expire(h) => h < |s.halves| && s.halves[h].timer.Fired?
    case Shut(h) => h < |s.halves| && s.halves[h].timer.Removed?
  }

  function Set(s: State, h: nat, x: Half): State
    requires h < |s.halves|
  {
    s.(halves := s.halves[h := x])
  }

  function Apply(s: State, a: Action): State
    requires Enabled(s, a)
  {
    match a
    case Arrive(id) =>
      s.(halves := s.halves + [Half(id, false, None, false, NoDone, Arriving, NoTimer, Single, 0, false)])
    case Enter(h) =>
      var x := s.halves[h];
      var s' := s.(pending := AfterMeet(s.pending, x.id, h));
      (match Parked(s.pending, x.id)
       case None => Set(s', h, x.(done := DoneOpen, handler := Waiting, timer := Running))
       case Some(p) =>
         var s'' := Set(s', h, x.(handler := Pairing(p), role := Second(p)));
         if p < |s.halves| then Set(s'', p, s''.halves[p].(role := First(h))) else s'')
    case Flag(h) =>
      var x := s.halves[h];
      var s' := Set(s, h, x.(splicer := true, handler := Notifying(x.handler.peer)));
      Set(s', x.handler.peer, s'.halves[x.handler.peer].(splicer := false))
    case SendPeer(h) =>
      var x := s.halves[h];
      var p := x.handler.peer;
      var s' := Set(s, h, x.(handler := Confirming(p)));
      if s.halves[p].closed then s'.(panicked := true) else Set(s', p, s'.halves[p].(box := Some(h)))
    case SendSelf(h) =>
      var x := s.halves[h];
      if x.closed then s.(panicked := true)
      else Set(s, h, x.(handler := Waiting, box := Some(x.handler.peer)))
    case Receive(h) =>
      var x := s.halves[h];
      if x.box.Some? then Set(s, h, x.(handler := Matched(x.box.value), box := None))
      else Set(s, h, x.(handler := Expired))
    case Look(h) =>
      var x := s.halves[h];
      if x.splicer then Set(s, h, x.(handler := Splicing(x.handler.peer), splices := x.splices + 1))
      else Set(s, h, x.(handler := Held))
    case Finish(h) =>
      var x := s.halves[h];
      var p := x.handler.peer;
      var s' := Set(s, h, x.(handler := Spliced));
      if s.halves[p].done.DoneOpen? then Set(s', p, s'.halves[p].(done := DoneClosed)) else s'.(panicked := true)
    case Wake(h) => Set(s, h, s.halves[h].(handler := Released))
    case Fire(h) => Set(s, h, s.halves[h].(timer := Fired))
    case Steal(h) => Set(s, h, s.halves[h].(timer := Over, box := None, stolen := true))
    case Expire(h) =>
      var x := s.halves[h];
      Set(s.(pending := AfterExpire(s.pending, x.id, h)), h,
          x.(timer := if Parked(s.pending, x.id) == Some(h) then Removed else Over))
    case Shut(h) =>
      var x := s.halves[h];
      if x.closed then s.(panicked := true) else Set(s, h, x.(timer := Over, closed := true))
  }

  const START := State([], map[], false)

  function Exec(actions: seq<Action>): Option<State> {
    if actions == [] then Some(START)
    else
      var s := Exec(actions[..|actions| - 1]);
      var a := actions[|actions| - 1];
      if s.Some? && Enabled(s.value, a) then Some(Apply(s.value, a)) else None
  }

  // The invariant, one half at a time

  predicate IsParked(s: State, g: nat) { Waits(s.pending, g) }

  function Mate(s: State, g: nat): nat
    requires g < |s.halves|
  {
    match s.halves[g].role
    case Single => g
    case First(k) => k
    case Second(k) => k
  }

  /** Where the value meant for a first half is: not sent yet, in the box, received, or taken. */
  predicate FirstOk(x: Half, m: Half, second: nat) {
    && !x.closed && !x.splicer && x.splices == 0
    && (x.timer.Running? || x.timer.Fired? || x.timer.Over?)
    && (x.done == if m.handler.Spliced? then DoneClosed else DoneOpen)
    && (if m.handler.Pairing? || m.handler.Notifying? then x.handler.Waiting? && x.box.None? && !x.stolen
        else if x.stolen then x.handler.Waiting? && x.box.None? && x.timer.Over?
        else if x.handler.Waiting? then x.box == Some(second)
        else x.box.None? && (x.handler == Matched(second) || x.handler.Held? || (x.handler.Released? && x.done.DoneClosed?)))
  }

  predicate SecondOk(x: Half, first: nat) {
    && !x.closed && x.done.NoDone? && x.timer.NoTimer? && !x.stolen
    && (x.splicer <==> !x.handler.Pairing?)
    && (x.splices == if x.handler.Splicing? || x.handler.Spliced? then 1 else 0)
    && (if x.handler.Waiting? then x.box == Some(first)
        else x.box.None? && (x.handler == Pairing(first) || x.handler == Notifying(first) || x.handler == Confirming(first)
                             || x.handler == Matched(first) || x.handler == Splicing(first) || x.handler.Spliced?))
  }

  predicate SingleOk(x: Half, parked: bool) {
    && !x.splicer && x.box.None? && x.splices == 0 && !x.stolen
    && (if x.handler.Arriving? then !parked && !x.closed && x.done.NoDone? && x.timer.NoTimer?
        else if parked then !x.closed && x.done.DoneOpen? && x.handler.Waiting? && (x.timer.Running? || x.timer.Fired?)
        else if x.timer.Removed? then !x.closed && x.done.DoneOpen? && x.handler.Waiting?
        else x.timer.Over? && x.closed && x.done.DoneOpen? && (x.handler.Waiting? || x.handler.Expired?))
  }

  predicate HalfOk(x: Half, m: Half, parked: bool) {
    match x.role
    case Single => SingleOk(x, parked)
    case First(k) => !parked && FirstOk(x, m, k)
    case Second(k) => !parked && SecondOk(x, k)
  }

  /** A pair names each other, in opposite roles, for the same stream. */
  predicate RoleOk(s: State, g: nat)
    requires g < |s.halves|
  {
    match s.halves[g].role
    case Single => true
    case First(k) => k < |s.halves| && k != g && s.halves[k].role == Second(g) && s.halves[k].id == s.halves[g].id
    case Second(k) => k < |s.halves| && k != g && s.halves[k].role == First(g) && s.halves[k].id == s.halves[g].id
  }

  ghost predicate Sound(s: State, g: nat)
    requires g < |s.halves|
  {
    RoleOk(s, g) && HalfOk(s.halves[g], s.halves[Mate(s, g)], IsParked(s, g))
  }

  predicate PendingOk(s: State) {
    forall id :: id in s.pending ==>
      s.pending[id] < |s.halves| && s.halves[s.pending[id]].id == id && s.halves[s.pending[id]].role.Single?
  }

  ghost predicate Inv(s: State) {
    !s.panicked && PendingOk(s) && forall g :: 0 <= g < |s.halves| ==> Sound(s, g)
  }

  /** A half that neither changed nor saw its mate change is still sound. */
  lemma Untouched(s: State, t: State, g: nat)
    requires g < |s.halves| <= |t.halves| && Sound(s, g)
    requires t.halves[g] == s.halves[g] && t.halves[Mate(s, g)] == s.halves[Mate(s, g)]
    requires IsParked(s, g) == IsParked(t, g)
    ensures Sound(t, g)
  {}

  lemma ArriveKeepsInv(s: State, id: StreamId)
    requires Inv(s)
    ensures Inv(Apply(s, Arrive(id)))
  {
    var t := Apply(s, Arrive(id));
    forall g | 0 <= g < |t.halves| ensures Sound(t, g) {
      if g < |s.halves| {
        assert Sound(s, g);
        Untouched(s, t, g);
      } else {
        assert !IsParked(t, g);
      }
    }
  }

  /** Steps that change one half and leave the pending map alone. */
  lemma OneHalfKeepsInv(s: State, h: nat, x: Half)
    requires Inv(s) && h < |s.halves| && Sound(s, h) && x.role == s.halves[h].role && x.id == s.halves[h].id
    requires HalfOk(x, s.halves[Mate(s, h)], IsParked(s, h))
    requires x.role.Second? ==> FirstOk(s.halves[Mate(s, h)], x, h)
    ensures Inv(Set(s, h, x))
  {
    var t := Set(s, h, x);
    assert Sound(s, h);
    forall g | 0 <= g < |t.halves| ensures Sound(t, g) {
      assert Sound(s, g) && IsParked(s, g) == IsParked(t, g);
      if g != h && Mate(s, g) != h { Untouched(s, t, g); }
    }
  }

  /** Steps of the second half that also change the first. */
  lemma PairKeepsInv(s: State, h: nat, x: Half, p: nat, y: Half)
    requires Inv(s) && h < |s.halves| && s.halves[h].role == Second(p) && p < |s.halves| && p != h
    requires x.role == s.halves[h].role && x.id == s.halves[h].id
    requires y.role == s.halves[p].role && y.id == s.halves[p].id
    requires SecondOk(x, p) && FirstOk(y, x, h)
    ensures Inv(Set(Set(s, h, x), p, y))
  {
    var t := Set(Set(s, h, x), p, y);
    assert Sound(s, h) && Sound(s, p);
    forall g | 0 <= g < |t.halves| ensures Sound(t, g) {
      assert Sound(s, g) && IsParked(s, g) == IsParked(t, g);
      if g != h && g != p { Untouched(s, t, g); }
    }
  }

  lemma PairingKeepsInv(s: State, h: nat)
    requires Inv(s) && Enabled(s, Enter(h)) && s.halves[h].id in s.pending
    ensures Inv(Apply(s, Enter(h)))
  {
    var t := Apply(s, Enter(h));
    var id := s.halves[h].id;
    var p := s.pending[id];
    assert Sound(s, h) && Sound(s, p);
    TakenOut(s.pending, id);
    forall g | 0 <= g < |t.halves| ensures Sound(t, g) {
      assert Sound(s, g);
      if g != h && g != p { Untouched(s, t, g); }
    }
  }

  lemma ParkingKeepsInv(s: State, h: nat)
    requires Inv(s) && Enabled(s, Enter(h)) && s.halves[h].id !in s.pending
    ensures Inv(Apply(s, Enter(h)))
  {
    var t := Apply(s, Enter(h));
    var id := s.halves[h].id;
    assert Sound(s, h);
    forall g | 0 <= g < |t.halves| ensures Sound(t, g) {
      assert Sound(s, g);
      if g == h { assert t.pending[id] == h; } else {
        PutIn(s.pending, id, h, g);
        Untouched(s, t, g);
      }
    }
  }

  lemma ExpireKeepsInv(s: State, h: nat)
    requires Inv(s) && Enabled(s, Expire(h))
    ensures Inv(Apply(s, Expire(h)))
  {
    var t := Apply(s, Expire(h));
    var x := s.halves[h];
    assert Sound(s, h);
    if Parked(s.pending, x.id) == Some(h) {
      TakenOut(s.pending, x.id);
      forall g | 0 <= g < |t.halves| ensures Sound(t, g) {
        assert Sound(s, g);
        if g != h && Mate(s, g) != h { Untouched(s, t, g); }
      }
    } else {
      assert !IsParked(s, h);
      OneHalfKeepsInv(s, h, x.(timer := Over));
    }
  }

  lemma HandlerKeepsInv(s: State, a: Action)
    requires Inv(s) && Enabled(s, a)
    requires a.Flag? || a.SendPeer? || a.SendSelf? || a.Finish?
    ensures Inv(Apply(s, a))
  {
    var t := Apply(s, a);
    assert Sound(s, a.h) && Sound(s, Mate(s, a.h));
    var p := Mate(s, a.h);
    if a.SendSelf? {
      OneHalfKeepsInv(s, a.h, t.halves[a.h]);
    } else {
      assert t.halves == s.halves[a.h := t.halves[a.h]][p := t.halves[p]];
      PairKeepsInv(s, a.h, t.halves[a.h], p, t.halves[p]);
    }
  }

  lemma LocalKeepsInv(s: State, a: Action)
    requires Inv(s) && Enabled(s, a)
    requires a.Receive? || a.Look? || a.Wake? || a.Fire? || a.Steal? || a.Shut?
    ensures Inv(Apply(s, a))
  {
    assert Sound(s, a.h) && Sound(s, Mate(s, a.h));
    OneHalfKeepsInv(s, a.h, Apply(s, a).halves[a.h]);
  }

  lemma StepKeepsInv(s: State, a: Action)
    requires Inv(s) && Enabled(s, a)
    ensures Inv(Apply(s, a))
  {
    match a
    case Arrive(id) => ArriveKeepsInv(s, id);
    case Enter(h) => if s.halves[h].id in s.pending { PairingKeepsInv(s, h); } else { ParkingKeepsInv(s, h); }
    case Expire(h) => ExpireKeepsInv(s, h);
    case Flag(_) => HandlerKeepsInv(s, a);
    case SendPeer(_) => HandlerKeepsInv(s, a);
    case SendSelf(_) => HandlerKeepsInv(s, a);
    case Finish(_) => HandlerKeepsInv(s, a);
    case _ => LocalKeepsInv(s, a);
  }

  lemma {:induction false} RunKeepsInv(actions: seq<Action>)
    requires Exec(actions).Some?
    ensures Inv(Exec(actions).value)
  {
    if actions != [] {
      RunKeepsInv(actions[..|actions| - 1]);
      StepKeepsInv(Exec(actions[..|actions| - 1]).value, actions[|actions| - 1]);
    }
  }

  // What every run guarantees

  /** No thread ever sends on or closes a closed channel, or closes a nil one. */
  lemma {:induction false} NoPanics(actions: seq<Action>)
    requires Exec(actions).Some?
    ensures !Exec(actions).value.panicked
  {
    RunKeepsInv(actions);
  }

  /**
   Pairs are disjoint and of one stream, the second arrival alone is the splicer, it enters the
   splice at most once, and the first half's `done` is closed exactly when that splice has ended.
   */
  lemma {:induction false} PairsAreSplicedOnce(actions: seq<Action>, g: nat)
    requires Exec(actions).Some? && g < |Exec(actions).value.halves|
    ensures var s := Exec(actions).value;
            match s.halves[g].role
            case Single => s.halves[g].splices == 0 && !s.halves[g].splicer
            case First(k) =>
              && k < |s.halves| && k != g && s.halves[k].role == Second(g) && s.halves[k].id == s.halves[g].id
              && !s.halves[g].splicer && s.halves[g].splices == 0
              && (s.halves[g].done.DoneClosed? <==> s.halves[k].handler.Spliced?)
            case Second(k) =>
              && k < |s.halves| && k != g && s.halves[k].role == First(g)
              && (s.halves[g].splicer <==> !s.halves[g].handler.Pairing?)
              && s.halves[g].splices == (if s.halves[g].handler.Splicing? || s.halves[g].handler.Spliced? then 1 else 0)
  {
    RunKeepsInv(actions);
    assert Sound(Exec(actions).value, g);
  }

  /** A parked half leaves the map only through its own expiry or by being paired. */
  lemma OnlyOwnTimerEvicts(s: State, a: Action, g: nat)
    requires Inv(s) && Enabled(s, a) && IsParked(s, g) && !IsParked(Apply(s, a), g)
    ensures a == Expire(g) || (a.Enter? && g < |s.halves| && s.halves[a.h].id == s.halves[g].id
                               && Apply(s, a).halves[g].role == First(a.h))
  {
    var t := Apply(s, a);
    var id :| id in s.pending && s.pending[id] == g;
    if Parked(t.pending, id) == Some(g) { FoundWaits(t.pending, id, g); }
  }

  /** At most one half of a stream is parked, and a parked half belongs to no pair. */
  lemma {:induction false} OneParkedPerStream(actions: seq<Action>, g: nat, k: nat)
    requires Exec(actions).Some?
    requires var s := Exec(actions).value;
             g < |s.halves| && k < |s.halves| && IsParked(s, g) && IsParked(s, k) && s.halves[g].id == s.halves[k].id
    ensures g == k && Exec(actions).value.halves[g].role.Single?
  {
    RunKeepsInv(actions);
  }

  /** No thread of the half or of its mate can move. */
  ghost predicate Quiet(s: State, g: nat) {
    forall a: Action :: !a.Arrive? && (a.h == g || (g < |s.halves| && a.h == Mate(s, g))) ==> !Enabled(s, a)
  }

  lemma QuietSecond(s: State, k: nat)
    requires Inv(s) && k < |s.halves| && s.halves[k].role.Second? && Sound(s, k) && Sound(s, Mate(s, k))
    requires !Enabled(s, Flag(k)) && !Enabled(s, SendPeer(k)) && !Enabled(s, SendSelf(k))
    requires !Enabled(s, Receive(k)) && !Enabled(s, Look(k)) && !Enabled(s, Finish(k))
    ensures s.halves[k].handler.Spliced?
  {}

  lemma QuietFirst(s: State, g: nat)
    requires g < |s.halves| && s.halves[g].role.First? && Sound(s, g) && s.halves[Mate(s, g)].handler.Spliced?
    requires !Enabled(s, Receive(g)) && !Enabled(s, Look(g)) && !Enabled(s, Wake(g))
    ensures s.halves[g].handler == (if s.halves[g].stolen then Waiting else Released)
  {}

  lemma QuietSingle(s: State, g: nat)
    requires Inv(s) && g < |s.halves| && s.halves[g].role.Single?
    requires !Enabled(s, Enter(g)) && !Enabled(s, Receive(g)) && !Enabled(s, Fire(g)) && !Enabled(s, Expire(g))
    requires !Enabled(s, Shut(g))
    ensures s.halves[g].handler.Expired?
  {
    assert Sound(s, g);
  }

  /** A half that stays alone is never stuck: at rest it has expired. */
  lemma {:induction false} SingleHalfExpires(actions: seq<Action>, g: nat)
    requires Exec(actions).Some? && g < |Exec(actions).value.halves|
    requires Exec(actions).value.halves[g].role.Single? && Quiet(Exec(actions).value, g)
    ensures Exec(actions).value.halves[g].handler.Expired?
  {
    RunKeepsInv(actions);
    QuietSingle(Exec(actions).value, g);
  }

  /** The second half is never stuck: when it and its mate are at rest, the splice has run. */
  lemma {:induction false} SecondHalfAlwaysFinishes(actions: seq<Action>, g: nat)
    requires Exec(actions).Some? && g < |Exec(actions).value.halves|
    requires Exec(actions).value.halves[g].role.Second? && Quiet(Exec(actions).value, g)
    ensures Exec(actions).value.halves[g].handler.Spliced?
  {
    RunKeepsInv(actions);
    var s := Exec(actions).value;
    assert Sound(s, g) && Sound(s, Mate(s, g));
    QuietSecond(s, g);
  }

  /** A paired first half wakes up if and only if its expiry thread did not take its value. */
  lemma {:induction false} FirstHalfWakesIffNotStolen(actions: seq<Action>, g: nat)
    requires Exec(actions).Some? && g < |Exec(actions).value.halves|
    requires Exec(actions).value.halves[g].role.First? && Quiet(Exec(actions).value, g)
    ensures var x := Exec(actions).value.halves[g];
            x.handler == (if x.stolen then Waiting else Released)
  {
    RunKeepsInv(actions);
    var s := Exec(actions).value;
    assert Sound(s, g) && Sound(s, Mate(s, g));
    QuietSecond(s, Mate(s, g));
    QuietFirst(s, g);
  }

  lemma StolenStays(s: State, a: Action, g: nat)
    requires Enabled(s, a) && g < |s.halves| && s.halves[g].stolen
    ensures g < |Apply(s, a).halves| && Apply(s, a).halves[g].stolen
  {}

  lemma StolenIsWaiting(s: State, g: nat)
    requires Inv(s) && g < |s.halves| && s.halves[g].stolen
    ensures s.halves[g].handler.Waiting?
  {
    assert Sound(s, g);
  }

  /** Once the value is taken, no later step ever wakes the handler. */
  lemma {:induction false} StolenNeverWakes(actions: seq<Action>, more: seq<Action>, g: nat)
    requires Exec(actions).Some? && g < |Exec(actions).value.halves| && Exec(actions).value.halves[g].stolen
    requires Exec(actions + more).Some?
    ensures var s := Exec(actions + more).value;
            g < |s.halves| && s.halves[g].stolen && s.halves[g].handler.Waiting?
  {
    var all := actions + more;
    if more == [] {
      assert all == actions;
    } else {
      var before := actions + more[..|more| - 1];
      assert all[..|all| - 1] == before;
      StolenNeverWakes(actions, more[..|more| - 1], g);
      StolenStays(Exec(before).value, all[|all| - 1], g);
    }
    RunKeepsInv(all);
    StolenIsWaiting(Exec(all).value, g);
  }

  lemma {:induction false} ExecThen(actions: seq<Action>, a: Action)
    requires Exec(actions).Some? && Enabled(Exec(actions).value, a)
    ensures Exec(actions + [a]) == Some(Apply(Exec(actions).value, a))
  {
    assert (actions + [a])[..|actions|] == actions;
  }

  // The guard that decides it

  /** The half is still waiting, and no thread of it or of its mate can ever move again. */
  ghost predicate Oversleeps(s: State, g: nat) {
    g < |s.halves| && Quiet(s, g) && s.halves[g].handler.Waiting?
  }

  ghost predicate MayOversleep(actions: seq<Action>, g: nat) {
    exists more :: Exec(actions + more).Some? && Oversleeps(Exec(actions + more).value, g)
  }

  /** A paired first half whose expiry thread no longer listens. */
  predicate OutOfReach(s: State, g: nat) {
    g < |s.halves| && s.halves[g].role.First? && !s.halves[g].stolen && !s.halves[g].timer.Running?
  }

  lemma FirstIsSettled(s: State, g: nat)
    requires Inv(s) && g < |s.halves| && s.halves[g].role.First?
    ensures !s.halves[g].handler.Arriving? && !IsParked(s, g)
  {
    assert Sound(s, g);
  }

  lemma StepKeepsOutOfReach(s: State, a: Action, g: nat)
    requires Enabled(s, a) && OutOfReach(s, g) && !s.halves[g].handler.Arriving? && !IsParked(s, g)
    ensures OutOfReach(Apply(s, a), g)
  {
    if a.Enter? && s.halves[a.h].id in s.pending { FoundWaits(s.pending, s.halves[a.h].id, s.pending[s.halves[a.h].id]); }
  }

  lemma {:induction false} StaysOutOfReach(actions: seq<Action>, more: seq<Action>, g: nat)
    requires Exec(actions).Some? && OutOfReach(Exec(actions).value, g) && Exec(actions + more).Some?
    ensures OutOfReach(Exec(actions + more).value, g)
  {
    var all := actions + more;
    if more == [] {
      assert all == actions;
    } else {
      var before := actions + more[..|more| - 1];
      assert all[..|all| - 1] == before;
      StaysOutOfReach(actions, more[..|more| - 1], g);
      RunKeepsInv(before);
      FirstIsSettled(Exec(before).value, g);
      StepKeepsOutOfReach(Exec(before).value, all[|all| - 1], g);
    }
  }

  /** The first half lost its value; the second still has to finish. */
  predicate Bereft(s: State, g: nat, k: nat, handler: Handler, box: Option<nat>) {
    && g < |s.halves| && k < |s.halves| && g != k
    && s.halves[g].role == First(k) && s.halves[g].handler.Waiting? && s.halves[g].box.None?
    && !s.halves[g].closed && s.halves[g].timer.Over?
    && (s.halves[g].done == if handler.Spliced? then DoneClosed else DoneOpen)
    && s.halves[k].role == Second(g) && s.halves[k].splicer && !s.halves[k].closed && s.halves[k].timer.NoTimer?
    && s.halves[k].handler == handler && s.halves[k].box == box
  }

  /** Flags, the send, and the expiry thread's read come before the handler's. */
  lemma SendThenSteal(s: State, g: nat, k: nat)
    requires Inv(s) && g < |s.halves| && s.halves[g].role == First(k) && s.halves[g].timer.Running?
    requires k < |s.halves| && s.halves[k].handler.Pairing?
    ensures Enabled(s, Flag(k)) && Enabled(Apply(s, Flag(k)), SendPeer(k))
    ensures Enabled(Apply(Apply(s, Flag(k)), SendPeer(k)), Steal(g))
    ensures Bereft(Apply(Apply(Apply(s, Flag(k)), SendPeer(k)), Steal(g)), g, k, Confirming(g), None)
  {
    assert Sound(s, g) && Sound(s, k);
  }

  lemma SecondGoesOn(s: State, g: nat, k: nat)
    requires Bereft(s, g, k, Confirming(g), None)
    ensures Enabled(s, SendSelf(k)) && Enabled(Apply(s, SendSelf(k)), Receive(k))
    ensures Bereft(Apply(Apply(s, SendSelf(k)), Receive(k)), g, k, Matched(g), None)
  {}

  lemma SecondSplices(s: State, g: nat, k: nat)
    requires Bereft(s, g, k, Matched(g), None)
    ensures Enabled(s, Look(k)) && Enabled(Apply(s, Look(k)), Finish(k))
    ensures Bereft(Apply(Apply(s, Look(k)), Finish(k)), g, k, Spliced, None)
  {}

  lemma BereftOversleeps(s: State, g: nat, k: nat)
    requires Bereft(s, g, k, Spliced, None)
    ensures Oversleeps(s, g)
  {}

  lemma {:induction false} ExecTwo(actions: seq<Action>, a: Action, b: Action) returns (more: seq<Action>)
    requires Exec(actions).Some? && Enabled(Exec(actions).value, a) && Enabled(Apply(Exec(actions).value, a), b)
    ensures more == actions + [a] + [b] && Exec(more) == Some(Apply(Apply(Exec(actions).value, a), b))
  {
    ExecThen(actions, a);
    ExecThen(actions + [a], b);
    more := actions + [a] + [b];
  }

  lemma {:induction false} LoseValue(actions: seq<Action>, g: nat, k: nat) returns (more: seq<Action>)
    requires Exec(actions).Some? && g < |Exec(actions).value.halves| && k < |Exec(actions).value.halves|
    requires var s := Exec(actions).value;
             s.halves[g].role == First(k) && s.halves[k].handler.Pairing? && s.halves[g].timer.Running?
    ensures actions <= more && Exec(more).Some? && Bereft(Exec(more).value, g, k, Confirming(g), None)
  {
    RunKeepsInv(actions);
    SendThenSteal(Exec(actions).value, g, k);
    var sent := ExecTwo(actions, Flag(k), SendPeer(k));
    ExecThen(sent, Steal(g));
    more := sent + [Steal(g)];
  }

  lemma {:induction false} FinishAlone(actions: seq<Action>, g: nat, k: nat) returns (more: seq<Action>)
    requires Exec(actions).Some? && Bereft(Exec(actions).value, g, k, Confirming(g), None)
    ensures actions <= more && Exec(more).Some? && Bereft(Exec(more).value, g, k, Spliced, None)
  {
    SecondGoesOn(Exec(actions).value, g, k);
    var got := ExecTwo(actions, SendSelf(k), Receive(k));
    SecondSplices(Exec(got).value, g, k);
    more := ExecTwo(got, Look(k), Finish(k));
  }

  lemma {:induction false} RunningMayOversleep(actions: seq<Action>, g: nat, k: nat)
    requires Exec(actions).Some? && g < |Exec(actions).value.halves| && k < |Exec(actions).value.halves|
    requires var s := Exec(actions).value;
             s.halves[g].role == First(k) && s.halves[k].handler.Pairing? && s.halves[g].timer.Running?
    ensures MayOversleep(actions, g)
  {
    var lost := LoseValue(actions, g, k);
    var end := FinishAlone(lost, g, k);
    BereftOversleeps(Exec(end).value, g, k);
    assert end == actions + end[|actions|..];
  }

  lemma PairingIsNotStolen(s: State, g: nat, k: nat)
    requires Inv(s) && g < |s.halves| && k < |s.halves| && s.halves[g].role == First(k) && s.halves[k].handler.Pairing?
    ensures !s.halves[g].stolen
  {
    assert Sound(s, g);
  }

  /**
   When a pair has just formed, some continuation leaves the first half's handler asleep for
   ever if and only if its expiry timer is still running at that moment.
   */
  lemma {:induction false} FirstHalfMayOversleepIff(actions: seq<Action>, g: nat, k: nat)
    requires Exec(actions).Some? && g < |Exec(actions).value.halves| && k < |Exec(actions).value.halves|
    requires Exec(actions).value.halves[g].role == First(k) && Exec(actions).value.halves[k].handler.Pairing?
    ensures MayOversleep(actions, g) <==> Exec(actions).value.halves[g].timer.Running?
  {
    var s := Exec(actions).value;
    if s.halves[g].timer.Running? {
      RunningMayOversleep(actions, g, k);
    } else if MayOversleep(actions, g) {
      var more :| Exec(actions + more).Some? && Oversleeps(Exec(actions + more).value, g);
      RunKeepsInv(actions);
      PairingIsNotStolen(s, g, k);
      StaysOutOfReach(actions, more, g);
      FirstHalfWakesIffNotStolen(actions + more, g);
    }
  }

  lemma {:induction false} TwoHalvesMeet() returns (actions: seq<Action>)
    ensures Exec(actions) == Some(State([
              Half(7, false, None, false, DoneOpen, Waiting, Running, First(1), 0, false),
              Half(7, false, None, false, NoDone, Pairing(0), NoTimer, Second(0), 0, false)], map[], false))
  {
    var x := Half(7, false, None, false, NoDone, Arriving, NoTimer, Single, 0, false);
    var y := x.(done := DoneOpen, handler := Waiting, timer := Running);
    actions := [];
    ExecThen(actions, Arrive(7));
    actions := actions + [Arrive(7)];
    assert Exec(actions).value == State([x], map[], false);
    ExecThen(actions, Enter(0));
    actions := actions + [Enter(0)];
    assert Exec(actions).value == State([y], map[7 := 0], false);
    ExecThen(actions, Arrive(7));
    actions := actions + [Arrive(7)];
    assert Exec(actions).value == State([y, x], map[7 := 0], false);
    ExecThen(actions, Enter(1));
    actions := actions + [Enter(1)];
    var s := Exec(actions).value;
    assert s.pending == map[] && |s.halves| == 2;
    assert s.halves[0] == y.(role := First(1)) && s.halves[1] == x.(handler := Pairing(0), role := Second(0));
    assert s.halves == [s.halves[0], s.halves[1]];
  }

  /** Such a run exists: pair two halves and let the expiry thread read the channel first. */
  lemma {:induction false} StolenIsReachable() returns (actions: seq<Action>)
    ensures Exec(actions).Some?
    ensures var s := Exec(actions).value;
            |s.halves| == 2 && s.halves[0].role == First(1) && s.halves[0].stolen
  {
    actions := TwoHalvesMeet();
    ExecThen(actions, Flag(1));
    actions := actions + [Flag(1)];
    ExecThen(actions, SendPeer(1));
    actions := actions + [SendPeer(1)];
    ExecThen(actions, Steal(0));
    actions := actions + [Steal(0)];
  }
}
