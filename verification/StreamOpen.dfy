/**
 Opening a stream: one OPEN_STREAM, from the policy checks to the cleanup on every exit.

 What the outside does (frames, verdicts, name resolution, writes) comes in as an `Outside`
 value. So does what other threads do to the plane meanwhile: any sequence of the plane's own
 lock sections and counter adds, at every point where the handler does not hold the lock.
 `Handler` records what the handler has done.
 */
module StreamOpen {
  import opened Options
  import opened AllocIds
  import opened ForwardPlane
  import P = Policy

  type StreamId = nat

  datatype StreamPair = StreamPair(consumer: string, provider: string)

  datatype FirstFrame =
    | Unreadable | StreamResume | MigrateToRelay | OtherFrame | BadOpen
    | Open(streamId: StreamId)

  datatype Resolution = NotFound | Remote(reachable: bool) | Local(provider: string)

  datatype Ack = AckLost | Accept | Refuse | Strange

  datatype Outside = Outside(
    frame: FirstFrame,
    callerVerdict: P.Result,
    calleeVerdict: P.Result,
    resolution: Resolution,
    peerDialed: bool,          // inter-relay: the peer relay answered
    peerForwarded: bool,       // inter-relay: it took the stream
    reached: bool,             // OpenIncoming succeeded
    ack: Ack,
    providerCtl: bool,         // the provider has a control stream on this relay
    consumerWritten: bool,     // the consumer's grant was written
    at: int,
    flying: seq<Id>,           // ids other threads have taken but not yet entered
    others: nat -> seq<Op>)    // what other threads do at each point

  /** One lock section of the plane, or one take from its counter, by another thread. */
  datatype Op =
    | TakeId
    | EnterId(k: nat, uri: string, at: int)   // enter the k-th id in flight
    | ArmIt(id: Id, uri: string, nonce: Nonce, at: int)
    | PunchIt(id: Id, src: Addr, nonce: Nonce, at: int, clock: int)
    | Data(peer: Id, src: Addr, at: int)
    | ForgetIt(id: Id)
    | ForgetAll(uri: string)
    | Sweep(at: int)

  datatype Frame = Ready | Granted(my: Id, peer: Id) | Reject(code: nat)

  /** What one run of the handler has done so far. */
  class Handler {
    const policySet: bool
    var callerOk: bool                   // the caller-side policy allowed the stream
    var calleeOk: bool                   // the callee-side policy allowed it
    var recorded: bool                   // the pair was recorded
    var forgotten: bool                  // and forgotten again
    var timerArmed: bool                 // the promotion timer was started
    var accepted: bool                   // the provider sent STREAM_ACCEPT
    var held: Option<StreamPair>         // the row of the stream right after recording
    var issued: Option<(Id, Id)>         // the consumer's and the provider's allocation
    var owners: Option<(string, string)> // whom the plane had them entered for
    var toConsumer: seq<Frame>           // frames for the consumer's control stream
    var toProvider: seq<Frame>
    var onData: Option<nat>              // the reject code on the data stream

    constructor (policySet: bool)
      ensures Fresh() && this.policySet == policySet
    {
      this.policySet := policySet;
      callerOk, calleeOk, recorded, forgotten, timerArmed, accepted := false, false, false, false, false, false;
      held, issued, owners, toConsumer, toProvider, onData := None, None, None, [], [], None;
    }

    predicate Fresh()
      reads this
    {
      && !callerOk && !calleeOk && !recorded && !forgotten && !timerArmed && !accepted
      && held.None? && issued.None? && owners.None? && toConsumer == [] && toProvider == [] && onData.None?
    }

    /** The data path may be announced: accepted, recorded, and allowed by both sides. */
    predicate Cleared()
      reads this
    {
      accepted && recorded && (policySet ==> callerOk && calleeOk)
    }

    /** One signal at most: a reject that mirrors the data stream's, or, once cleared, the data path. */
    predicate Valid()
      reads this
    {
      |toConsumer| <= 1 && (toConsumer != [] ==> if toConsumer[0].Reject? then onData == Some(toConsumer[0].code) else Cleared())
    }

    /** The one place that writes the consumer's control stream. */
    method Signal(f: Frame)
      requires Valid() && toConsumer == [] && (if f.Reject? then onData == Some(f.code) else Cleared() && !forgotten)
      modifies this`toConsumer
      ensures Valid() && toConsumer == [f]
    {
      toConsumer := toConsumer + [f];
    }

    /** Reject on the data stream, mirrored on the control stream when the stream has an id. */
    method RejectConsumer(id: StreamId, code: nat)
      requires Valid() && toConsumer == [] && onData.None?
      modifies this`toConsumer, this`onData
      ensures Valid() && onData == Some(code)
      ensures toConsumer == if id == 0 then [] else [Reject(code)]
    {
      onData := Some(code);
      if id == 0 { return; }
      Signal(Reject(code));
    }
  }

  // What other threads do to the plane

  /** `id` was handed out by an issue since `oldest` that is none of `mine`. */
  ghost predicate OfOthers(id: Id, mine: set<nat>, oldest: nat, issues: nat) {
    exists j: nat :: oldest <= j <= issues && j !in mine && id == Issued(j)
  }

  ghost predicate AllOfOthers(ids: seq<Id>, mine: set<nat>, oldest: nat, issues: nat) {
    forall id :: id in ids ==> OfOthers(id, mine, oldest, issues)
  }

  /** The handler's own issues are among those made so far. */
  ghost predicate Own(mine: set<nat>, issues: nat) { forall j :: j in mine ==> j <= issues }

  /** More issues, of which the handler may have made some, change nothing for the others' ids. */
  lemma OfOthersLater(ids: seq<Id>, mine: set<nat>, oldest: nat, issues: nat, mine': set<nat>, issues': nat)
    requires AllOfOthers(ids, mine, oldest, issues) && issues <= issues'
    requires forall j :: j in mine' && j !in mine ==> j > issues
    ensures AllOfOthers(ids, mine', oldest, issues')
  {
    forall id | id in ids ensures OfOthers(id, mine', oldest, issues') {
      var j: nat :| oldest <= j <= issues && j !in mine && id == Issued(j);
      assert j !in mine';
    }
  }

  /** Within one turn of the counter an own id is nobody else's. */
  lemma OwnIdIsNotOthers(k: nat, mine: set<nat>, oldest: nat, issues: nat)
    requires k in mine && 1 <= oldest <= k <= issues && issues - oldest < TURN
    ensures !OfOthers(Issued(k), mine, oldest, issues)
  {
    forall j: nat | oldest <= j <= issues && j !in mine ensures Issued(j) != Issued(k) {
      if j < k { NearIssuesDiffer(j, k); } else { NearIssuesDiffer(k, j); }
    }
  }

  /** One step of another thread: what it newly enters was handed out to another thread. */
  method OneOther(p: Plane, op: Op, flying: seq<Id>, ghost mine: set<nat>, ghost oldest: nat)
    returns (flying': seq<Id>)
    requires p.Counted() && oldest <= p.issues + 1 && Own(mine, p.issues) && AllOfOthers(flying, mine, oldest, p.issues)
    modifies p
    ensures p.Counted() && old(p.issues) <= p.issues && AllOfOthers(flying', mine, oldest, p.issues)
    ensures forall id :: id in p.byAlloc && id !in old(p.byAlloc) ==> OfOthers(id, mine, oldest, p.issues)
  {
    flying' := flying;
    match op
    case TakeId =>
      var id := p.Take();
      OfOthersLater(flying, mine, oldest, old(p.issues), mine, p.issues);
      assert p.issues !in mine && id == Issued(p.issues);
      assert OfOthers(id, mine, oldest, p.issues);
      flying' := flying + [id];
    case EnterId(k, uri, at) =>
      if k < |flying| && uri != "" {
        p.Enter(flying[k], uri, at);
        flying' := flying[..k] + flying[k + 1..];
      }
    case ArmIt(id, uri, nonce, at) => var _ := p.ArmPending(id, uri, nonce, at);
    case PunchIt(id, src, nonce, at, clock) => p.Register(id, src, nonce, at, clock);
    case Data(peer, src, at) => var _ := p.Datagram(peer, src, at);
    case ForgetIt(id) => p.Forget(id);
    case ForgetAll(uri) => var _ := p.ForgetAgent(uri);
    case Sweep(at) => p.GcOnce(at);
  }

  /** Any number of steps of other threads. */
  method OthersRun(p: Plane, ops: seq<Op>, flying: seq<Id>, ghost mine: set<nat>, ghost oldest: nat)
    returns (flying': seq<Id>)
    requires p.Counted() && oldest <= p.issues + 1 && Own(mine, p.issues) && AllOfOthers(flying, mine, oldest, p.issues)
    modifies p
    ensures p.Counted() && old(p.issues) <= p.issues && AllOfOthers(flying', mine, oldest, p.issues)
    ensures forall id :: id in p.byAlloc && id !in old(p.byAlloc) ==> OfOthers(id, mine, oldest, p.issues)
  {
    flying' := flying;
    for i := 0 to |ops|
      invariant p.Counted() && old(p.issues) <= p.issues && AllOfOthers(flying', mine, oldest, p.issues)
      invariant forall id :: id in p.byAlloc && id !in old(p.byAlloc) ==> OfOthers(id, mine, oldest, p.issues)
    {
      ghost var before := p.issues;
      flying' := OneOther(p, ops[i], flying', mine, oldest);
      forall id | OfOthers(id, mine, oldest, before) ensures OfOthers(id, mine, oldest, p.issues) {
        OfOthersLater([id], mine, oldest, before, mine, p.issues);
      }
    }
  }

  // The pair table

  /** Stream `id` is recorded between the two agents, in either order. */
  predicate Joins(pairs: map<StreamId, StreamPair>, id: StreamId, x: string, y: string) {
    id in pairs && (pairs[id] == StreamPair(x, y) || pairs[id] == StreamPair(y, x))
  }

  class Server {
    var pairs: map<StreamId, StreamPair>
    const plane: Plane?        // null: forward mode is disabled
    const policySet: bool
    const poolSet: bool

    constructor (plane: Plane?, policySet: bool, poolSet: bool)
      ensures pairs == map[] && this.plane == plane && this.policySet == policySet && this.poolSet == poolSet
    {
      pairs := map[];
      this.plane, this.policySet, this.poolSet := plane, policySet, poolSet;
    }

    /** Other threads change the pair table. */
    method OthersPair()
      modifies this
    {
    }

    /** Refused exactly when the id already belongs to a different pair. */
    method RecordPair(id: StreamId, p: StreamPair) returns (ok: bool)
      modifies this
      ensures ok <==> (id != 0 && id in old(pairs) ==> old(pairs)[id] == p)
      ensures pairs == if ok && id != 0 then old(pairs)[id := p] else old(pairs)
    {
      if id == 0 { return true; }
      if id in pairs && pairs[id] != p { return false; }
      pairs := pairs[id := p];
      return true;
    }

    method ForgetPair(id: StreamId)
      modifies this
      ensures pairs == if id == 0 then old(pairs) else old(pairs) - {id}
    {
      if id == 0 { return; }
      pairs := pairs - {id};
    }

    /** Routing is symmetric: the answer is the one agent that the stream joins to `uri`, if any. */
    method PeerOf(id: StreamId, uri: string) returns (peer: string)
      ensures forall y :: y != "" ==> (y == peer <==> Joins(pairs, id, uri, y))
      ensures peer != "" ==> forall x :: Joins(pairs, id, peer, x) <==> x == uri
    {
      if id !in pairs { return ""; }
      var p := pairs[id];
      if uri == p.consumer { return p.provider; }
      if uri == p.provider { return p.consumer; }
      return "";
    }

    // The handler, from the inside out

    predicate Forwards(o: Outside) {
      policySet && o.callerVerdict.relay == P.Forward && plane != null
    }

    /** Neither side forbids promotion and at least one requires it. */
    predicate MustPromote(o: Outside) {
      && policySet
      && o.callerVerdict.p2p != P.P2PForbidden && o.calleeVerdict.p2p != P.P2PForbidden
      && (o.callerVerdict.p2p == P.P2PRequired || o.calleeVerdict.p2p == P.P2PRequired)
    }

    /** The consumer's and the provider's grants name each other. */
    predicate Mirrored(h: Handler)
      reads h
    {
      && h.issued.Some? && h.toConsumer == [Granted(h.issued.value.0, h.issued.value.1)]
      && (h.toProvider == [] || h.toProvider == [Granted(h.issued.value.1, h.issued.value.0)])
    }

    /**
     Unless the counter went all the way round since the oldest issue that some thread was still
     about to enter, the two issued allocations are different and neither is live.
     */
    ghost predicate Released(h: Handler, p: Plane?, oldest: nat)
      reads h, p
    {
      && p != null && h.issued.Some?
      && (p.issues - oldest < TURN ==>
            && h.issued.value.0 != h.issued.value.1
            && h.issued.value.0 !in p.byAlloc && h.issued.value.1 !in p.byAlloc)
    }

    /** What the plane is like when a handler begins: `oldest` bounds the issues still in flight. */
    ghost predicate PlaneReady(p: Plane?, o: Outside, oldest: nat)
      reads p
    {
      p != null ==> p.Counted() && 1 <= oldest <= p.issues + 1 && AllOfOthers(o.flying, {}, oldest, p.issues)
    }

    /** `Allocate` by the handler, with other threads between its two halves. */
    method IssueOne(p: Plane, uri: string, o: Outside, point: nat, flying: seq<Id>, ghost mine: set<nat>, ghost oldest: nat)
      returns (id: Id, flying': seq<Id>, ghost k: nat)
      requires uri != "" && p.Counted() && oldest <= p.issues + 1
      requires Own(mine, p.issues) && AllOfOthers(flying, mine, oldest, p.issues)
      modifies p
      ensures p.Counted() && old(p.issues) < k <= p.issues && id == Issued(k)
      ensures id in p.byAlloc && p.byAlloc[id].uri == uri
      ensures AllOfOthers(flying', mine + {k}, oldest, p.issues)
    {
      id := p.Take();
      k := p.issues;
      OfOthersLater(flying, mine, oldest, old(p.issues), mine + {k}, p.issues);
      flying' := OthersRun(p, o.others(point), flying, mine + {k}, oldest);
      p.Enter(id, uri, o.at);
    }

    /** `Forget` of both, with other threads in between and until the handler is done. */
    method ReleaseBoth(p: Plane, c: Id, d: Id, o: Outside, flying: seq<Id>, ghost i: nat, ghost j: nat, ghost oldest: nat)
      requires p.Counted() && c == Issued(i) && d == Issued(j) && 1 <= oldest <= i < j <= p.issues
      requires AllOfOthers(flying, {i, j}, oldest, p.issues)
      modifies p
      ensures p.Counted() && old(p.issues) <= p.issues
      ensures p.issues - oldest < TURN ==> c != d && c !in p.byAlloc && d !in p.byAlloc
    {
      p.Forget(d);
      var left := OthersRun(p, o.others(5), flying, {i, j}, oldest);
      p.Forget(c);
      ghost var before := p.issues;
      left := OthersRun(p, o.others(6), left, {i, j}, oldest);
      if p.issues - oldest < TURN {
        OwnIdIsNotOthers(j, {i, j}, oldest, before);
        OwnIdIsNotOthers(i, {i, j}, oldest, p.issues);
        OwnIdIsNotOthers(j, {i, j}, oldest, p.issues);
        NearIssuesDiffer(i, j);
      }
    }

    /** The two allocations of a forwarded stream, the consumer's first. */
    method IssueBoth(h: Handler, p: Plane, caller: string, provider: string, o: Outside, ghost oldest: nat)
      returns (c: Id, d: Id, flying: seq<Id>, ghost i: nat, ghost j: nat)
      requires caller != "" && provider != "" && PlaneReady(p, o, oldest)
      modifies h`issued, h`owners, p
      ensures h.issued == Some((c, d)) && h.owners == Some((caller, provider))
      ensures p.Counted() && c == Issued(i) && d == Issued(j) && oldest <= i < j <= p.issues
      ensures AllOfOthers(flying, {i, j}, oldest, p.issues)
    {
      flying := OthersRun(p, o.others(0), o.flying, {}, oldest);
      c, flying, i := IssueOne(p, caller, o, 1, flying, {}, oldest);
      var first := p.byAlloc[c].uri;
      flying := OthersRun(p, o.others(2), flying, {i}, oldest);
      d, flying, j := IssueOne(p, provider, o, 3, flying, {i}, oldest);
      assert {i} + {j} == {i, j};
      h.issued, h.owners := Some((c, d)), Some((first, p.byAlloc[d].uri));
    }

    /** Forward mode: issue two allocations, grant them, park, release them on the way out. */
    method RunForward(h: Handler, p: Plane, caller: string, provider: string, o: Outside, ghost oldest: nat)
      requires h.Valid() && h.Cleared() && !h.forgotten && h.toConsumer == [] && h.toProvider == [] && h.issued.None?
      requires caller != "" && provider != "" && PlaneReady(p, o, oldest)
      modifies h`issued, h`owners, h`toConsumer, h`toProvider, p
      ensures h.Valid() && p.Counted() && Mirrored(h) && Released(h, p, oldest)
      ensures h.toProvider != [] <==> o.consumerWritten
      ensures h.owners == Some((caller, provider))
    {
      var c, d, flying;
      ghost var i, j;
      c, d, flying, i, j := IssueBoth(h, p, caller, provider, o, oldest);
      h.Signal(Granted(c, d));
      if o.consumerWritten {
        h.toProvider := h.toProvider + [Granted(d, c)];
        flying := OthersRun(p, o.others(4), flying, {i, j}, oldest);   // parked until either data stream ends
      }
      ReleaseBoth(p, c, d, o, flying, i, j, oldest);
    }

    /** After its accept a provider with a control stream hears ready, or the mirrored grant if the consumer got its own. */
    predicate ProviderHears(h: Handler, o: Outside)
      reads h
    {
      if !o.providerCtl then h.toProvider == []
      else if !Forwards(o) then h.toProvider == [Ready]
      else if !o.consumerWritten then h.toProvider == []
      else h.issued.Some? && h.toProvider == [Granted(h.issued.value.1, h.issued.value.0)]
    }

    /** Everything after STREAM_ACCEPT. */
    method Carry(h: Handler, id: StreamId, caller: string, provider: string, o: Outside, ghost oldest: nat)
      requires h.Valid() && h.Cleared() && !h.forgotten && h.policySet == policySet && PlaneReady(plane, o, oldest)
      requires h.toConsumer == [] && h.toProvider == [] && h.onData.None? && h.issued.None? && caller != "" && provider != ""
      modifies h`issued, h`owners, h`toConsumer, h`toProvider, h`onData, plane
      ensures h.Valid() && (h.issued.Some? <==> Forwards(o) && o.providerCtl)
      ensures if !Forwards(o) then h.toConsumer == [Ready]
              else if !o.providerCtl then h.toConsumer == if id == 0 then [] else [Reject(502)]
              else Mirrored(h) && Released(h, plane, oldest)
      ensures h.onData == if Forwards(o) && !o.providerCtl then Some(502) else None
      ensures ProviderHears(h, o) && (h.issued.Some? ==> h.owners == Some((caller, provider)))
    {
      if policySet && o.callerVerdict.relay == P.Forward && plane != null {
        if !o.providerCtl {
          h.RejectConsumer(id, 502);
          return;
        }
        RunForward(h, plane, caller, provider, o, oldest);
        return;
      }
      h.Signal(Ready);
      if o.providerCtl { h.toProvider := h.toProvider + [Ready]; }
    }

    /** Between recording the pair and forgetting it. */
    method WhileRecorded(h: Handler, id: StreamId, caller: string, provider: string, o: Outside, ghost oldest: nat)
      requires h.Valid() && h.recorded && !h.forgotten && !h.accepted && !h.timerArmed && h.policySet == policySet
      requires (policySet ==> h.callerOk && h.calleeOk) && PlaneReady(plane, o, oldest)
      requires h.toConsumer == [] && h.toProvider == [] && h.onData.None? && h.issued.None? && caller != "" && provider != ""
      modifies h`accepted, h`timerArmed, h`issued, h`owners, h`toConsumer, h`toProvider, h`onData, plane
      ensures h.Valid() && (h.timerArmed <==> MustPromote(o))
      ensures h.issued.Some? <==> o.ack.Accept? && Forwards(o) && o.providerCtl
      ensures match o.ack
              case AckLost => h.toConsumer == []
              case Strange => h.toConsumer == []
              case Refuse => h.toConsumer == if id == 0 then [] else [Reject(503)]
              case Accept =>
                if !Forwards(o) then h.toConsumer == [Ready]
                else if !o.providerCtl then h.toConsumer == if id == 0 then [] else [Reject(502)]
                else Mirrored(h) && Released(h, plane, oldest)
      ensures h.onData == if o.ack.Refuse? then Some(503)
                          else if o.ack.Accept? && Forwards(o) && !o.providerCtl then Some(502)
                          else None
      ensures if o.ack.Accept? then ProviderHears(h, o) else h.toProvider == []
      ensures h.issued.Some? ==> h.owners == Some((caller, provider))
    {
      var p2p := if policySet then P.CombineP2PModes(o.callerVerdict.p2p, o.calleeVerdict.p2p) else P.P2PAllowed;
      if p2p == P.P2PRequired { h.timerArmed := true; }
      match o.ack
      case AckLost =>
      case Strange =>
      case Refuse => h.RejectConsumer(id, 503);
      case Accept =>
        h.accepted := true;
        Carry(h, id, caller, provider, o, oldest);
    }

    predicate CallerPasses(o: Outside) { policySet ==> o.callerVerdict.decision == P.Allow }
    predicate CalleePasses(o: Outside) { policySet ==> o.calleeVerdict.decision == P.Allow }

    /** The stream was handed to another relay. */
    predicate HandedOver(o: Outside) {
      CallerPasses(o) && o.resolution == Remote(true) && poolSet && o.peerDialed && o.peerForwarded
    }

    /** Everything up to recording the pair went well. */
    predicate Reached(o: Outside) {
      CallerPasses(o) && o.resolution.Local? && CalleePasses(o) && o.reached
    }

    /** The provider accepted and the data path could be set up. */
    predicate Carried(o: Outside) {
      o.ack.Accept? && (Forwards(o) ==> o.providerCtl)
    }

    /** The provider is unknown or lives on another relay. */
    method NotLocal(h: Handler, id: StreamId, o: Outside)
      requires h.Valid() && h.toConsumer == [] && h.onData.None? && !o.resolution.Local? && CallerPasses(o)
      modifies h`toConsumer, h`onData
      ensures h.Valid() && (h.toConsumer == [] <==> HandedOver(o) || id == 0)
      ensures h.toConsumer != [] ==> h.toConsumer[0].Reject?
      ensures h.onData == if o.resolution.NotFound? then Some(404) else if HandedOver(o) then None else Some(502)
    {
      match o.resolution
      case NotFound => h.RejectConsumer(id, 404);
      case Remote(reachable) =>
        if !poolSet || !reachable {
          h.RejectConsumer(id, 502);
          return;
        }
        if !o.peerDialed || !o.peerForwarded { h.RejectConsumer(id, 502); }
    }

    /** The handler's last resort: nothing further down the line could be reached. */
    predicate OutOfReach(o: Outside, recorded: bool) {
      || (CallerPasses(o) && o.resolution.Remote? && !HandedOver(o))
      || (CallerPasses(o) && o.resolution.Local? && CalleePasses(o) && !o.reached)
      || (recorded && o.ack.Accept? && Forwards(o) && !o.providerCtl)
    }

    /** The code of the reject that keeps a stream from being recorded at all, if there is one. */
    function Refusal(o: Outside): Option<nat> {
      if !CallerPasses(o) then Some(403)
      else match o.resolution
        case NotFound => Some(404)
        case Remote(_) => if HandedOver(o) then None else Some(502)
        case Local(_) => if !CalleePasses(o) then Some(403) else if !o.reached then Some(502) else None
    }

    /** Everything up to recording the pair. */
    method Admit(h: Handler, id: StreamId, o: Outside) returns (go: bool)
      requires h.Fresh() && h.policySet == policySet
      modifies h`callerOk, h`calleeOk, h`toConsumer, h`onData
      ensures h.Valid() && (go <==> Reached(o)) && (go && policySet ==> h.callerOk && h.calleeOk)
      ensures h.onData == Refusal(o)
      ensures h.toConsumer == if h.onData.Some? && id != 0 then [Reject(h.onData.value)] else []
    {
      if policySet {
        if o.callerVerdict.decision == P.Deny {
          h.RejectConsumer(id, 403);
          return false;
        }
        h.callerOk := true;
      }
      if !o.resolution.Local? {
        NotLocal(h, id, o);
        return false;
      }
      if policySet {
        if o.calleeVerdict.decision == P.Deny {
          h.RejectConsumer(id, 403);
          return false;
        }
        h.calleeOk := true;
      }
      if !o.reached {
        h.RejectConsumer(id, 502);
        return false;
      }
      return true;
    }

    /** From recording the pair to the end. */
    method Serve(h: Handler, id: StreamId, caller: string, provider: string, o: Outside, ghost oldest: nat)
      requires h.Valid() && !h.recorded && !h.forgotten && !h.accepted && !h.timerArmed && h.policySet == policySet
      requires (policySet ==> h.callerOk && h.calleeOk) && PlaneReady(plane, o, oldest)
      requires h.toConsumer == [] && h.toProvider == [] && h.onData.None? && h.issued.None? && caller != "" && provider != ""
      modifies this, h, plane
      ensures h.Valid() && (h.recorded <==> h.forgotten) && (h.recorded && id != 0 ==> id !in pairs)
      ensures h.recorded && id != 0 ==> h.held == Some(StreamPair(caller, provider))
      ensures h.issued.Some? ==> h.recorded && Mirrored(h) && Released(h, plane, oldest) && h.owners == Some((caller, provider))
      ensures h.timerArmed <==> h.recorded && MustPromote(o)
      ensures h.issued.Some? <==> h.recorded && o.ack.Accept? && Forwards(o) && o.providerCtl
      ensures if h.recorded && o.ack.Accept? then ProviderHears(h, o) else h.toProvider == []
      ensures h.onData == if !h.recorded then Some(409)
                          else if o.ack.Refuse? then Some(503)
                          else if o.ack.Accept? && Forwards(o) && !o.providerCtl then Some(502)
                          else None
      ensures h.onData.Some? ==> h.toConsumer == if id == 0 then [] else [Reject(h.onData.value)]
      ensures h.onData.None? ==> (h.toConsumer == [] <==> !o.ack.Accept?) && (o.ack.Accept? ==> !h.toConsumer[0].Reject?)
    {
      OthersPair();
      var ok := RecordPair(id, StreamPair(caller, provider));
      if !ok {
        h.RejectConsumer(id, 409);
        return;
      }
      h.recorded := true;
      if id in pairs { h.held := Some(pairs[id]); }
      WhileRecorded(h, id, caller, provider, o, oldest);
      OthersPair();
      ForgetPair(id);
      h.forgotten := true;
    }

    /**
     One OPEN_STREAM. At most one signal reaches the consumer's control stream; the data path
     is announced exactly when the pair was recorded and the provider accepted; and every exit
     after recording leaves neither the pair row nor an issued allocation behind, whatever
     other threads do meanwhile.
     */
    method HandleConsumerStream(h: Handler, caller: string, o: Outside, ghost oldest: nat)
      requires h.Fresh() && h.policySet == policySet && caller != "" && PlaneReady(plane, o, oldest)
      requires o.resolution.Local? ==> o.resolution.provider != ""
      modifies this, h, plane
      ensures h.Valid() && (h.recorded ==> o.frame.Open? && Reached(o))
      ensures (h.recorded <==> h.forgotten) && (h.recorded && o.frame.streamId != 0 ==> o.frame.streamId !in pairs)
      ensures h.issued.Some? ==> h.recorded && Mirrored(h) && Released(h, plane, oldest)
      ensures (h.toConsumer != [] && !h.toConsumer[0].Reject?) <==> h.recorded && Carried(o)
      ensures h.toConsumer == [] <==>
              || !o.frame.Open? || HandedOver(o)
              || (h.recorded && (o.ack.AckLost? || o.ack.Strange?))
              || (o.frame.streamId == 0 && !(h.recorded && Carried(o)))
      ensures h.timerArmed <==>
              && h.recorded && policySet
              && o.callerVerdict.p2p != P.P2PForbidden && o.calleeVerdict.p2p != P.P2PForbidden
              && (o.callerVerdict.p2p == P.P2PRequired || o.calleeVerdict.p2p == P.P2PRequired)
      ensures h.issued.Some? <==>
              && h.recorded && o.ack.Accept? && o.providerCtl
              && policySet && o.callerVerdict.relay == P.Forward && plane != null
      ensures if h.recorded && o.ack.Accept? then ProviderHears(h, o) else h.toProvider == []
      ensures h.recorded && o.frame.streamId != 0 ==> h.held == Some(StreamPair(caller, o.resolution.provider))
      ensures h.issued.Some? ==> h.owners == Some((caller, o.resolution.provider))
      ensures if !o.frame.Open? then h.onData.None? else
              && (h.onData == Some(403) <==> policySet && (o.callerVerdict.decision == P.Deny
                                                            || (o.resolution.Local? && o.calleeVerdict.decision == P.Deny)))
              && (h.onData == Some(404) <==> CallerPasses(o) && o.resolution.NotFound?)
              && (h.onData == Some(409) <==> Reached(o) && !h.recorded)
              && (h.onData == Some(502) <==> OutOfReach(o, h.recorded))
              && (h.onData == Some(503) <==> h.recorded && o.ack.Refuse?)
              && (h.onData.Some? ==> h.onData.value in {403, 404, 409, 502, 503})
              && (h.onData.Some? && o.frame.streamId != 0 ==> h.toConsumer == [Reject(h.onData.value)])
    {
      if !o.frame.Open? { return; }
      var go := Admit(h, o.frame.streamId, o);
      if go { Serve(h, o.frame.streamId, caller, o.resolution.provider, o, oldest); }
    }
  }
}
