/** The map of parked halves that both resume matchers keep under their mutex. */
module Pairing {
  import opened Options

  type StreamId = nat
  type Pending = map<StreamId, nat>   // stream -> the half that waits for its peer

  function Parked(pending: Pending, id: StreamId): Option<nat> {
    if id in pending then Some(pending[id]) else None
  }

  function AfterMeet(pending: Pending, id: StreamId, self: nat): Pending {
    if id in pending then pending - {id} else pending[id := self]
  }

  function AfterExpire(pending: Pending, id: StreamId, self: nat): Pending {
    if Parked(pending, id) == Some(self) then pending - {id} else pending
  }

  class Matcher {
    var pending: Pending

    constructor ()
      ensures pending == map[]
    {
      pending := map[];
    }

    /** Submit's critical section: take the parked half of this stream, or park. */
    method Meet(id: StreamId, self: nat) returns (peer: Option<nat>)
      modifies this
      ensures peer == Parked(old(pending), id)
      ensures pending == AfterMeet(old(pending), id, self)
    {
      if id in pending {
        peer := Some(pending[id]);
        pending := pending - {id};
      } else {
        peer := None;
        pending := pending[id := self];
      }
    }

    /** The expiry thread's critical section: leave, unless already taken or replaced. */
    method Expire(id: StreamId, self: nat) returns (removed: bool)
      modifies this
      ensures removed <==> Parked(old(pending), id) == Some(self)
      ensures pending == AfterExpire(old(pending), id, self)
    {
      removed := id in pending && pending[id] == self;
      if removed { pending := pending - {id}; }
    }
  }

  /** The half waits in the map. */
  predicate Waits(pending: Pending, g: nat) { exists id :: id in pending && pending[id] == g }

  /** No half waits for two streams. */
  predicate OneStreamEach(pending: Pending) {
    forall i, j :: i in pending && j in pending && pending[i] == pending[j] ==> i == j
  }

  /** Taking one stream out of the map frees its half and no other. */
  lemma TakenOut(pending: Pending, id: StreamId)
    requires OneStreamEach(pending) && id in pending
    ensures forall g: nat :: Waits(pending - {id}, g) <==> Waits(pending, g) && g != pending[id]
  {
    var rest := pending - {id};
    forall g: nat | Waits(pending, g) && g != pending[id] ensures Waits(rest, g) {
      var i :| i in pending && pending[i] == g;
      assert i in rest;
    }
    forall g: nat | Waits(rest, g) ensures Waits(pending, g) && g != pending[id] {
      var i :| i in rest && rest[i] == g;
      assert i in pending;
    }
  }

  /** Parking one half leaves the others where they are. */
  lemma PutIn(pending: Pending, id: StreamId, h: nat, g: nat)
    requires id !in pending && g != h
    ensures Waits(pending[id := h], g) <==> Waits(pending, g)
  {
    if Waits(pending, g) {
      var i :| i in pending && pending[i] == g;
      assert pending[id := h][i] == g;
    }
  }

  lemma FoundWaits(pending: Pending, id: StreamId, g: nat)
    requires Parked(pending, id) == Some(g)
    ensures Waits(pending, g)
  {}
}
