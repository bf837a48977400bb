/**
 The decision queue: four collections that must agree, one-shot reply channels,
 and the two-phase claim used for managed spawns. `QueueState` is the queue's
 value together with the broadcast and delivery logs; the methods of
 `DecisionQueue` update it in place.
 */
module Queue {
  import opened Lists

  type Id = nat
  type Channel = nat

  datatype Decision = Approve | Deny | Ask

  datatype Request = Request(id: Id, agent: string, tool: string, project: string)

  datatype Rich = Rich(decision: Decision, message: Option<string>, resolver: Option<string>)

  datatype Message = NewDecision(request: Request) | DecisionResolved(id: Id, decision: Decision)

  /** The operation that sent a reply. */
  datatype Via = ViaResolve | ViaClaim

  datatype Delivery = Delivery(channel: Channel, rich: Rich, via: Via)

  /** A claim owns its request and the sending half of its reply channel. */
  datatype Claim = Claim(request: Request, channel: Channel)

  /**
   `channels` counts the reply channels ever created, `hungUp` holds those whose
   receiver is gone and `managedChannels` those created for managed spawns.
   */
  datatype QueueState = QueueState(
    senders: map<Id, Channel>, items: seq<Request>, claimed: map<Id, Request>, managed: set<Id>,
    broadcast: seq<Message>, delivered: seq<Delivery>,
    channels: nat, hungUp: set<Channel>, managedChannels: set<Channel>)

  function NewQueue(): QueueState {
    QueueState(map[], [], map[], {}, [], [], 0, {}, {})
  }

  function Without(items: seq<Request>, id: Id): seq<Request> { Filter((r: Request) => r.id != id, items) }

  function Ids(items: seq<Request>): set<Id> { set r | r in items :: r.id }

  predicate InUse(q: QueueState, id: Id) { id in q.senders || id in q.claimed || id in q.managed }

  function Enqueued(q: QueueState, req: Request, managed: bool): QueueState {
    if InUse(q, req.id) then q
    else q.(senders := q.senders[req.id := q.channels], items := q.items + [req],
            managed := if managed then q.managed + {req.id} else q.managed,
            broadcast := q.broadcast + [NewDecision(req)],
            channels := q.channels + 1,
            managedChannels := if managed then q.managedChannels + {q.channels} else q.managedChannels)
  }

  predicate Known(q: QueueState, id: Id) {
    id in q.senders || id in q.claimed || exists i :: 0 <= i < |q.items| && q.items[i].id == id
  }

  function Finalized(q: QueueState, id: Id, decision: Decision): QueueState {
    q.(senders := q.senders - {id}, items := Without(q.items, id), claimed := q.claimed - {id},
       managed := q.managed - {id},
       broadcast := if Known(q, id) then q.broadcast + [DecisionResolved(id, decision)] else q.broadcast)
  }

  /** Position of the first item with this id, or the length when there is none. */
  function Position(items: seq<Request>, id: Id): (p: nat)
    ensures p <= |items| && (p < |items| ==> items[p].id == id)
    ensures forall i :: 0 <= i < p ==> items[i].id != id
  {
    if items == [] || items[0].id == id then 0 else 1 + Position(items[1..], id)
  }

  predicate Claimable(q: QueueState, id: Id) {
    Position(q.items, id) < |q.items| && id in q.senders
  }

  function Claimed(q: QueueState, id: Id): QueueState
    requires Claimable(q, id)
  {
    var p := Position(q.items, id);
    q.(senders := q.senders - {id}, items := q.items[..p] + q.items[p + 1..],
       claimed := q.claimed[id := q.items[p]])
  }

  function ClaimOf(q: QueueState, id: Id): Claim
    requires Claimable(q, id)
  {
    Claim(q.items[Position(q.items, id)], q.senders[id])
  }

  /** Send a reply; it is delivered unless the receiver is gone. */
  function Send(q: QueueState, channel: Channel, rich: Rich, via: Via): QueueState {
    if channel in q.hungUp then q
    else q.(delivered := q.delivered + [Delivery(channel, rich, via)])
  }

  function Completed(q: QueueState, claim: Claim, rich: Rich): QueueState {
    var id := claim.request.id;
    if id !in q.claimed then q
    else Send(q.(claimed := q.claimed - {id}, managed := q.managed - {id},
                 broadcast := q.broadcast + [DecisionResolved(id, rich.decision)]),
              claim.channel, rich, ViaClaim)
  }

  function Resolved(q: QueueState, id: Id, rich: Rich): QueueState {
    if id in q.managed || id !in q.senders then q
    else Send(q.(senders := q.senders - {id}, items := Without(q.items, id), managed := q.managed - {id},
                 broadcast := q.broadcast + [DecisionResolved(id, rich.decision)]),
              q.senders[id], rich, ViaResolve)
  }

  function ResolvedEach(q: QueueState, ids: seq<Id>, rich: Rich): QueueState {
    if ids == [] then q else Resolved(ResolvedEach(q, ids[..|ids| - 1], rich), ids[|ids| - 1], rich)
  }

  function Matching(q: QueueState, filter: Option<Request -> bool>): seq<Request> {
    Filter((r: Request) => (filter.None? || filter.value(r)) && r.id !in q.managed, q.items)
  }

  function IdList(items: seq<Request>): seq<Id> {
    seq(|items|, i requires 0 <= i < |items| => items[i].id)
  }

  function BulkRich(decision: Decision, resolver: Option<string>): Rich { Rich(decision, None, resolver) }

  class DecisionQueue {
    var senders: map<Id, Channel>
    var items: seq<Request>
    var claimed: map<Id, Request>
    var managed: set<Id>
    var broadcast: seq<Message>
    var delivered: seq<Delivery>
    var channels: nat
    var hungUp: set<Channel>
    var managedChannels: set<Channel>

    ghost function View(): QueueState
      reads this
    {
      QueueState(senders, items, claimed, managed, broadcast, delivered, channels, hungUp, managedChannels)
    }

    constructor ()
      ensures View() == NewQueue()
    {
      senders, items, claimed, managed := map[], [], map[], {};
      broadcast, delivered, channels, hungUp, managedChannels := [], [], 0, {}, {};
    }

    /** Refuses an id that is pending, claimed or managed; otherwise opens a reply channel. */
    method Enqueue(req: Request, managedSpawn: bool) returns (rx: Option<Channel>)
      modifies this
      ensures View() == Enqueued(old(View()), req, managedSpawn)
      ensures rx == if InUse(old(View()), req.id) then None else Some(old(channels))
    {
      if req.id in senders || req.id in claimed || req.id in managed {
        return None;
      }
      rx := Some(channels);
      senders := senders[req.id := channels];
      items := items + [req];
      if managedSpawn {
        managed := managed + {req.id};
        managedChannels := managedChannels + {channels};
      }
      channels := channels + 1;
      broadcast := broadcast + [NewDecision(req)];
    }

    method FinalizeLocal(id: Id, decision: Decision) returns (removed: bool)
      modifies this
      ensures View() == Finalized(old(View()), id, decision) && removed == Known(old(View()), id)
    {
      var hadSender := id in senders;
      senders := senders - {id};
      var before := |items|;
      FilterMembers((r: Request) => r.id != id, items);
      FilterShorter(items, id);
      items := Without(items, id);
      var hadClaim := id in claimed;
      claimed := claimed - {id};
      managed := managed - {id};
      removed := hadSender || hadClaim || |items| != before;
      if removed {
        broadcast := broadcast + [DecisionResolved(id, decision)];
      }
    }

    method ClaimDecision(id: Id) returns (claim: Option<Claim>)
      modifies this
      ensures claim.Some? <==> Claimable(old(View()), id)
      ensures claim.Some? ==> claim.value == ClaimOf(old(View()), id) && View() == Claimed(old(View()), id)
      ensures claim.None? ==> View() == old(View())
    {
      var p := 0;
      while p < |items| && items[p].id != id
        invariant 0 <= p <= |items|
        invariant forall i :: 0 <= i < p ==> items[i].id != id
        invariant View() == old(View())
      {
        p := p + 1;
      }
      PositionUnique(items, id, p);
      if p == |items| || id !in senders {
        return None;
      }
      var request := items[p];
      claim := Some(Claim(request, senders[id]));
      senders := senders - {id};
      items := items[..p] + items[p + 1..];
      claimed := claimed[id := request];
    }

    method CompleteClaim(claim: Claim, rich: Rich) returns (ok: bool)
      modifies this
      ensures View() == Completed(old(View()), claim, rich)
      ensures ok <==> claim.request.id in old(claimed) && claim.channel !in hungUp
    {
      var id := claim.request.id;
      if id !in claimed {
        return false;
      }
      claimed := claimed - {id};
      managed := managed - {id};
      broadcast := broadcast + [DecisionResolved(id, rich.decision)];
      ok := claim.channel !in hungUp;
      if ok {
        delivered := delivered + [Delivery(claim.channel, rich, ViaClaim)];
      }
    }

    method Resolve(id: Id, rich: Rich) returns (found: bool)
      modifies this
      ensures View() == Resolved(old(View()), id, rich)
      ensures found <==> id !in old(managed) && id in old(senders)
    {
      if id in managed || id !in senders {
        return false;
      }
      var tx := senders[id];
      senders := senders - {id};
      items := Without(items, id);
      managed := managed - {id};
      broadcast := broadcast + [DecisionResolved(id, rich.decision)];
      if tx !in hungUp {
        delivered := delivered + [Delivery(tx, rich, ViaResolve)];
      }
      found := true;
    }

    method ResolveAll(filter: Option<Request -> bool>, decision: Decision, resolver: Option<string>)
      returns (ids: seq<Id>)
      modifies this
      ensures ids == IdList(Matching(old(View()), filter))
      ensures View() == ResolvedEach(old(View()), ids, BulkRich(decision, resolver))
    {
      var managedNow := managed;
      ids := IdList(Filter((r: Request) => (filter.None? || filter.value(r)) && r.id !in managedNow, items));
      var rich := BulkRich(decision, resolver);
      var i := 0;
      while i < |ids|
        invariant 0 <= i <= |ids|
        invariant View() == ResolvedEach(old(View()), ids[..i], rich)
      {
        assert ids[..i + 1][..i] == ids[..i];
        var _ := Resolve(ids[i], rich);
        i := i + 1;
      }
      assert ids[..i] == ids;
    }
  }

  lemma {:induction false} FilterShorter(items: seq<Request>, id: Id)
    ensures |Without(items, id)| != |items| <==> exists i :: 0 <= i < |items| && items[i].id == id
  {
    if exists i :: 0 <= i < |items| && items[i].id == id {
      var i :| 0 <= i < |items| && items[i].id == id;
      var p := (r: Request) => r.id != id;
      assert items == items[..i] + ([items[i]] + items[i + 1..]);
      FilterConcat(p, items[..i], [items[i]] + items[i + 1..]);
      FilterConcat(p, [items[i]], items[i + 1..]);
      FilterNone(p, [items[i]]);
    } else {
      FilterAll((r: Request) => r.id != id, items);
    }
  }

  lemma {:induction false} PositionUnique(items: seq<Request>, id: Id, p: nat)
    requires p <= |items| && (p < |items| ==> items[p].id == id)
    requires forall i :: 0 <= i < p ==> items[i].id != id
    ensures p == Position(items, id)
  {
    if p > 0 {
      PositionUnique(items[1..], id, p - 1);
    }
  }
}
