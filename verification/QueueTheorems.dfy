/** What the decision queue keeps, over every run. */
module QueueTheorems {
  import opened Lists
  import opened Queue

  // ---------------------------------------------------------------------
  // The collections agree, and the broadcast log balances
  // ---------------------------------------------------------------------

  function Announced(log: seq<Message>, id: Id): nat {
    if log == [] then 0
    else Announced(log[..|log| - 1], id)
         + if log[|log| - 1].NewDecision? && log[|log| - 1].request.id == id then 1 else 0
  }

  function Closed(log: seq<Message>, id: Id): nat {
    if log == [] then 0
    else Closed(log[..|log| - 1], id)
         + if log[|log| - 1].DecisionResolved? && log[|log| - 1].id == id then 1 else 0
  }

  /** The ids a viewer must still see as undecided. */
  function Live(q: QueueState): set<Id> { q.senders.Keys + q.claimed.Keys }

  ghost predicate DistinctIds(items: seq<Request>) {
    forall i, j :: 0 <= i < j < |items| ==> items[i].id != items[j].id
  }

  ghost predicate Collections(
    senders: map<Id, Channel>, items: seq<Request>, claimed: map<Id, Request>, managed: set<Id>)
  {
    && senders.Keys == Ids(items)
    && DistinctIds(items)
    && senders.Keys !! claimed.Keys
    && managed <= senders.Keys + claimed.Keys
  }

  ghost predicate Balanced(log: seq<Message>, live: set<Id>) {
    forall id: Id :: Announced(log, id) == Closed(log, id) + if id in live then 1 else 0
  }

  lemma LogAppend(log: seq<Message>, m: Message, id: Id)
    ensures Announced(log + [m], id)
            == Announced(log, id) + if m.NewDecision? && m.request.id == id then 1 else 0
    ensures Closed(log + [m], id)
            == Closed(log, id) + if m.DecisionResolved? && m.id == id then 1 else 0
  {
    assert (log + [m])[..|log|] == log;
  }

  lemma {:induction false} WithoutFacts(items: seq<Request>, id: Id)
    ensures forall r :: r in Without(items, id) <==> r in items && r.id != id
    ensures Ids(Without(items, id)) == Ids(items) - {id}
    ensures DistinctIds(items) ==> DistinctIds(Without(items, id))
  {
    FilterMembers((r: Request) => r.id != id, items);
    if DistinctIds(items) { FilterDistinctIds((r: Request) => r.id != id, items); }
  }

  lemma {:induction false} FilterDistinctIds(p: Request -> bool, items: seq<Request>)
    requires DistinctIds(items)
    ensures DistinctIds(Filter(p, items))
  {
    if items != [] {
      var n := |items| - 1;
      FilterDistinctIds(p, items[..n]);
      FilterMembers(p, items[..n]);
      forall i | 0 <= i < |Filter(p, items[..n])| ensures Filter(p, items[..n])[i].id != items[n].id {
        assert Filter(p, items[..n])[i] in items[..n];
      }
    }
  }

  // ---------------------------------------------------------------------
  // Channels
  // ---------------------------------------------------------------------

  /** The channel exists and its sending half is no longer in the queue. */
  ghost predicate Taken(c: Channel, senders: map<Id, Channel>, channels: nat) {
    c < channels && forall id :: id in senders ==> senders[id] != c
  }

  ghost predicate Channels(
    senders: map<Id, Channel>, managed: set<Id>, managedChannels: set<Channel>, channels: nat)
  {
    && (forall id :: id in senders ==> senders[id] < channels)
    && (forall id, id' :: id in senders && id' in senders && senders[id] == senders[id'] ==> id == id')
    && (forall c :: c in managedChannels ==> c < channels)
    && (forall id :: id in senders ==> (id in managed <==> senders[id] in managedChannels))
  }

  ghost predicate Undelivered(c: Channel, delivered: seq<Delivery>) {
    forall d :: d in delivered ==> d.channel != c
  }

  ghost predicate Deliveries(
    delivered: seq<Delivery>, senders: map<Id, Channel>, managedChannels: set<Channel>, channels: nat)
  {
    && (forall d :: d in delivered ==> Taken(d.channel, senders, channels))
    && (forall i, j :: 0 <= i < j < |delivered| ==> delivered[i].channel != delivered[j].channel)
    && (forall d :: d in delivered && d.via == ViaResolve ==> d.channel !in managedChannels)
  }

  ghost predicate QueueInv(q: QueueState) {
    && Collections(q.senders, q.items, q.claimed, q.managed)
    && Balanced(q.broadcast, Live(q))
    && Channels(q.senders, q.managed, q.managedChannels, q.channels)
    && Deliveries(q.delivered, q.senders, q.managedChannels, q.channels)
  }

  // ---------------------------------------------------------------------
  // Runs
  // ---------------------------------------------------------------------

  /**
   The queue with its outside: `handles` are the claims in callers' hands,
   `current` names the channel behind each claimed id, `cancelled` the channels
   finalized while claimed, `reused` tells whether an id was enqueued again
   while a claim on it was still in somebody's hands, and `asker` names the
   request each reply channel was opened for.
   */
  datatype World = World(
    q: QueueState, handles: set<Claim>, current: map<Id, Channel>, cancelled: set<Channel>, reused: bool,
    asker: map<Channel, Request>)

  datatype Step =
    | Enqueue(req: Request, managed: bool)
    | Finalize(id: Id, decision: Decision)
    | TakeClaim(id: Id)
    | Complete(claim: Claim, rich: Rich)
    | DropClaim(claim: Claim)
    | Resolve(id: Id, rich: Rich)
    | ResolveAll(filter: Option<Request -> bool>, decision: Decision, resolver: Option<string>)
    | HangUp(channel: Channel)

  predicate Held(w: World, id: Id) { exists h :: h in w.handles && h.request.id == id }

  function Next(w: World, step: Step): World {
    match step
    case Enqueue(req, managed) =>
      w.(q := Enqueued(w.q, req, managed),
         reused := w.reused || (!InUse(w.q, req.id) && Held(w, req.id)),
         asker := if InUse(w.q, req.id) then w.asker else w.asker[w.q.channels := req])
    case Finalize(id, decision) =>
      w.(q := Finalized(w.q, id, decision),
         cancelled := if id in w.q.claimed && id in w.current then w.cancelled + {w.current[id]}
                      else w.cancelled)
    case TakeClaim(id) =>
      if !Claimable(w.q, id) then w
      else w.(q := Claimed(w.q, id), handles := w.handles + {ClaimOf(w.q, id)},
              current := w.current[id := w.q.senders[id]])
    case Complete(claim, rich) =>
      if claim !in w.handles then w
      else w.(q := Completed(w.q, claim, rich), handles := w.handles - {claim})
    case DropClaim(claim) => w.(handles := w.handles - {claim})
    case Resolve(id, rich) => w.(q := Resolved(w.q, id, rich))
    case ResolveAll(filter, decision, resolver) =>
      w.(q := ResolvedEach(w.q, IdList(Matching(w.q, filter)), BulkRich(decision, resolver)))
    case HangUp(channel) => w.(q := w.q.(hungUp := w.q.hungUp + {channel}))
  }

  function Run(steps: seq<Step>): World {
    if steps == [] then World(NewQueue(), {}, map[], {}, false, map[])
    else Next(Run(steps[..|steps| - 1]), steps[|steps| - 1])
  }

  /** A held claim owns a channel nobody else can send on. */
  ghost predicate Handles(
    handles: set<Claim>, senders: map<Id, Channel>, delivered: seq<Delivery>, channels: nat)
  {
    && (forall h :: h in handles ==> Taken(h.channel, senders, channels) && Undelivered(h.channel, delivered))
    && (forall h, h' :: h in handles && h' in handles && h.channel == h'.channel ==> h == h')
  }

  /** So does every claimed id, and a handle on that channel is a claim of that id. */
  ghost predicate Claims(claimed: set<Id>, current: map<Id, Channel>, handles: set<Claim>,
                         senders: map<Id, Channel>, delivered: seq<Delivery>, channels: nat)
  {
    && claimed <= current.Keys
    && (forall id :: id in claimed ==>
          Taken(current[id], senders, channels) && Undelivered(current[id], delivered))
    && (forall id, id' :: id in claimed && id' in claimed && current[id] == current[id'] ==> id == id')
    && (forall id, h :: id in claimed && h in handles && h.channel == current[id] ==> h.request.id == id)
  }

  ghost predicate CancelledTaken(cancelled: set<Channel>, senders: map<Id, Channel>, channels: nat) {
    forall c :: c in cancelled ==> Taken(c, senders, channels)
  }

  /** Without reuse a handle whose id is claimed is the claim in force, and no cancelled channel is. */
  ghost predicate Unreused(claimed: set<Id>, current: map<Id, Channel>, handles: set<Claim>,
                           senders: map<Id, Channel>, delivered: seq<Delivery>, cancelled: set<Channel>)
    requires claimed <= current.Keys
  {
    && (forall h :: h in handles ==> h.request.id !in senders)
    && (forall h :: h in handles && h.request.id in claimed ==> current[h.request.id] == h.channel)
    && (forall id :: id in claimed ==> current[id] !in cancelled)
    && (forall d :: d in delivered ==> d.channel !in cancelled)
  }

  ghost predicate Outside(w: World) {
    && Handles(w.handles, w.q.senders, w.q.delivered, w.q.channels)
    && Claims(w.q.claimed.Keys, w.current, w.handles, w.q.senders, w.q.delivered, w.q.channels)
    && CancelledTaken(w.cancelled, w.q.senders, w.q.channels)
    && (!w.reused ==>
          Unreused(w.q.claimed.Keys, w.current, w.handles, w.q.senders, w.q.delivered, w.cancelled))
  }

  ghost predicate Inv(w: World) { QueueInv(w.q) && Outside(w) }

  // ---------------------------------------------------------------------
  // What one operation keeps of the queue
  // ---------------------------------------------------------------------

  lemma BalancedNew(log: seq<Message>, live: set<Id>, req: Request)
    requires Balanced(log, live) && req.id !in live
    ensures Balanced(log + [NewDecision(req)], live + {req.id})
  {
    hide Announced, Closed;
    forall id: Id ensures Announced(log + [NewDecision(req)], id)
        == Closed(log + [NewDecision(req)], id) + if id in live + {req.id} then 1 else 0 {
      LogAppend(log, NewDecision(req), id);
    }
  }

  lemma BalancedClosed(log: seq<Message>, live: set<Id>, id: Id, decision: Decision)
    requires Balanced(log, live) && id in live
    ensures Balanced(log + [DecisionResolved(id, decision)], live - {id})
  {
    hide Announced, Closed;
    forall x: Id ensures Announced(log + [DecisionResolved(id, decision)], x)
        == Closed(log + [DecisionResolved(id, decision)], x) + if x in live - {id} then 1 else 0 {
      LogAppend(log, DecisionResolved(id, decision), x);
    }
  }

  lemma CollectionsEnqueued(q: QueueState, t: QueueState, req: Request, managed: bool)
    requires Collections(q.senders, q.items, q.claimed, q.managed) && !InUse(q, req.id)
    requires t == Enqueued(q, req, managed)
    ensures Collections(t.senders, t.items, t.claimed, t.managed)
  {
    assert Ids(t.items) == Ids(q.items) + {req.id};
    assert forall i :: 0 <= i < |q.items| ==> q.items[i].id in Ids(q.items);
  }

  lemma EnqueuedKeeps(q: QueueState, req: Request, managed: bool)
    requires QueueInv(q)
    ensures QueueInv(Enqueued(q, req, managed))
  {
    hide Announced, Closed, Filter, Collections, Balanced;
    if !InUse(q, req.id) {
      var t := Enqueued(q, req, managed);
      CollectionsEnqueued(q, t, req, managed);
      BalancedNew(q.broadcast, Live(q), req);
      assert Live(t) == Live(q) + {req.id};
    }
  }

  lemma CollectionsWithout(
    senders: map<Id, Channel>, items: seq<Request>, claimed: map<Id, Request>, managed: set<Id>, id: Id)
    requires Collections(senders, items, claimed, managed)
    ensures Collections(senders - {id}, Without(items, id), claimed - {id}, managed - {id})
  {
    hide Filter;
    WithoutFacts(items, id);
  }

  /** Removing an id from everything it is live in, and saying so once. */
  lemma ClosedKeeps(q: QueueState, t: QueueState, id: Id, decision: Decision)
    requires QueueInv(q) && id in Live(q)
    requires t == q.(senders := q.senders - {id}, items := Without(q.items, id), claimed := q.claimed - {id},
                     managed := q.managed - {id},
                     broadcast := q.broadcast + [DecisionResolved(id, decision)])
    ensures QueueInv(t)
  {
    hide Announced, Closed, Filter, Collections, Balanced;
    CollectionsWithout(q.senders, q.items, q.claimed, q.managed, id);
    BalancedClosed(q.broadcast, Live(q), id, decision);
    assert Live(t) == Live(q) - {id};
  }

  /** In a consistent queue an id is known exactly when it is live, and otherwise nothing changes. */
  lemma KnownIsLive(q: QueueState, id: Id)
    requires Collections(q.senders, q.items, q.claimed, q.managed)
    ensures Known(q, id) <==> id in Live(q)
    ensures id !in Live(q) ==> id !in q.managed
    ensures id !in q.senders ==> Without(q.items, id) == q.items
  {
    hide Filter;
    assert forall i :: 0 <= i < |q.items| ==> q.items[i].id in Ids(q.items);
    if id !in q.senders { FilterAll((r: Request) => r.id != id, q.items); }
  }

  lemma FinalizedKeeps(q: QueueState, id: Id, decision: Decision)
    requires QueueInv(q)
    ensures QueueInv(Finalized(q, id, decision))
  {
    hide Announced, Closed, Filter, Balanced;
    KnownIsLive(q, id);
    if id in Live(q) {
      ClosedKeeps(q, Finalized(q, id, decision), id, decision);
    } else {
      assert Finalized(q, id, decision) == q;
    }
  }

  /** Removing the first item with an id removes the only one. */
  lemma RemovedIsWithout(items: seq<Request>, id: Id)
    requires DistinctIds(items) && Position(items, id) < |items|
    ensures var p := Position(items, id); items[..p] + items[p + 1..] == Without(items, id)
  {
    hide Filter, Position;
    var p := Position(items, id);
    var keep := (r: Request) => r.id != id;
    assert items == items[..p] + ([items[p]] + items[p + 1..]);
    FilterConcat(keep, items[..p], [items[p]] + items[p + 1..]);
    FilterConcat(keep, [items[p]], items[p + 1..]);
    FilterNone(keep, [items[p]]);
    FilterAll(keep, items[..p]);
    FilterAll(keep, items[p + 1..]);
  }

  lemma CollectionsClaimed(q: QueueState, id: Id)
    requires Collections(q.senders, q.items, q.claimed, q.managed) && Claimable(q, id)
    ensures var t := Claimed(q, id); Collections(t.senders, t.items, t.claimed, t.managed)
  {
    hide Filter, Position, Collections, DistinctIds, Without;
    assert DistinctIds(q.items) by { CollectionsDistinct(q); }
    RemovedIsWithout(q.items, id);
    CollectionsMoved(q.senders, q.items, q.claimed, q.managed, id, q.items[Position(q.items, id)]);
  }

  lemma CollectionsDistinct(q: QueueState)
    requires Collections(q.senders, q.items, q.claimed, q.managed)
    ensures DistinctIds(q.items)
  {
  }

  /** A pending id becomes a claimed one. */
  lemma CollectionsMoved(senders: map<Id, Channel>, items: seq<Request>, claimed: map<Id, Request>, managed: set<Id>,
                         id: Id, request: Request)
    requires Collections(senders, items, claimed, managed) && id in senders
    ensures Collections(senders - {id}, Without(items, id), claimed[id := request], managed)
  {
    hide Filter, DistinctIds, Without, Ids;
    WithoutFacts(items, id);
  }

  lemma ClaimedKeeps(q: QueueState, id: Id)
    requires QueueInv(q) && Claimable(q, id)
    ensures QueueInv(Claimed(q, id))
  {
    hide Announced, Closed, Filter, Collections, Balanced;
    CollectionsClaimed(q, id);
    assert Live(Claimed(q, id)) == Live(q);
  }

  lemma SentKeeps(q: QueueState, channel: Channel, rich: Rich, via: Via)
    requires QueueInv(q) && Taken(channel, q.senders, q.channels) && Undelivered(channel, q.delivered)
    requires via == ViaResolve ==> channel !in q.managedChannels
    ensures QueueInv(Send(q, channel, rich, via))
  {
    hide Announced, Closed, Filter, Collections, Balanced;
  }

  lemma CompletedKeeps(q: QueueState, claim: Claim, rich: Rich)
    requires QueueInv(q) && Taken(claim.channel, q.senders, q.channels) && Undelivered(claim.channel, q.delivered)
    ensures QueueInv(Completed(q, claim, rich))
  {
    hide Announced, Closed, Filter, Balanced;
    var id := claim.request.id;
    if id in q.claimed {
      KnownIsLive(q, id);
      assert q.senders - {id} == q.senders;
      var t := q.(claimed := q.claimed - {id}, managed := q.managed - {id},
                  broadcast := q.broadcast + [DecisionResolved(id, rich.decision)]);
      ClosedKeeps(q, t, id, rich.decision);
      SentKeeps(t, claim.channel, rich, ViaClaim);
    }
  }

  lemma ResolvedKeeps(q: QueueState, id: Id, rich: Rich)
    requires QueueInv(q)
    ensures QueueInv(Resolved(q, id, rich))
  {
    hide Announced, Closed, Filter, Balanced;
    if id !in q.managed && id in q.senders {
      assert q.claimed - {id} == q.claimed;
      var t := q.(senders := q.senders - {id}, items := Without(q.items, id), managed := q.managed - {id},
                  broadcast := q.broadcast + [DecisionResolved(id, rich.decision)]);
      ClosedKeeps(q, t, id, rich.decision);
      SentKeeps(t, q.senders[id], rich, ViaResolve);
    }
  }

  // ---------------------------------------------------------------------
  // What one step keeps of the world
  // ---------------------------------------------------------------------

  /** Senders only disappear or appear on channels that did not exist before. */
  ghost predicate Drained(senders: map<Id, Channel>, senders': map<Id, Channel>, channels: nat) {
    forall id :: id in senders' ==> senders'[id] >= channels || (id in senders && senders[id] == senders'[id])
  }

  lemma HandlesKept(handles: set<Claim>, senders: map<Id, Channel>, senders': map<Id, Channel>,
                    delivered: seq<Delivery>, channels: nat, channels': nat)
    requires Handles(handles, senders, delivered, channels)
    requires Drained(senders, senders', channels) && channels <= channels'
    ensures Handles(handles, senders', delivered, channels')
  {
  }

  lemma ClaimsKept(claimed: set<Id>, claimed': set<Id>, current: map<Id, Channel>, handles: set<Claim>,
                   senders: map<Id, Channel>, senders': map<Id, Channel>,
                   delivered: seq<Delivery>, channels: nat, channels': nat)
    requires Claims(claimed, current, handles, senders, delivered, channels) && claimed' <= claimed
    requires Drained(senders, senders', channels) && channels <= channels'
    ensures Claims(claimed', current, handles, senders', delivered, channels')
  {
  }

  /** What a step that only drains senders and claims keeps outside the queue. */
  lemma OutsideKept(w: World, t: World)
    requires Outside(w)
    requires t.handles == w.handles && t.current == w.current && t.cancelled == w.cancelled
    requires t.q.delivered == w.q.delivered && t.q.claimed.Keys <= w.q.claimed.Keys
    requires Drained(w.q.senders, t.q.senders, w.q.channels) && w.q.channels <= t.q.channels
    requires !t.reused ==> !w.reused && forall h :: h in w.handles ==> h.request.id !in t.q.senders
    ensures Outside(t)
  {
    HandlesKept(w.handles, w.q.senders, t.q.senders, w.q.delivered, w.q.channels, t.q.channels);
    ClaimsKept(w.q.claimed.Keys, t.q.claimed.Keys, w.current, w.handles, w.q.senders, t.q.senders,
               w.q.delivered, w.q.channels, t.q.channels);
    hide Handles, Claims;
    assert w.q.claimed.Keys <= w.current.Keys;
  }

  lemma EnqueueKeeps(w: World, req: Request, managed: bool)
    requires Inv(w)
    ensures Inv(Next(w, Enqueue(req, managed)))
  {
    EnqueuedKeeps(w.q, req, managed);
    hide QueueInv, Handles, Claims, CancelledTaken;
    OutsideKept(w, Next(w, Enqueue(req, managed)));
  }

  /** Cancelling a claimed id's channel, as the id stops being claimed. */
  lemma CancelKeeps(w: World, id: Id)
    requires Outside(w) && id in w.q.claimed
    ensures Outside(w.(q := w.q.(claimed := w.q.claimed - {id}), cancelled := w.cancelled + {w.current[id]}))
  {
    ClaimsKept(w.q.claimed.Keys, (w.q.claimed - {id}).Keys, w.current, w.handles, w.q.senders, w.q.senders,
               w.q.delivered, w.q.channels, w.q.channels);
    hide Handles;
  }

  lemma FinalizeKeeps(w: World, id: Id, decision: Decision)
    requires Inv(w)
    ensures Inv(Next(w, Finalize(id, decision)))
  {
    FinalizedKeeps(w.q, id, decision);
    hide QueueInv, Handles, CancelledTaken, Filter;
    var t := Next(w, Finalize(id, decision));
    if id in w.q.claimed {
      CancelKeeps(w, id);
      hide Claims;
      OutsideKept(w.(q := w.q.(claimed := w.q.claimed - {id}), cancelled := w.cancelled + {w.current[id]}), t);
    } else {
      hide Claims;
      OutsideKept(w, t);
    }
  }

  /** Handing out the claim of a channel whose sender has just left the queue. */
  lemma HandOutKeeps(w: World, id: Id, request: Request, channel: Channel)
    requires Outside(w) && request.id == id && id !in w.q.senders && id !in w.q.claimed
    requires Taken(channel, w.q.senders, w.q.channels) && Undelivered(channel, w.q.delivered)
    requires forall h :: h in w.handles ==> h.channel != channel
    requires forall x :: x in w.q.claimed ==> w.current[x] != channel
    requires !w.reused ==> channel !in w.cancelled && forall h :: h in w.handles ==> h.request.id != id
    ensures Outside(w.(q := w.q.(claimed := w.q.claimed[id := request]),
                       handles := w.handles + {Claim(request, channel)}, current := w.current[id := channel]))
  {
    hide Taken, Undelivered;
  }

  lemma TakeClaimKeeps(w: World, id: Id)
    requires Inv(w)
    ensures Inv(Next(w, TakeClaim(id)))
  {
    hide QueueInv, Outside, Filter, Position, Taken, Undelivered;
    if Claimable(w.q, id) {
      ClaimedKeeps(w.q, id);
      var u := w.(q := Claimed(w.q, id).(claimed := w.q.claimed));
      var h := ClaimOf(w.q, id);
      TakenChannel(w, id);
      OutsideKept(w, u);
      HandOutKeeps(u, id, h.request, h.channel);
    }
  }

  /** The channel behind a pending id is in nobody's hands. */
  lemma TakenChannel(w: World, id: Id)
    requires Inv(w) && id in w.q.senders
    ensures var c := w.q.senders[id];
      && id !in w.q.claimed
      && Taken(c, w.q.senders - {id}, w.q.channels) && Undelivered(c, w.q.delivered)
      && (forall h :: h in w.handles ==> h.channel != c)
      && (forall x :: x in w.q.claimed ==> w.current[x] != c)
      && c !in w.cancelled
      && (!w.reused ==> forall h :: h in w.handles ==> h.request.id != id && h.request.id !in w.q.senders)
  {
    hide Announced, Closed, Filter, Balanced;
  }

  /** Delivering on a channel that only the given handle, now spent, could still use. */
  lemma SpendKeeps(w: World, channel: Channel, d: Delivery)
    requires Outside(w) && d.channel == channel
    requires forall h :: h in w.handles ==> h.channel != channel
    requires forall x :: x in w.q.claimed ==> w.current[x] != channel
    requires !w.reused ==> channel !in w.cancelled
    ensures Outside(w.(q := w.q.(delivered := w.q.delivered + [d])))
  {
    hide Taken;
  }

  lemma DropKeeps(w: World, claim: Claim)
    requires Inv(w)
    ensures Inv(w.(handles := w.handles - {claim}))
  {
    hide QueueInv, Taken, Undelivered, CancelledTaken;
  }

  lemma CompleteKeeps(w: World, claim: Claim, rich: Rich)
    requires Inv(w)
    ensures Inv(Next(w, Complete(claim, rich)))
  {
    var id := claim.request.id;
    if claim in w.handles {
      CompletedKeeps(w.q, claim, rich);
      DropKeeps(w, claim);
      var u := w.(handles := w.handles - {claim});
      if id in w.q.claimed {
        var v := u.(q := w.q.(claimed := w.q.claimed - {id}, managed := w.q.managed - {id},
                              broadcast := w.q.broadcast + [DecisionResolved(id, rich.decision)]));
        hide QueueInv;
        OutsideKept(u, v);
        SpendKeeps(v, claim.channel, Delivery(claim.channel, rich, ViaClaim));
      }
    }
  }

  lemma ResolveKeeps(w: World, id: Id, rich: Rich)
    requires Inv(w)
    ensures Inv(w.(q := Resolved(w.q, id, rich)))
  {
    ResolvedKeeps(w.q, id, rich);
    if id !in w.q.managed && id in w.q.senders {
      TakenChannel(w, id);
      hide QueueInv, Filter, Handles, CancelledTaken;
      var u := w.(q := w.q.(senders := w.q.senders - {id}, items := Without(w.q.items, id),
                            managed := w.q.managed - {id},
                            broadcast := w.q.broadcast + [DecisionResolved(id, rich.decision)]));
      OutsideKept(w, u);
      SpendKeeps(u, w.q.senders[id], Delivery(w.q.senders[id], rich, ViaResolve));
    }
  }

  lemma {:induction false} ResolveEachKeeps(w: World, ids: seq<Id>, rich: Rich)
    requires Inv(w)
    ensures Inv(w.(q := ResolvedEach(w.q, ids, rich)))
  {
    hide Inv;
    if ids == [] {
      assert w.(q := w.q) == w;
    } else {
      var n := |ids| - 1;
      ResolveEachKeeps(w, ids[..n], rich);
      ResolveKeeps(w.(q := ResolvedEach(w.q, ids[..n], rich)), ids[n], rich);
    }
  }

  lemma NextKeeps(w: World, step: Step)
    requires Inv(w)
    ensures Inv(Next(w, step))
  {
    match step {
      case Enqueue(req, managed) => EnqueueKeeps(w, req, managed);
      case Finalize(id, decision) => FinalizeKeeps(w, id, decision);
      case TakeClaim(id) => TakeClaimKeeps(w, id);
      case Complete(claim, rich) => CompleteKeeps(w, claim, rich);
      case DropClaim(claim) => DropKeeps(w, claim);
      case Resolve(id, rich) => ResolveKeeps(w, id, rich);
      case ResolveAll(filter, decision, resolver) =>
        ResolveEachKeeps(w, IdList(Matching(w.q, filter)), BulkRich(decision, resolver));
      case HangUp(channel) => { hide Announced, Closed, Filter, Collections, Balanced; }
    }
  }

  lemma {:induction false} RunKeeps(steps: seq<Step>)
    ensures Inv(Run(steps))
  {
    if steps != [] {
      RunKeeps(steps[..|steps| - 1]);
      NextKeeps(Run(steps[..|steps| - 1]), steps[|steps| - 1]);
    }
  }

  // ---------------------------------------------------------------------
  // Who asked
  // ---------------------------------------------------------------------

  ghost predicate Asked(asker: map<Channel, Request>, c: Channel, id: Id) { c in asker && asker[c].id == id }

  /** Every sender and every claim answers the request its channel was opened for. */
  ghost predicate Askers(
    senders: map<Id, Channel>, handles: set<Claim>, channels: nat, asker: map<Channel, Request>)
  {
    && (forall c :: c in asker ==> c < channels)
    && (forall id :: id in senders ==> Asked(asker, senders[id], id))
    && (forall h :: h in handles ==> Asked(asker, h.channel, h.request.id))
  }

  lemma {:induction false} EachDrains(q: QueueState, ids: seq<Id>, rich: Rich)
    ensures var t := ResolvedEach(q, ids, rich);
      && t.channels == q.channels && t.senders.Keys <= q.senders.Keys
      && forall id :: id in t.senders ==> t.senders[id] == q.senders[id]
  {
    hide Filter;
    if ids != [] { EachDrains(q, ids[..|ids| - 1], rich); }
  }

  lemma AskersKept(w: World, step: Step)
    requires Askers(w.q.senders, w.handles, w.q.channels, w.asker)
    ensures var t := Next(w, step); Askers(t.q.senders, t.handles, t.q.channels, t.asker)
  {
    hide Filter, Position;
    if step.ResolveAll? {
      EachDrains(w.q, IdList(Matching(w.q, step.filter)), BulkRich(step.decision, step.resolver));
    }
  }

  lemma {:induction false} AskersHold(steps: seq<Step>)
    ensures var w := Run(steps); Askers(w.q.senders, w.handles, w.q.channels, w.asker)
  {
    hide Next, Askers;
    if steps == [] {
      assert Askers(map[], {}, 0, map[]) by { NobodyAsked(); }
    } else {
      AskersHold(steps[..|steps| - 1]);
      AskersKept(Run(steps[..|steps| - 1]), steps[|steps| - 1]);
    }
  }

  lemma NobodyAsked()
    ensures Askers(map[], {}, 0, map[])
  {
  }

  /** What a resolved list of ids delivers, and to whom. */
  lemma {:induction false} EachAnswersAsker(q: QueueState, asker: map<Channel, Request>, ids: seq<Id>, rich: Rich)
    requires forall id :: id in q.senders ==> Asked(asker, q.senders[id], id)
    ensures forall d :: d in ResolvedEach(q, ids, rich).delivered && d !in q.delivered ==>
      d.rich == rich && d.channel in asker && asker[d.channel].id in ids
  {
    hide Filter;
    if ids != [] {
      var n := |ids| - 1;
      EachAnswersAsker(q, asker, ids[..n], rich);
      EachDrains(q, ids[..n], rich);
      assert ids == ids[..n] + [ids[n]];
    }
  }

  // ---------------------------------------------------------------------
  // Theorems
  // ---------------------------------------------------------------------

  /** In every reachable queue the four collections agree. */
  lemma CollectionsAgree(steps: seq<Step>)
    ensures var q := Run(steps).q;
      && q.senders.Keys == Ids(q.items)
      && DistinctIds(q.items)
      && Ids(q.items) !! q.claimed.Keys
      && q.managed <= Ids(q.items) + q.claimed.Keys
  {
    RunKeeps(steps);
  }

  /** Announcements minus resolutions of an id are one while it is pending or claimed, else zero. */
  lemma BroadcastBalance(steps: seq<Step>, id: Id)
    ensures var q := Run(steps).q;
      Announced(q.broadcast, id) - Closed(q.broadcast, id)
      == if id in Ids(q.items) || id in q.claimed then 1 else 0
  {
    RunKeeps(steps);
  }

  /** No reply channel ever carries two decisions. */
  lemma RepliesOnce(steps: seq<Step>, i: nat, j: nat)
    requires i < j < |Run(steps).q.delivered|
    ensures Run(steps).q.delivered[i].channel != Run(steps).q.delivered[j].channel
  {
    RunKeeps(steps);
  }

  /** A decision goes to the one who asked: the delivering step names the request its channel was opened for. */
  lemma AnswersTheAsker(steps: seq<Step>, step: Step, d: Delivery)
    requires d in Run(steps + [step]).q.delivered && d !in Run(steps).q.delivered
    ensures d.channel in Run(steps).asker
    ensures var id := Run(steps).asker[d.channel].id;
      || (step.Resolve? && step.id == id && step.rich == d.rich)
      || (step.Complete? && step.claim.request.id == id && step.rich == d.rich)
      || (step.ResolveAll? && id in IdList(Matching(Run(steps).q, step.filter)) && d.rich.decision == step.decision)
  {
    RunSnoc(steps, step);
    AskersHold(steps);
    AnsweredStep(Run(steps), step, d);
  }

  lemma AnsweredStep(w: World, step: Step, d: Delivery)
    requires Askers(w.q.senders, w.handles, w.q.channels, w.asker)
    requires d in Next(w, step).q.delivered && d !in w.q.delivered
    ensures d.channel in w.asker
    ensures var id := w.asker[d.channel].id;
      || (step.Resolve? && step.id == id && step.rich == d.rich)
      || (step.Complete? && step.claim.request.id == id && step.rich == d.rich)
      || (step.ResolveAll? && id in IdList(Matching(w.q, step.filter)) && d.rich.decision == step.decision)
  {
    hide Filter, Position;
    if step.ResolveAll? {
      EachAnswersAsker(w.q, w.asker, IdList(Matching(w.q, step.filter)), BulkRich(step.decision, step.resolver));
    }
  }

  /** Only the completion of a claim in a caller's hands delivers to a managed spawn. */
  lemma ManagedOnlyByCompletion(steps: seq<Step>, step: Step, d: Delivery)
    requires d in Run(steps + [step]).q.delivered && d !in Run(steps).q.delivered
    requires d.channel in Run(steps + [step]).q.managedChannels
    ensures step.Complete? && step.claim in Run(steps).handles && step.claim.channel == d.channel
    ensures step.claim.request.id in Run(steps).q.claimed && step.rich == d.rich
  {
    assert (steps + [step])[..|steps|] == steps;
    RunKeeps(steps);
    hide Next;
    ManagedStep(Run(steps), step, d);
  }

  lemma ManagedStep(w: World, step: Step, d: Delivery)
    requires QueueInv(w.q)
    requires d in Next(w, step).q.delivered && d !in w.q.delivered
    requires d.channel in Next(w, step).q.managedChannels
    ensures step.Complete? && step.claim in w.handles && step.claim.channel == d.channel
    ensures step.claim.request.id in w.q.claimed && step.rich == d.rich
  {
    hide QueueInv, Filter, Position;
    if step.Resolve? {
      ResolvedAddsUnmanaged(w.q, step.id, step.rich);
    } else if step.ResolveAll? {
      EachAddsUnmanaged(w.q, IdList(Matching(w.q, step.filter)), BulkRich(step.decision, step.resolver));
    }
  }

  lemma ResolvedAddsUnmanaged(q: QueueState, id: Id, rich: Rich)
    requires QueueInv(q)
    ensures var t := Resolved(q, id, rich);
      && t.managedChannels == q.managedChannels
      && forall d :: d in t.delivered && d !in q.delivered ==> d.channel !in q.managedChannels
  {
    hide Announced, Closed, Filter, Collections, Balanced;
  }

  lemma {:induction false} EachAddsUnmanaged(q: QueueState, ids: seq<Id>, rich: Rich)
    requires QueueInv(q)
    ensures var t := ResolvedEach(q, ids, rich);
      && QueueInv(t) && t.managedChannels == q.managedChannels
      && forall d :: d in t.delivered && d !in q.delivered ==> d.channel !in q.managedChannels
  {
    hide QueueInv, Resolved;
    if ids != [] {
      var n := |ids| - 1;
      EachAddsUnmanaged(q, ids[..n], rich);
      var u := ResolvedEach(q, ids[..n], rich);
      ResolvedKeeps(u, ids[n], rich);
      ResolvedAddsUnmanaged(u, ids[n], rich);
    }
  }

  /** Unless an id was enqueued again under an outstanding claim, a cancelled claim delivers nothing. */
  lemma CancelledNeverDelivered(steps: seq<Step>, d: Delivery)
    requires !Run(steps).reused
    requires d in Run(steps).q.delivered
    ensures d.channel !in Run(steps).cancelled
  {
    RunKeeps(steps);
  }

  /**
   The condition is needed whenever it can be broken: from every reachable
   state with a cancelled claim still held, enqueueing its id again lets the
   holder deliver on the cancelled channel.
   */
  lemma ReuseDelivers(steps: seq<Step>, h: Claim, req: Request, managed: bool, rich: Rich)
    requires h in Run(steps).handles && h.channel in Run(steps).cancelled
    requires h.channel !in Run(steps).q.hungUp
    requires req.id == h.request.id && req.id !in Live(Run(steps).q)
    ensures var w := Run(steps + [Enqueue(req, managed), TakeClaim(req.id), Complete(h, rich)]);
      Delivery(h.channel, rich, ViaClaim) in w.q.delivered && h.channel in w.cancelled && w.reused
  {
    var w0 := Run(steps);
    RunKeeps(steps);
    KnownIsLive(w0.q, req.id);
    hide Inv;
    hide Next, Run;
    var s1 := steps + [Enqueue(req, managed)];
    var s2 := s1 + [TakeClaim(req.id)];
    var s3 := s2 + [Complete(h, rich)];
    RunSnoc(steps, Enqueue(req, managed));
    RunSnoc(s1, TakeClaim(req.id));
    RunSnoc(s2, Complete(h, rich));
    assert s3 == steps + [Enqueue(req, managed), TakeClaim(req.id), Complete(h, rich)];
    ReusedWorld(w0, req, managed, h);
    CompletesOnClaimed(Run(s2), h, rich);
  }

  lemma RunSnoc(steps: seq<Step>, step: Step)
    ensures Run(steps + [step]) == Next(Run(steps), step)
  {
    hide Next;
    assert (steps + [step])[..|steps|] == steps;
  }

  /** Enqueueing a free id and claiming it leaves the old handle held, and the id claimed again. */
  lemma ReusedWorld(w: World, req: Request, managed: bool, h: Claim)
    requires h in w.handles && req.id == h.request.id && !InUse(w.q, req.id)
    ensures var t := Next(Next(w, Enqueue(req, managed)), TakeClaim(req.id));
      && h in t.handles && req.id in t.q.claimed && t.cancelled == w.cancelled && t.reused
      && t.q.hungUp == w.q.hungUp
  {
    var u := Next(w, Enqueue(req, managed));
    assert u.q.items[|w.q.items|] == req;
    assert Claimable(u.q, req.id);
  }

  lemma CompletesOnClaimed(w: World, h: Claim, rich: Rich)
    requires h in w.handles && h.request.id in w.q.claimed && h.channel !in w.q.hungUp
    ensures var t := Next(w, Complete(h, rich));
      Delivery(h.channel, rich, ViaClaim) in t.q.delivered && t.cancelled == w.cancelled && t.reused == w.reused
  {
  }

  /** Such a state is reachable: claim, finalize, and keep the claim. */
  lemma CancelledClaimReachable(req: Request) returns (steps: seq<Step>, h: Claim)
    ensures h in Run(steps).handles && h.channel in Run(steps).cancelled && h.request == req
    ensures h.channel !in Run(steps).q.hungUp && req.id !in Live(Run(steps).q)
  {
    var s1 := [Enqueue(req, true)];
    var s2 := s1 + [TakeClaim(req.id)];
    steps := s2 + [Finalize(req.id, Deny)];
    h := Claim(req, 0);
    assert s1[..0] == [] && s2[..1] == s1 && steps[..2] == s2;
    assert Run(s1).q.items == [req];
    assert Claimable(Run(s1).q, req.id);
    assert Run(s2).q.claimed == map[req.id := req] && Run(s2).current == map[req.id := 0];
  }
}
