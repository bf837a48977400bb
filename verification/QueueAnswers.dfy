/** What each operation of the decision queue answers, announces and leaves pending, in every reachable state. */
module QueueAnswers {
  import opened Lists
  import opened Queue
  import opened QueueTheorems

  /** Waiting for a decision, with a reply channel. */
  ghost predicate Pending(q: QueueState, r: Request) { r in q.items && r.id in q.senders }

  predicate IdFree(q: QueueState, id: Id) {
    id !in q.claimed && forall i :: 0 <= i < |q.items| ==> q.items[i].id != id
  }

  /** The messages a step broadcasts and the replies it delivers. */
  ghost predicate Emits(q: QueueState, t: QueueState, messages: seq<Message>, replies: seq<Delivery>) {
    t.broadcast == q.broadcast + messages && t.delivered == q.delivered + replies
  }

  /** The items with no id in `gone`, in order. */
  function Others(items: seq<Request>, gone: set<Id>): seq<Request> { Filter((r: Request) => r.id !in gone, items) }

  /** Everybody else stays as they were: the items outside `gone` in order, with their channels. */
  ghost predicate OthersStay(q: QueueState, t: QueueState, gone: set<Id>) {
    && t.items == Others(q.items, gone)
    && t.senders.Keys == q.senders.Keys - gone
    && (forall id :: id in t.senders ==> t.senders[id] == q.senders[id])
    && t.channels == q.channels && t.hungUp == q.hungUp && t.managedChannels == q.managedChannels
  }

  lemma OthersAgree(items: seq<Request>, gone: set<Id>, p: Request -> bool)
    requires forall r :: r in items ==> p(r) == (r.id !in gone)
    ensures Others(items, gone) == Filter(p, items)
  {
    hide Filter;
    FilterAgree(p, (r: Request) => r.id !in gone, items);
  }

  lemma WithoutIsOthers(items: seq<Request>, id: Id)
    ensures Without(items, id) == Others(items, {id})
  {
    hide Filter;
    OthersAgree(items, {id}, (r: Request) => r.id != id);
  }

  lemma OthersTwice(items: seq<Request>, gone: set<Id>, id: Id)
    ensures Others(Others(items, gone), {id}) == Others(items, gone + {id})
  {
    hide Filter;
    var p, p' := (r: Request) => r.id !in gone, (r: Request) => r.id != id;
    OthersAgree(items, gone, p);
    OthersAgree(Others(items, gone), {id}, p');
    FilterBoth(p, p', items);
    OthersAgree(items, gone + {id}, (r: Request) => p(r) && p'(r));
  }

  // ---------------------------------------------------------------------
  // Enqueue, finalize, claim, complete
  // ---------------------------------------------------------------------

  lemma FreeIsUnused(q: QueueState, id: Id)
    requires QueueInv(q)
    ensures InUse(q, id) <==> !IdFree(q, id)
    ensures Known(q, id) <==> !IdFree(q, id)
  {
    hide Announced, Closed, Balanced, Channels, Deliveries;
    assert forall i :: 0 <= i < |q.items| ==> q.items[i].id in Ids(q.items);
  }

  /** A free id is enqueued last, on a channel of its own, and announced; one in use changes nothing. */
  lemma EnqueueAnswers(steps: seq<Step>, req: Request, managed: bool)
    ensures
      var q, t := Run(steps).q, Run(steps + [Enqueue(req, managed)]).q;
      && (!IdFree(q, req.id) ==> t == q)
      && (IdFree(q, req.id) ==>
            && t.items == q.items + [req] && t.senders == q.senders[req.id := q.channels]
            && t.channels == q.channels + 1 && t.claimed == q.claimed && t.hungUp == q.hungUp
            && t.managed == (if managed then q.managed + {req.id} else q.managed)
            && t.managedChannels == (if managed then q.managedChannels + {q.channels} else q.managedChannels)
            && Emits(q, t, [NewDecision(req)], []))
  {
    RunKeeps(steps);
    RunSnoc(steps, Enqueue(req, managed));
    hide Run, Inv, IdFree;
    FreeIsUnused(Run(steps).q, req.id) by { InvQueue(Run(steps)); }
  }

  lemma InvQueue(w: World)
    requires Inv(w)
    ensures QueueInv(w.q)
  {
    hide QueueInv, Outside;
  }

  /** Finalizing an id in use removes it everywhere and says so once, delivering nothing; a free one changes nothing. */
  lemma FinalizeAnswers(steps: seq<Step>, id: Id, decision: Decision)
    ensures
      var q, t := Run(steps).q, Run(steps + [Finalize(id, decision)]).q;
      && OthersStay(q, t, {id}) && t.claimed == q.claimed - {id} && t.managed == q.managed - {id}
      && Emits(q, t, if IdFree(q, id) then [] else [DecisionResolved(id, decision)], [])
  {
    RunKeeps(steps);
    RunSnoc(steps, Finalize(id, decision));
    hide Run, Inv, IdFree, Filter;
    var q := Run(steps).q;
    FreeIsUnused(q, id) by { InvQueue(Run(steps)); }
    WithoutIsOthers(q.items, id);
  }

  /** Exactly a pending id can be claimed; the claim gets its request and its reply channel. */
  lemma ClaimAnswers(steps: seq<Step>, r: Request)
    requires Pending(Run(steps).q, r)
    ensures
      var w, u := Run(steps), Run(steps + [TakeClaim(r.id)]);
      && Claim(r, w.q.senders[r.id]) in u.handles
      && OthersStay(w.q, u.q, {r.id}) && u.q.claimed == w.q.claimed[r.id := r] && u.q.managed == w.q.managed
      && Emits(w.q, u.q, [], [])
  {
    RunKeeps(steps);
    RunSnoc(steps, TakeClaim(r.id));
    hide Run, Inv, Filter;
    InvQueue(Run(steps));
    ClaimTakes(Run(steps).q, r);
  }

  lemma ClaimTakes(q: QueueState, r: Request)
    requires QueueInv(q) && Pending(q, r)
    ensures Claimable(q, r.id) && ClaimOf(q, r.id) == Claim(r, q.senders[r.id])
    ensures var t := Claimed(q, r.id);
      && OthersStay(q, t, {r.id}) && t.claimed == q.claimed[r.id := r] && t.managed == q.managed
      && Emits(q, t, [], [])
  {
    hide Announced, Closed, Balanced, Channels, Deliveries, Filter;
    var k :| 0 <= k < |q.items| && q.items[k] == r;
    assert DistinctIds(q.items);
    RemovedIsWithout(q.items, r.id);
    WithoutIsOthers(q.items, r.id);
  }

  /** An id that is not pending cannot be claimed. */
  lemma NothingToClaim(steps: seq<Step>, id: Id)
    requires forall i :: 0 <= i < |Run(steps).q.items| ==> Run(steps).q.items[i].id != id
    ensures Run(steps + [TakeClaim(id)]) == Run(steps)
  {
    hide Run;
    RunSnoc(steps, TakeClaim(id));
  }

  /** A held claim of an id that is still claimed delivers on its channel, unless the receiver is gone. */
  lemma CompleteAnswers(steps: seq<Step>, claim: Claim, rich: Rich)
    requires claim in Run(steps).handles
    ensures
      var q, t := Run(steps).q, Run(steps + [Complete(claim, rich)]).q;
      var id := claim.request.id;
      && (id !in q.claimed ==> t == q)
      && (id in q.claimed ==>
            && t.claimed == q.claimed - {id} && t.managed == q.managed - {id}
            && t.items == q.items && t.senders == q.senders && t.channels == q.channels
            && Emits(q, t, [DecisionResolved(id, rich.decision)],
                     if claim.channel in q.hungUp then [] else [Delivery(claim.channel, rich, ViaClaim)]))
  {
    hide Run;
    RunSnoc(steps, Complete(claim, rich));
  }

  // ---------------------------------------------------------------------
  // Resolving
  // ---------------------------------------------------------------------

  /** Answers a pending id that no managed spawn waits for, announces it, and touches nothing else. */
  lemma ResolveAnswers(steps: seq<Step>, r: Request, rich: Rich)
    requires Pending(Run(steps).q, r) && r.id !in Run(steps).q.managed
    ensures
      var q, t := Run(steps).q, Run(steps + [Resolve(r.id, rich)]).q;
      && OthersStay(q, t, {r.id}) && t.claimed == q.claimed && t.managed == q.managed
      && Emits(q, t, [DecisionResolved(r.id, rich.decision)],
               if q.senders[r.id] in q.hungUp then [] else [Delivery(q.senders[r.id], rich, ViaResolve)])
  {
    hide Run, Filter;
    RunSnoc(steps, Resolve(r.id, rich));
    WithoutIsOthers(Run(steps).q.items, r.id);
  }

  /** Any other id is left alone. */
  lemma ResolveIgnores(steps: seq<Step>, id: Id, rich: Rich)
    requires var q := Run(steps).q;
      id in q.managed || forall i :: 0 <= i < |q.items| ==> q.items[i].id != id
    ensures Run(steps + [Resolve(id, rich)]) == Run(steps)
  {
    RunKeeps(steps);
    RunSnoc(steps, Resolve(id, rich));
    hide Run, Filter, Announced, Closed, Balanced, Channels, Deliveries, Outside;
    var q := Run(steps).q;
    assert id in q.managed || id !in Ids(q.items);
  }

  /** Whom a bulk decision answers: the filter lets them through, and no managed spawn waits for them. */
  predicate Answered(q: QueueState, filter: Option<Request -> bool>, r: Request) {
    r.id !in q.managed && (filter.Some? ==> filter.value(r))
  }

  function Announcements(rs: seq<Request>, decision: Decision): seq<Message> {
    seq(|rs|, i requires 0 <= i < |rs| => DecisionResolved(rs[i].id, decision))
  }

  /** The replies to some requests, in order, to those still listening. */
  function Replies(q: QueueState, rs: seq<Request>, rich: Rich): seq<Delivery>
    requires forall i :: 0 <= i < |rs| ==> rs[i].id in q.senders
  {
    if rs == [] then []
    else
      var n := |rs| - 1;
      Replies(q, rs[..n], rich)
      + if q.senders[rs[n].id] in q.hungUp then [] else [Delivery(q.senders[rs[n].id], rich, ViaResolve)]
  }

  ghost predicate Resolvable(q: QueueState, rs: seq<Request>) {
    DistinctIds(rs) && forall i :: 0 <= i < |rs| ==> rs[i].id in q.senders && rs[i].id !in q.managed
  }

  lemma OthersStayTwice(q: QueueState, u: QueueState, t: QueueState, gone: set<Id>, id: Id)
    requires OthersStay(q, u, gone) && OthersStay(u, t, {id})
    ensures OthersStay(q, t, gone + {id})
  {
    hide Others;
    OthersTwice(q.items, gone, id);
  }

  lemma {:induction false} FilterBoth(p: Request -> bool, p': Request -> bool, items: seq<Request>)
    ensures Filter(p', Filter(p, items)) == Filter((r: Request) => p(r) && p'(r), items)
  {
    if items != [] {
      var n := |items| - 1;
      FilterBoth(p, p', items[..n]);
      if p(items[n]) { FilterAppend(p', Filter(p, items[..n]), items[n]); }
      assert Filter(p, items[..n]) + [] == Filter(p, items[..n]);
    }
  }

  lemma ResolvedOne(q: QueueState, id: Id, rich: Rich)
    requires id in q.senders && id !in q.managed
    ensures var t := Resolved(q, id, rich);
      && OthersStay(q, t, {id}) && t.claimed == q.claimed && t.managed == q.managed
      && Emits(q, t, [DecisionResolved(id, rich.decision)],
               if q.senders[id] in q.hungUp then [] else [Delivery(q.senders[id], rich, ViaResolve)])
  {
    hide Filter;
    WithoutIsOthers(q.items, id);
  }

  lemma NothingGone(q: QueueState)
    ensures OthersStay(q, q, {}) && Emits(q, q, [], [])
  {
    hide Filter;
    var p := (r: Request) => true;
    OthersAgree(q.items, {}, p);
    FilterAll(p, q.items);
  }

  lemma {:induction false} EachAnswered(q: QueueState, rs: seq<Request>, rich: Rich)
    requires Resolvable(q, rs)
    ensures var t := ResolvedEach(q, IdList(rs), rich);
      && OthersStay(q, t, Ids(rs)) && t.claimed == q.claimed && t.managed == q.managed
      && Emits(q, t, Announcements(rs, rich.decision), Replies(q, rs, rich))
  {
    hide OthersStay, Resolved;
    if rs == [] {
      NothingGone(q);
      assert Ids(rs) == {};
    } else {
      var n := |rs| - 1;
      var id := rs[n].id;
      EachAnswered(q, rs[..n], rich);
      var u := ResolvedEach(q, IdList(rs[..n]), rich);
      assert IdList(rs)[..n] == IdList(rs[..n]);
      StillPending(q, u, rs, n);
      ResolvedOne(u, id, rich);
      OthersStayTwice(q, u, Resolved(u, id, rich), Ids(rs[..n]), id);
      assert Ids(rs) == Ids(rs[..n]) + {id};
      assert Announcements(rs, rich.decision)
          == Announcements(rs[..n], rich.decision) + [DecisionResolved(id, rich.decision)];
    }
  }

  lemma StillPending(q: QueueState, u: QueueState, rs: seq<Request>, n: nat)
    requires Resolvable(q, rs) && n < |rs| && OthersStay(q, u, Ids(rs[..n]))
    ensures rs[n].id in u.senders && u.senders[rs[n].id] == q.senders[rs[n].id] && u.hungUp == q.hungUp
  {
    hide Filter;
    assert rs[n].id !in Ids(rs[..n]);
  }

  /** The pending requests a bulk decision answers, in order. */
  function AnsweredItems(q: QueueState, filter: Option<Request -> bool>): seq<Request> {
    Filter((r: Request) => Answered(q, filter, r), q.items)
  }

  lemma AnsweredResolvable(q: QueueState, filter: Option<Request -> bool>)
    requires QueueInv(q)
    ensures Resolvable(q, AnsweredItems(q, filter)) && Matching(q, filter) == AnsweredItems(q, filter)
  {
    hide Announced, Closed, Balanced, Channels, Deliveries, Filter;
    var p := (r: Request) => Answered(q, filter, r);
    assert AnsweredItems(q, filter) == Filter(p, q.items);
    FilterMembers(p, q.items);
    FilterDistinctIds(p, q.items);
    FilterAgree(p, (r: Request) => (filter.None? || filter.value(r)) && r.id !in q.managed, q.items);
    var rs := AnsweredItems(q, filter);
    forall i | 0 <= i < |rs| ensures rs[i].id in q.senders && rs[i].id !in q.managed {
      assert rs[i] in rs;
      assert rs[i] in q.items && Answered(q, filter, rs[i]);
      assert rs[i].id in Ids(q.items);
    }
  }

  /**
   A bulk decision answers exactly the pending requests its filter lets through
   that no managed spawn waits for, in order, each with that decision and on its
   own channel, announces each once, and leaves everybody else as they were.
   */
  lemma ResolveAllAnswers(
    steps: seq<Step>, filter: Option<Request -> bool>, decision: Decision, resolver: Option<string>)
    ensures
      var q, t := Run(steps).q, Run(steps + [ResolveAll(filter, decision, resolver)]).q;
      var answered := AnsweredItems(q, filter);
      && (forall i :: 0 <= i < |answered| ==> answered[i].id in q.senders)
      && OthersStay(q, t, Ids(answered)) && t.claimed == q.claimed && t.managed == q.managed
      && Emits(q, t, Announcements(answered, decision), Replies(q, answered, Rich(decision, None, resolver)))
  {
    RunKeeps(steps);
    RunSnoc(steps, ResolveAll(filter, decision, resolver));
    hide Run, Filter, OthersStay, Inv, Emits;
    var q := Run(steps).q;
    InvQueue(Run(steps));
    AnsweredResolvable(q, filter);
    EachAnswered(q, AnsweredItems(q, filter), BulkRich(decision, resolver));
  }

  /** In particular a pending request stays pending exactly when it is not answered. */
  lemma StaysPendingIff(
    steps: seq<Step>, filter: Option<Request -> bool>, decision: Decision, resolver: Option<string>, r: Request)
    requires Pending(Run(steps).q, r)
    ensures
      var q, t := Run(steps).q, Run(steps + [ResolveAll(filter, decision, resolver)]).q;
      && (Pending(t, r) <==> !Answered(q, filter, r))
      && (Answered(q, filter, r) && q.senders[r.id] !in q.hungUp ==>
            Delivery(q.senders[r.id], Rich(decision, None, resolver), ViaResolve) in t.delivered)
  {
    ResolveAllAnswers(steps, filter, decision, resolver);
    RunKeeps(steps);
    hide Run, Filter, Inv;
    InvQueue(Run(steps));
    var q, t := Run(steps).q, Run(steps + [ResolveAll(filter, decision, resolver)]).q;
    AnsweredIds(q, filter, r);
    FilterMembers((x: Request) => x.id !in Ids(AnsweredItems(q, filter)), q.items);
    if Answered(q, filter, r) && q.senders[r.id] !in q.hungUp {
      RepliesTo(q, AnsweredItems(q, filter), Rich(decision, None, resolver), r);
    }
  }

  /** Ids tell pending requests apart, so a request is answered exactly when its id is among those answered. */
  lemma AnsweredIds(q: QueueState, filter: Option<Request -> bool>, r: Request)
    requires QueueInv(q) && r in q.items
    ensures r.id in Ids(AnsweredItems(q, filter)) <==> Answered(q, filter, r)
    ensures r in AnsweredItems(q, filter) <==> Answered(q, filter, r)
  {
    hide Announced, Closed, Balanced, Channels, Deliveries, Filter;
    FilterMembers((x: Request) => Answered(q, filter, x), q.items);
    if x :| x in AnsweredItems(q, filter) && x.id == r.id {
      var i :| 0 <= i < |q.items| && q.items[i] == x;
      var j :| 0 <= j < |q.items| && q.items[j] == r;
      assert i == j;
    }
  }

  lemma {:induction false} RepliesTo(q: QueueState, rs: seq<Request>, rich: Rich, r: Request)
    requires forall i :: 0 <= i < |rs| ==> rs[i].id in q.senders
    requires r in rs && q.senders[r.id] !in q.hungUp
    ensures Delivery(q.senders[r.id], rich, ViaResolve) in Replies(q, rs, rich)
  {
    var n := |rs| - 1;
    if rs[n] != r { RepliesTo(q, rs[..n], rich, r); }
  }
}
