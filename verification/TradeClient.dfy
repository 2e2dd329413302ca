/** The authenticated client's locked fields, updated in place. Each method is one
    critical section or channel action and carries the protocol state it matches to
    the state after the step of the same name. */
module TradeClient {
  import opened Wrappers
  import opened ReplyTable
  import T = TradeProtocol

  // How one pass of waitForConnLocked, with the registration that follows it, ends.
  datatype Pass = Sleep | Take(conn: nat) | Fail

  type Handler = nat  // the identity of a callback

  class Client {
    var conn: Option<nat>
    var authenticated: bool
    var closed: bool
    var pending: set<ReqId>
    var slot: map<ReqId, Option<Reply>>
    var subscribers: map<nat, Handler>
    var nextSubID: nat
    ghost var hands: map<nat, Msg>
    ghost var failing: set<ReqId>
    ghost var offers: map<ReqId, nat>
    ghost var dropped: nat

    ghost function Replies(): Table
      reads this
    {
      Table(pending, slot, hands, failing, offers, dropped)
    }

    ghost predicate Models(s: T.State)
      reads this
    {
      && s.conn == conn && s.authenticated == authenticated && s.closed == closed
      && s.table == Replies() && TableInv(Replies())
    }

    constructor ()
      ensures Models(T.INIT) && SubscribersOk()
    {
      subscribers, nextSubID := map[], 0;
      conn, authenticated, closed, pending, slot := None, false, false, {}, map[];
      hands, failing, offers, dropped := map[], {}, map[], 0;
    }

    // c.pendingReplies[reqID] = make(chan, 1)
    method RegisterReply(id: ReqId)
      requires TableInv(Replies()) && id !in slot
      modifies this`pending, this`slot, this`offers
      ensures Replies() == Register(old(Replies()), id) && TableInv(Replies())
    {
      RegisterKeeps(Replies(), id);
      pending := pending + {id};
      slot := slot[id := None];
      offers := offers[id := 0];
    }

    // One pass under the lock, from the top or after a wake-up.
    method WaitForConnLocked(id: ReqId, kind: T.Method, first: bool, ctxDone: bool, ghost s: T.State)
      returns (pass: Pass)
      requires Models(s) && id in s.reqs && id !in slot
      requires s.reqs[id].kind == kind && s.reqs[id].ctxDone == ctxDone
      requires if first then s.reqs[id].pc.Entering? else s.reqs[id].pc.Woken?
      modifies this
      ensures T.DoEnter(s, id).Some? && Models(T.DoEnter(s, id).value)
      ensures T.DoEnter(s, id).value.reqs[id].pc ==
              match pass
              case Sleep => T.Asleep
              case Take(c) => T.Registered(c)
              case Fail => T.Returned(T.Failed)
    {
      if closed {
        return Fail;
      }
      var allowUnauthenticated := kind.Auth?;
      if first && conn.Some? && (allowUnauthenticated || authenticated) {
        RegisterReply(id);
        return Take(conn.value);
      }
      if (conn.None? || (!allowUnauthenticated && !authenticated)) && !ctxDone {
        return Sleep;
      }
      if ctxDone {
        return Fail;
      }
      RegisterReply(id);
      pass := Take(conn.value);
    }

    // The critical section of deliverReply.
    method TakeEntry(g: nat, msg: Msg, ghost s: T.State) returns (found: bool)
      requires Models(s) && g in s.readers && g !in hands
      modifies this`pending, this`hands
      ensures found == (msg.id in old(pending))
      ensures Models(T.DoRead(s, g, msg).value)
    {
      TakeKeeps(Replies(), g, msg);
      found := msg.id in pending;
      if found {
        pending := pending - {msg.id};
        hands := hands[g := msg];
      }
    }

    // select { case ch <- r: default: }
    method TrySend(id: ReqId, r: Reply)
      requires id in slot && id in offers
      modifies this`slot, this`offers, this`dropped
      ensures Replies() == Offer(old(Replies()), id, r)
    {
      offers := offers[id := offers[id] + 1];
      if slot[id].None? {
        slot := slot[id := Some(r)];
      } else {
        dropped := dropped + 1;
      }
    }

    // The end of deliverReply, outside the lock.
    method SendTaken(g: nat, msg: Msg, ghost s: T.State)
      requires Models(s) && g in hands && hands[g] == msg
      modifies this`slot, this`offers, this`dropped, this`hands
      ensures Models(T.DoOffer(s, g).value) && dropped == 0
    {
      OfferHandKeeps(Replies(), g);
      TrySend(msg.id, Got(msg, g));
      hands := hands - {g};
    }

    method RemovePending(id: ReqId, ghost s: T.State)
      requires Models(s) && id in s.reqs && s.reqs[id].pc.Removing?
      modifies this`pending
      ensures Models(T.DoRemove(s, id).value)
    {
      RemoveKeeps(Replies(), id);
      pending := pending - {id};
    }

    // One iteration of the loop in failPendingReplies.
    method FailEntry(id: ReqId)
      requires TableInv(Replies()) && id in failing
      modifies this`slot, this`failing, this`offers, this`dropped
      ensures Replies() == FailOne(old(Replies()), id) && TableInv(Replies())
      ensures slot == old(slot)[id := Some(Lost)] && slot.Keys == old(slot.Keys) && dropped == 0
    {
      FailOneKeeps(Replies(), id);
      TrySend(id, Lost);
      failing := failing - {id};
    }

    // The critical section of failPendingReplies.
    method SwapPending() returns (swapped: set<ReqId>)
      requires TableInv(Replies())
      modifies this`pending, this`failing
      ensures Replies() == Swap(old(Replies())) && TableInv(Replies())
      ensures swapped == old(pending)
    {
      SwapKeeps(Replies());
      swapped := pending;
      pending := {};
      failing := failing + swapped;
    }

    // The loop of failPendingReplies.
    method FailSwapped(swapped: set<ReqId>)
      requires TableInv(Replies()) && failing == swapped
      modifies this`slot, this`failing, this`offers, this`dropped
      ensures TableInv(Replies()) && failing == {}
      ensures slot.Keys == old(slot.Keys)
      ensures forall id <- slot :: slot[id] == if id in swapped then Some(Lost) else old(slot)[id]
    {
      hide TableInv;
      var todo := swapped;
      while todo != {}
        invariant TableInv(Replies()) && failing == todo <= swapped
        invariant slot.Keys == old(slot.Keys)
        invariant forall id <- slot :: slot[id] == if id in swapped && id !in todo then Some(Lost) else old(slot)[id]
        decreases todo
      {
        var id :| id in todo;
        FailEntry(id);
        todo := todo - {id};
      }
    }

    /** Every request registered so far finds nil in its channel, and none stays in
        the map; nothing is dropped. */
    method FailPendingReplies()
      requires TableInv(Replies()) && failing == {}
      modifies this`pending, this`slot, this`failing, this`offers, this`dropped
      ensures TableInv(Replies()) && pending == {} && failing == {} && dropped == 0
      ensures slot.Keys == old(slot.Keys)
      ensures forall id <- slot :: slot[id] == if id in old(pending) then Some(Lost) else old(slot)[id]
    {
      var swapped := SwapPending();
      FailSwapped(swapped);
    }

    // g is the connection that was just dialled.
    method StoreConn(g: nat, ghost s: T.State)
      requires Models(s) && s.run.Dialing? && g == s.nextConn
      modifies this`conn, this`authenticated
      ensures Models(T.DoDial(s).value)
    {
      conn := Some(g);
      authenticated := false;
    }

    method SetAuthenticated(ghost s: T.State)
      requires Models(s) && s.run.AuthOk?
      modifies this`authenticated
      ensures Models(T.DoSetAuthenticated(s).value)
    {
      authenticated := true;
    }

    method ClearConn(ghost s: T.State)
      requires Models(s) && s.run.Cleared?
      modifies this`conn, this`authenticated
      ensures Models(T.DoClear(s).value)
    {
      conn := None;
      authenticated := false;
    }

    // Close up to the release of the lock; the captured connection is closed after.
    method Close(ghost s: T.State) returns (first: bool, captured: Option<nat>)
      requires Models(s)
      modifies this`closed, this`authenticated, this`subscribers
      ensures Models(T.DoClose(s).value) && first == !old(closed)
      ensures first ==> captured == T.DoClose(s).value.closing && subscribers == map[]
      ensures !first ==> subscribers == old(subscribers)
    {
      if closed {
        return false, None;
      }
      closed := true;
      subscribers := map[];
      authenticated := false;
      first, captured := true, conn;
    }

    // ---------------------------------------------------------------------
    // Account update subscribers

    ghost predicate SubscribersOk()
      reads this
    {
      forall id <- subscribers :: id <= nextSubID
    }

    method AddSubscriber(h: Handler) returns (id: Option<nat>)
      requires SubscribersOk()
      modifies this`subscribers, this`nextSubID
      ensures SubscribersOk() && (id.None? <==> closed)
      ensures id.None? ==> subscribers == old(subscribers)
      ensures id.Some? ==> id.value !in old(subscribers) && subscribers == old(subscribers)[id.value := h]
    {
      if closed {
        return None;
      }
      nextSubID := nextSubID + 1;
      subscribers := subscribers[nextSubID := h];
      id := Some(nextSubID);
    }

    method RemoveSubscriber(id: nat)
      requires SubscribersOk()
      modifies this`subscribers
      ensures SubscribersOk() && subscribers == old(subscribers) - {id}
    {
      subscribers := subscribers - {id};
    }

    // The snapshot of fanOut: each subscriber's handler once.
    method FanOut() returns (handlers: seq<(nat, Handler)>)
      ensures multiset(handlers) == multiset(subscribers.Items)
    {
      handlers := [];
      var todo := subscribers.Items;
      while todo != {}
        invariant todo <= subscribers.Items
        invariant multiset(handlers) == multiset(subscribers.Items - todo)
        decreases todo
      {
        var item :| item in todo;
        handlers := handlers + [item];
        todo := todo - {item};
      }
      assert subscribers.Items - todo == subscribers.Items;
    }
  }
}
