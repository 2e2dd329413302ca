/** The pending-reply map of both websocket clients, with the one-slot channels
    it points to. `wstrade` and `wsinfo` share this code line for line: a request
    registers a fresh channel under its id, the read loop takes the entry out and
    then offers the message, connection loss swaps the whole map out and then
    offers nil to every channel in it, and a request that gives up removes its
    own entry. Taking out and offering are separate steps here, because the
    clients unlock between them. */
module ReplyTable {
  import opened Wrappers

  type ReqId = nat

  // A decoded reply frame; `isError` says that the reply carries an error object.
  datatype Msg = Msg(id: ReqId, isError: bool)

  // What travels through a request's channel. `Lost` is the nil message;
  // `origin` is the connection the frame was read from.
  datatype Reply = Lost | Got(msg: Msg, origin: nat)

  datatype Table = Table(
    pending: set<ReqId>,              // c.pendingReplies (a channel is named by its request)
    slot: map<ReqId, Option<Reply>>,  // the one-slot buffer of every channel ever made
    hands: map<nat, Msg>,             // per connection: taken out by its read loop, not yet offered
    failing: set<ReqId>,              // swapped out by failPendingReplies, nil not yet offered
    offers: map<ReqId, nat>,          // history: offers made to each channel
    dropped: nat                      // history: offers that hit the `default` arm
  )

  const EMPTY := Table({}, map[], map[], {}, map[], 0)

  // c.pendingReplies[id] = make(chan, 1)
  function Register(t: Table, id: ReqId): Table {
    t.(pending := t.pending + {id}, slot := t.slot[id := None], offers := t.offers[id := 0])
  }

  // The critical section of deliverReply, run by the read loop of connection g.
  function Take(t: Table, g: nat, msg: Msg): Table {
    if msg.id in t.pending then t.(pending := t.pending - {msg.id}, hands := t.hands[g := msg]) else t
  }

  // select { case ch <- r: default: }
  function Offer(t: Table, id: ReqId, r: Reply): Table
    requires id in t.slot && id in t.offers
  {
    var t' := t.(offers := t.offers[id := t.offers[id] + 1]);
    if t.slot[id].None? then t'.(slot := t.slot[id := Some(r)]) else t'.(dropped := t.dropped + 1)
  }

  // The channel send at the end of deliverReply.
  function OfferHand(t: Table, g: nat): Table
    requires g in t.hands && t.hands[g].id in t.slot && t.hands[g].id in t.offers
  {
    Offer(t, t.hands[g].id, Got(t.hands[g], g)).(hands := t.hands - {g})
  }

  // The critical section of failPendingReplies.
  function Swap(t: Table): Table {
    t.(failing := t.failing + t.pending, pending := {})
  }

  // One iteration of the loop in failPendingReplies.
  function FailOne(t: Table, id: ReqId): Table
    requires id in t.slot && id in t.offers
  {
    Offer(t, id, Lost).(failing := t.failing - {id})
  }

  // removePending, and the deferred delete of wsinfo's sendRequest.
  function Remove(t: Table, id: ReqId): Table {
    t.(pending := t.pending - {id})
  }

  // msg := <-replyCh
  function Receive(t: Table, id: ReqId): Table {
    t.(slot := t.slot[id := None])
  }

  predicate InHand(t: Table, id: ReqId) {
    exists g :: g in t.hands && t.hands[g].id == id
  }

  /** An id is in at most one of: the map, one reader's hand, the swapped-out set,
      or already offered to. Everything the clients promise about replies rests on it. */
  ghost predicate TableInv(t: Table) {
    && t.slot.Keys == t.offers.Keys
    && t.pending <= t.slot.Keys && t.failing <= t.slot.Keys && t.pending !! t.failing
    && (forall g <- t.hands :: t.hands[g].id in t.slot && t.hands[g].id !in t.pending + t.failing)
    && (forall g, h | g in t.hands && h in t.hands :: t.hands[g].id == t.hands[h].id ==> g == h)
    && (forall id <- t.slot :: t.offers[id] <= 1)
    && (forall id <- t.slot :: id in t.pending + t.failing ==> t.offers[id] == 0)
    && (forall g <- t.hands :: t.offers[t.hands[g].id] == 0)
    && (forall id <- t.slot :: t.offers[id] == 0 ==> t.slot[id].None?)
    && (forall id <- t.slot :: t.slot[id].Some? && t.slot[id].value.Got? ==> t.slot[id].value.msg.id == id)
    && t.dropped == 0
  }

  lemma RegisterKeeps(t: Table, id: ReqId)
    requires TableInv(t) && id !in t.slot
    ensures TableInv(Register(t, id))
  {}

  lemma TakeKeeps(t: Table, g: nat, msg: Msg)
    requires TableInv(t) && g !in t.hands
    ensures TableInv(Take(t, g, msg))
  {}

  lemma OfferHandKeeps(t: Table, g: nat)
    requires TableInv(t) && g in t.hands
    ensures TableInv(OfferHand(t, g))
    ensures OfferHand(t, g).slot[t.hands[g].id] == Some(Got(t.hands[g], g))
  {}

  lemma FailOneKeeps(t: Table, id: ReqId)
    requires TableInv(t) && id in t.failing
    ensures TableInv(FailOne(t, id))
    ensures FailOne(t, id).slot[id] == Some(Lost)
  {}

  lemma SwapKeeps(t: Table)
    requires TableInv(t)
    ensures TableInv(Swap(t))
  {}

  lemma RemoveKeeps(t: Table, id: ReqId)
    requires TableInv(t)
    ensures TableInv(Remove(t, id))
  {}

  lemma ReceiveKeeps(t: Table, id: ReqId)
    requires TableInv(t) && id in t.slot && t.slot[id].Some?
    ensures TableInv(Receive(t, id))
    ensures id !in t.pending && (t.slot[id].value.Got? ==> t.slot[id].value.msg.id == id)
  {}

  // One channel fewer is left to fail.
  lemma FailOneFalls(t: Table, id: ReqId)
    requires TableInv(t) && id in t.failing
    ensures id in t.slot && id in t.offers && |FailOne(t, id).failing| < |t.failing|
  {}

  lemma SwapMoves(t: Table)
    requires t.failing == {}
    ensures |Swap(t).failing| == |t.pending|
  {
    assert Swap(t).failing == t.pending;
  }
}
