/** The invariant of the authenticated client, and what follows from it for every
    schedule of its steps. */
module TradeSafety {
  import opened Wrappers
  import opened ReplyTable
  import opened TradeProtocol

  function RunConn(run: RunPc): Option<nat> {
    if run.Dialing? then None else Some(run.g)
  }

  // At most one connection exists on this side, and it is c.conn.
  ghost predicate ConnInv(s: State) {
    && s.conn == RunConn(s.run)
    && (s.conn.Some? ==> s.conn.value < s.nextConn)
    && (forall g <- s.open :: s.conn == Some(g))
    && (forall g <- s.readers :: s.conn == Some(g))
    && (s.run.AuthDrain? || s.run.Down? || s.run.Failing? || s.run.Cleared? ==> s.open == {})
    && (s.run.Down? || s.run.Failing? || s.run.Cleared? ==> s.readers == {})
    && (forall g <- s.table.hands :: g in s.readers)
    && (!s.run.Failing? ==> s.table.failing == {})
  }

  // Every earlier connection, and none but a cleared one of now, has been failed.
  ghost predicate LostInv(s: State) {
    && (forall g <- s.lost :: g < s.nextConn && (s.conn == Some(g) ==> s.run.Cleared?))
    && (forall g: nat | g < s.nextConn :: g in s.lost || s.conn == Some(g))
    && (s.run.Cleared? ==> s.run.g in s.lost)
  }

  // Request `id` authenticated connection g: it was written to g, and a reply
  // to it without an error object was read from g.
  ghost predicate AnsweredBy(s: State, id: ReqId, g: nat) {
    && id in s.reqs && s.reqs[id].kind.Auth?
    && id in s.wrote && s.wrote[id] == g
    && s.reqs[id].pc.Returned? && s.reqs[id].pc.outcome.Replied?
    && s.reqs[id].pc.outcome.msg.id == id && !s.reqs[id].pc.outcome.msg.isError
    && s.reqs[id].pc.outcome.origin == g
  }

  ghost predicate AuthInv(s: State) {
    && (forall g <- s.accepted :: AnsweredBy(s, s.accepted[g], g) && g < s.nextConn)
    && (s.authenticated ==> s.conn.Some? && s.conn.value in s.accepted)
    && (s.authenticated ==> s.run.Serving? || s.run.Down? || s.run.Failing? || s.run.Cleared?)
    && (s.run.AuthOk? || s.run.Serving? ==> s.run.g in s.accepted)
    && (s.run.Authing? ==> s.run.id in s.reqs && s.reqs[s.run.id].kind.Auth? && !s.authenticated)
  }

  // The auth request in flight lives inside its connection's life.
  ghost predicate AuthReqOk(s: State, id: ReqId)
    requires id in s.reqs
  {
    var pc := s.reqs[id].pc;
    && !pc.Asleep? && !pc.Woken?
    && (!pc.Returned? ==> s.run.Authing? && s.run.id == id)
    && (s.run.Authing? && s.run.id == id ==>
          && (pc.Registered? || pc.Written? ==> pc.c == s.run.g)
          && (pc.Written? ==> id in s.wrote && s.wrote[id] == s.run.g)
          && (id in s.table.slot && s.table.slot[id].Some? && s.table.slot[id].value.Got? ==>
                s.table.slot[id].value.origin == s.run.g)
          && (pc.Returned? && pc.outcome.Replied? && !pc.outcome.msg.isError ==> AnsweredBy(s, id, s.run.g)))
  }

  // Everything else goes out on accepted connections only; and no request sleeps
  // while the thing it waits for is there, or once its watcher has fired.
  ghost predicate PlainReqOk(s: State, id: ReqId)
    requires id in s.reqs
  {
    var r := s.reqs[id];
    && (r.pc.Registered? || r.pc.Written? ==> r.pc.c in s.accepted)
    && (id in s.wrote ==> s.wrote[id] in s.accepted)
    && (r.pc.Asleep? ==> !s.closed && !(s.conn.Some? && s.authenticated) && r.watching)
  }

  ghost predicate Waiting(s: State, id: ReqId) {
    && id in s.table.slot
    && (s.table.slot[id].Some? || id in s.table.failing || id in s.table.pending || InHand(s.table, id))
  }

  // A written request is waiting in the map while its connection lives; once the
  // connection is failed its channel has been, or is about to be, offered to.
  ghost predicate Answerable(s: State, id: ReqId, c: nat) {
    && Waiting(s, id)
    && (c in s.lost ==> s.table.slot[id].Some?)
    && (s.run == Failing(c) ==> s.table.slot[id].Some? || id in s.table.failing)
  }

  // Where a request's reply channel can be, by program counter.
  ghost predicate Placed(s: State, id: ReqId, pc: ReqPc) {
    match pc
    case Entering => id !in s.table.slot
    case Asleep => id !in s.table.slot
    case Woken => id !in s.table.slot
    case Registered(c) => c < s.nextConn && Waiting(s, id)
    case Written(c) => c < s.nextConn && Answerable(s, id, c)
    case Removing => id in s.table.slot
    case Returned(o) => id !in s.table.pending && (o.Replied? ==> o.msg.id == id)
  }

  ghost predicate ReqOk(s: State, id: ReqId) {
    && id in s.reqs && id < s.nextId
    && (if s.reqs[id].kind.Auth? then AuthReqOk(s, id) else PlainReqOk(s, id))
    && Placed(s, id, s.reqs[id].pc)
  }

  ghost predicate ReqsOk(s: State) {
    forall id <- s.reqs :: ReqOk(s, id)
  }

  ghost predicate Known(s: State) {
    && (forall id <- s.table.slot :: id in s.reqs)
    && (forall id <- s.wrote :: id in s.reqs)
  }

  ghost predicate Inv(s: State) {
    ConnInv(s) && LostInv(s) && AuthInv(s) && TableInv(s.table) && Known(s) && ReqsOk(s)
  }

  // ---------------------------------------------------------------------
  // Frames

  ghost predicate SameWorld(s: State, t: State) {
    && t.run == s.run && t.conn == s.conn && t.authenticated == s.authenticated && t.closed == s.closed
    && t.lost == s.lost && t.accepted == s.accepted
    && t.nextConn == s.nextConn && t.nextId >= s.nextId
  }

  ghost predicate SameFor(s: State, t: State, k: ReqId) {
    && k in s.reqs && k in t.reqs && t.reqs[k] == s.reqs[k]
    && SameTableFor(s, t, k)
  }

  ghost predicate SameTableFor(s: State, t: State, k: ReqId) {
    && (k in t.table.slot <==> k in s.table.slot)
    && (k in s.table.slot ==> t.table.slot[k] == s.table.slot[k])
    && (k in t.table.pending <==> k in s.table.pending)
    && (k in t.table.failing <==> k in s.table.failing)
    && (InHand(s.table, k) ==> InHand(t.table, k))
    && (k in t.wrote <==> k in s.wrote)
    && (k in s.wrote ==> t.wrote[k] == s.wrote[k])
  }

  lemma OtherReqOk(s: State, t: State, k: ReqId)
    requires SameWorld(s, t) && SameFor(s, t, k) && ReqOk(s, k)
    ensures ReqOk(t, k)
  {}

  lemma AcceptedStay(s: State, t: State)
    requires AuthInv(s)
    requires t.accepted == s.accepted && t.nextConn >= s.nextConn
    requires forall id <- s.reqs :: id in t.reqs && t.reqs[id].kind == s.reqs[id].kind
    requires forall id <- s.reqs :: s.reqs[id].pc.Returned? ==> t.reqs[id].pc == s.reqs[id].pc
    requires forall id <- s.wrote ::
               id in s.reqs && s.reqs[id].pc.Returned? ==> id in t.wrote && t.wrote[id] == s.wrote[id]
    ensures forall g <- t.accepted :: AnsweredBy(t, t.accepted[g], g) && g < t.nextConn
  {}

  lemma OthersOk(s: State, t: State, id: ReqId)
    requires ReqsOk(s) && SameWorld(s, t) && t.reqs.Keys == s.reqs.Keys
    requires forall k <- s.reqs | k != id :: SameFor(s, t, k)
    requires id in t.reqs ==> ReqOk(t, id)
    ensures ReqsOk(t)
  {
    forall k <- t.reqs ensures ReqOk(t, k) {
      if k != id {
        OtherReqOk(s, t, k);
      }
    }
  }

  // Step s -> t touched request `id` and its channel only, and left both in order.
  ghost predicate Touches(s: State, t: State, id: ReqId) {
    && SameWorld(s, t) && id in s.reqs && t.reqs.Keys == s.reqs.Keys
    && (forall k <- s.reqs | k != id :: SameFor(s, t, k))
    && t.reqs[id].kind == s.reqs[id].kind && (s.reqs[id].pc.Returned? ==> t.reqs[id].pc == s.reqs[id].pc)
    && (s.reqs[id].pc.Returned? && id in s.wrote ==> id in t.wrote && t.wrote[id] == s.wrote[id])
    && t.open == s.open && t.readers == s.readers
    && t.table.hands == s.table.hands && t.table.failing == s.table.failing
    && Known(t)
    && ReqOk(t, id)
  }

  lemma TouchWorld(s: State, t: State, id: ReqId)
    requires ConnInv(s) && LostInv(s) && AuthInv(s) && Known(s) && Touches(s, t, id)
    ensures ConnInv(t) && LostInv(t) && AuthInv(t)
  {
    hide ReqOk;
    AcceptedStay(s, t);
  }

  lemma TouchOthers(s: State, t: State, id: ReqId)
    requires ReqsOk(s) && Touches(s, t, id)
    ensures ReqsOk(t) && Known(t)
  {
    hide ReqOk;
    OthersOk(s, t, id);
  }

  lemma TouchKeeps(s: State, t: State, id: ReqId)
    requires Inv(s) && Touches(s, t, id) && TableInv(t.table)
    ensures Inv(t)
  {
    hide ConnInv, LostInv, AuthInv, TableInv, Known, ReqsOk, Touches;
    TouchWorld(s, t, id);
    TouchOthers(s, t, id);
  }

  lemma EnterTouches(s: State, id: ReqId)
    requires ReqOk(s, id) && ConnInv(s) && AuthInv(s) && Known(s) && DoEnter(s, id).Some?
    requires id !in s.table.slot ==> !InHand(s.table, id) && id !in s.table.pending + s.table.failing
    ensures Touches(s, DoEnter(s, id).value, id)
  {
    var r := s.reqs[id];
    if s.closed || (r.ctxDone && !(r.pc.Entering? && Usable(s, r.kind))) {
      GiveUpTouches(s, id);
    } else if Usable(s, r.kind) {
      GrabTouches(s, id);
    } else {
      assert DoEnter(s, id).value == SetReq(s, id, r.(pc := Asleep, watching := true));
    }
  }

  lemma GiveUpTouches(s: State, id: ReqId)
    requires ReqOk(s, id) && Known(s) && (s.reqs[id].pc.Entering? || s.reqs[id].pc.Woken?)
    requires id !in s.table.pending
    ensures Touches(s, GiveUp(s, id), id)
  {}

  lemma GrabTouches(s: State, id: ReqId)
    requires ReqOk(s, id) && ConnInv(s) && Known(s) && (s.reqs[id].pc.Entering? || s.reqs[id].pc.Woken?)
    requires Usable(s, s.reqs[id].kind) && (s.authenticated ==> s.conn.value in s.accepted)
    ensures Touches(s, Grab(s, id), id)
  {}

  lemma CtxDoneTouches(s: State, id: ReqId)
    requires ReqOk(s, id) && Known(s) && DoCtxDone(s, id).Some?
    ensures Touches(s, DoCtxDone(s, id).value, id)
  {}

  lemma WriteTouches(s: State, id: ReqId, ok: bool)
    requires ReqOk(s, id) && ConnInv(s) && LostInv(s) && Known(s) && DoWrite(s, id, ok).Some?
    ensures Touches(s, DoWrite(s, id, ok).value, id)
  {}

  lemma CtxSeenTouches(s: State, id: ReqId)
    requires ReqOk(s, id) && Known(s) && DoCtxSeen(s, id).Some?
    ensures Touches(s, DoCtxSeen(s, id).value, id)
  {}

  lemma RemoveTouches(s: State, id: ReqId)
    requires ReqOk(s, id) && Known(s) && DoRemove(s, id).Some?
    ensures Touches(s, DoRemove(s, id).value, id)
  {}

  lemma ReceiveTouches(s: State, id: ReqId)
    requires ReqOk(s, id) && Known(s) && DoReceive(s, id).Some?
    requires id !in s.table.pending && (s.table.slot[id].value.Got? ==> s.table.slot[id].value.msg.id == id)
    ensures Touches(s, DoReceive(s, id).value, id)
  {}

  // ---------------------------------------------------------------------
  // Steps that touch every request: a broadcast, or none: a change of the world.

  // A broadcast wakes the sleepers and changes nothing else about requests.
  lemma BroadcastReqOk(s: State, k: ReqId)
    requires ReqOk(s, k)
    ensures ReqOk(s.(reqs := Broadcast(s.reqs)), k)
  {}

  lemma BroadcastKeeps(s: State)
    requires Inv(s)
    ensures Inv(s.(reqs := Broadcast(s.reqs)))
  {
    var t := s.(reqs := Broadcast(s.reqs));
    AcceptedStay(s, t);
    forall k <- t.reqs ensures ReqOk(t, k) {
      BroadcastReqOk(s, k);
    }
  }

  lemma EnterKeeps(s: State, id: ReqId)
    requires Inv(s) && DoEnter(s, id).Some?
    ensures Inv(DoEnter(s, id).value)
  {
    assert ReqOk(s, id);
    EnterTouches(s, id);
    if id !in s.table.slot {
      RegisterKeeps(s.table, id);
    }
    TouchKeeps(s, DoEnter(s, id).value, id);
  }

  lemma WatcherKeeps(s: State, id: ReqId)
    requires Inv(s) && DoWatcher(s, id).Some?
    ensures Inv(DoWatcher(s, id).value)
  {
    var b := s.(reqs := Broadcast(s.reqs));
    BroadcastKeeps(s);
    assert ReqOk(b, id);
    UnwatchTouches(b, id);
    TouchKeeps(b, DoWatcher(s, id).value, id);
  }

  lemma UnwatchTouches(b: State, id: ReqId)
    requires ReqOk(b, id) && Known(b) && !b.reqs[id].pc.Asleep?
    ensures Touches(b, SetReq(b, id, b.reqs[id].(watching := false)), id)
  {}

  lemma RequestStepKeeps(s: State, id: ReqId, step: RequestStep)
    requires Inv(s) && ApplyRequest(s, id, step).Some?
    ensures Inv(ApplyRequest(s, id, step).value)
  {
    hide ConnInv, LostInv, AuthInv, Known, Touches;
    var t := ApplyRequest(s, id, step).value;
    match step {
      case Enter => EnterKeeps(s, id);
      case CtxDone => assert ReqOk(s, id); CtxDoneTouches(s, id); TouchKeeps(s, t, id);
      case WatcherFires => WatcherKeeps(s, id);
      case Write(ok) => assert ReqOk(s, id); WriteTouches(s, id, ok); TouchKeeps(s, t, id);
      case CtxSeen => assert ReqOk(s, id); CtxSeenTouches(s, id); TouchKeeps(s, t, id);
      case RemovePending =>
        assert ReqOk(s, id);
        RemoveTouches(s, id);
        RemoveKeeps(s.table, id);
        TouchKeeps(s, t, id);
      case ReceiveReply =>
        assert ReqOk(s, id);
        ReceiveKeeps(s.table, id);
        ReceiveTouches(s, id);
        TouchKeeps(s, t, id);
    }
  }

  // ---------------------------------------------------------------------
  // Read loop steps

  lemma ReadKeeps(s: State, g: nat, msg: Msg)
    requires Inv(s) && DoRead(s, g, msg).Some?
    ensures Inv(DoRead(s, g, msg).value)
  {
    var t := DoRead(s, g, msg).value;
    TakeKeeps(s.table, g, msg);
    AcceptedStay(s, t);
    if msg.id in s.table.pending {
      TakenReqOk(s, t, g, msg);
      OthersOk(s, t, msg.id);
    }
  }

  lemma TakenReqOk(s: State, t: State, g: nat, msg: Msg)
    requires ReqsOk(s) && Known(s) && msg.id in s.table.pending && s.table.pending <= s.table.slot.Keys
    requires g !in s.table.hands && t == s.(table := Take(s.table, g, msg))
    ensures ReqOk(t, msg.id)
    ensures forall k <- s.reqs | k != msg.id :: SameFor(s, t, k)
  {
    assert ReqOk(s, msg.id);
    assert t.table.hands[g].id == msg.id;
    forall k <- s.reqs | k != msg.id ensures SameFor(s, t, k) {
      if InHand(s.table, k) {
        var h :| h in s.table.hands && s.table.hands[h].id == k;
        assert t.table.hands[h].id == k;
      }
    }
  }

  lemma OfferKeeps(s: State, g: nat)
    requires Inv(s) && DoOffer(s, g).Some?
    ensures Inv(DoOffer(s, g).value)
  {
    var t := DoOffer(s, g).value;
    var id := s.table.hands[g].id;
    OfferHandKeeps(s.table, g);
    AcceptedStay(s, t);
    OfferedReqOk(s, t, g);
    OthersOk(s, t, id);
  }

  lemma OfferedReqOk(s: State, t: State, g: nat)
    requires ReqsOk(s) && Known(s) && g in s.table.hands && s.conn == Some(g) && s.conn == RunConn(s.run)
    requires s.table.hands[g].id in s.table.slot && s.table.hands[g].id in s.table.offers
    requires t == s.(table := OfferHand(s.table, g)) && s.table.slot[s.table.hands[g].id].None?
    ensures ReqOk(t, s.table.hands[g].id)
    ensures forall k <- s.reqs | k != s.table.hands[g].id :: SameFor(s, t, k)
  {
    assert ReqOk(s, s.table.hands[g].id);
    forall k <- s.reqs | k != s.table.hands[g].id ensures SameFor(s, t, k) {
      if InHand(s.table, k) {
        var h :| h in s.table.hands && s.table.hands[h].id == k;
        assert t.table.hands[h].id == k;
      }
    }
  }

  lemma ReaderStepKeeps(s: State, g: nat, step: ReaderStep)
    requires Inv(s) && ApplyReader(s, g, step).Some?
    ensures Inv(ApplyReader(s, g, step).value)
  {
    match step {
      case ReadFrame(msg) => ReadKeeps(s, g, msg);
      case OfferReply => OfferKeeps(s, g);
      case ReadLoopEnds => WorldKeeps(s, DoReadEnds(s, g).value);
    }
  }

  // ---------------------------------------------------------------------
  // Run loop steps and Close

  // A step that leaves requests and channels alone and wakes nobody's condition.
  ghost predicate CalmWorld(s: State, t: State) {
    && t.reqs == s.reqs && t.table == s.table && t.wrote == s.wrote && t.lost == s.lost
    && t.nextConn >= s.nextConn && t.nextId >= s.nextId
    && (forall g <- s.accepted :: g in t.accepted)
    && (t.run.Authing? || t.run.Failing? ==> t.run == s.run)
    && (s.run.Authing? && s.run.id in s.reqs ==> t.run == s.run || s.reqs[s.run.id].pc.Returned?)
    && (|| (t.closed == s.closed && (t.conn.Some? && t.authenticated ==> s.conn.Some? && s.authenticated))
        || NoneAsleep(s))
  }

  ghost predicate NoneAsleep(s: State) {
    forall id <- s.reqs :: !s.reqs[id].pc.Asleep?
  }

  lemma CalmReqOk(s: State, t: State, k: ReqId)
    requires ReqOk(s, k) && CalmWorld(s, t)
    ensures ReqOk(t, k)
  {}

  lemma WorldKeeps(s: State, t: State)
    requires Inv(s) && CalmWorld(s, t)
    requires ConnInv(t) && LostInv(t) && AuthInv(t)
    ensures Inv(t)
  {
    forall k <- t.reqs ensures ReqOk(t, k) {
      CalmReqOk(s, t, k);
    }
  }

  lemma NewIdIsFresh(s: State)
    requires Known(s) && ReqsOk(s)
    ensures s.nextId !in s.reqs && s.nextId !in s.table.slot && s.nextId !in s.wrote
  {
    assert !ReqOk(s, s.nextId);
  }

  lemma NewRequestWorld(s: State, m: Method)
    requires ConnInv(s) && LostInv(s) && AuthInv(s) && Known(s) && s.nextId !in s.reqs && DoNewRequest(s, m).Some?
    ensures var t := DoNewRequest(s, m).value; ConnInv(t) && LostInv(t) && AuthInv(t) && Known(t)
  {
    AcceptedStay(s, DoNewRequest(s, m).value);
  }

  lemma NewRequestKeeps(s: State, m: Method)
    requires Inv(s) && DoNewRequest(s, m).Some?
    ensures Inv(DoNewRequest(s, m).value)
  {
    var t := DoNewRequest(s, m).value;
    NewIdIsFresh(s);
    hide ConnInv, LostInv, AuthInv, TableInv, Known;
    NewRequestWorld(s, m);
    forall k <- t.reqs ensures ReqOk(t, k) {
      if k != s.nextId {
        OtherReqOk(s, t, k);
      }
    }
  }

  lemma StartAuthReqOk(s: State, k: ReqId)
    requires DoStartAuth(s, true).Some? && k != s.nextId && ReqOk(s, k)
    ensures ReqOk(DoStartAuth(s, true).value, k)
  {}

  lemma StartAuthKeeps(s: State)
    requires Inv(s) && DoStartAuth(s, true).Some?
    ensures Inv(DoStartAuth(s, true).value)
  {
    var t := DoStartAuth(s, true).value;
    NewIdIsFresh(s);
    AcceptedStay(s, t);
    forall k <- t.reqs ensures ReqOk(t, k) {
      if k != s.nextId {
        StartAuthReqOk(s, k);
      }
    }
  }

  lemma AuthReturnsAuthInv(s: State)
    requires AuthInv(s) && s.conn == RunConn(s.run) && (s.conn.Some? ==> s.conn.value < s.nextConn)
    requires DoAuthReturns(s).Some? && AuthReqOk(s, s.run.id)
    ensures AuthInv(DoAuthReturns(s).value)
  {}

  lemma AuthReturnsKeeps(s: State)
    requires Inv(s) && DoAuthReturns(s).Some?
    ensures Inv(DoAuthReturns(s).value)
  {
    assert ReqOk(s, s.run.id);
    AuthReturnsAuthInv(s);
    WorldKeeps(s, DoAuthReturns(s).value);
  }

  lemma BroadcastLeavesNoSleeper(s: State)
    ensures NoneAsleep(s.(reqs := Broadcast(s.reqs)))
  {}

  lemma SetAuthenticatedKeeps(s: State)
    requires Inv(s) && DoSetAuthenticated(s).Some?
    ensures Inv(DoSetAuthenticated(s).value)
  {
    BroadcastKeeps(s);
    BroadcastLeavesNoSleeper(s);
    WorldKeeps(s.(reqs := Broadcast(s.reqs)), DoSetAuthenticated(s).value);
  }

  lemma ClearKeeps(s: State)
    requires Inv(s) && DoClear(s).Some?
    ensures Inv(DoClear(s).value)
  {
    BroadcastKeeps(s);
    BroadcastLeavesNoSleeper(s);
    WorldKeeps(s.(reqs := Broadcast(s.reqs)), DoClear(s).value);
  }

  lemma CloseKeeps(s: State)
    requires Inv(s)
    ensures Inv(DoClose(s).value)
  {
    BroadcastKeeps(s);
    BroadcastLeavesNoSleeper(s);
    if !s.closed {
      WorldKeeps(s.(reqs := Broadcast(s.reqs)), DoClose(s).value);
    }
  }

  lemma SwapReqOk(s: State, k: ReqId)
    requires ReqOk(s, k) && DoSwap(s).Some? && s.table.hands == map[]
    ensures ReqOk(DoSwap(s).value, k)
  {}

  lemma DoSwapKeeps(s: State)
    requires Inv(s) && DoSwap(s).Some?
    ensures Inv(DoSwap(s).value)
  {
    var t := DoSwap(s).value;
    SwapKeeps(s.table);
    AcceptedStay(s, t);
    assert s.table.hands == map[];
    forall k <- t.reqs ensures ReqOk(t, k) {
      SwapReqOk(s, k);
    }
  }

  lemma FailedReqOk(s: State, t: State, id: ReqId)
    requires ReqsOk(s) && Known(s) && s.run.Failing? && id in s.table.failing
    requires id in s.table.slot && id in s.table.offers && s.table.slot[id].None?
    requires t == s.(table := FailOne(s.table, id))
    ensures ReqOk(t, id)
    ensures forall k <- s.reqs | k != id :: SameFor(s, t, k)
  {
    assert ReqOk(s, id);
  }

  lemma FailNextKeeps(s: State, id: ReqId)
    requires Inv(s) && DoFailNext(s, id).Some?
    ensures Inv(DoFailNext(s, id).value)
  {
    var t := DoFailNext(s, id).value;
    FailOneKeeps(s.table, id);
    AcceptedStay(s, t);
    FailedReqOk(s, t, id);
    OthersOk(s, t, id);
  }

  lemma FailEndsReqOk(s: State, k: ReqId)
    requires ReqOk(s, k) && DoFailEnds(s).Some?
    ensures ReqOk(DoFailEnds(s).value, k)
  {}

  lemma FailEndsKeeps(s: State)
    requires Inv(s) && DoFailEnds(s).Some?
    ensures Inv(DoFailEnds(s).value)
  {
    var t := DoFailEnds(s).value;
    AcceptedStay(s, t);
    forall k <- t.reqs ensures ReqOk(t, k) {
      FailEndsReqOk(s, k);
    }
  }

  lemma DialKeeps(s: State)
    requires Inv(s) && DoDial(s).Some?
    ensures Inv(DoDial(s).value)
  {
    WorldKeeps(s, DoDial(s).value);
  }

  lemma CalmStepKeeps(s: State, t: State)
    requires Inv(s) && t == s.(run := t.run, open := t.open) && t.open <= s.open
    requires
      || (s.run.Connected? && t.run == AuthBad(s.run.g))
      || (s.run.AuthBad? && t.run == AuthDrain(s.run.g) && s.run.g !in t.open)
      || (s.run.AuthDrain? && t.run == Down(s.run.g) && s.run.g !in s.readers)
      || (s.run.Serving? && t.run == Down(s.run.g) && s.run.g !in s.readers + t.open)
      || t.run == s.run
    ensures Inv(t)
  {
    WorldKeeps(s, t);
  }

  lemma RunStepKeeps(s: State, step: RunStep)
    requires Inv(s) && ApplyRun(s, step).Some?
    ensures Inv(ApplyRun(s, step).value)
  {
    var t := ApplyRun(s, step).value;
    match step {
      case Dial => DialKeeps(s);
      case StartAuth(signed) => if signed { StartAuthKeeps(s); } else { CalmStepKeeps(s, t); }
      case AuthReturns => AuthReturnsKeeps(s);
      case SetAuthenticated => SetAuthenticatedKeeps(s);
      case CloseBadConn => CalmStepKeeps(s, t);
      case BadConnDrained => CalmStepKeeps(s, t);
      case ServingEnds => CalmStepKeeps(s, t);
      case SwapPending => DoSwapKeeps(s);
      case FailNext(id) => FailNextKeeps(s, id);
      case FailEnds => FailEndsKeeps(s);
      case ClearConn => ClearKeeps(s);
    }
  }

  lemma CloseCapturedKeeps(s: State)
    requires Inv(s) && DoCloseCaptured(s).Some?
    ensures Inv(DoCloseCaptured(s).value)
  {
    WorldKeeps(s, DoCloseCaptured(s).value);
  }

  lemma StepKeepsInv(s: State, step: Step)
    requires Inv(s) && Apply(s, step).Some?
    ensures Inv(Apply(s, step).value)
  {
    match step {
      case NewRequest(m) => NewRequestKeeps(s, m);
      case OfRequest(id, r) => RequestStepKeeps(s, id, r);
      case OfReader(g, r) => ReaderStepKeeps(s, g, r);
      case OfRun(r) => RunStepKeeps(s, r);
      case CloseClient => CloseKeeps(s);
      case CloseCapturedConn => CloseCapturedKeeps(s);
    }
  }

  lemma {:induction false} RunKeepsInv(steps: seq<Step>)
    requires Exec(steps).Some?
    ensures Inv(Exec(steps).value)
  {
    if steps != [] {
      RunKeepsInv(steps[..|steps| - 1]);
      StepKeepsInv(Exec(steps[..|steps| - 1]).value, steps[|steps| - 1]);
    }
  }

  // ---------------------------------------------------------------------
  // Main results: every state that any schedule of steps can reach

  // Connection g completed authentication: some auth request was written to g,
  // and its reply, read from g itself, carried no error object.
  ghost predicate Authenticated(s: State, g: nat) {
    exists id :: AnsweredBy(s, id, g)
  }

  lemma AcceptedMeansAuthenticated(s: State, g: nat)
    requires AuthInv(s) && g in s.accepted
    ensures Authenticated(s, g)
  {
    assert AnsweredBy(s, s.accepted[g], g);
  }

  /** Authentication safety over reconnects: the flag is set only while c.conn is a
      connection that completed authentication, and a post, subscribe or
      unsubscribe holds, and is written to, such a connection only. */
  lemma AuthSafety(steps: seq<Step>, id: ReqId)
    requires Exec(steps).Some?
    ensures
      var s := Exec(steps).value;
      && (s.authenticated ==> s.conn.Some? && Authenticated(s, s.conn.value))
      && (id in s.wrote ==> id in s.reqs && (s.reqs[id].kind.Auth? || Authenticated(s, s.wrote[id])))
      && (id in s.reqs && !s.reqs[id].kind.Auth? && s.reqs[id].pc.Registered? ==>
            Authenticated(s, s.reqs[id].pc.c))
  {
    RunKeepsInv(steps);
    var s := Exec(steps).value;
    if s.authenticated {
      AcceptedMeansAuthenticated(s, s.conn.value);
    }
    if id in s.reqs && !s.reqs[id].kind.Auth? {
      assert ReqOk(s, id);
      if id in s.wrote {
        AcceptedMeansAuthenticated(s, s.wrote[id]);
      }
      if s.reqs[id].pc.Registered? {
        AcceptedMeansAuthenticated(s, s.reqs[id].pc.c);
      }
    }
  }

  /** At most one connection is open and one read loop alive, through every reconnect. */
  lemma OneConnection(steps: seq<Step>, g: nat, h: nat)
    requires Exec(steps).Some?
    ensures
      var s := Exec(steps).value;
      && (g in s.open && h in s.open ==> g == h)
      && (g in s.readers && h in s.readers ==> g == h)
      && (g in s.open + s.readers ==> s.conn == Some(g))
  {
    RunKeepsInv(steps);
  }

  /** No missed wake-up: a sleeping request has nothing to wake for, and if its
      context is done the watcher's broadcast is still to come and will wake it. */
  lemma NoMissedWakeup(steps: seq<Step>, id: ReqId)
    requires Exec(steps).Some? && id in Exec(steps).value.reqs && Exec(steps).value.reqs[id].pc.Asleep?
    ensures
      var s := Exec(steps).value;
      && !s.closed && !Usable(s, s.reqs[id].kind)
      && (s.reqs[id].ctxDone ==>
            && Apply(s, OfRequest(id, WatcherFires)).Some?
            && Apply(s, OfRequest(id, WatcherFires)).value.reqs[id].pc == Woken)
  {
    RunKeepsInv(steps);
    assert ReqOk(Exec(steps).value, id);
  }

  /** Reply correlation: a channel is offered at most one message, so no offer is
      ever dropped; what it holds, and what sendRequest returns, answers its own
      request; and sendRequest leaves no pending entry behind. */
  lemma ReplyCorrelation(steps: seq<Step>, id: ReqId)
    requires Exec(steps).Some? && id in Exec(steps).value.reqs
    ensures
      var s := Exec(steps).value;
      var pc := s.reqs[id].pc;
      && s.table.dropped == 0
      && (id in s.table.offers ==> s.table.offers[id] <= 1)
      && (id in s.table.slot && s.table.slot[id].Some? && s.table.slot[id].value.Got? ==>
            s.table.slot[id].value.msg.id == id)
      && (pc.Returned? && pc.outcome.Replied? ==> pc.outcome.msg.id == id)
      && (pc.Returned? ==> id !in s.table.pending)
  {
    RunKeepsInv(steps);
    assert ReqOk(Exec(steps).value, id);
    var t := Exec(steps).value.table;
    assert TableInv(t);
    assert id in t.offers ==> id in t.slot;
  }

  /** Release after connection loss: once a connection's pending replies have been
      failed, a request that was written to it has a message waiting, and one that
      holds it unwritten can only get a write error. No request is left hanging:
      every connection a request can still wait on is the current one. */
  lemma ReleasedAfterLoss(steps: seq<Step>, id: ReqId)
    requires Exec(steps).Some? && id in Exec(steps).value.reqs
    requires Exec(steps).value.reqs[id].pc.Registered? || Exec(steps).value.reqs[id].pc.Written?
    ensures
      var s := Exec(steps).value;
      var pc := s.reqs[id].pc;
      && (pc.c in s.lost || s.conn == Some(pc.c))
      && (pc.c in s.lost && pc.Written? ==> Apply(s, OfRequest(id, ReceiveReply)).Some?)
      && (pc.c in s.lost && pc.Registered? ==>
            Apply(s, OfRequest(id, Write(true))).None? && Apply(s, OfRequest(id, Write(false))).Some?)
  {
    RunKeepsInv(steps);
    assert ReqOk(Exec(steps).value, id);
  }
}
