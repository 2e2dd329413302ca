/** The authenticated websocket client (`wstrade`) as a transition system: one
    step per critical section, channel action or environment event. Any number of
    requests, their context watchers, one run loop, its read loops and a caller of
    Close interleave freely.

    A connection is named by its dial number. Timeouts, cancelled contexts, lost
    sockets and server replies are environment choices, carried by the step. */
module TradeProtocol {
  import opened Wrappers
  import opened ReplyTable

  datatype Method = Auth | Post | Subscribe | Unsubscribe

  // How sendRequest ended: a reply, the nil message, or a local error.
  datatype Outcome = Replied(msg: Msg, origin: nat) | ConnectionLost | Failed

  datatype ReqPc =
    | Entering            // about to take the lock and enter waitForConnLocked
    | Asleep              // inside connReady.Wait
    | Woken               // notified, not yet back under the lock
    | Registered(c: nat)  // holds connection c and a pending entry, not yet written
    | Written(c: nat)     // written to c, selecting on the context and its channel
    | Removing            // write error or context end seen, removePending is next
    | Returned(outcome: Outcome)

  // `watching`: the goroutine started by waitForConnLocked has not fired or stopped.
  datatype Req = Req(kind: Method, pc: ReqPc, ctxDone: bool, watching: bool)

  datatype RunPc =
    | Dialing
    | Connected(g: nat)               // c.conn stored, read loop started
    | Authing(g: nat, id: ReqId)      // inside authenticate
    | AuthOk(g: nat)                  // authenticate returned nil, flag not yet set
    | AuthBad(g: nat)                 // authenticate failed, conn.Close is next
    | AuthDrain(g: nat)               // waiting for the read loop to end
    | Serving(g: nat)                 // flag set, waiting for the read loop to end
    | Down(g: nat)                    // closed and drained, failPendingReplies is next
    | Failing(g: nat)                 // offering nil to the swapped-out channels
    | Cleared(g: nat)                 // replies failed, c.conn = nil is next

  datatype State = State(
    run: RunPc,
    conn: Option<nat>,            // c.conn
    authenticated: bool,
    closed: bool,
    closing: Option<nat>,         // connection captured by Close, not yet closed by it
    nextConn: nat,
    open: set<nat>,               // sockets not closed on this side
    readers: set<nat>,            // connections with a live read loop
    nextId: nat,
    reqs: map<ReqId, Req>,
    table: Table,
    wrote: map<ReqId, nat>,       // history: connection each request was written to
    accepted: map<nat, ReqId>,    // history: the request that made authenticate return nil
    lost: set<nat>                // history: connections whose failPendingReplies finished
  )

  const INIT := State(Dialing, None, false, false, None, 0, {}, {}, 0, map[], EMPTY, map[], map[], {})

  // Steps of one request, its context and its watcher.
  datatype RequestStep =
    | Enter
    | CtxDone
    | WatcherFires
    | Write(ok: bool)
    | CtxSeen
    | RemovePending
    | ReceiveReply

  // Steps of the read loop of one connection.
  datatype ReaderStep = ReadFrame(msg: Msg) | OfferReply | ReadLoopEnds

  // Steps of the run loop.
  datatype RunStep =
    | Dial
    | StartAuth(signed: bool)
    | AuthReturns
    | SetAuthenticated
    | CloseBadConn
    | BadConnDrained
    | ServingEnds
    | SwapPending
    | FailNext(id: ReqId)
    | FailEnds
    | ClearConn

  datatype Step =
    | NewRequest(m: Method)
    | OfRequest(id: ReqId, request: RequestStep)
    | OfReader(g: nat, reader: ReaderStep)
    | OfRun(run: RunStep)
    | CloseClient
    | CloseCapturedConn

  // c.connReady.Broadcast()
  function Broadcast(reqs: map<ReqId, Req>): map<ReqId, Req> {
    map id | id in reqs :: if reqs[id].pc.Asleep? then reqs[id].(pc := Woken) else reqs[id]
  }

  predicate Usable(s: State, m: Method) {
    s.conn.Some? && (m.Auth? || s.authenticated)
  }

  function SetReq(s: State, id: ReqId, r: Req): State {
    s.(reqs := s.reqs[id := r])
  }

  // The tail of waitForConnLocked's caller: take the connection and register.
  function Grab(s: State, id: ReqId): State
    requires id in s.reqs && s.conn.Some?
  {
    SetReq(s, id, s.reqs[id].(pc := Registered(s.conn.value), watching := false)).(table := Register(s.table, id))
  }

  function GiveUp(s: State, id: ReqId): State
    requires id in s.reqs
  {
    SetReq(s, id, s.reqs[id].(pc := Returned(Failed), watching := false))
  }

  // waitForConnLocked up to its next release of the lock, from the top or from a
  // wake-up. From the top the context is only looked at once the wait is needed.
  function DoEnter(s: State, id: ReqId): Option<State> {
    if id !in s.reqs || !(s.reqs[id].pc.Entering? || s.reqs[id].pc.Woken?) then None
    else
      var r := s.reqs[id];
      if s.closed then Some(GiveUp(s, id))
      else if r.pc.Entering? && Usable(s, r.kind) then Some(Grab(s, id))
      else if r.ctxDone then Some(GiveUp(s, id))
      else if Usable(s, r.kind) then Some(Grab(s, id))
      else Some(SetReq(s, id, r.(pc := Asleep, watching := true)))
  }

  function DoCtxDone(s: State, id: ReqId): Option<State> {
    if id !in s.reqs then None else Some(SetReq(s, id, s.reqs[id].(ctxDone := true)))
  }

  function DoWatcher(s: State, id: ReqId): Option<State> {
    if id !in s.reqs || !s.reqs[id].ctxDone || !s.reqs[id].watching then None
    else
      var woken := Broadcast(s.reqs);
      Some(s.(reqs := woken[id := woken[id].(watching := false)]))
  }

  function DoWrite(s: State, id: ReqId, ok: bool): Option<State> {
    if id !in s.reqs || !s.reqs[id].pc.Registered? then None
    else
      var c := s.reqs[id].pc.c;
      if !ok then Some(SetReq(s, id, s.reqs[id].(pc := Removing)))
      else if c in s.open then Some(SetReq(s, id, s.reqs[id].(pc := Written(c))).(wrote := s.wrote[id := c]))
      else None  // writing to a closed socket fails
  }

  function DoCtxSeen(s: State, id: ReqId): Option<State> {
    if id !in s.reqs || !s.reqs[id].pc.Written? || !s.reqs[id].ctxDone then None
    else Some(SetReq(s, id, s.reqs[id].(pc := Removing)))
  }

  function DoRemove(s: State, id: ReqId): Option<State> {
    if id !in s.reqs || !s.reqs[id].pc.Removing? then None
    else Some(SetReq(s, id, s.reqs[id].(pc := Returned(Failed))).(table := Remove(s.table, id)))
  }

  function DoReceive(s: State, id: ReqId): Option<State> {
    if id !in s.reqs || !s.reqs[id].pc.Written? || id !in s.table.slot || s.table.slot[id].None? then None
    else
      var o := match s.table.slot[id].value
               case Lost => ConnectionLost
               case Got(msg, origin) => Replied(msg, origin);
      Some(SetReq(s, id, s.reqs[id].(pc := Returned(o))).(table := Receive(s.table, id)))
  }

  function DoRead(s: State, g: nat, msg: Msg): Option<State> {
    if g !in s.readers || g in s.table.hands then None
    else Some(s.(table := Take(s.table, g, msg)))
  }

  function DoOffer(s: State, g: nat): Option<State> {
    if g !in s.table.hands || s.table.hands[g].id !in s.table.slot || s.table.hands[g].id !in s.table.offers then None
    else Some(s.(table := OfferHand(s.table, g)))
  }

  function DoReadEnds(s: State, g: nat): Option<State> {
    if g !in s.readers || g in s.table.hands then None else Some(s.(readers := s.readers - {g}))
  }

  function DoDial(s: State): Option<State> {
    if !s.run.Dialing? then None
    else
      var g := s.nextConn;
      Some(s.(run := Connected(g), conn := Some(g), authenticated := false, nextConn := g + 1,
              open := s.open + {g}, readers := s.readers + {g}))
  }

  // Signing the auth message may fail before any request is made.
  function DoStartAuth(s: State, signed: bool): Option<State> {
    if !s.run.Connected? then None
    else if !signed then Some(s.(run := AuthBad(s.run.g)))
    else Some(s.(run := Authing(s.run.g, s.nextId), nextId := s.nextId + 1,
                 reqs := s.reqs[s.nextId := Req(Auth, Entering, false, false)]))
  }

  function DoAuthReturns(s: State): Option<State> {
    if !s.run.Authing? || s.run.id !in s.reqs || !s.reqs[s.run.id].pc.Returned? then None
    else
      var o := s.reqs[s.run.id].pc.outcome;
      if o.Replied? && !o.msg.isError
      then Some(s.(run := AuthOk(s.run.g), accepted := s.accepted[s.run.g := s.run.id]))
      else Some(s.(run := AuthBad(s.run.g)))
  }

  function DoSetAuthenticated(s: State): Option<State> {
    if !s.run.AuthOk? then None
    else Some(s.(run := Serving(s.run.g), authenticated := true, reqs := Broadcast(s.reqs)))
  }

  function DoCloseBad(s: State): Option<State> {
    if !s.run.AuthBad? then None else Some(s.(run := AuthDrain(s.run.g), open := s.open - {s.run.g}))
  }

  function DoBadDrained(s: State): Option<State> {
    if !s.run.AuthDrain? || s.run.g in s.readers then None else Some(s.(run := Down(s.run.g)))
  }

  // <-readDone, then conn.Close()
  function DoServingEnds(s: State): Option<State> {
    if !s.run.Serving? || s.run.g in s.readers then None
    else Some(s.(run := Down(s.run.g), open := s.open - {s.run.g}))
  }

  function DoSwap(s: State): Option<State> {
    if !s.run.Down? then None else Some(s.(run := Failing(s.run.g), table := Swap(s.table)))
  }

  function DoFailNext(s: State, id: ReqId): Option<State> {
    if !s.run.Failing? || id !in s.table.failing || id !in s.table.slot || id !in s.table.offers then None
    else Some(s.(table := FailOne(s.table, id)))
  }

  function DoFailEnds(s: State): Option<State> {
    if !s.run.Failing? || s.table.failing != {} then None
    else Some(s.(run := Cleared(s.run.g), lost := s.lost + {s.run.g}))
  }

  function DoClear(s: State): Option<State> {
    if !s.run.Cleared? then None
    else Some(s.(run := Dialing, conn := None, authenticated := false, reqs := Broadcast(s.reqs)))
  }

  function DoClose(s: State): Option<State> {
    if s.closed then Some(s)
    else Some(s.(closed := true, authenticated := false, closing := s.conn, reqs := Broadcast(s.reqs)))
  }

  function DoCloseCaptured(s: State): Option<State> {
    if s.closing.None? then None else Some(s.(open := s.open - {s.closing.value}, closing := None))
  }

  // Only authenticate sends an auth request; everyone else's starts here.
  function DoNewRequest(s: State, m: Method): Option<State> {
    if m.Auth? then None
    else Some(s.(nextId := s.nextId + 1, reqs := s.reqs[s.nextId := Req(m, Entering, false, false)]))
  }

  function ApplyRequest(s: State, id: ReqId, step: RequestStep): Option<State> {
    match step
    case Enter => DoEnter(s, id)
    case CtxDone => DoCtxDone(s, id)
    case WatcherFires => DoWatcher(s, id)
    case Write(ok) => DoWrite(s, id, ok)
    case CtxSeen => DoCtxSeen(s, id)
    case RemovePending => DoRemove(s, id)
    case ReceiveReply => DoReceive(s, id)
  }

  function ApplyReader(s: State, g: nat, step: ReaderStep): Option<State> {
    match step
    case ReadFrame(msg) => DoRead(s, g, msg)
    case OfferReply => DoOffer(s, g)
    case ReadLoopEnds => DoReadEnds(s, g)
  }

  function ApplyRun(s: State, step: RunStep): Option<State> {
    match step
    case Dial => DoDial(s)
    case StartAuth(signed) => DoStartAuth(s, signed)
    case AuthReturns => DoAuthReturns(s)
    case SetAuthenticated => DoSetAuthenticated(s)
    case CloseBadConn => DoCloseBad(s)
    case BadConnDrained => DoBadDrained(s)
    case ServingEnds => DoServingEnds(s)
    case SwapPending => DoSwap(s)
    case FailNext(id) => DoFailNext(s, id)
    case FailEnds => DoFailEnds(s)
    case ClearConn => DoClear(s)
  }

  function Apply(s: State, step: Step): Option<State> {
    match step
    case NewRequest(m) => DoNewRequest(s, m)
    case OfRequest(id, r) => ApplyRequest(s, id, r)
    case OfReader(g, r) => ApplyReader(s, g, r)
    case OfRun(r) => ApplyRun(s, r)
    case CloseClient => DoClose(s)
    case CloseCapturedConn => DoCloseCaptured(s)
  }

  // The state after a schedule, or None when some step of it was not enabled.
  function Exec(steps: seq<Step>): Option<State> {
    if steps == [] then Some(INIT)
    else
      match Exec(steps[..|steps| - 1])
      case None => None
      case Some(s) => Apply(s, steps[|steps| - 1])
  }
}
