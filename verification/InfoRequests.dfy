/** Request and reply correlation of the public stream client (`wsinfo`). Unlike
    `wstrade`, a request registers its channel before it has a connection, polls
    for one, and deletes its entry on the way out whatever happened. */
module InfoRequests {
  import opened Wrappers
  import opened ReplyTable

  datatype Outcome = Replied(msg: Msg) | ConnectionLost | WriteFailed | TimedOut | NeverConnected

  datatype ReqPc =
    | Polling                     // registered; c.conn was nil
    | Holding(c: nat)             // registered, holds connection c, not yet written
    | Written(c: nat)             // selecting on the context and its channel
    | Leaving(outcome: Outcome)   // the deferred delete is next
    | Returned(outcome: Outcome)

  datatype RunPc =
    | Dialing
    | Live(g: nat)      // c.conn stored, read loop running
    | Down(g: nat)      // read loop gone, conn closed, failPendingReplies is next
    | Failing(g: nat)
    | Failed(g: nat)    // replies failed, c.conn = nil is next

  // How a request began: `swaps` connections had had their pending replies swapped
  // out by then, and `polled` says that it found no connection and had to poll.
  datatype Birth = Birth(swaps: nat, polled: bool)

  // History no step looks at.
  datatype Past = Past(
    born: map<ReqId, Birth>,
    wrote: map<ReqId, nat>,  // the connection each request was written to
    lost: set<nat>           // connections whose failPendingReplies finished
  )

  datatype State = State(
    run: RunPc,
    conn: Option<nat>,
    nextConn: nat,
    open: set<nat>,
    readers: set<nat>,
    reqs: map<ReqId, ReqPc>,
    table: Table,
    past: Past
  )

  const INIT := State(Dialing, None, 0, {}, {}, map[], EMPTY, Past(map[], map[], {}))

  datatype Step =
    | Begin(id: ReqId)
    | Poll(id: ReqId)
    | PollTimeout(id: ReqId)
    | Write(id: ReqId, ok: bool)
    | ReceiveReply(id: ReqId)
    | Timeout(id: ReqId)
    | DeferredDelete(id: ReqId)
    | ReadFrame(g: nat, msg: Msg)
    | OfferReply(g: nat)
    | ReadLoopEnds(g: nat)
    | Dial
    | ConnectionEnds
    | SwapPending
    | FailNext(id: ReqId)
    | FailEnds
    | ClearConn

  function HoldOrPoll(s: State): ReqPc {
    if s.conn.Some? then Holding(s.conn.value) else Polling
  }

  // How many connections have had their pending replies swapped out, and how many
  // have been failed to the end.
  function Swapped(s: State): nat {
    match s.run
    case Live(g) => g
    case Down(g) => g
    case Failing(g) => g + 1
    case Failed(g) => g + 1
    case Dialing => s.nextConn
  }

  function Finished(s: State): nat {
    if s.run.Failing? then s.run.g else Swapped(s)
  }

  // allocRequestID never repeats, so the id is new.
  function DoBegin(s: State, id: ReqId): Option<State> {
    if id in s.reqs then None
    else
      Some(s.(reqs := s.reqs[id := HoldOrPoll(s)], table := Register(s.table, id),
              past := s.past.(born := s.past.born[id := Birth(Swapped(s), s.conn.None?)])))
  }

  // A step of request id alone: its next program counter, if the step is enabled.
  function NextPc(s: State, id: ReqId, step: Step): Option<ReqPc>
    requires id in s.reqs
  {
    match (step, s.reqs[id])
    case (Poll(_), Polling) => Some(HoldOrPoll(s))
    case (PollTimeout(_), Polling) => Some(Leaving(NeverConnected))
    case (Write(_, ok), Holding(c)) =>
      if !ok then Some(Leaving(WriteFailed)) else if c in s.open then Some(Written(c)) else None
    case (Timeout(_), Written(_)) => Some(Leaving(TimedOut))
    case _ => None
  }

  function DoOwn(s: State, id: ReqId, step: Step): Option<State> {
    if id !in s.reqs then None
    else
      match NextPc(s, id, step)
      case None => None
      case Some(pc) =>
        var t := s.(reqs := s.reqs[id := pc]);
        Some(if pc.Written? then t.(past := s.past.(wrote := s.past.wrote[id := pc.c])) else t)
  }

  function DoReceive(s: State, id: ReqId): Option<State> {
    if id !in s.reqs || !s.reqs[id].Written? || id !in s.table.slot || s.table.slot[id].None? then None
    else
      var o := match s.table.slot[id].value case Lost => ConnectionLost case Got(msg, _) => Replied(msg);
      Some(s.(reqs := s.reqs[id := Leaving(o)], table := Receive(s.table, id)))
  }

  function DoDelete(s: State, id: ReqId): Option<State> {
    if id !in s.reqs || !s.reqs[id].Leaving? then None
    else Some(s.(reqs := s.reqs[id := Returned(s.reqs[id].outcome)], table := Remove(s.table, id)))
  }

  function DoRead(s: State, g: nat, msg: Msg): Option<State> {
    if g !in s.readers || g in s.table.hands then None else Some(s.(table := Take(s.table, g, msg)))
  }

  function DoOffer(s: State, g: nat): Option<State> {
    if g !in s.table.hands || s.table.hands[g].id !in s.table.slot || s.table.hands[g].id !in s.table.offers then None
    else Some(s.(table := OfferHand(s.table, g)))
  }

  function DoFailNext(s: State, id: ReqId): Option<State> {
    if !s.run.Failing? || id !in s.table.failing || id !in s.table.slot || id !in s.table.offers then None
    else Some(s.(table := FailOne(s.table, id)))
  }

  function DoRun(s: State, step: Step): Option<State> {
    match (step, s.run)
    case (Dial, Dialing) =>
      var g := s.nextConn;
      Some(s.(run := Live(g), conn := Some(g), nextConn := g + 1, open := s.open + {g}, readers := s.readers + {g}))
    case (ConnectionEnds, Live(g)) =>
      if g in s.readers then None else Some(s.(run := Down(g), open := s.open - {g}))
    case (SwapPending, Down(g)) => Some(s.(run := Failing(g), table := Swap(s.table)))
    case (FailEnds, Failing(g)) =>
      if s.table.failing != {} then None else Some(s.(run := Failed(g), past := s.past.(lost := s.past.lost + {g})))
    case (ClearConn, Failed(_)) => Some(s.(run := Dialing, conn := None))
    case _ => None
  }

  function Apply(s: State, step: Step): Option<State> {
    match step
    case Begin(id) => DoBegin(s, id)
    case Poll(id) => DoOwn(s, id, step)
    case PollTimeout(id) => DoOwn(s, id, step)
    case Write(id, _) => DoOwn(s, id, step)
    case Timeout(id) => DoOwn(s, id, step)
    case ReceiveReply(id) => DoReceive(s, id)
    case DeferredDelete(id) => DoDelete(s, id)
    case ReadFrame(g, msg) => DoRead(s, g, msg)
    case OfferReply(g) => DoOffer(s, g)
    case ReadLoopEnds(g) =>
      if g !in s.readers || g in s.table.hands then None else Some(s.(readers := s.readers - {g}))
    case FailNext(id) => DoFailNext(s, id)
    case _ => DoRun(s, step)
  }

  function Exec(steps: seq<Step>): Option<State> {
    if steps == [] then Some(INIT)
    else
      match Exec(steps[..|steps| - 1])
      case None => None
      case Some(s) => Apply(s, steps[|steps| - 1])
  }

  // ---------------------------------------------------------------------

  function RunConn(run: RunPc): Option<nat> {
    if run.Dialing? then None else Some(run.g)
  }

  ghost predicate ConnInv(s: State) {
    && s.conn == RunConn(s.run)
    && (s.conn.Some? ==> s.nextConn == s.conn.value + 1)
    && (forall g <- s.open :: s.run == Live(g))
    && (forall g <- s.readers :: s.run == Live(g))
    && (forall g <- s.table.hands :: g in s.readers)
    && (!s.run.Failing? ==> s.table.failing == {})
    && (forall g: nat :: g in s.past.lost <==> g < Finished(s))
  }

  // A request that has not left has its channel in the map, in the read loop's
  // hand, swapped out, or already holding a message.
  ghost predicate Waiting(s: State, id: ReqId) {
    && id in s.table.slot
    && (s.table.slot[id].Some? || id in s.table.failing || id in s.table.pending || InHand(s.table, id))
  }

  ghost predicate ReqOk(s: State, id: ReqId) {
    id in s.reqs && id in s.table.slot &&
    match s.reqs[id]
    case Polling => Waiting(s, id)
    case Holding(c) => c < s.nextConn && Waiting(s, id)
    case Written(c) => c < s.nextConn && Waiting(s, id)
    case Leaving(o) => o.Replied? ==> o.msg.id == id
    case Returned(o) => id !in s.table.pending && (o.Replied? ==> o.msg.id == id)
  }

  predicate HoldsLost(s: State, id: ReqId)
    requires id in s.table.slot
  {
    s.table.slot[id].Some? && s.table.slot[id].value.Lost?
  }

  // Once the replies of any connection have been failed since the request began,
  // its channel holds a message; and only then can that message be nil.
  ghost predicate Due(s: State, id: ReqId)
    requires id in s.table.slot && id in s.past.born
  {
    var swaps := s.past.born[id].swaps;
    && (swaps < Finished(s) ==> s.table.slot[id].Some?)
    && (swaps < Swapped(s) ==> s.table.slot[id].Some? || id in s.table.failing)
    && (HoldsLost(s, id) || id in s.table.failing ==> swaps < Swapped(s))
  }

  // The connection c a request was written to is not older than the request, and
  // is the one it found at its beginning unless it found none.
  predicate WrittenOk(s: State, id: ReqId, c: nat) {
    && id in s.past.wrote && s.past.wrote[id] == c
    && id in s.past.born && s.past.born[id].swaps <= c
    && (s.past.born[id].swaps < c ==> s.past.born[id].polled)
  }

  predicate LossOk(s: State, id: ReqId, o: Outcome) {
    o.ConnectionLost? ==>
      && id in s.past.born && s.past.born[id].swaps < Swapped(s)
      && id in s.past.wrote && WrittenOk(s, id, s.past.wrote[id])
  }

  ghost predicate BirthOk(s: State, id: ReqId) {
    id in s.reqs && id in s.table.slot && id in s.past.born && s.past.born[id].swaps <= Swapped(s) &&
    match s.reqs[id]
    case Polling => Due(s, id) && s.past.born[id].polled
    case Holding(c) => Due(s, id) && (c > s.past.born[id].swaps ==> s.past.born[id].polled)
    case Written(c) => Due(s, id) && WrittenOk(s, id, c)
    case Leaving(o) => LossOk(s, id, o)
    case Returned(o) => LossOk(s, id, o)
  }

  ghost predicate ReqsOk(s: State) {
    && (forall id <- s.reqs :: ReqOk(s, id) && BirthOk(s, id))
    && s.table.slot.Keys == s.reqs.Keys
  }

  ghost predicate Inv(s: State) {
    ConnInv(s) && TableInv(s.table) && ReqsOk(s)
  }

  // Request k and its channel are as they were.
  ghost predicate SameFor(s: State, t: State, k: ReqId) {
    && k in s.reqs && k in t.reqs && t.reqs[k] == s.reqs[k]
    && k in s.table.slot && k in t.table.slot && t.table.slot[k] == s.table.slot[k]
    && (k in t.table.pending <==> k in s.table.pending)
    && (k in t.table.failing <==> k in s.table.failing)
    && (InHand(s.table, k) ==> InHand(t.table, k))
    && (k in s.past.born ==> k in t.past.born && t.past.born[k] == s.past.born[k])
    && (k in s.past.wrote ==> k in t.past.wrote && t.past.wrote[k] == s.past.wrote[k])
  }

  lemma OtherReqOk(s: State, t: State, k: ReqId)
    requires ReqOk(s, k) && BirthOk(s, k) && SameFor(s, t, k) && t.run == s.run && t.nextConn == s.nextConn
    ensures ReqOk(t, k) && BirthOk(t, k)
  {}

  lemma OthersOk(s: State, t: State, id: ReqId)
    requires ReqsOk(s) && t.run == s.run && t.nextConn == s.nextConn
    requires t.reqs.Keys == s.reqs.Keys + {id} && t.table.slot.Keys == t.reqs.Keys
    requires forall k <- s.reqs | k != id :: SameFor(s, t, k)
    requires ReqOk(t, id) && BirthOk(t, id)
    ensures ReqsOk(t)
  {
    hide ReqOk, BirthOk, SameFor;
    forall k <- t.reqs ensures ReqOk(t, k) && BirthOk(t, k) {
      if k != id {
        OtherReqOk(s, t, k);
      }
    }
  }

  // A step of a request or of a read loop leaves the run loop's world alone.
  lemma ConnFrame(s: State, t: State)
    requires ConnInv(s)
    requires t == s.(reqs := t.reqs, table := t.table, past := s.past.(born := t.past.born, wrote := t.past.wrote))
    requires t.table.failing <= s.table.failing && t.table.hands.Keys <= s.table.hands.Keys + s.readers
    ensures ConnInv(t)
  {}

  lemma BeginOk(s: State, id: ReqId)
    requires ConnInv(s) && DoBegin(s, id).Some? && id !in s.table.failing
    ensures ReqOk(DoBegin(s, id).value, id) && BirthOk(DoBegin(s, id).value, id)
  {}

  lemma BeginSpares(s: State, id: ReqId, k: ReqId)
    requires DoBegin(s, id).Some? && k in s.reqs && k in s.table.slot
    ensures SameFor(s, DoBegin(s, id).value, k)
  {}

  lemma BeginKeeps(s: State, id: ReqId)
    requires Inv(s) && DoBegin(s, id).Some?
    ensures Inv(DoBegin(s, id).value)
  {
    var t := DoBegin(s, id).value;
    assert id !in s.table.slot && id !in s.table.failing;
    hide TableInv, ConnInv, ReqOk, BirthOk, SameFor;
    RegisterKeeps(s.table, id);
    ConnFrame(s, t);
    BeginOk(s, id);
    forall k <- s.reqs | k != id ensures SameFor(s, t, k) {
      BeginSpares(s, id, k);
    }
    OthersOk(s, t, id);
  }

  lemma OwnStepOk(s: State, id: ReqId, step: Step)
    requires ConnInv(s) && ReqOk(s, id) && BirthOk(s, id) && DoOwn(s, id, step).Some?
    ensures ReqOk(DoOwn(s, id, step).value, id) && BirthOk(DoOwn(s, id, step).value, id)
  {}

  lemma OwnKeeps(s: State, id: ReqId, step: Step)
    requires Inv(s) && DoOwn(s, id, step).Some?
    ensures Inv(DoOwn(s, id, step).value)
  {
    hide TableInv, ConnInv, ReqOk, BirthOk;
    ConnFrame(s, DoOwn(s, id, step).value);
    OwnStepOk(s, id, step);
    OthersOk(s, DoOwn(s, id, step).value, id);
  }

  lemma ReceiveOk(s: State, id: ReqId)
    requires ReqOk(s, id) && BirthOk(s, id) && DoReceive(s, id).Some?
    requires s.table.slot[id].value.Got? ==> s.table.slot[id].value.msg.id == id
    ensures ReqOk(DoReceive(s, id).value, id) && BirthOk(DoReceive(s, id).value, id)
  {}

  lemma ReceiveKept(s: State, id: ReqId)
    requires Inv(s) && DoReceive(s, id).Some?
    ensures Inv(DoReceive(s, id).value)
  {
    hide TableInv, ConnInv, ReqOk, BirthOk;
    ReceiveKeeps(s.table, id);
    ConnFrame(s, DoReceive(s, id).value);
    ReceiveOk(s, id);
    OthersOk(s, DoReceive(s, id).value, id);
  }

  lemma DeleteOk(s: State, id: ReqId)
    requires ReqOk(s, id) && BirthOk(s, id) && DoDelete(s, id).Some?
    ensures ReqOk(DoDelete(s, id).value, id) && BirthOk(DoDelete(s, id).value, id)
  {}

  lemma DeleteKept(s: State, id: ReqId)
    requires Inv(s) && DoDelete(s, id).Some?
    ensures Inv(DoDelete(s, id).value)
  {
    hide TableInv, ConnInv, ReqOk, BirthOk;
    RemoveKeeps(s.table, id);
    ConnFrame(s, DoDelete(s, id).value);
    DeleteOk(s, id);
    OthersOk(s, DoDelete(s, id).value, id);
  }

  lemma HandsMove(s: State, t: State, g: nat, k: ReqId)
    requires forall h <- s.table.hands | h != g :: h in t.table.hands && t.table.hands[h] == s.table.hands[h]
    requires g in s.table.hands ==> s.table.hands[g].id != k
    ensures InHand(s.table, k) ==> InHand(t.table, k)
  {}

  lemma TakenOk(s: State, g: nat, msg: Msg)
    requires ReqOk(s, msg.id) && BirthOk(s, msg.id) && DoRead(s, g, msg).Some? && msg.id in s.table.pending
    ensures ReqOk(DoRead(s, g, msg).value, msg.id) && BirthOk(DoRead(s, g, msg).value, msg.id)
  {
    assert DoRead(s, g, msg).value.table.hands[g].id == msg.id;
  }

  lemma ReadKeeps(s: State, g: nat, msg: Msg)
    requires Inv(s) && DoRead(s, g, msg).Some?
    ensures Inv(DoRead(s, g, msg).value)
  {
    var t := DoRead(s, g, msg).value;
    assert msg.id in s.table.pending ==> msg.id in s.table.slot;
    hide TableInv, ConnInv, ReqOk, BirthOk, InHand;
    TakeKeeps(s.table, g, msg);
    ConnFrame(s, t);
    if msg.id in s.table.pending {
      TakenOk(s, g, msg);
      forall k <- s.reqs | k != msg.id ensures SameFor(s, t, k) {
        HandsMove(s, t, g, k);
      }
      OthersOk(s, t, msg.id);
    }
  }

  lemma OfferedOk(s: State, g: nat, id: ReqId)
    requires ReqOk(s, id) && BirthOk(s, id) && DoOffer(s, g).Some? && id == s.table.hands[g].id
    requires DoOffer(s, g).value.table.slot[id] == Some(Got(s.table.hands[g], g))
    ensures ReqOk(DoOffer(s, g).value, id) && BirthOk(DoOffer(s, g).value, id)
  {}

  lemma OfferKeeps(s: State, g: nat)
    requires Inv(s) && DoOffer(s, g).Some?
    ensures Inv(DoOffer(s, g).value)
  {
    var t := DoOffer(s, g).value;
    var id := s.table.hands[g].id;
    hide TableInv, ConnInv, ReqOk, BirthOk, InHand;
    OfferHandKeeps(s.table, g);
    ConnFrame(s, t);
    OfferedOk(s, g, id);
    forall k <- s.reqs | k != id ensures SameFor(s, t, k) {
      HandsMove(s, t, g, k);
    }
    OthersOk(s, t, id);
  }

  lemma FailNextOk(s: State, id: ReqId)
    requires ReqOk(s, id) && BirthOk(s, id) && DoFailNext(s, id).Some? && id in s.table.slot
    requires DoFailNext(s, id).value.table.slot[id] == Some(Lost)
    ensures ReqOk(DoFailNext(s, id).value, id) && BirthOk(DoFailNext(s, id).value, id)
  {}

  lemma FailNextSpares(s: State, id: ReqId, k: ReqId)
    requires DoFailNext(s, id).Some? && k in s.reqs && k in s.table.slot && k != id
    ensures SameFor(s, DoFailNext(s, id).value, k)
  {}

  lemma FailNextKeeps(s: State, id: ReqId)
    requires Inv(s) && DoFailNext(s, id).Some?
    ensures Inv(DoFailNext(s, id).value)
  {
    var t := DoFailNext(s, id).value;
    hide TableInv, ConnInv, ReqOk, BirthOk, SameFor;
    FailOneKeeps(s.table, id);
    ConnFrame(s, t);
    FailNextOk(s, id);
    forall k <- s.reqs | k != id ensures SameFor(s, t, k) {
      FailNextSpares(s, id, k);
    }
    OthersOk(s, t, id);
  }

  lemma RunReqOk(s: State, step: Step, k: ReqId)
    requires ConnInv(s) && ReqOk(s, k) && DoRun(s, step).Some?
    ensures ReqOk(DoRun(s, step).value, k)
  {
    assert step.SwapPending? ==> !InHand(s.table, k);
  }

  // A run loop step moves no request; a swap sends every waiting channel of the map
  // to the ones being failed.
  lemma RunBirthOk(s: State, step: Step, k: ReqId)
    requires ConnInv(s) && ReqOk(s, k) && BirthOk(s, k) && DoRun(s, step).Some?
    ensures BirthOk(DoRun(s, step).value, k)
  {
    assert step.SwapPending? ==> !InHand(s.table, k);
  }

  lemma RunConnInv(s: State, step: Step)
    requires ConnInv(s) && DoRun(s, step).Some?
    ensures ConnInv(DoRun(s, step).value)
  {}

  lemma RunTableInv(s: State, step: Step)
    requires TableInv(s.table) && DoRun(s, step).Some?
    ensures TableInv(DoRun(s, step).value.table)
    ensures DoRun(s, step).value.reqs == s.reqs && DoRun(s, step).value.table.slot == s.table.slot
  {
    hide TableInv;
    SwapKeeps(s.table);
  }

  lemma RunKeeps(s: State, step: Step)
    requires Inv(s) && DoRun(s, step).Some?
    ensures Inv(DoRun(s, step).value)
  {
    hide ConnInv, TableInv, ReqOk, BirthOk, DoRun;
    RunConnInv(s, step);
    RunTableInv(s, step);
    var t := DoRun(s, step).value;
    forall k <- t.reqs ensures ReqOk(t, k) && BirthOk(t, k) {
      RunReqOk(s, step, k);
      RunBirthOk(s, step, k);
    }
  }

  lemma ReadEndsKeeps(s: State, g: nat)
    requires Inv(s) && Apply(s, ReadLoopEnds(g)).Some?
    ensures Inv(Apply(s, ReadLoopEnds(g)).value)
  {
    hide TableInv;
    var t := Apply(s, ReadLoopEnds(g)).value;
    forall k <- s.reqs ensures ReqOk(t, k) && BirthOk(t, k) {
      assert ReqOk(s, k) && BirthOk(s, k);
    }
  }

  lemma StepKeepsInv(s: State, step: Step)
    requires Inv(s) && Apply(s, step).Some?
    ensures Inv(Apply(s, step).value)
  {
    hide Inv;
    match step {
      case Begin(id) => BeginKeeps(s, id);
      case Poll(id) => OwnKeeps(s, id, step);
      case PollTimeout(id) => OwnKeeps(s, id, step);
      case Write(id, _) => OwnKeeps(s, id, step);
      case Timeout(id) => OwnKeeps(s, id, step);
      case ReceiveReply(id) => ReceiveKept(s, id);
      case DeferredDelete(id) => DeleteKept(s, id);
      case ReadFrame(g, msg) => ReadKeeps(s, g, msg);
      case OfferReply(g) => OfferKeeps(s, g);
      case ReadLoopEnds(g) => ReadEndsKeeps(s, g);
      case FailNext(id) => FailNextKeeps(s, id);
      case _ => RunKeeps(s, step);
    }
  }

  lemma {:induction false} RunKeepsInv(steps: seq<Step>)
    requires Exec(steps).Some?
    ensures Inv(Exec(steps).value)
  {
    if steps != [] {
      RunKeepsInv(steps[..|steps| - 1]);
      StepKeepsInv(Exec(steps[..|steps| - 1]).value, steps[|steps| - 1]);
    }
  }

  // ---------------------------------------------------------------------

  /** Reply correlation: a channel is offered at most one message ever, so the
      `default` arms drop none; a reply answers its own request; and a request that
      returned has no pending entry. */
  lemma ReplyCorrelation(steps: seq<Step>, id: ReqId)
    requires Exec(steps).Some? && id in Exec(steps).value.reqs
    ensures
      var s := Exec(steps).value;
      && s.table.dropped == 0
      && id in s.table.offers && s.table.offers[id] <= 1
      && id in s.table.slot
      && (s.table.slot[id].Some? && s.table.slot[id].value.Got? ==> s.table.slot[id].value.msg.id == id)
      && (s.reqs[id].Returned? ==>
            id !in s.table.pending && (s.reqs[id].outcome.Replied? ==> s.reqs[id].outcome.msg.id == id))
  {
    RunKeepsInv(steps);
    assert ReqOk(Exec(steps).value, id);
  }

  predicate InProgress(pc: ReqPc) {
    pc.Polling? || pc.Holding? || pc.Written?
  }

  // Registered before g's replies were swapped out, and they have been failed.
  lemma DueAfterLoss(s: State, id: ReqId, g: nat)
    requires ConnInv(s) && BirthOk(s, id) && InProgress(s.reqs[id]) && g in s.past.lost
    ensures s.past.born[id].swaps <= g ==> s.table.slot[id].Some?
    ensures s.reqs[id] == Written(g) ==> Apply(s, ReceiveReply(id)).Some?
    ensures s.reqs[id] == Holding(g) ==> Apply(s, Write(id, true)).None? && Apply(s, Write(id, false)).Some?
  {}

  lemma CurrentOrLost(s: State, id: ReqId)
    requires ConnInv(s) && ReqOk(s, id)
    ensures var pc := s.reqs[id]; pc.Holding? || pc.Written? ==> pc.c in s.past.lost || s.conn == Some(pc.c)
  {}

  /** Release after connection loss: once the replies of connection g have been
      failed, every request in progress that registered before they were swapped
      out has a message in its channel, one that still polls for a connection
      included; one written to g can receive it, and one that holds g unwritten can
      only get a write error. No other connection than the current one is waited on. */
  lemma ReleasedAfterLoss(steps: seq<Step>, id: ReqId, g: nat)
    requires Exec(steps).Some? && id in Exec(steps).value.reqs && InProgress(Exec(steps).value.reqs[id])
    ensures
      var s := Exec(steps).value;
      var pc := s.reqs[id];
      && id in s.table.slot && id in s.past.born
      && (g in s.past.lost && s.past.born[id].swaps <= g ==> s.table.slot[id].Some?)
      && (g in s.past.lost && pc == Written(g) ==> Apply(s, ReceiveReply(id)).Some?)
      && (g in s.past.lost && pc == Holding(g) ==>
            Apply(s, Write(id, true)).None? && Apply(s, Write(id, false)).Some?)
      && (pc.Holding? || pc.Written? ==> pc.c in s.past.lost || s.conn == Some(pc.c))
  {
    RunKeepsInv(steps);
    hide ConnInv, TableInv, Apply, Exec;
    var s := Exec(steps).value;
    assert ReqOk(s, id) && BirthOk(s, id);
    CurrentOrLost(s, id);
    if g in s.past.lost {
      DueAfterLoss(s, id, g);
    }
  }

  lemma HealthyLoss(s: State, id: ReqId)
    requires ConnInv(s) && ReqOk(s, id) && BirthOk(s, id)
    requires s.reqs[id].Written? && s.reqs[id].c >= Swapped(s)
    ensures
      var c := s.reqs[id].c;
      && c !in s.past.lost && s.conn == Some(c)
      && (HoldsLost(s, id) <==>
            s.past.born[id].swaps < c && !(s.table.slot[id].Some? && s.table.slot[id].value.Got?))
      && (s.past.born[id].swaps < c ==> s.past.born[id].polled)
  {}

  /** When a request on a healthy connection is told that its connection was lost:
      its own connection's replies have not been touched, yet its channel holds nil.
      That is so exactly when the replies of an earlier connection were failed after
      the request began and no reply to it has come; and only a request that found
      no connection and polled can have begun that early. */
  lemma SpuriousLoss(steps: seq<Step>, id: ReqId)
    requires Exec(steps).Some? && id in Exec(steps).value.reqs && Exec(steps).value.reqs[id].Written?
    requires Exec(steps).value.reqs[id].c >= Swapped(Exec(steps).value)
    ensures
      var s := Exec(steps).value;
      var c := s.reqs[id].c;
      && id in s.table.slot && id in s.past.born && c !in s.past.lost && s.conn == Some(c)
      && (HoldsLost(s, id) <==>
            s.past.born[id].swaps < c && !(s.table.slot[id].Some? && s.table.slot[id].value.Got?))
      && (s.past.born[id].swaps < c ==> s.past.born[id].polled)
  {
    RunKeepsInv(steps);
    hide ConnInv, TableInv, Exec, Swapped;
    var s := Exec(steps).value;
    assert ReqOk(s, id) && BirthOk(s, id);
    HealthyLoss(s, id);
  }

  lemma LossMeans(s: State, id: ReqId, o: Outcome)
    requires ConnInv(s) && LossOk(s, id, o) && o.ConnectionLost?
    ensures
      && id in s.past.wrote && id in s.past.born
      && (|| s.past.wrote[id] in s.past.lost || s.run == Failing(s.past.wrote[id])
          || (s.past.born[id].polled && s.past.born[id].swaps < s.past.wrote[id]))
  {}

  /** A request that ended with "connection lost before reply" was written; and
      either the replies of the very connection it was written to have been failed,
      or it polled at its beginning and those of an earlier one were. */
  lemma ConnectionLostMeans(steps: seq<Step>, id: ReqId)
    requires Exec(steps).Some? && id in Exec(steps).value.reqs
    requires var pc := Exec(steps).value.reqs[id];
             (pc.Leaving? || pc.Returned?) && pc.outcome.ConnectionLost?
    ensures
      var s := Exec(steps).value;
      && id in s.past.wrote && id in s.past.born
      && (|| s.past.wrote[id] in s.past.lost || s.run == Failing(s.past.wrote[id])
          || (s.past.born[id].polled && s.past.born[id].swaps < s.past.wrote[id]))
  {
    RunKeepsInv(steps);
    hide ConnInv, TableInv, Exec;
    var s := Exec(steps).value;
    assert BirthOk(s, id);
    LossMeans(s, id, s.reqs[id].outcome);
  }
}
