/** What the outcome of a public client's request means, that a reply gets through,
    and that every request can end. */
module InfoOutcomes {
  import opened Wrappers
  import opened ReplyTable
  import opened InfoRequests

  predicate Ended(s: State, id: ReqId, o: Outcome) {
    id in s.reqs && (s.reqs[id] == Leaving(o) || s.reqs[id] == Returned(o))
  }

  // In state s the step ends request id with outcome o.
  predicate Cause(s: State, step: Step, id: ReqId, o: Outcome) {
    id in s.reqs &&
    match o
    case Replied(msg) =>
      step == ReceiveReply(id) && s.reqs[id].Written? && id in s.table.slot
      && s.table.slot[id].Some? && s.table.slot[id].value.Got? && s.table.slot[id].value.msg == msg
    case ConnectionLost =>
      step == ReceiveReply(id) && s.reqs[id].Written? && id in s.table.slot && s.table.slot[id] == Some(Lost)
    case WriteFailed => step == Write(id, false) && s.reqs[id].Holding?
    case TimedOut => step == Timeout(id) && s.reqs[id].Written?
    case NeverConnected => step == PollTimeout(id) && s.reqs[id].Polling?
  }

  predicate CausedAt(steps: seq<Step>, i: nat, id: ReqId, o: Outcome) {
    i < |steps| && Exec(steps[..i]).Some? && Cause(Exec(steps[..i]).value, steps[i], id, o)
  }

  // Outcomes come from their causes, and stay.
  lemma EndedStep(s: State, step: Step, id: ReqId, o: Outcome)
    requires Apply(s, step).Some?
    ensures Ended(Apply(s, step).value, id, o) <==> Ended(s, id, o) || Cause(s, step, id, o)
  {}

  lemma CausedLonger(steps: seq<Step>, id: ReqId, o: Outcome)
    requires steps != [] && Exec(steps).Some?
    ensures
      var n := |steps| - 1;
      Exec(steps[..n]).Some? &&
      ((exists i: nat :: CausedAt(steps, i, id, o)) <==>
        (exists i: nat :: CausedAt(steps[..n], i, id, o)) || Cause(Exec(steps[..n]).value, steps[n], id, o))
  {
    var n := |steps| - 1;
    hide Cause, Exec;
    forall i: nat | i < n ensures CausedAt(steps[..n], i, id, o) <==> CausedAt(steps, i, id, o) {
      assert steps[..n][..i] == steps[..i];
    }
    Earlier(steps, n);
    assert CausedAt(steps, n, id, o) <==> Cause(Exec(steps[..n]).value, steps[n], id, o);
  }

  lemma {:induction false} Earlier(steps: seq<Step>, i: nat)
    requires i <= |steps| && Exec(steps).Some?
    ensures Exec(steps[..i]).Some?
  {
    if i < |steps| {
      Earlier(steps[..|steps| - 1], i);
      assert steps[..|steps| - 1][..i] == steps[..i];
    } else {
      assert steps[..i] == steps;
    }
  }

  /** What each outcome means: a request has ended with a reply if and only if it
      took that very message from its channel while it waited, with "connection lost"
      if and only if it took nil, with a write error, a time-out or no connection if
      and only if that is what happened to it. Nothing changes an outcome later. */
  lemma {:induction false} OutcomeMeans(steps: seq<Step>, id: ReqId, o: Outcome)
    requires Exec(steps).Some?
    ensures Ended(Exec(steps).value, id, o) <==> exists i: nat :: CausedAt(steps, i, id, o)
  {
    if steps != [] {
      var n := |steps| - 1;
      OutcomeMeans(steps[..n], id, o);
      CausedLonger(steps, id, o);
      EndedStep(Exec(steps[..n]).value, steps[n], id, o);
      hide CausedAt, Cause, Ended;
    }
  }

  // ---------------------------------------------------------------------

  predicate LookAt(steps: seq<Step>, i: nat, id: ReqId)
    requires i < |steps|
  {
    steps[i] == Begin(id) || steps[i] == Poll(id)
  }

  /** A request polls only as long as every look it took found no connection. So one
      that ends without a connection never saw any. */
  lemma {:induction false} PollingSawNone(steps: seq<Step>, id: ReqId, i: nat)
    requires Exec(steps).Some? && id in Exec(steps).value.reqs && Exec(steps).value.reqs[id].Polling?
    requires i < |steps| && LookAt(steps, i, id)
    ensures Exec(steps[..i]).Some? && Exec(steps[..i]).value.conn.None?
  {
    var n := |steps| - 1;
    PollingStep(Exec(steps[..n]).value, steps[n], id);
    if i < n {
      LookedBefore(steps[..n], i, id);
      PollingSawNone(steps[..n], id, i);
      assert steps[..n][..i] == steps[..i];
    }
  }

  lemma PollingStep(s: State, step: Step, id: ReqId)
    requires Apply(s, step).Some? && id in Apply(s, step).value.reqs && Apply(s, step).value.reqs[id].Polling?
    ensures step == Begin(id) || step == Poll(id) ==> s.conn.None?
    ensures id in s.reqs ==> s.reqs[id].Polling?
  {}

  // Only a request that has begun is looked for.
  lemma {:induction false} LookedBefore(steps: seq<Step>, i: nat, id: ReqId)
    requires Exec(steps).Some? && i < |steps| && LookAt(steps, i, id)
    ensures id in Exec(steps).value.reqs
  {
    var n := |steps| - 1;
    if i < n {
      LookedBefore(steps[..n], i, id);
    }
  }

  // ---------------------------------------------------------------------

  lemma ExecOne(steps: seq<Step>, step: Step)
    requires Exec(steps).Some?
    ensures Exec(steps + [step]) == Apply(Exec(steps).value, step)
  {
    assert (steps + [step])[..|steps|] == steps;
  }

  /** The reply gets through, in any run: when a frame is read whose id is pending,
      the two steps of the read loop put it into that request's channel, and there
      the request, if it waits, takes it, and returns with it. A frame whose id is
      not pending changes nothing. */
  lemma ReplyGetsThrough(steps: seq<Step>, g: nat, msg: Msg)
    requires Exec(steps).Some? && g in Exec(steps).value.readers && g !in Exec(steps).value.table.hands
    ensures
      var s := Exec(steps).value;
      var read := steps + [ReadFrame(g, msg)];
      var offered := read + [OfferReply(g)];
      if msg.id !in s.table.pending then Exec(read) == Some(s)
      else
        && Exec(offered).Some? && Exec(offered).value.table.slot == s.table.slot[msg.id := Some(Got(msg, g))]
        && Exec(offered).value.reqs == s.reqs
        && (msg.id in s.reqs && s.reqs[msg.id].Written? ==>
              var returned := offered + [ReceiveReply(msg.id)] + [DeferredDelete(msg.id)];
              Exec(returned).Some? && Exec(returned).value.reqs == s.reqs[msg.id := Returned(Replied(msg))])
  {
    RunKeepsInv(steps);
    var s := Exec(steps).value;
    ExecOne(steps, ReadFrame(g, msg));
    if msg.id in s.table.pending {
      OfferedSlot(s, g, msg);
      var t := Apply(s, ReadFrame(g, msg)).value;
      var u := Apply(t, OfferReply(g)).value;
      ExecOne(steps + [ReadFrame(g, msg)], OfferReply(g));
      hide Exec, Inv;
      if msg.id in s.reqs && s.reqs[msg.id].Written? {
        var offered := steps + [ReadFrame(g, msg)] + [OfferReply(g)];
        ReceivedReply(u, msg, g);
        ExecOne(offered, ReceiveReply(msg.id));
        ExecOne(offered + [ReceiveReply(msg.id)], DeferredDelete(msg.id));
      }
    }
  }

  lemma OfferedSlot(s: State, g: nat, msg: Msg)
    requires Inv(s) && g in s.readers && g !in s.table.hands && msg.id in s.table.pending
    ensures
      var t := Apply(s, ReadFrame(g, msg));
      && t.Some? && Apply(t.value, OfferReply(g)).Some?
      && var u := Apply(t.value, OfferReply(g)).value;
      && u.table.slot == s.table.slot[msg.id := Some(Got(msg, g))] && u.reqs == s.reqs
  {
    hide ConnInv, ReqsOk;
  }

  lemma ReceivedReply(s: State, msg: Msg, g: nat)
    requires msg.id in s.reqs && s.reqs[msg.id].Written?
    requires msg.id in s.table.slot && s.table.slot[msg.id] == Some(Got(msg, g))
    ensures
      var t := Apply(s, ReceiveReply(msg.id));
      && t.Some? && Apply(t.value, DeferredDelete(msg.id)).Some?
      && Apply(t.value, DeferredDelete(msg.id)).value.reqs == s.reqs[msg.id := Returned(Replied(msg))]
  {}

  ghost predicate LiveIsOpen(s: State) {
    s.run.Live? ==> s.run.g in s.open && s.conn == Some(s.run.g)
  }

  lemma {:induction false} RunKeepsOpen(steps: seq<Step>)
    requires Exec(steps).Some?
    ensures LiveIsOpen(Exec(steps).value)
  {
    if steps != [] {
      var n := |steps| - 1;
      RunKeepsOpen(steps[..n]);
      StepKeepsOpen(Exec(steps[..n]).value, steps[n]);
      hide Apply, LiveIsOpen;
    }
  }

  lemma StepKeepsOpen(s: State, step: Step)
    requires LiveIsOpen(s) && Apply(s, step).Some?
    ensures LiveIsOpen(Apply(s, step).value)
  {}

  /** A live connection serves whoever comes: a new request holds it at once, one that
      polls at its next look, and either can be written to it. */
  lemma LiveConnectionServes(steps: seq<Step>, id: ReqId)
    requires Exec(steps).Some? && Exec(steps).value.run.Live?
    requires var s := Exec(steps).value; id in s.reqs ==> s.reqs[id].Polling?
    ensures
      var s := Exec(steps).value;
      var held := steps + [if id in s.reqs then Poll(id) else Begin(id)];
      var written := held + [Write(id, true)];
      && Exec(held).Some? && Exec(held).value.reqs == s.reqs[id := Holding(s.run.g)]
      && Exec(written).Some? && Exec(written).value.reqs == s.reqs[id := Written(s.run.g)]
      && Exec(written).value.past.wrote == s.past.wrote[id := s.run.g]
  {
    var s := Exec(steps).value;
    RunKeepsOpen(steps);
    var first := if id in s.reqs then Poll(id) else Begin(id);
    ExecOne(steps, first);
    ExecOne(steps + [first], Write(id, true));
    hide Exec;
  }

  // The step that ends an unanswered request from where it stands.
  function GivingUp(pc: ReqPc, id: ReqId): Step {
    match pc
    case Polling => PollTimeout(id)
    case Holding(_) => Write(id, false)
    case Written(_) => Timeout(id)
    case _ => DeferredDelete(id)
  }

  lemma GivingUpLeaves(s: State, id: ReqId)
    requires id in s.reqs && !s.reqs[id].Leaving? && !s.reqs[id].Returned?
    ensures var t := Apply(s, GivingUp(s.reqs[id], id));
            t.Some? && id in t.value.reqs && t.value.reqs[id].Leaving?
  {}

  lemma DeleteReturns(steps: seq<Step>, id: ReqId)
    requires Exec(steps).Some? && id in Exec(steps).value.reqs && Exec(steps).value.reqs[id].Leaving?
    ensures var t := Exec(steps + [DeferredDelete(id)]);
            t.Some? && id in t.value.reqs && t.value.reqs[id].Returned?
  {
    ExecOne(steps, DeferredDelete(id));
    hide Exec;
  }

  /** No request is stuck: from any reachable state it can return, at most two of its
      own steps away, whatever the connection and the server do. */
  lemma CanAlwaysReturn(steps: seq<Step>, id: ReqId) returns (more: seq<Step>)
    requires Exec(steps).Some? && id in Exec(steps).value.reqs
    ensures |more| <= 2 && Exec(steps + more).Some?
    ensures id in Exec(steps + more).value.reqs && Exec(steps + more).value.reqs[id].Returned?
  {
    hide Exec, Apply, GivingUp;
    var pc := Exec(steps).value.reqs[id];
    if pc.Returned? {
      assert steps + [] == steps;
      return [];
    }
    if pc.Leaving? {
      DeleteReturns(steps, id);
      return [DeferredDelete(id)];
    }
    var step := GivingUp(pc, id);
    GivingUpLeaves(Exec(steps).value, id);
    ExecOne(steps, step);
    DeleteReturns(steps + [step], id);
    more := [step, DeferredDelete(id)];
    assert steps + more == steps + [step] + [DeferredDelete(id)];
  }

  // ---------------------------------------------------------------------
  // The run loop

  predicate OfRunLoop(step: Step) {
    step.Dial? || step.ConnectionEnds? || step.SwapPending? || step.FailNext? || step.FailEnds? || step.ClearConn?
  }

  function Position(run: RunPc): nat {
    match run
    case Dialing => 0
    case Live(_) => 1
    case Down(_) => 2
    case Failing(_) => 3
    case Failed(_) => 4
  }

  /** The run loop goes round: each of its steps but one leads to the next position of
      the same connection, clearing it leads back to dialling, and failing a request
      takes that one request off the list. */
  lemma RunLoopGoesRound(s: State, step: Step)
    requires Apply(s, step).Some? && OfRunLoop(step)
    ensures
      var t := Apply(s, step).value;
      match step
      case FailNext(id) => t.run == s.run && id in s.table.failing && t.table.failing == s.table.failing - {id}
      case ClearConn => s.run.Failed? && t.run.Dialing? && t.conn.None?
      case Dial => Position(s.run) == 0 && Position(t.run) == 1 && t.conn == RunConn(t.run) == Some(s.nextConn)
        && t.open == s.open + {s.nextConn} && t.readers == s.readers + {s.nextConn}
      case _ => Position(t.run) == Position(s.run) + 1 && RunConn(t.run) == RunConn(s.run) && t.conn == s.conn
  {}

  function One(b: bool): nat {
    if b then 1 else 0
  }

  // Steps until the run loop dials again if the connection is lost now.
  function Rank(s: State): nat {
    var waiting := |s.table.failing| + |s.table.pending|;
    match s.run
    case Dialing => 0
    case Failed(_) => 1
    case Failing(_) => 2 + |s.table.failing|
    case Down(_) => 3 + waiting
    case Live(g) => 4 + waiting + One(g in s.readers) + One(g in s.table.hands)
  }

  lemma LiveStep(s: State) returns (step: Step)
    requires Inv(s) && s.run.Live?
    ensures Apply(s, step).Some? && Rank(Apply(s, step).value) < Rank(s)
  {
    hide ReqsOk;
    var g := s.run.g;
    step := if g in s.table.hands then OfferReply(g) else if g in s.readers then ReadLoopEnds(g) else ConnectionEnds;
  }

  lemma FailingStep(s: State) returns (step: Step)
    requires Inv(s) && (s.run.Down? || s.run.Failing?)
    ensures Apply(s, step).Some? && Rank(Apply(s, step).value) < Rank(s)
  {
    hide ReqsOk, TableInv, FailOne, Swap;
    if s.run.Down? {
      SwapMoves(s.table);
      step := SwapPending;
    } else if s.table.failing == {} {
      step := FailEnds;
    } else {
      var id :| id in s.table.failing;
      FailOneFalls(s.table, id);
      step := FailNext(id);
    }
  }

  lemma RunStep(s: State) returns (step: Step)
    requires Inv(s) && !s.run.Dialing?
    ensures Apply(s, step).Some? && Rank(Apply(s, step).value) < Rank(s)
  {
    hide ReqsOk;
    match s.run {
      case Live(_) => step := LiveStep(s);
      case Down(_) => step := FailingStep(s);
      case Failing(_) => step := FailingStep(s);
      case Failed(_) => step := ClearConn;
    }
  }

  /** The client can always reconnect: from any reachable state, once the connection
      is lost, the read loop and the run loop alone get to dialling again. */
  lemma {:induction false} CanAlwaysReconnect(steps: seq<Step>) returns (more: seq<Step>)
    requires Exec(steps).Some?
    ensures Exec(steps + more).Some? && Exec(steps + more).value.run.Dialing?
    decreases Rank(Exec(steps).value)
  {
    hide Inv, Apply, Exec, Rank;
    if Exec(steps).value.run.Dialing? {
      assert steps + [] == steps;
      return [];
    }
    RunKeepsInv(steps);
    var step := RunStep(Exec(steps).value);
    ExecOne(steps, step);
    var rest := CanAlwaysReconnect(steps + [step]);
    more := [step] + rest;
    assert steps + more == steps + [step] + rest;
  }

  /** And a dial can succeed whenever the run loop makes one. */
  lemma DialConnects(s: State)
    requires s.run.Dialing?
    ensures Apply(s, Dial).Some? && Apply(s, Dial).value.run == Live(s.nextConn)
  {}
}
