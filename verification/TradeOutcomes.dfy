/** What the outcome of an authenticated client's request means, that a reply gets
    through, that every request can end, and what Close and a good auth reply lead to. */
module TradeOutcomes {
  import opened Wrappers
  import opened ReplyTable
  import opened TradeProtocol
  import TradeSafety

  predicate Ended(s: State, id: ReqId, o: Outcome) {
    id in s.reqs && s.reqs[id].pc == Returned(o)
  }

  // Entering fails on a closed client, and on a context that is done by the time the
  // request would have to wait.
  predicate Refused(s: State, id: ReqId)
    requires id in s.reqs
  {
    var r := s.reqs[id];
    if r.pc.Entering? then s.closed || (r.ctxDone && !Usable(s, r.kind))
    else r.pc.Woken? && (s.closed || r.ctxDone)
  }

  // In state s the step ends request id with outcome o.
  predicate Cause(s: State, step: Step, id: ReqId, o: Outcome) {
    id in s.reqs &&
    match o
    case Replied(msg, origin) =>
      step == OfRequest(id, ReceiveReply) && s.reqs[id].pc.Written?
      && id in s.table.slot && s.table.slot[id] == Some(Got(msg, origin))
    case ConnectionLost =>
      step == OfRequest(id, ReceiveReply) && s.reqs[id].pc.Written?
      && id in s.table.slot && s.table.slot[id] == Some(Lost)
    case Failed =>
      || (step == OfRequest(id, Enter) && Refused(s, id))
      || (step == OfRequest(id, RemovePending) && s.reqs[id].pc.Removing?)
  }

  predicate CausedAt(steps: seq<Step>, i: nat, id: ReqId, o: Outcome) {
    i < |steps| && Exec(steps[..i]).Some? && Cause(Exec(steps[..i]).value, steps[i], id, o)
  }

  lemma EndedRequestStep(s: State, k: ReqId, step: RequestStep, id: ReqId, o: Outcome)
    requires ApplyRequest(s, k, step).Some?
    ensures Ended(ApplyRequest(s, k, step).value, id, o) <==> Ended(s, id, o) || Cause(s, OfRequest(k, step), id, o)
  {}

  lemma EndedRunStep(s: State, step: RunStep, id: ReqId, o: Outcome)
    requires ApplyRun(s, step).Some? && s.nextId !in s.reqs
    ensures Ended(ApplyRun(s, step).value, id, o) <==> Ended(s, id, o)
  {}

  lemma EndedStep(s: State, step: Step, id: ReqId, o: Outcome)
    requires Apply(s, step).Some? && s.nextId !in s.reqs
    ensures Ended(Apply(s, step).value, id, o) <==> Ended(s, id, o) || Cause(s, step, id, o)
  {
    match step {
      case OfRequest(k, r) => EndedRequestStep(s, k, r, id, o);
      case OfRun(r) => EndedRunStep(s, r, id, o);
      case _ =>
    }
  }

  lemma {:induction false} Earlier(steps: seq<Step>, i: nat)
    requires i <= |steps| && Exec(steps).Some?
    ensures Exec(steps[..i]).Some?
  {
    if i < |steps| {
      Earlier(steps[..|steps| - 1], i);
      assert steps[..|steps| - 1][..i] == steps[..i];
    } else {
      assert steps[..i] == steps;
    }
  }

  lemma CausedLonger(steps: seq<Step>, id: ReqId, o: Outcome)
    requires steps != [] && Exec(steps).Some?
    ensures
      var n := |steps| - 1;
      Exec(steps[..n]).Some? &&
      ((exists i: nat :: CausedAt(steps, i, id, o)) <==>
        (exists i: nat :: CausedAt(steps[..n], i, id, o)) || Cause(Exec(steps[..n]).value, steps[n], id, o))
  {
    var n := |steps| - 1;
    hide Cause, Exec;
    forall i: nat | i < n ensures CausedAt(steps[..n], i, id, o) <==> CausedAt(steps, i, id, o) {
      assert steps[..n][..i] == steps[..i];
    }
    Earlier(steps, n);
    assert CausedAt(steps, n, id, o) <==> Cause(Exec(steps[..n]).value, steps[n], id, o);
  }

  /** What each outcome means: a request returns a message if and only if it took that
      very message from its channel while it waited, "connection closed" if and only
      if it took nil, and any other error if and only if it was refused at entry or
      gave up after a write error or the end of its context. */
  lemma {:induction false} OutcomeMeans(steps: seq<Step>, id: ReqId, o: Outcome)
    requires Exec(steps).Some?
    ensures Ended(Exec(steps).value, id, o) <==> exists i: nat :: CausedAt(steps, i, id, o)
  {
    if steps != [] {
      var n := |steps| - 1;
      OutcomeMeans(steps[..n], id, o);
      TradeSafety.RunKeepsInv(steps[..n]);
      CausedLonger(steps, id, o);
      TradeSafety.NewIdIsFresh(Exec(steps[..n]).value);
      EndedStep(Exec(steps[..n]).value, steps[n], id, o);
      hide CausedAt, Cause, Ended, TradeSafety.Inv;
    }
  }

  // ---------------------------------------------------------------------
  // Why a request fails

  // Something went wrong for the request: the client closed, its context ended, or
  // its own write failed.
  predicate Trouble(steps: seq<Step>, id: ReqId) {
    CloseClient in steps || OfRequest(id, CtxDone) in steps || OfRequest(id, Write(false)) in steps
  }

  ghost predicate TroubleInv(steps: seq<Step>, s: State, id: ReqId) {
    && (s.closed <==> CloseClient in steps)
    && (id in s.reqs ==>
          && (s.reqs[id].ctxDone ==> OfRequest(id, CtxDone) in steps)
          && (s.reqs[id].pc.Removing? || s.reqs[id].pc == Returned(Failed) ==> Trouble(steps, id)))
  }

  // What a step may set of what TroubleInv looks at.
  lemma TroubleStep(s: State, step: Step, id: ReqId)
    requires Apply(s, step).Some? && s.nextId !in s.reqs
    ensures
      var t := Apply(s, step).value;
      && (t.closed <==> s.closed || step == CloseClient)
      && (id in t.reqs ==>
            && (t.reqs[id].ctxDone ==> step == OfRequest(id, CtxDone) || (id in s.reqs && s.reqs[id].ctxDone))
            && (t.reqs[id].pc.Removing? || t.reqs[id].pc == Returned(Failed) ==>
                  || (id in s.reqs && (s.reqs[id].pc.Removing? || s.reqs[id].pc == Returned(Failed)))
                  || s.closed || (id in s.reqs && s.reqs[id].ctxDone) || step == OfRequest(id, Write(false))))
  {
    match step {
      case OfRequest(k, r) => RequestTrouble(s, k, r, id);
      case OfRun(r) => RunTrouble(s, r, id);
      case _ =>
    }
  }

  ghost predicate TroubleMoves(s: State, t: State, id: ReqId, ended: bool, failed: bool) {
    && t.closed == s.closed && t.reqs.Keys == s.reqs.Keys
    && (id in t.reqs ==>
          && (t.reqs[id].ctxDone ==> ended || s.reqs[id].ctxDone)
          && (t.reqs[id].pc.Removing? || t.reqs[id].pc == Returned(Failed) ==>
                || s.reqs[id].pc.Removing? || s.reqs[id].pc == Returned(Failed)
                || s.closed || s.reqs[id].ctxDone || failed))
  }

  lemma EnterTrouble(s: State, k: ReqId, id: ReqId)
    requires DoEnter(s, k).Some?
    ensures TroubleMoves(s, DoEnter(s, k).value, id, false, false)
  {}

  lemma OtherTrouble(s: State, k: ReqId, step: RequestStep, id: ReqId)
    requires ApplyRequest(s, k, step).Some? && !step.Enter? && !step.WatcherFires?
    ensures TroubleMoves(s, ApplyRequest(s, k, step).value, id,
                         k == id && step == CtxDone, k == id && step == Write(false))
  {}

  lemma WatcherTrouble(s: State, k: ReqId, id: ReqId)
    requires DoWatcher(s, k).Some?
    ensures TroubleMoves(s, DoWatcher(s, k).value, id, false, false)
  {}

  lemma RequestTrouble(s: State, k: ReqId, step: RequestStep, id: ReqId)
    requires ApplyRequest(s, k, step).Some?
    ensures TroubleMoves(s, ApplyRequest(s, k, step).value, id,
                         k == id && step == CtxDone, k == id && step == Write(false))
  {
    hide TroubleMoves, DoEnter, DoWatcher;
    match step {
      case Enter => EnterTrouble(s, k, id);
      case WatcherFires => WatcherTrouble(s, k, id);
      case _ => OtherTrouble(s, k, step, id);
    }
  }

  lemma RunTrouble(s: State, step: RunStep, id: ReqId)
    requires ApplyRun(s, step).Some? && s.nextId !in s.reqs
    ensures
      var t := ApplyRun(s, step).value;
      && t.closed == s.closed
      && (id in t.reqs ==>
            && (t.reqs[id].ctxDone ==> id in s.reqs && s.reqs[id].ctxDone)
            && (t.reqs[id].pc.Removing? || t.reqs[id].pc.Returned? ==>
                  id in s.reqs && s.reqs[id].pc == t.reqs[id].pc))
  {}

  lemma {:induction false} RunKeepsTrouble(steps: seq<Step>, id: ReqId)
    requires Exec(steps).Some?
    ensures TroubleInv(steps, Exec(steps).value, id)
  {
    if steps != [] {
      var n := |steps| - 1;
      RunKeepsTrouble(steps[..n], id);
      TradeSafety.RunKeepsInv(steps[..n]);
      TradeSafety.NewIdIsFresh(Exec(steps[..n]).value);
      TroubleStep(Exec(steps[..n]).value, steps[n], id);
      hide Apply, TradeSafety.Inv;
      assert forall x :: x in steps <==> x in steps[..n] || x == steps[n];
    }
  }

  /** A request fails on no account but these: the client was closed, the request's own
      context ended, or its own write failed. In particular it never fails because
      there is no connection, or none that has authenticated yet. */
  lemma FailedMeans(steps: seq<Step>, id: ReqId)
    requires Exec(steps).Some? && Ended(Exec(steps).value, id, Failed)
    ensures
      || CloseClient in steps
      || OfRequest(id, CtxDone) in steps
      || OfRequest(id, Write(false)) in steps
  {
    RunKeepsTrouble(steps, id);
  }

  /** After Close no request sleeps, and each that has yet to enter is refused. */
  lemma ClosedRefuses(steps: seq<Step>, id: ReqId)
    requires Exec(steps).Some? && CloseClient in steps && id in Exec(steps).value.reqs
    ensures
      var (s, pc) := (Exec(steps).value, Exec(steps).value.reqs[id].pc);
      && s.closed && !pc.Asleep?
      && (pc.Entering? || pc.Woken? ==>
            && Apply(s, OfRequest(id, Enter)).Some?
            && Ended(Apply(s, OfRequest(id, Enter)).value, id, Failed))
  {
    RunKeepsTrouble(steps, id);
    if Exec(steps).value.reqs[id].pc.Asleep? {
      TradeSafety.NoMissedWakeup(steps, id);
    }
  }

  // ---------------------------------------------------------------------

  lemma ExecOne(steps: seq<Step>, step: Step)
    requires Exec(steps).Some?
    ensures Exec(steps + [step]) == Apply(Exec(steps).value, step)
  {
    assert (steps + [step])[..|steps|] == steps;
  }

  lemma OfferedSlot(s: State, g: nat, msg: Msg)
    requires TableInv(s.table) && g in s.readers && g !in s.table.hands && msg.id in s.table.pending
    ensures
      var t := Apply(s, OfReader(g, ReadFrame(msg)));
      && t.Some? && Apply(t.value, OfReader(g, OfferReply)).Some?
      && var u := Apply(t.value, OfReader(g, OfferReply)).value;
      && u.table.slot == s.table.slot[msg.id := Some(Got(msg, g))] && u.reqs == s.reqs
  {}

  lemma ReceivedReply(s: State, msg: Msg, g: nat)
    requires msg.id in s.reqs && s.reqs[msg.id].pc.Written?
    requires msg.id in s.table.slot && s.table.slot[msg.id] == Some(Got(msg, g))
    ensures
      var t := Apply(s, OfRequest(msg.id, ReceiveReply));
      t.Some? && t.value.reqs == s.reqs[msg.id := s.reqs[msg.id].(pc := Returned(Replied(msg, g)))]
  {}

  /** The reply gets through, in any run: when a frame is read whose id is pending,
      the read loop's two steps put it into that request's channel, and the request,
      if it waits, returns it. A frame whose id is not pending changes nothing. */
  lemma ReplyGetsThrough(steps: seq<Step>, g: nat, msg: Msg)
    requires Exec(steps).Some? && g in Exec(steps).value.readers && g !in Exec(steps).value.table.hands
    ensures
      var s := Exec(steps).value;
      var read := steps + [OfReader(g, ReadFrame(msg))];
      var offered := read + [OfReader(g, OfferReply)];
      if msg.id !in s.table.pending then Exec(read) == Some(s)
      else
        && Exec(offered).Some? && Exec(offered).value.table.slot == s.table.slot[msg.id := Some(Got(msg, g))]
        && Exec(offered).value.reqs == s.reqs
        && (msg.id in s.reqs && s.reqs[msg.id].pc.Written? ==>
              var t := Exec(offered + [OfRequest(msg.id, ReceiveReply)]);
              t.Some? && t.value.reqs == s.reqs[msg.id := s.reqs[msg.id].(pc := Returned(Replied(msg, g)))])
  {
    TradeSafety.RunKeepsInv(steps);
    var s := Exec(steps).value;
    ExecOne(steps, OfReader(g, ReadFrame(msg)));
    if msg.id in s.table.pending {
      OfferedSlot(s, g, msg);
      var t := Apply(s, OfReader(g, ReadFrame(msg))).value;
      var u := Apply(t, OfReader(g, OfferReply)).value;
      ExecOne(steps + [OfReader(g, ReadFrame(msg))], OfReader(g, OfferReply));
      hide Exec, Apply, TradeSafety.Inv;
      if msg.id in s.reqs && s.reqs[msg.id].pc.Written? {
        ReceivedReply(u, msg, g);
        ExecOne(steps + [OfReader(g, ReadFrame(msg))] + [OfReader(g, OfferReply)], OfRequest(msg.id, ReceiveReply));
      }
    }
  }

  // ---------------------------------------------------------------------
  // Who is served

  /** What entering leads to: failure on a closed client; the connection at once if the
      request may use it; failure if its context is done; and sleep otherwise. Only a
      request that has slept looks at its context first. */
  lemma EnterAnswers(s: State, id: ReqId)
    requires id in s.reqs && (s.reqs[id].pc.Entering? || s.reqs[id].pc.Woken?)
    ensures
      var (r, t) := (s.reqs[id], Apply(s, OfRequest(id, Enter)));
      && t.Some? && id in t.value.reqs
      && var pc := t.value.reqs[id].pc;
      && (pc == Returned(Failed) <==> Refused(s, id))
      && (pc.Registered? <==> !Refused(s, id) && Usable(s, r.kind))
      && (pc.Registered? ==> s.conn == Some(pc.c) && id in t.value.table.pending)
      && (pc.Asleep? <==> !Refused(s, id) && !Usable(s, r.kind))
      && (pc.Asleep? ==> t.value.reqs[id].watching)
  {}

  /** A registered request can be written as long as its connection is open, and then
      waits for its reply. */
  lemma OpenConnectionServes(s: State, id: ReqId)
    requires id in s.reqs && s.reqs[id].pc.Registered? && s.reqs[id].pc.c in s.open
    ensures
      var t := Apply(s, OfRequest(id, Write(true)));
      && t.Some? && t.value.reqs == s.reqs[id := s.reqs[id].(pc := Written(s.reqs[id].pc.c))]
      && t.value.wrote == s.wrote[id := s.reqs[id].pc.c]
  {}

  /** Requests can be made at any time, except that authenticating is the run loop's. */
  lemma RequestsCanBeMade(s: State, m: Method)
    ensures
      var t := Apply(s, NewRequest(m));
      && (t.Some? <==> !m.Auth?)
      && (t.Some? ==> t.value.reqs == s.reqs[s.nextId := Req(m, Entering, false, false)])
  {}

  // ---------------------------------------------------------------------
  // Every request can end

  // What a request does next once its context has ended.
  function NextOwn(pc: ReqPc): RequestStep {
    match pc
    case Asleep => WatcherFires
    case Registered(_) => Write(false)
    case Written(_) => CtxSeen
    case Removing => RemovePending
    case _ => Enter
  }

  function Distance(pc: ReqPc): nat {
    match pc
    case Entering => 5
    case Asleep => 4
    case Woken => 3
    case Registered(_) => 2
    case Written(_) => 2
    case Removing => 1
    case Returned(_) => 0
  }

  lemma OwnStepAdvances(s: State, id: ReqId)
    requires id in s.reqs && s.reqs[id].ctxDone && !s.reqs[id].pc.Returned?
    requires s.reqs[id].pc.Asleep? ==> s.reqs[id].watching
    ensures
      var t := Apply(s, OfRequest(id, NextOwn(s.reqs[id].pc)));
      && t.Some? && id in t.value.reqs && t.value.reqs[id].ctxDone
      && Distance(t.value.reqs[id].pc) < Distance(s.reqs[id].pc)
  {}

  lemma SleeperWatched(steps: seq<Step>, id: ReqId)
    requires Exec(steps).Some? && id in Exec(steps).value.reqs && Exec(steps).value.reqs[id].ctxDone
    ensures Exec(steps).value.reqs[id].pc.Asleep? ==> Exec(steps).value.reqs[id].watching
  {
    if Exec(steps).value.reqs[id].pc.Asleep? {
      TradeSafety.NoMissedWakeup(steps, id);
    }
  }

  lemma {:induction false} EndsOnceDone(steps: seq<Step>, id: ReqId) returns (more: seq<Step>)
    requires Exec(steps).Some? && id in Exec(steps).value.reqs && Exec(steps).value.reqs[id].ctxDone
    ensures |more| <= Distance(Exec(steps).value.reqs[id].pc) && Exec(steps + more).Some?
    ensures id in Exec(steps + more).value.reqs && Exec(steps + more).value.reqs[id].pc.Returned?
    decreases Distance(Exec(steps).value.reqs[id].pc)
  {
    var s := Exec(steps).value;
    if s.reqs[id].pc.Returned? {
      assert steps + [] == steps;
      return [];
    }
    var step := OfRequest(id, NextOwn(s.reqs[id].pc));
    SleeperWatched(steps, id);
    OwnStepAdvances(s, id);
    ExecOne(steps, step);
    hide Exec, Apply, NextOwn, Distance;
    var rest := EndsOnceDone(steps + [step], id);
    more := [step] + rest;
    assert steps + more == steps + [step] + rest;
  }

  /** No request is stuck: from any reachable state it can return by the end of its
      context and at most five steps of its own and of its watcher, whatever the
      connection, the server and the other requests do. */
  lemma CanAlwaysReturn(steps: seq<Step>, id: ReqId) returns (more: seq<Step>)
    requires Exec(steps).Some? && id in Exec(steps).value.reqs
    ensures |more| <= 6 && Exec(steps + more).Some?
    ensures id in Exec(steps + more).value.reqs && Exec(steps + more).value.reqs[id].pc.Returned?
  {
    var done := OfRequest(id, CtxDone);
    ExecOne(steps, done);
    hide Exec;
    var rest := EndsOnceDone(steps + [done], id);
    more := [done] + rest;
    assert steps + more == steps + [done] + rest;
  }

  // ---------------------------------------------------------------------

  /** The server decides: once the auth request has returned, the connection becomes
      the authenticated one, and every sleeper is woken, if and only if what it
      returned is a reply without an error object. */
  lemma AuthDecided(steps: seq<Step>)
    requires Exec(steps).Some? && Exec(steps).value.run.Authing?
    requires
      var s := Exec(steps).value;
      s.run.id in s.reqs && s.reqs[s.run.id].pc.Returned?
    ensures
      var s := Exec(steps).value;
      var o := s.reqs[s.run.id].pc.outcome;
      var t := Exec(steps + [OfRun(AuthReturns)] + [OfRun(SetAuthenticated)]);
      && (t.Some? <==> o.Replied? && !o.msg.isError)
      && (t.Some? ==>
            t.value.authenticated && t.value.conn == Some(s.run.g) && TradeSafety.NoneAsleep(t.value))
  {
    TradeSafety.RunKeepsInv(steps);
    ExecOne(steps, OfRun(AuthReturns));
    ExecOne(steps + [OfRun(AuthReturns)], OfRun(SetAuthenticated));
    hide Exec, TradeSafety.ReqsOk, TradeSafety.LostInv;
  }

  /** Close ends the connection: it captures the stored one, and once it has closed
      that, nothing is open and the client is no longer authenticated. */
  lemma CloseEndsConnection(steps: seq<Step>)
    requires Exec(steps).Some? && CloseClient !in steps
    ensures
      var s := Exec(steps).value;
      var closed := steps + [CloseClient];
      var ended := closed + [CloseCapturedConn];
      && Exec(closed).Some? && Exec(closed).value.closed && !Exec(closed).value.authenticated
      && Exec(closed).value.conn == s.conn
      && (Exec(ended).Some? <==> s.conn.Some?)
      && (if s.conn.Some? then Exec(ended).value.open == {} else s.open == {})
  {
    RunKeepsTrouble(steps, 0);
    TradeSafety.RunKeepsInv(steps);
    ExecOne(steps, CloseClient);
    ExecOne(steps + [CloseClient], CloseCapturedConn);
    hide Exec, TradeSafety.ReqsOk, TradeSafety.LostInv, TradeSafety.AuthInv;
    TradeSafety.CloseKeeps(Exec(steps).value);
  }

  // ---------------------------------------------------------------------
  // Watchers and wake-ups

  /** No watcher goroutine outlives the wait it was started for. */
  lemma {:induction false} WatcherStops(steps: seq<Step>, id: ReqId)
    requires Exec(steps).Some? && id in Exec(steps).value.reqs && Exec(steps).value.reqs[id].watching
    ensures Waits(Exec(steps).value.reqs[id].pc)
  {
    if steps != [] {
      var n := |steps| - 1;
      var s := Exec(steps[..n]).value;
      if id in s.reqs && s.reqs[id].watching {
        WatcherStops(steps[..n], id);
      }
      WatchStep(s, steps[n], id);
      hide Apply, Waits;
    }
  }

  predicate Waits(pc: ReqPc) {
    pc.Asleep? || pc.Woken?
  }

  lemma WatchRequestStep(s: State, k: ReqId, step: RequestStep, id: ReqId)
    requires ApplyRequest(s, k, step).Some? && id in s.reqs && (s.reqs[id].watching ==> Waits(s.reqs[id].pc))
    ensures
      var t := ApplyRequest(s, k, step).value;
      id in t.reqs && (t.reqs[id].watching ==> Waits(t.reqs[id].pc))
  {}

  lemma WatchRunStep(s: State, step: RunStep, id: ReqId)
    requires ApplyRun(s, step).Some? && (id in s.reqs && s.reqs[id].watching ==> Waits(s.reqs[id].pc))
    ensures
      var t := ApplyRun(s, step).value;
      id in t.reqs && t.reqs[id].watching ==> Waits(t.reqs[id].pc)
  {}

  lemma WatchStep(s: State, step: Step, id: ReqId)
    requires Apply(s, step).Some? && (id in s.reqs && s.reqs[id].watching ==> Waits(s.reqs[id].pc))
    ensures
      var t := Apply(s, step).value;
      id in t.reqs && t.reqs[id].watching ==> Waits(t.reqs[id].pc)
  {
    hide Waits;
    match step {
      case OfRequest(k, r) =>
        assert id in Apply(s, step).value.reqs ==> id in s.reqs by { SameRequests(s, k, r); }
        if id in s.reqs {
          WatchRequestStep(s, k, r, id);
        }
      case OfRun(r) => WatchRunStep(s, r, id);
      case _ => WatchOtherStep(s, step, id);
    }
  }

  lemma WatchOtherStep(s: State, step: Step, id: ReqId)
    requires Apply(s, step).Some? && (id in s.reqs && s.reqs[id].watching ==> Waits(s.reqs[id].pc))
    requires !step.OfRequest? && !step.OfRun?
    ensures
      var t := Apply(s, step).value;
      id in t.reqs && t.reqs[id].watching ==> Waits(t.reqs[id].pc)
  {}

  lemma SameRequests(s: State, k: ReqId, step: RequestStep)
    requires ApplyRequest(s, k, step).Some?
    ensures ApplyRequest(s, k, step).value.reqs.Keys == s.reqs.Keys
  {}

  // What wakes the sleepers.
  predicate Wakes(s: State, step: Step) {
    match step
    case OfRun(r) => r.SetAuthenticated? || r.ClearConn?
    case OfRequest(k, r) => r.WatcherFires? && k in s.reqs && s.reqs[k].ctxDone && s.reqs[k].watching
    case CloseClient => !s.closed
    case _ => false
  }

  predicate WokenIf(s: State, t: State, id: ReqId, wakes: bool)
    requires id in s.reqs
  {
    id in t.reqs && t.reqs[id] == s.reqs[id].(pc := if wakes then Woken else Asleep, ctxDone := t.reqs[id].ctxDone,
                                              watching := t.reqs[id].watching)
  }

  lemma WokenByRequest(s: State, k: ReqId, step: RequestStep, id: ReqId)
    requires ApplyRequest(s, k, step).Some? && id in s.reqs && s.reqs[id].pc.Asleep?
    ensures WokenIf(s, ApplyRequest(s, k, step).value, id, Wakes(s, OfRequest(k, step)))
  {}

  lemma WokenByRun(s: State, step: RunStep, id: ReqId)
    requires ApplyRun(s, step).Some? && s.nextId !in s.reqs && id in s.reqs && s.reqs[id].pc.Asleep?
    ensures WokenIf(s, ApplyRun(s, step).value, id, Wakes(s, OfRun(step)))
  {}

  /** A sleeper is woken by exactly four things: some waiting request's context has
      ended, a connection has authenticated or is gone, or the client has closed. */
  lemma WokenBy(s: State, step: Step, id: ReqId)
    requires Apply(s, step).Some? && s.nextId !in s.reqs && id in s.reqs && s.reqs[id].pc.Asleep?
    ensures WokenIf(s, Apply(s, step).value, id, Wakes(s, step))
  {
    match step {
      case OfRequest(k, r) => WokenByRequest(s, k, r, id);
      case OfRun(r) => WokenByRun(s, r, id);
      case _ =>
    }
  }

  // ---------------------------------------------------------------------
  // The run loop

  function Position(run: RunPc): nat {
    match run
    case Dialing => 0
    case Connected(_) => 1
    case Authing(_, _) => 2
    case AuthOk(_) => 3
    case AuthBad(_) => 3
    case Serving(_) => 4
    case AuthDrain(_) => 4
    case Down(_) => 5
    case Failing(_) => 6
    case Cleared(_) => 7
  }

  /** The run loop goes round: each of its steps but one leads to a later position of
      the same connection, clearing it leads back to dialling, and failing a request
      takes that one request off the list. A bad auth and a lost connection both end
      with the socket closed. */
  lemma RunLoopGoesRound(s: State, step: RunStep)
    requires ApplyRun(s, step).Some?
    ensures
      var t := ApplyRun(s, step).value;
      match step
      case FailNext(id) => t.run == s.run && id in s.table.failing && t.table.failing == s.table.failing - {id}
      case ClearConn => s.run.Cleared? && t.run.Dialing? && t.conn.None? && !t.authenticated
      case Dial => s.run.Dialing? && Position(t.run) == 1 && t.conn == TradeSafety.RunConn(t.run) == Some(s.nextConn)
        && t.open == s.open + {s.nextConn} && t.readers == s.readers + {s.nextConn}
      case StartAuth(signed) =>
        Position(s.run) == 1 && Position(t.run) == (if signed then 2 else 3) && SameConn(s, t)
      case _ => Position(t.run) == Position(s.run) + 1 && SameConn(s, t)
  {}

  predicate SameConn(s: State, t: State) {
    TradeSafety.RunConn(t.run) == TradeSafety.RunConn(s.run) && t.conn == s.conn
  }

  function One(b: bool): nat {
    if b then 1 else 0
  }

  // Own steps the auth request still has to make.
  function AuthRank(s: State): nat {
    if s.run.Authing? && s.run.id in s.reqs
    then 2 * Distance(s.reqs[s.run.id].pc) + One(!s.reqs[s.run.id].ctxDone)
    else 0
  }

  // Steps until the run loop dials again if the connection is lost now.
  function Rank(s: State): nat {
    var waiting := |s.table.failing| + |s.table.pending|;
    var reader := if s.run.Dialing? then 0 else One(s.run.g in s.readers) + One(s.run.g in s.table.hands);
    match s.run
    case Dialing => 0
    case Cleared(_) => 1
    case Failing(_) => 2 + |s.table.failing|
    case Down(_) => 3 + waiting
    case AuthDrain(_) => 4 + waiting + reader
    case Serving(_) => 4 + waiting + reader
    case AuthOk(_) => 5 + waiting + reader
    case AuthBad(_) => 5 + waiting + reader
    case Authing(_, _) => 6 + waiting + reader + AuthRank(s)
    case Connected(_) => 6 + waiting + reader
  }

  lemma OfferFalls(s: State, g: nat)
    requires g in s.table.hands && s.table.hands[g].id in s.table.slot && s.table.hands[g].id in s.table.offers
    requires (s.run.AuthDrain? || s.run.Serving?) && s.run.g == g
    ensures Apply(s, OfReader(g, OfferReply)).Some? && Rank(Apply(s, OfReader(g, OfferReply)).value) < Rank(s)
  {
    var t := OfferHand(s.table, g);
    assert t.pending == s.table.pending && t.failing == s.table.failing && g !in t.hands;
    hide OfferHand, AuthRank;
  }

  lemma HandInSlot(t: Table, g: nat)
    requires TableInv(t) && g in t.hands
    ensures t.hands[g].id in t.slot && t.hands[g].id in t.offers
  {}

  lemma ReadingStep(s: State) returns (step: Step)
    requires TradeSafety.ConnInv(s) && TableInv(s.table) && (s.run.AuthDrain? || s.run.Serving?)
    ensures Apply(s, step).Some? && Rank(Apply(s, step).value) < Rank(s)
  {
    hide TableInv, AuthRank;
    var g := s.run.g;
    if g in s.table.hands {
      HandInSlot(s.table, g);
      OfferFalls(s, g);
      return OfReader(g, OfferReply);
    }
    step := if g in s.readers then OfReader(g, ReadLoopEnds)
            else OfRun(if s.run.Serving? then ServingEnds else BadConnDrained);
  }

  lemma FailingStep(s: State) returns (step: Step)
    requires TradeSafety.ConnInv(s) && TableInv(s.table) && (s.run.Down? || s.run.Failing?)
    ensures Apply(s, step).Some? && Rank(Apply(s, step).value) < Rank(s)
  {
    hide TableInv, FailOne, Swap, AuthRank;
    if s.run.Down? {
      SwapMoves(s.table);
      step := OfRun(SwapPending);
    } else if s.table.failing == {} {
      step := OfRun(FailEnds);
    } else {
      var id :| id in s.table.failing;
      FailOneFalls(s.table, id);
      step := OfRun(FailNext(id));
    }
  }

  // Entering registers one channel, and nothing else of a request adds to the table.
  lemma OwnTable(s: State, id: ReqId, step: RequestStep)
    requires ApplyRequest(s, id, step).Some?
    ensures
      var t := ApplyRequest(s, id, step).value;
      && t.run == s.run && t.readers == s.readers && t.table.hands == s.table.hands
      && t.table.failing == s.table.failing
      && t.table.pending <= s.table.pending + {id} && (!step.Enter? ==> t.table.pending <= s.table.pending)
  {}

  lemma Fewer(a: set<ReqId>, b: set<ReqId>, id: ReqId)
    ensures a <= b ==> |a| <= |b|
    ensures a <= b + {id} ==> |a| <= |b| + 1
  {
    if a <= b {
      assert b == a + (b - a);
    }
    if a <= b + {id} {
      assert b + {id} == a + (b + {id} - a);
    }
  }

  lemma AuthRequestFalls(s: State, id: ReqId, step: RequestStep)
    requires s.run.Authing? && s.run.id == id && ApplyRequest(s, id, step).Some? && id in s.reqs
    requires
      var t := ApplyRequest(s, id, step).value;
      id in t.reqs && (if step.Enter? then AuthRank(t) + 1 < AuthRank(s) else AuthRank(t) < AuthRank(s))
    ensures Rank(ApplyRequest(s, id, step).value) < Rank(s)
  {
    hide ApplyRequest, AuthRank;
    OwnTable(s, id, step);
    Fewer(ApplyRequest(s, id, step).value.table.pending, s.table.pending, id);
  }

  lemma AuthRequestStep(s: State, id: ReqId) returns (step: RequestStep)
    requires TradeSafety.ReqOk(s, id) && s.run.Authing? && s.run.id == id
    requires s.reqs[id].kind.Auth? && !s.reqs[id].pc.Returned?
    ensures ApplyRequest(s, id, step).Some? && id in ApplyRequest(s, id, step).value.reqs
    ensures
      var t := ApplyRequest(s, id, step).value;
      if step.Enter? then AuthRank(t) + 1 < AuthRank(s) else AuthRank(t) < AuthRank(s)
  {
    step := if s.reqs[id].ctxDone then NextOwn(s.reqs[id].pc) else CtxDone;
  }

  lemma AuthingStep(s: State) returns (step: Step)
    requires TradeSafety.AuthInv(s) && TradeSafety.ReqsOk(s) && s.run.Authing?
    ensures Apply(s, step).Some? && Rank(Apply(s, step).value) < Rank(s)
  {
    var id := s.run.id;
    assert TradeSafety.ReqOk(s, id) && s.reqs[id].kind.Auth?;
    hide TradeSafety.ReqOk, AuthRank;
    if s.reqs[id].pc.Returned? {
      return OfRun(AuthReturns);
    }
    hide ApplyRequest, Rank;
    var own := AuthRequestStep(s, id);
    AuthRequestFalls(s, id, own);
    step := OfRequest(id, own);
  }

  lemma RunStepFalls(s: State) returns (step: Step)
    requires TradeSafety.Inv(s) && !s.run.Dialing?
    ensures Apply(s, step).Some? && Rank(Apply(s, step).value) < Rank(s)
  {
    hide TradeSafety.ReqsOk, TradeSafety.Known, TradeSafety.LostInv, TradeSafety.AuthInv, TableInv, AuthRank;
    match s.run {
      case Connected(_) => step := OfRun(StartAuth(false));
      case Authing(_, _) => step := AuthingStep(s);
      case AuthOk(_) => step := OfRun(SetAuthenticated);
      case AuthBad(_) => step := OfRun(CloseBadConn);
      case AuthDrain(_) => step := ReadingStep(s);
      case Serving(_) => step := ReadingStep(s);
      case Down(_) => step := FailingStep(s);
      case Failing(_) => step := FailingStep(s);
      case Cleared(_) => step := OfRun(ClearConn);
    }
  }

  /** The client can always reconnect: from any reachable state, once the connection
      is lost and the context of an auth request still in flight has ended, the read
      loop, that request and the run loop get to dialling again. */
  lemma {:induction false} CanAlwaysReconnect(steps: seq<Step>) returns (more: seq<Step>)
    requires Exec(steps).Some?
    ensures Exec(steps + more).Some? && Exec(steps + more).value.run.Dialing?
    decreases Rank(Exec(steps).value)
  {
    hide TradeSafety.Inv, Apply, Exec, Rank;
    if Exec(steps).value.run.Dialing? {
      assert steps + [] == steps;
      return [];
    }
    TradeSafety.RunKeepsInv(steps);
    var step := RunStepFalls(Exec(steps).value);
    ExecOne(steps, step);
    var rest := CanAlwaysReconnect(steps + [step]);
    more := [step] + rest;
    assert steps + more == steps + [step] + rest;
  }

  /** And a dial can succeed whenever the run loop makes one. */
  lemma DialConnects(s: State)
    requires s.run.Dialing?
    ensures Apply(s, OfRun(Dial)).Some? && Apply(s, OfRun(Dial)).value.run == Connected(s.nextConn)
  {}
}
