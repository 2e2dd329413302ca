/** What "connection closed while waiting for reply" tells a request of the
    authenticated client: the connection it was written to was lost. */
module TradeLoss {
  import opened Wrappers
  import opened ReplyTable
  import opened TradeProtocol
  import TradeSafety

  // The pending replies of connection c have been swapped out to be failed.
  predicate Gone(s: State, c: nat) {
    c in s.lost || s.run == Failing(c)
  }

  // Nil is in the request's channel, or about to be offered to it.
  predicate NilDue(s: State, id: ReqId) {
    id in s.table.failing || (id in s.table.slot && s.table.slot[id] == Some(Lost))
  }

  predicate LossOk(s: State, id: ReqId) {
    id in s.reqs &&
    match s.reqs[id].pc
    case Registered(c) => NilDue(s, id) ==> Gone(s, c)
    case Written(c) => id in s.wrote && s.wrote[id] == c && (NilDue(s, id) ==> Gone(s, c))
    case Returned(o) => o.ConnectionLost? ==> id in s.wrote && Gone(s, s.wrote[id])
    case _ => true
  }

  ghost predicate LossInv(s: State) {
    forall id <- s.reqs :: LossOk(s, id)
  }

  // Request k moved at most from sleeping to woken, and no more nil is due to it.
  predicate Spared(s: State, t: State, k: ReqId) {
    && k in s.reqs && k in t.reqs
    && (t.reqs[k].pc == s.reqs[k].pc || t.reqs[k].pc.Woken?)
    && (NilDue(t, k) ==> NilDue(s, k))
    && (k in s.wrote ==> k in t.wrote && t.wrote[k] == s.wrote[k])
  }

  lemma SparedLoss(s: State, t: State, k: ReqId)
    requires LossOk(s, k) && Spared(s, t, k) && forall c: nat :: Gone(s, c) ==> Gone(t, c)
    ensures LossOk(t, k)
  {}

  lemma SparedAll(s: State, t: State, id: ReqId)
    requires LossInv(s) && t.reqs.Keys <= s.reqs.Keys + {id}
    requires forall k <- s.reqs | k != id :: Spared(s, t, k)
    requires forall c: nat :: Gone(s, c) ==> Gone(t, c)
    requires id in t.reqs ==> LossOk(t, id)
    ensures LossInv(t)
  {
    hide LossOk, Spared, Gone;
    forall k <- t.reqs ensures LossOk(t, k) {
      if k != id {
        SparedLoss(s, t, k);
      }
    }
  }

  // ---------------------------------------------------------------------

  // The channel of a request that registers is new.
  lemma EnteredLossOk(s: State, id: ReqId)
    requires DoEnter(s, id).Some? && id !in s.table.failing
    ensures LossOk(DoEnter(s, id).value, id)
  {}

  lemma EnterSpares(s: State, id: ReqId, k: ReqId)
    requires DoEnter(s, id).Some? && k in s.reqs && k != id
    ensures Spared(s, DoEnter(s, id).value, k)
  {}

  lemma EnterLoss(s: State, id: ReqId)
    requires LossInv(s) && DoEnter(s, id).Some? && id !in s.table.failing
    ensures LossInv(DoEnter(s, id).value)
  {
    hide LossOk, Spared, LossInv;
    EnteredLossOk(s, id);
    forall k <- s.reqs | k != id ensures Spared(s, DoEnter(s, id).value, k) {
      EnterSpares(s, id, k);
    }
    SparedAll(s, DoEnter(s, id).value, id);
  }

  lemma WatcherLoss(s: State, id: ReqId)
    requires LossInv(s) && DoWatcher(s, id).Some?
    ensures LossInv(DoWatcher(s, id).value)
  {
    var t := DoWatcher(s, id).value;
    assert LossOk(s, id);
    SparedLoss(s, t, id);
    SparedAll(s, t, id);
  }

  lemma WriteLoss(s: State, id: ReqId, ok: bool)
    requires LossInv(s) && DoWrite(s, id, ok).Some?
    ensures LossInv(DoWrite(s, id, ok).value)
  {
    assert LossOk(s, id);
    SparedAll(s, DoWrite(s, id, ok).value, id);
  }

  lemma ReceiveLoss(s: State, id: ReqId)
    requires LossInv(s) && DoReceive(s, id).Some?
    ensures LossInv(DoReceive(s, id).value)
  {
    assert LossOk(s, id);
    SparedAll(s, DoReceive(s, id).value, id);
  }

  lemma RequestLoss(s: State, id: ReqId, step: RequestStep)
    requires LossInv(s) && ApplyRequest(s, id, step).Some?
    requires step.Enter? ==> id !in s.table.failing
    ensures LossInv(ApplyRequest(s, id, step).value)
  {
    match step {
      case Enter => EnterLoss(s, id);
      case WatcherFires => WatcherLoss(s, id);
      case Write(ok) => WriteLoss(s, id, ok);
      case ReceiveReply => ReceiveLoss(s, id);
      case CtxDone =>
        assert LossOk(s, id);
        SparedAll(s, DoCtxDone(s, id).value, id);
      case CtxSeen => SparedAll(s, DoCtxSeen(s, id).value, id);
      case RemovePending => SparedAll(s, DoRemove(s, id).value, id);
    }
  }

  // A step that moves no request but from sleep, and leaves nothing more due.
  lemma QuietLoss(s: State, t: State)
    requires LossInv(s) && t.reqs.Keys == s.reqs.Keys
    requires forall k <- s.reqs :: Spared(s, t, k)
    requires forall c: nat :: Gone(s, c) ==> Gone(t, c)
    ensures LossInv(t)
  {
    hide LossOk, Spared, Gone;
    forall k <- t.reqs ensures LossOk(t, k) {
      SparedLoss(s, t, k);
    }
  }

  lemma ReaderLoss(s: State, g: nat, step: ReaderStep)
    requires LossInv(s) && ApplyReader(s, g, step).Some?
    ensures LossInv(ApplyReader(s, g, step).value)
  {
    QuietLoss(s, ApplyReader(s, g, step).value);
  }

  lemma NewLoss(s: State, t: State, id: ReqId, r: Req)
    requires LossInv(s) && id !in s.reqs && r.pc.Entering?
    requires t.reqs == s.reqs[id := r] && t.table == s.table && t.wrote == s.wrote && t.lost == s.lost
    requires t.run == s.run || !s.run.Failing?
    ensures LossInv(t)
  {
    SparedAll(s, t, id);
  }

  // Whatever is swapped out now was registered with this connection or an older one.
  lemma SwapLoss(s: State)
    requires LossInv(s) && TradeSafety.Inv(s) && DoSwap(s).Some?
    ensures LossInv(DoSwap(s).value)
  {
    var t := DoSwap(s).value;
    assert TradeSafety.ConnInv(s) && TradeSafety.LostInv(s);
    forall k <- t.reqs ensures LossOk(t, k) {
      assert LossOk(s, k) && TradeSafety.ReqOk(s, k);
    }
  }

  lemma FailNextLoss(s: State, id: ReqId)
    requires LossInv(s) && DoFailNext(s, id).Some?
    ensures LossInv(DoFailNext(s, id).value)
  {
    QuietLoss(s, DoFailNext(s, id).value);
  }

  lemma RunLoss(s: State, step: RunStep)
    requires LossInv(s) && ApplyRun(s, step).Some?
    requires TradeSafety.Inv(s) && s.nextId !in s.reqs
    ensures LossInv(ApplyRun(s, step).value)
  {
    hide TradeSafety.Inv, LossInv;
    var t := ApplyRun(s, step).value;
    match step {
      case SwapPending => SwapLoss(s);
      case FailNext(id) => FailNextLoss(s, id);
      case StartAuth(signed) =>
        if signed {
          NewLoss(s, t, s.nextId, Req(Auth, Entering, false, false));
        } else {
          QuietLoss(s, t);
        }
      case _ => QuietLoss(s, t);
    }
  }

  lemma StepLoss(s: State, step: Step)
    requires LossInv(s) && TradeSafety.Inv(s) && Apply(s, step).Some?
    ensures LossInv(Apply(s, step).value)
  {
    TradeSafety.NewIdIsFresh(s);
    match step {
      case NewRequest(m) => NewLoss(s, Apply(s, step).value, s.nextId, Req(m, Entering, false, false));
      case OfRequest(id, r) =>
        FreshNotFailing(s, id, r);
        RequestLoss(s, id, r);
      case OfReader(g, r) => ReaderLoss(s, g, r);
      case OfRun(r) => RunLoss(s, r);
      case CloseClient => QuietLoss(s, Apply(s, step).value);
      case CloseCapturedConn => QuietLoss(s, Apply(s, step).value);
    }
  }

  lemma FreshNotFailing(s: State, id: ReqId, step: RequestStep)
    requires TradeSafety.Inv(s) && ApplyRequest(s, id, step).Some?
    ensures step.Enter? ==> id !in s.table.failing
  {
    assert id in s.reqs ==> TradeSafety.ReqOk(s, id);
  }

  lemma {:induction false} RunKeepsLoss(steps: seq<Step>)
    requires Exec(steps).Some?
    ensures LossInv(Exec(steps).value)
  {
    if steps != [] {
      var before := steps[..|steps| - 1];
      RunKeepsLoss(before);
      TradeSafety.RunKeepsInv(before);
      StepLoss(Exec(before).value, steps[|steps| - 1]);
    }
  }

  /** A request that ends with "connection closed while waiting for reply" had been
      written, and the pending replies of that very connection were failed. Nil waits
      for a request in flight on no other account either. */
  lemma ConnectionLostMeans(steps: seq<Step>, id: ReqId)
    requires Exec(steps).Some? && id in Exec(steps).value.reqs
    ensures
      var s := Exec(steps).value;
      var pc := s.reqs[id].pc;
      && (pc.Returned? && pc.outcome.ConnectionLost? ==> id in s.wrote && Gone(s, s.wrote[id]))
      && (pc.Written? && NilDue(s, id) ==> Gone(s, pc.c))
  {
    RunKeepsLoss(steps);
    assert LossOk(Exec(steps).value, id);
  }
}
