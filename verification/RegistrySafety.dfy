/** What every schedule of the registry protocol keeps: no subscription is lost, a
    mark is granted once per failure, subscribers are listed once. */
module RegistrySafety {
  import opened Wrappers
  import opened Subscription
  import opened Registry
  import opened RegistryProtocol
  import PublicClient

  // ---------------------------------------------------------------------
  // Coverage

  // The present subscription of the key was granted the present generation: it is
  // marked, or the mark was taken away again by a failure.
  ghost predicate GrantedNow(s: State, key: string)
    requires key in s.reg.subscriptions
  {
    Granted(key, s.reg.subscriptions[key].obj, s.reg.connGen) in s.log
  }

  // A Subscribe call stands between registering the key and its send.
  ghost predicate AboutToSend(s: State, key: string) {
    exists a :: a in s.callers && Committed(s.callers[a], key)
  }

  ghost predicate Committed(c: Caller, key: string) {
    c.key == key && (c.Ready? || (c.Polling? && !c.sawNil))
  }

  ghost predicate Covered(s: State, key: string) {
    || key !in s.reg.subscriptions
    || s.reg.subscriptions[key].lastWireGen == s.reg.connGen
    || GrantedNow(s, key)
    || !s.reg.connected
    || s.run.Connected?
    || ((s.run.Replaying? || s.run.ReplaySending?) && key in s.run.todo)
    || AboutToSend(s, key)
  }

  ghost predicate RunInv(s: State) {
    && (s.reg.connected <==> !s.run.Dialing?)
    && 0 !in s.callers && s.nextActor > 0
    && (forall a <- s.callers :: a < s.nextActor)
    && (forall a <- s.sends :: a < s.nextActor)
    && (0 in s.sends <==> s.run.ReplaySending?)
    && (forall a <- s.sends | a != 0 :: a in s.callers && s.callers[a].Sending?)
    && (forall a <- s.callers | s.callers[a].Sending? :: a in s.sends)
  }

  ghost predicate CoverInv(s: State) {
    forall key <- s.reg.subscriptions :: Covered(s, key)
  }

  // ---------------------------------------------------------------------
  // Grants and writes

  ghost predicate FailedAfter(log: seq<Event>, i: nat, key: string, gen: nat) {
    exists m :: i < m < |log| && log[m] == SendFailed(key, gen)
  }

  // A mark of the present generation is missing only after a failure.
  ghost predicate MarkInv(s: State) {
    forall i | 0 <= i < |s.log| && s.log[i].Granted? ::
      && s.log[i].gen <= s.reg.connGen && s.log[i].obj < s.reg.nextObj
      && (s.log[i].gen == s.reg.connGen && s.log[i].key in s.reg.subscriptions
          && s.reg.subscriptions[s.log[i].key].obj == s.log[i].obj
          && s.reg.subscriptions[s.log[i].key].lastWireGen != s.log[i].gen
          ==> FailedAfter(s.log, i, s.log[i].key, s.log[i].gen))
  }

  ghost predicate FailedBetween(log: seq<Event>, i: nat, j: nat, key: string, gen: nat) {
    exists m :: i < m < j && m < |log| && log[m] == SendFailed(key, gen)
  }

  ghost predicate GrantsApart(log: seq<Event>) {
    forall i, j | 0 <= i < j < |log| && log[i].Granted? && log[j] == log[i] ::
      FailedBetween(log, i, j, log[i].key, log[i].gen)
  }

  // Every send in flight holds its own grant, not yet written for, and goes to a
  // connection no older than the grant.
  ghost predicate SendOk(s: State, a: nat) {
    && a in s.sends
    && var d := s.sends[a];
    && d.claim < |s.log| && s.log[d.claim] == Granted(d.key, d.obj, d.gen)
    && 0 < d.gen
    && (d.target.Some? ==> d.gen <= d.target.value <= s.reg.connGen)
    && (d.written <==> d.claim in s.past.wires)
  }

  ghost predicate WireOk(s: State, c: nat) {
    && c in s.past.wires && c < |s.log| && s.log[c].Granted? && s.log[c].gen <= s.past.wires[c] <= s.reg.connGen
  }

  ghost predicate WriteInv(s: State) {
    && (forall a <- s.sends :: SendOk(s, a))
    && (forall a, b | a in s.sends && b in s.sends && a != b :: s.sends[a].claim != s.sends[b].claim)
    && (forall c <- s.past.wires :: WireOk(s, c))
    && s.past.rewrites == 0
  }

  // While the connection of a mark's generation is up, the subscribe frame behind
  // the mark has been written to it, or its sender has not looked away from it.
  ghost predicate Delivered(s: State, key: string) {
    && key in s.past.claims && key in s.reg.subscriptions
    && var (c, a) := s.past.claims[key];
    && c < |s.log| && s.log[c] == Granted(key, s.reg.subscriptions[key].obj, s.reg.connGen)
    && ((c in s.past.wires && s.past.wires[c] == s.reg.connGen) || OnItsWay(s, c, a))
  }

  ghost predicate OnItsWay(s: State, c: nat, a: nat) {
    && a in s.sends && s.sends[a].claim == c
    && (if s.sends[a].target.Some? then s.sends[a].target.value == s.reg.connGen else !s.sends[a].sawNil)
  }

  ghost predicate DeliveryInv(s: State) {
    forall key <- s.reg.subscriptions ::
      s.reg.connected && s.reg.subscriptions[key].lastWireGen == s.reg.connGen ==> Delivered(s, key)
  }

  // Removed subscribers stay removed.
  ghost predicate GoneInv(s: State) {
    && (forall sub <- s.past.gone :: sub.id <= s.reg.nextSubID)
    && (forall a <- s.callers :: s.callers[a].sub.subKey == s.callers[a].key && s.callers[a].sub.id <= s.reg.nextSubID)
    && (forall key <- s.reg.subscriptions :: forall sub <- s.reg.subscriptions[key].subs :: sub !in s.past.gone)
  }

  ghost predicate Inv(s: State) {
    RegistryInv(s.reg) && RunInv(s) && CoverInv(s) && MarkInv(s) && GrantsApart(s.log) && WriteInv(s)
    && DeliveryInv(s) && GoneInv(s)
  }

  // ---------------------------------------------------------------------
  // Preservation, one part of the invariant at a time

  // A step that leaves the registry's entry, the generation and the run loop as
  // they are, and takes no committed caller of the key away.
  lemma CoverFrame(s: State, t: State, key: string)
    requires Covered(s, key) && key in s.reg.subscriptions
    requires key in t.reg.subscriptions ==>
               && t.reg.subscriptions[key].lastWireGen == s.reg.subscriptions[key].lastWireGen
               && t.reg.subscriptions[key].obj == s.reg.subscriptions[key].obj
    requires t.reg.connGen == s.reg.connGen && t.reg.connected == s.reg.connected && t.run == s.run
    requires forall e <- s.log :: e in t.log
    requires forall a <- s.callers | Committed(s.callers[a], key) :: a in t.callers && t.callers[a] == s.callers[a]
    ensures Covered(t, key)
  {
    if AboutToSend(s, key) {
      var a :| a in s.callers && Committed(s.callers[a], key);
      assert Committed(t.callers[a], key);
    }
  }

  lemma SubscribeCovers(s: State, k: string, spec: SubscribeSpec, key: string)
    requires CoverInv(s) && RunInv(s) && DoSubscribe(s, k, spec).Some?
    requires key in DoSubscribe(s, k, spec).value.reg.subscriptions
    ensures Covered(DoSubscribe(s, k, spec).value, key)
  {
    var t := DoSubscribe(s, k, spec).value;
    if key in s.reg.subscriptions {
      CoverFrame(s, t, key);
    } else {
      assert Committed(t.callers[s.nextActor], key);
    }
  }

  lemma PollCovers(s: State, a: nat, key: string)
    requires CoverInv(s) && DoPoll(s, a).Some? && key in s.reg.subscriptions
    ensures Covered(DoPoll(s, a).value, key)
  {
    var t := DoPoll(s, a).value;
    assert Covered(s, key);
    if s.callers[a].key == key {
      if s.reg.connected {
        assert Committed(t.callers[a], key);
      }
    } else {
      CoverFrame(s, t, key);
    }
  }

  // Once its claim is decided, a caller's key no longer needs the caller.
  lemma BeginSendCovers(s: State, a: nat, k: string)
    requires k in s.reg.subscriptions && s.reg.connGen > 0
    ensures BeginSend(s, a, k).0.reg.subscriptions[k].lastWireGen == s.reg.connGen
    ensures BeginSend(s, a, k).0.reg.connGen == s.reg.connGen
  {}

  lemma CallerSendsCovers(s: State, a: nat, key: string)
    requires CoverInv(s) && RegistryInv(s.reg) && DoCallerSends(s, a).Some? && key in s.reg.subscriptions
    ensures Covered(DoCallerSends(s, a).value, key)
  {
    var t := DoCallerSends(s, a).value;
    assert Covered(s, key);
    if s.callers[a].key == key {
      if s.reg.connGen > 0 {
        BeginSendCovers(s, a, key);
      }
    } else {
      CoverFrame(s, t, key);
    }
  }

  // Only a marked subscription has a mark to lose, and it was granted.
  lemma FailCovers(s: State, a: nat, key: string)
    requires CoverInv(s) && RunInv(s) && DeliveryInv(s) && DoFail(s, a).Some? && key in s.reg.subscriptions
    ensures Covered(DoFail(s, a).value, key)
  {
    var t := DoFail(s, a).value;
    assert Covered(s, key);
    if s.reg.subscriptions[key].lastWireGen == s.reg.connGen && s.reg.connected {
      MarkedIsGranted(s, key);
      assert GrantedNow(t, key);
    } else if AboutToSend(s, key) {
      var b :| b in s.callers && Committed(s.callers[b], key);
      assert Committed(t.callers[b], key);
    }
  }

  lemma MarkedIsGranted(s: State, key: string)
    requires DeliveryInv(s) && key in s.reg.subscriptions && s.reg.connected
    requires s.reg.subscriptions[key].lastWireGen == s.reg.connGen
    ensures GrantedNow(s, key)
  {
    assert Delivered(s, key);
  }

  lemma SucceedCovers(s: State, a: nat, key: string)
    requires CoverInv(s) && RunInv(s) && DoSucceed(s, a).Some? && key in s.reg.subscriptions
    ensures Covered(DoSucceed(s, a).value, key)
  {
    var t := DoSucceed(s, a).value;
    assert Covered(s, key);
    if AboutToSend(s, key) {
      var b :| b in s.callers && Committed(s.callers[b], key);
      assert Committed(t.callers[b], key);
    }
  }

  lemma DropCovers(s: State, t: State, k: string, sub: Subscriber, key: string)
    requires CoverInv(s) && t.reg == Drop(s.reg, k, sub).0 && t.run == s.run && key in t.reg.subscriptions
    requires forall e <- s.log :: e in t.log
    requires forall a <- s.callers | !s.callers[a].Failing? :: a in t.callers && t.callers[a] == s.callers[a]
    ensures Covered(t, key)
  {
    assert key in s.reg.subscriptions;
    CoverFrame(s, t, key);
  }

  lemma ReplayNextCovers(s: State, k: string, key: string)
    requires CoverInv(s) && DoReplayNext(s, k).Some? && key in s.reg.subscriptions && s.reg.connGen > 0
    ensures Covered(DoReplayNext(s, k).value, key)
  {
    var t := DoReplayNext(s, k).value;
    assert Covered(s, key);
    if k == key {
      BeginSendCovers(s, 0, key);
    } else if AboutToSend(s, key) {
      var b :| b in s.callers && Committed(s.callers[b], key);
      assert Committed(t.callers[b], key);
    }
  }

  // FailedAfter survives appending.
  lemma FailedAfterGrows(log: seq<Event>, more: seq<Event>, i: nat, key: string, gen: nat)
    requires FailedAfter(log, i, key, gen)
    ensures FailedAfter(log + more, i, key, gen)
  {
    var m :| i < m < |log| && log[m] == SendFailed(key, gen);
    assert (log + more)[m] == SendFailed(key, gen);
  }

  ghost predicate MarkOk(s: State, i: nat)
    requires i < |s.log| && s.log[i].Granted?
  {
    var e := s.log[i];
    && e.gen <= s.reg.connGen && e.obj < s.reg.nextObj
    && (e.gen == s.reg.connGen && e.key in s.reg.subscriptions && s.reg.subscriptions[e.key].obj == e.obj
        && s.reg.subscriptions[e.key].lastWireGen != e.gen
        ==> FailedAfter(s.log, i, e.key, e.gen))
  }

  // The log grew, by no grant, and the entry of each key kept its mark or is new.
  lemma MarkFrame(s: State, t: State, more: seq<Event>)
    requires MarkInv(s) && t.log == s.log + more && (forall e <- more :: !e.Granted?)
    requires t.reg.connGen >= s.reg.connGen && t.reg.nextObj >= s.reg.nextObj
    requires forall k <- t.reg.subscriptions ::
               || t.reg.subscriptions[k].obj >= s.reg.nextObj
               || (k in s.reg.subscriptions && t.reg.subscriptions[k].obj == s.reg.subscriptions[k].obj
                   && t.reg.subscriptions[k].lastWireGen == s.reg.subscriptions[k].lastWireGen)
    ensures MarkInv(t)
  {
    forall i | 0 <= i < |t.log| && t.log[i].Granted? ensures MarkOk(t, i) {
      assert i < |s.log| && t.log[i] == s.log[i];
      if FailedAfter(s.log, i, s.log[i].key, s.log[i].gen) {
        FailedAfterGrows(s.log, more, i, s.log[i].key, s.log[i].gen);
      }
    }
  }

  lemma BeginSendMarks(s: State, a: nat, key: string)
    requires MarkInv(s) && GrantsApart(s.log) && RegistryInv(s.reg)
    ensures MarkInv(BeginSend(s, a, key).0) && GrantsApart(BeginSend(s, a, key).0.log)
  {
    var (t, began) := BeginSend(s, a, key);
    if began {
      var g := Granted(key, s.reg.subscriptions[key].obj, s.reg.connGen);
      assert Entry(s.reg, key);
      assert t.log == s.log + [g];
      forall i | 0 <= i < |t.log| && t.log[i].Granted? ensures MarkOk(t, i) {
        if i < |s.log| && FailedAfter(s.log, i, s.log[i].key, s.log[i].gen) {
          FailedAfterGrows(s.log, [g], i, s.log[i].key, s.log[i].gen);
        }
      }
      forall i, j | 0 <= i < j < |t.log| && t.log[i].Granted? && t.log[j] == t.log[i]
        ensures FailedBetween(t.log, i, j, t.log[i].key, t.log[i].gen)
      {
        if j < |s.log| {
          assert FailedBetween(s.log, i, j, s.log[i].key, s.log[i].gen);
          var m :| i < m < j && s.log[m] == SendFailed(s.log[i].key, s.log[i].gen);
          assert t.log[m] == SendFailed(t.log[i].key, t.log[i].gen);
        } else {
          assert FailedAfter(s.log, i, key, s.reg.connGen);
          var m :| i < m < |s.log| && s.log[m] == SendFailed(key, s.reg.connGen);
          assert t.log[m] == SendFailed(t.log[i].key, t.log[i].gen);
        }
      }
    }
  }

  // Growing the log by anything but a grant keeps grants apart.
  lemma ApartFrame(log: seq<Event>, more: seq<Event>)
    requires GrantsApart(log) && forall e <- more :: !e.Granted?
    ensures GrantsApart(log + more)
  {
    var t := log + more;
    forall i, j | 0 <= i < j < |t| && t[i].Granted? && t[j] == t[i]
      ensures FailedBetween(t, i, j, t[i].key, t[i].gen)
    {
      assert j < |log|;
      var m :| i < m < j && log[m] == SendFailed(log[i].key, log[i].gen);
      assert t[m] == SendFailed(t[i].key, t[i].gen);
    }
  }

  lemma FailMarks(s: State, a: nat)
    requires MarkInv(s) && DoFail(s, a).Some?
    ensures MarkInv(DoFail(s, a).value)
  {
    var t := DoFail(s, a).value;
    var f := SendFailed(s.sends[a].key, s.sends[a].gen);
    assert t.log == s.log + [f];
    forall i | 0 <= i < |t.log| && t.log[i].Granted? ensures MarkOk(t, i) {
      assert t.log[i] == s.log[i] && MarkOk(s, i);
      if f == SendFailed(s.log[i].key, s.log[i].gen) {
        assert t.log[|s.log|] == f;
        assert FailedAfter(t.log, i, f.key, f.gen);
      } else if FailedAfter(s.log, i, s.log[i].key, s.log[i].gen) {
        FailedAfterGrows(s.log, [f], i, s.log[i].key, s.log[i].gen);
      }
    }
  }

  lemma DropMarks(s: State, t: State, key: string, sub: Subscriber)
    requires RegistryInv(s.reg) && MarkInv(s) && GrantsApart(s.log)
    requires t.reg == DoDrop(s, key, sub).reg && t.log == DoDrop(s, key, sub).log
    ensures MarkInv(t) && GrantsApart(t.log)
  {
    var more := if Drop(s.reg, key, sub).1 then [Unsubscribed(key)] else [];
    assert t.log == s.log + more;
    MarkFrame(s, t, more);
    ApartFrame(s.log, more);
  }

  lemma SubscribeMarks(s: State, key: string, spec: SubscribeSpec)
    requires MarkInv(s) && GrantsApart(s.log) && DoSubscribe(s, key, spec).Some?
    ensures MarkInv(DoSubscribe(s, key, spec).value) && GrantsApart(DoSubscribe(s, key, spec).value.log)
  {
    var t := DoSubscribe(s, key, spec).value;
    assert t.log == s.log + [];
    MarkFrame(s, t, []);
  }

  lemma QuietMarks(s: State, t: State)
    requires MarkInv(s) && GrantsApart(s.log) && t.log == s.log
    requires t.reg.nextObj == s.reg.nextObj && t.reg.connGen >= s.reg.connGen
    requires t.reg.subscriptions == s.reg.subscriptions || t.reg.subscriptions == map[]
    ensures MarkInv(t) && GrantsApart(t.log)
  {
    assert t.log == s.log + [];
    MarkFrame(s, t, []);
  }

  // A step that starts no send and writes nothing.
  lemma WriteFrameKeeps(s: State, t: State)
    requires WriteInv(s) && s.log <= t.log && t.reg.connGen >= s.reg.connGen
    requires t.past.wires == s.past.wires && t.past.rewrites == s.past.rewrites
    requires forall a <- t.sends :: a in s.sends && t.sends[a] == s.sends[a]
    ensures WriteInv(t)
  {
    forall a <- t.sends ensures SendOk(t, a) {
      assert SendOk(s, a);
    }
    forall c <- t.past.wires ensures WireOk(t, c) {
      assert WireOk(s, c);
    }
  }

  lemma ReadConnWrites(s: State, a: nat)
    requires WriteInv(s) && MarkInv(s) && DoReadConn(s, a).Some?
    ensures WriteInv(DoReadConn(s, a).value)
  {
    var t := DoReadConn(s, a).value;
    assert SendOk(s, a);
    forall b <- t.sends ensures SendOk(t, b) {
      assert SendOk(s, b);
    }
    forall c <- t.past.wires ensures WireOk(t, c) {
      assert WireOk(s, c);
    }
  }

  lemma WriteWrites(s: State, a: nat)
    requires WriteInv(s) && DoWrite(s, a).Some?
    ensures WriteInv(DoWrite(s, a).value)
  {
    var t := DoWrite(s, a).value;
    assert SendOk(s, a);
    forall b <- t.sends ensures SendOk(t, b) {
      assert SendOk(s, b);
    }
    forall c <- t.past.wires ensures WireOk(t, c) {
      assert c in s.past.wires ==> WireOk(s, c);
    }
  }

  lemma BeginSendWrites(s: State, a: nat, key: string)
    requires WriteInv(s) && a !in s.sends
    ensures WriteInv(BeginSend(s, a, key).0)
  {
    var t := BeginSend(s, a, key).0;
    forall c <- s.past.wires ensures c < |s.log| {
      assert WireOk(s, c);
    }
    forall b <- t.sends ensures SendOk(t, b) {
      assert b in s.sends ==> SendOk(s, b);
    }
    forall b <- s.sends ensures s.sends[b].claim < |s.log| {
      assert SendOk(s, b);
    }
    forall c <- t.past.wires ensures WireOk(t, c) {
      assert WireOk(s, c);
    }
  }

  // A step that lets go of no unwritten send and gives no key a new mark.
  lemma DeliveryFrame(s: State, t: State)
    requires DeliveryInv(s) && s.log <= t.log && t.past.claims == s.past.claims
    requires forall k <- t.reg.subscriptions ::
               || !t.reg.connected || t.reg.subscriptions[k].lastWireGen != t.reg.connGen
               || (s.reg.connected && t.reg.connGen == s.reg.connGen && k in s.reg.subscriptions
                   && t.reg.subscriptions[k].obj == s.reg.subscriptions[k].obj
                   && t.reg.subscriptions[k].lastWireGen == s.reg.subscriptions[k].lastWireGen)
    requires forall c <- s.past.wires :: c in t.past.wires && t.past.wires[c] == s.past.wires[c]
    requires forall a <- s.sends :: a in t.sends && t.sends[a] == s.sends[a]
    ensures DeliveryInv(t)
  {
    forall k <- t.reg.subscriptions | t.reg.connected && t.reg.subscriptions[k].lastWireGen == t.reg.connGen
      ensures Delivered(t, k)
    {
      assert Delivered(s, k);
    }
  }

  lemma BeginSendDelivers(s: State, a: nat, key: string)
    requires DeliveryInv(s) && a !in s.sends
    ensures DeliveryInv(BeginSend(s, a, key).0)
  {
    var t := BeginSend(s, a, key).0;
    forall k <- t.reg.subscriptions | t.reg.connected && t.reg.subscriptions[k].lastWireGen == t.reg.connGen
      ensures Delivered(t, k)
    {
      if k != key || t == s {
        assert Delivered(s, k);
      }
    }
  }

  lemma ReadConnDelivers(s: State, a: nat)
    requires DeliveryInv(s) && DoReadConn(s, a).Some?
    ensures DeliveryInv(DoReadConn(s, a).value)
  {
    var t := DoReadConn(s, a).value;
    forall k <- t.reg.subscriptions | t.reg.connected && t.reg.subscriptions[k].lastWireGen == t.reg.connGen
      ensures Delivered(t, k)
    {
      assert Delivered(s, k);
    }
  }

  lemma WriteDelivers(s: State, a: nat)
    requires DeliveryInv(s) && WriteInv(s) && DoWrite(s, a).Some?
    ensures DeliveryInv(DoWrite(s, a).value)
  {
    var t := DoWrite(s, a).value;
    assert SendOk(s, a);
    forall k <- t.reg.subscriptions | t.reg.connected && t.reg.subscriptions[k].lastWireGen == t.reg.connGen
      ensures Delivered(t, k)
    {
      assert Delivered(s, k);
    }
  }

  // A send that has written, that looked away, or whose mark is not k's is not what
  // delivers k.
  lemma FinishedDelivers(s: State, t: State, a: nat, k: string)
    requires Delivered(s, k) && SendOk(s, a) && k in t.reg.subscriptions
    requires
      || (s.sends[a].target.None? && s.sends[a].sawNil)
      || (s.sends[a].written && WireOk(s, s.sends[a].claim))
      || k != s.sends[a].key || s.reg.connGen != s.sends[a].gen
    requires t.sends == s.sends - {a} && t.past == s.past && s.log <= t.log && t.reg.connGen == s.reg.connGen
    requires t.reg.subscriptions[k].obj == s.reg.subscriptions[k].obj
    requires s.reg.subscriptions[k].lastWireGen == s.reg.connGen
    ensures Delivered(t, k)
  {}

  lemma SucceedDelivers(s: State, a: nat)
    requires DeliveryInv(s) && WriteInv(s) && DoSucceed(s, a).Some?
    ensures DeliveryInv(DoSucceed(s, a).value)
  {
    var t := DoSucceed(s, a).value;
    assert SendOk(s, a);
    assert s.sends[a].written ==> WireOk(s, s.sends[a].claim);
    hide SendOk, WireOk, Delivered, WriteInv;
    forall k <- t.reg.subscriptions | t.reg.connected && t.reg.subscriptions[k].lastWireGen == t.reg.connGen
      ensures Delivered(t, k)
    {
      assert Delivered(s, k);
      FinishedDelivers(s, t, a, k);
    }
  }

  lemma UnclaimedKey(r: Registry, key: string, gen: nat, k: string)
    requires k in r.subscriptions && 0 < r.connGen == Unclaim(r, key, gen).subscriptions[k].lastWireGen
    ensures r.subscriptions[k].lastWireGen == r.connGen && (k != key || r.connGen != gen)
    ensures Unclaim(r, key, gen).subscriptions[k].obj == r.subscriptions[k].obj
  {}

  lemma FailDelivers(s: State, a: nat)
    requires DeliveryInv(s) && WriteInv(s) && (s.reg.connected ==> s.reg.connGen > 0) && DoFail(s, a).Some?
    ensures DeliveryInv(DoFail(s, a).value)
  {
    var t := DoFail(s, a).value;
    var d := s.sends[a];
    assert SendOk(s, a);
    assert t.reg == Unclaim(s.reg, d.key, d.gen) && t.sends == s.sends - {a} && s.log <= t.log;
    assert t.reg.subscriptions.Keys == s.reg.subscriptions.Keys && t.reg.connGen == s.reg.connGen;
    assert t.reg.connected == s.reg.connected && t.past == s.past;
    hide SendOk, Delivered, WriteInv, DoFail, Unclaim;
    forall k <- t.reg.subscriptions | t.reg.connected && t.reg.subscriptions[k].lastWireGen == t.reg.connGen
      ensures Delivered(t, k)
    {
      UnclaimedKey(s.reg, d.key, d.gen, k);
      assert Delivered(s, k);
      FinishedDelivers(s, t, a, k);
    }
  }

  lemma DropGone(s: State, key: string, sub: Subscriber)
    requires GoneInv(s) && RegistryInv(s.reg) && sub.subKey == key && sub.id <= s.reg.nextSubID
    ensures GoneInv(DoDrop(s, key, sub))
  {
    var t := DoDrop(s, key, sub);
    if key in s.reg.subscriptions {
      assert Entry(s.reg, key);
      WithoutDistinct(s.reg.subscriptions[key].subs, sub);
    }
    forall k <- t.reg.subscriptions, x <- t.reg.subscriptions[k].subs ensures x !in t.past.gone {
      assert Entry(s.reg, k);
      assert x in s.reg.subscriptions[k].subs;
    }
  }

  // ---------------------------------------------------------------------
  // Steps

  lemma SubscribeRun(s: State, k: string, spec: SubscribeSpec)
    requires RunInv(s) && DoSubscribe(s, k, spec).Some?
    ensures RunInv(DoSubscribe(s, k, spec).value)
  {}

  lemma SubscribeGone(s: State, k: string, spec: SubscribeSpec)
    requires GoneInv(s) && DoSubscribe(s, k, spec).Some?
    ensures GoneInv(DoSubscribe(s, k, spec).value)
  {}

  lemma CallerSendsRunGone(s: State, a: nat)
    requires RunInv(s) && GoneInv(s) && DoCallerSends(s, a).Some?
    ensures RunInv(DoCallerSends(s, a).value) && GoneInv(DoCallerSends(s, a).value)
  {}

  lemma ReplayNextRunGone(s: State, key: string)
    requires RunInv(s) && GoneInv(s) && DoReplayNext(s, key).Some?
    ensures RunInv(DoReplayNext(s, key).value) && GoneInv(DoReplayNext(s, key).value)
  {}

  lemma SubscribeWrites(s: State, k: string, spec: SubscribeSpec)
    requires WriteInv(s) && DeliveryInv(s) && (s.reg.connected ==> s.reg.connGen > 0) && DoSubscribe(s, k, spec).Some?
    ensures WriteInv(DoSubscribe(s, k, spec).value) && DeliveryInv(DoSubscribe(s, k, spec).value)
  {
    WriteFrameKeeps(s, DoSubscribe(s, k, spec).value);
    DeliveryFrame(s, DoSubscribe(s, k, spec).value);
  }

  lemma CallerSendsWrites(s: State, a: nat)
    requires WriteInv(s) && DeliveryInv(s) && DoCallerSends(s, a).Some? && a !in s.sends
    ensures WriteInv(DoCallerSends(s, a).value) && DeliveryInv(DoCallerSends(s, a).value)
  {
    var key := s.callers[a].key;
    BeginSendWrites(s, a, key);
    BeginSendDelivers(s, a, key);
    WriteFrameKeeps(BeginSend(s, a, key).0, DoCallerSends(s, a).value);
    DeliveryFrame(BeginSend(s, a, key).0, DoCallerSends(s, a).value);
  }

  lemma SubscribeKeeps(s: State, k: string, spec: SubscribeSpec)
    requires Inv(s) && DoSubscribe(s, k, spec).Some?
    ensures Inv(DoSubscribe(s, k, spec).value)
  {
    var t := DoSubscribe(s, k, spec).value;
    assert s.reg.connected ==> s.reg.connGen > 0;
    hide RegistryInv, RunInv, Covered, MarkInv, GrantsApart, WriteInv, DeliveryInv, GoneInv;
    RegisterKeeps(s.reg, k, spec);
    SubscribeMarks(s, k, spec);
    SubscribeRun(s, k, spec);
    SubscribeGone(s, k, spec);
    SubscribeWrites(s, k, spec);
    forall key <- t.reg.subscriptions ensures Covered(t, key) {
      SubscribeCovers(s, k, spec, key);
    }
  }

  lemma QuietGone(s: State, t: State)
    requires GoneInv(s) && t.reg == s.reg && t.past.gone == s.past.gone
    requires forall a <- t.callers ::
               a in s.callers && t.callers[a].sub == s.callers[a].sub && t.callers[a].key == s.callers[a].key
    ensures GoneInv(t)
  {}

  // A step that leaves the registry and the log alone.
  lemma QuietKeeps(s: State, t: State)
    requires Inv(s) && t.reg == s.reg && t.log == s.log && t.past.gone == s.past.gone
    requires RunInv(t) && CoverInv(t) && WriteInv(t) && DeliveryInv(t)
    requires forall a <- t.callers ::
               a in s.callers && t.callers[a].sub == s.callers[a].sub && t.callers[a].key == s.callers[a].key
    ensures Inv(t)
  {
    hide RegistryInv, RunInv, CoverInv, MarkInv, GrantsApart, WriteInv, DeliveryInv, GoneInv;
    QuietMarks(s, t);
    QuietGone(s, t);
  }

  lemma PollRun(s: State, a: nat)
    requires RunInv(s)
    ensures DoPoll(s, a).Some? ==> RunInv(DoPoll(s, a).value)
    ensures DoPollTimeout(s, a).Some? ==> RunInv(DoPollTimeout(s, a).value)
  {}

  lemma PollKeeps(s: State, a: nat)
    requires Inv(s) && DoPoll(s, a).Some?
    ensures Inv(DoPoll(s, a).value)
  {
    hide RegistryInv, RunInv, Covered, MarkInv, GrantsApart, WriteInv, DeliveryInv, GoneInv;
    var t := DoPoll(s, a).value;
    forall key <- t.reg.subscriptions ensures Covered(t, key) {
      PollCovers(s, a, key);
    }
    PollRun(s, a);
    WriteFrameKeeps(s, t);
    DeliveryFrame(s, t);
    QuietKeeps(s, t);
  }

  lemma PollTimeoutKeeps(s: State, a: nat)
    requires Inv(s) && DoPollTimeout(s, a).Some?
    ensures Inv(DoPollTimeout(s, a).value)
  {
    hide RegistryInv, RunInv, Covered, MarkInv, GrantsApart, WriteInv, DeliveryInv, GoneInv;
    var t := DoPollTimeout(s, a).value;
    forall key <- t.reg.subscriptions ensures Covered(t, key) {
      CoverFrame(s, t, key);
    }
    PollRun(s, a);
    WriteFrameKeeps(s, t);
    DeliveryFrame(s, t);
    QuietKeeps(s, t);
  }

  lemma CallerSendsKeeps(s: State, a: nat)
    requires Inv(s) && DoCallerSends(s, a).Some?
    ensures Inv(DoCallerSends(s, a).value)
  {
    assert a !in s.sends;
    hide RegistryInv, RunInv, Covered, MarkInv, GrantsApart, WriteInv, DeliveryInv, GoneInv;
    var t := DoCallerSends(s, a).value;
    var key := s.callers[a].key;
    CallerSendsRunGone(s, a);
    ClaimKeeps(s.reg, key);
    BeginSendMarks(s, a, key);
    CallerSendsWrites(s, a);
    CallerSendsLog(s, a);
    forall k <- t.reg.subscriptions ensures Covered(t, k) {
      CallerSendsCovers(s, a, k);
    }
  }

  // Beginning a send moves the registry and the log as BeginSend says.
  lemma CallerSendsLog(s: State, a: nat)
    requires DoCallerSends(s, a).Some?
    ensures
      var (t, b) := (DoCallerSends(s, a).value, BeginSend(s, a, s.callers[a].key).0);
      && t.log == b.log && t.reg == b.reg == Claim(s.reg, s.callers[a].key).0
      && t.reg.subscriptions.Keys == s.reg.subscriptions.Keys
      && (MarkInv(b) ==> MarkInv(t))
  {}

  lemma SendRun(s: State, a: nat)
    requires RunInv(s)
    ensures DoReadConn(s, a).Some? ==> RunInv(DoReadConn(s, a).value)
    ensures DoWrite(s, a).Some? ==> RunInv(DoWrite(s, a).value)
  {}

  lemma ReadConnKeeps(s: State, a: nat)
    requires Inv(s) && DoReadConn(s, a).Some?
    ensures Inv(DoReadConn(s, a).value)
  {
    hide RegistryInv, RunInv, Covered, MarkInv, GrantsApart, WriteInv, DeliveryInv, GoneInv;
    var t := DoReadConn(s, a).value;
    forall key <- t.reg.subscriptions ensures Covered(t, key) {
      CoverFrame(s, t, key);
    }
    SendRun(s, a);
    ReadConnWrites(s, a);
    ReadConnDelivers(s, a);
    QuietKeeps(s, t);
  }

  lemma WriteKeeps(s: State, a: nat)
    requires Inv(s) && DoWrite(s, a).Some?
    ensures Inv(DoWrite(s, a).value)
  {
    hide RegistryInv, RunInv, Covered, MarkInv, GrantsApart, WriteInv, DeliveryInv, GoneInv;
    var t := DoWrite(s, a).value;
    forall key <- t.reg.subscriptions ensures Covered(t, key) {
      CoverFrame(s, t, key);
    }
    SendRun(s, a);
    WriteWrites(s, a);
    WriteDelivers(s, a);
    QuietKeeps(s, t);
  }

  lemma FinishRun(s: State, a: nat, ok: bool)
    requires RunInv(s) && a in s.sends
    ensures RunInv(Finish(s, a, ok))
    ensures var t := Finish(s, a, ok); forall b <- t.callers ::
              b in s.callers && t.callers[b].sub == s.callers[b].sub && t.callers[b].key == s.callers[b].key
  {}

  lemma SucceedKeeps(s: State, a: nat)
    requires Inv(s) && DoSucceed(s, a).Some?
    ensures Inv(DoSucceed(s, a).value)
  {
    hide RegistryInv, RunInv, Covered, MarkInv, GrantsApart, WriteInv, DeliveryInv, GoneInv;
    var t := DoSucceed(s, a).value;
    forall key <- t.reg.subscriptions ensures Covered(t, key) {
      SucceedCovers(s, a, key);
    }
    FinishRun(s, a, true);
    WriteFrameKeeps(s, t);
    SucceedDelivers(s, a);
    QuietKeeps(s, t);
  }

  lemma FailRunGone(s: State, a: nat)
    requires RunInv(s) && GoneInv(s) && DoFail(s, a).Some?
    ensures RunInv(DoFail(s, a).value) && GoneInv(DoFail(s, a).value)
  {
    FinishRun(s, a, false);
  }

  lemma FailLog(s: State, a: nat)
    requires DoFail(s, a).Some?
    ensures
      var (t, d) := (DoFail(s, a).value, s.sends[a]);
      && t.log == s.log + [SendFailed(d.key, d.gen)] && t.reg == Unclaim(s.reg, d.key, d.gen)
      && t.reg.subscriptions.Keys == s.reg.subscriptions.Keys && t.reg.connGen == s.reg.connGen
      && t.past == s.past && t.sends == s.sends - {a}
  {}

  lemma FailKeeps(s: State, a: nat)
    requires Inv(s) && DoFail(s, a).Some?
    ensures Inv(DoFail(s, a).value)
  {
    var t := DoFail(s, a).value;
    assert s.reg.connected ==> s.reg.connGen > 0;
    FailLog(s, a);
    hide RegistryInv, RunInv, Covered, MarkInv, GrantsApart, WriteInv, DeliveryInv, GoneInv, Unclaim, DoFail;
    UnclaimKeeps(s.reg, s.sends[a].key, s.sends[a].gen);
    FailMarks(s, a);
    ApartFrame(s.log, [SendFailed(s.sends[a].key, s.sends[a].gen)]);
    WriteFrameKeeps(s, t);
    FailDelivers(s, a);
    FailRunGone(s, a);
    forall key <- t.reg.subscriptions ensures Covered(t, key) {
      FailCovers(s, a, key);
    }
  }

  lemma DropDelivers(s: State, t: State, key: string, sub: Subscriber)
    requires DeliveryInv(s) && t == DoDrop(s, key, sub).(callers := t.callers)
    ensures DeliveryInv(t)
  {
    DeliveryFrame(s, t);
  }

  lemma DropRunGone(s: State, t: State, key: string, sub: Subscriber)
    requires RunInv(s) && GoneInv(DoDrop(s, key, sub)) && t == DoDrop(s, key, sub).(callers := t.callers)
    requires forall a <- t.callers :: a in s.callers && t.callers[a] == s.callers[a]
    requires forall a <- s.callers | !s.callers[a].Failing? :: a in t.callers
    ensures RunInv(t) && GoneInv(t)
  {}

  lemma DropKeepsInv(s: State, t: State, key: string, sub: Subscriber)
    requires Inv(s) && sub.subKey == key && sub.id <= s.reg.nextSubID
    requires t == DoDrop(s, key, sub).(callers := t.callers)
    requires forall a <- t.callers :: a in s.callers && t.callers[a] == s.callers[a]
    requires forall a <- s.callers | !s.callers[a].Failing? :: a in t.callers
    ensures Inv(t)
  {
    hide RegistryInv, RunInv, Covered, MarkInv, GrantsApart, WriteInv, DeliveryInv, GoneInv;
    DropKeeps(s.reg, key, sub);
    DropMarks(s, t, key, sub);
    WriteFrameKeeps(s, t);
    DropGone(s, key, sub);
    DropRunGone(s, t, key, sub);
    DropDelivers(s, t, key, sub);
    forall k <- t.reg.subscriptions ensures Covered(t, k) {
      DropCovers(s, t, key, sub, k);
    }
  }

  lemma ReplayNextWrites(s: State, key: string)
    requires WriteInv(s) && DeliveryInv(s) && DoReplayNext(s, key).Some?
    ensures WriteInv(DoReplayNext(s, key).value) && DeliveryInv(DoReplayNext(s, key).value)
  {
    var t := DoReplayNext(s, key).value;
    BeginSendWrites(s, 0, key);
    WriteFrameKeeps(BeginSend(s, 0, key).0, t);
    BeginSendDelivers(s, 0, key);
    DeliveryFrame(BeginSend(s, 0, key).0, t);
  }

  lemma ReplayNextLog(s: State, key: string)
    requires DoReplayNext(s, key).Some?
    ensures
      var (t, b) := (DoReplayNext(s, key).value, BeginSend(s, 0, key).0);
      && t.log == b.log && t.reg == b.reg == Claim(s.reg, key).0
      && t.reg.subscriptions.Keys == s.reg.subscriptions.Keys
      && (MarkInv(b) ==> MarkInv(t))
  {}

  lemma ReplayNextKeeps(s: State, key: string)
    requires Inv(s) && DoReplayNext(s, key).Some?
    ensures Inv(DoReplayNext(s, key).value)
  {
    var t := DoReplayNext(s, key).value;
    assert s.reg.connGen > 0;
    hide RegistryInv, RunInv, Covered, MarkInv, GrantsApart, WriteInv, DeliveryInv, GoneInv;
    ReplayNextRunGone(s, key);
    ClaimKeeps(s.reg, key);
    BeginSendMarks(s, 0, key);
    ReplayNextWrites(s, key);
    ReplayNextLog(s, key);
    forall k <- t.reg.subscriptions ensures Covered(t, k) {
      ReplayNextCovers(s, key, k);
    }
  }

  // The run loop connects, takes its snapshot, ends its replay, disconnects; or the
  // client is closed.
  predicate RunLoopStep(s: State, t: State) {
    || DoDial(s) == Some(t) || DoSnapshot(s) == Some(t) || DoReplayEnds(s) == Some(t)
    || DoConnectionEnds(s) == Some(t) || t == s.(reg := CloseAll(s.reg))
  }

  lemma RunLoopRunGone(s: State, t: State)
    requires RunInv(s) && GoneInv(s) && t == s.(run := t.run, reg := t.reg) && RunLoopStep(s, t)
    ensures RunInv(t) && GoneInv(t)
  {}

  lemma RunLoopRegistry(s: State, t: State)
    requires RegistryInv(s.reg) && RunLoopStep(s, t)
    ensures RegistryInv(t.reg)
    ensures t.reg.nextObj == s.reg.nextObj && t.reg.connGen >= s.reg.connGen
    ensures t.reg.subscriptions == s.reg.subscriptions || t.reg.subscriptions == map[]
  {
    hide RegistryInv;
    ConnectionKeeps(s.reg);
  }

  lemma RunLoopDelivers(s: State, t: State)
    requires DeliveryInv(s) && RegistryInv(s.reg) && t == s.(run := t.run, reg := t.reg) && RunLoopStep(s, t)
    ensures DeliveryInv(t)
  {
    assert forall k <- s.reg.subscriptions :: Entry(s.reg, k);
    DeliveryFrame(s, t);
  }

  lemma RunLoopCovers(s: State, t: State, k: string)
    requires Covered(s, k) && t == s.(run := t.run, reg := t.reg) && RunLoopStep(s, t)
    requires RunInv(s) && k in t.reg.subscriptions && k in s.reg.subscriptions
    ensures Covered(t, k)
  {
    if AboutToSend(s, k) {
      var a :| a in s.callers && Committed(s.callers[a], k);
      assert Committed(t.callers[a], k);
    }
  }

  lemma RunLoopKeeps(s: State, t: State)
    requires Inv(s)
    requires t == s.(run := t.run, reg := t.reg) && RunLoopStep(s, t)
    ensures Inv(t)
  {
    hide RegistryInv, RunInv, Covered, MarkInv, GrantsApart, WriteInv, DeliveryInv, GoneInv, RunLoopStep;
    RunLoopRegistry(s, t);
    QuietMarks(s, t);
    WriteFrameKeeps(s, t);
    RunLoopDelivers(s, t);
    RunLoopRunGone(s, t);
    forall k <- t.reg.subscriptions ensures Covered(t, k) {
      RunLoopCovers(s, t, k);
    }
  }

  lemma StepKeepsInv(s: State, step: Step)
    requires Inv(s) && Apply(s, step).Some?
    ensures Inv(Apply(s, step).value)
  {
    match step {
      case Subscribe(key, spec) => SubscribeKeeps(s, key, spec);
      case Poll(a) => PollKeeps(s, a);
      case PollTimeout(a) => PollTimeoutKeeps(s, a);
      case CallerSends(a) => CallerSendsKeeps(s, a);
      case ReadConn(a) => ReadConnKeeps(s, a);
      case WriteFrame(a) => WriteKeeps(s, a);
      case SendSucceeds(a) => SucceedKeeps(s, a);
      case SendFails(a) => FailKeeps(s, a);
      case FailedCallerRemoves(a) => FailedCallerKeeps(s, a);
      case Unsubscribe(key, sub) => DropKeepsInv(s, Apply(s, step).value, key, sub);
      case ReplayNext(key) => ReplayNextKeeps(s, key);
      case _ => RunLoopKeeps(s, Apply(s, step).value);
    }
  }

  lemma FailedCallerKeeps(s: State, a: nat)
    requires Inv(s) && DoFailedCaller(s, a).Some?
    ensures Inv(DoFailedCaller(s, a).value)
  {
    DropKeepsInv(s, DoFailedCaller(s, a).value, s.callers[a].key, s.callers[a].sub);
  }

  lemma {:induction false} RunKeepsInv(steps: seq<Step>)
    requires Exec(steps).Some?
    ensures Inv(Exec(steps).value)
  {
    if steps != [] {
      RunKeepsInv(steps[..|steps| - 1]);
      StepKeepsInv(Exec(steps[..|steps| - 1]).value, steps[|steps| - 1]);
    }
  }

  // ---------------------------------------------------------------------
  // Main results: every state that any schedule of steps can reach

  // The present subscription of the key was granted generation gen, and after that
  // a send for the key failed in it.
  ghost predicate FailedSinceGrant(s: State, key: string)
    requires key in s.reg.subscriptions
  {
    exists i: nat ::
      && i < |s.log| && s.log[i] == Granted(key, s.reg.subscriptions[key].obj, s.reg.connGen)
      && FailedAfter(s.log, i, key, s.reg.connGen)
  }

  lemma GrantedMeansMarkedOrFailed(s: State, key: string)
    requires MarkInv(s) && key in s.reg.subscriptions && GrantedNow(s, key)
    ensures s.reg.subscriptions[key].lastWireGen == s.reg.connGen || FailedSinceGrant(s, key)
  {
    var i: nat :| i < |s.log| && s.log[i] == Granted(key, s.reg.subscriptions[key].obj, s.reg.connGen);
    assert MarkOk(s, i);
  }

  /** No subscription is lost. Once resubscribeAll has returned and its connection
      is still c.conn, every tracked key that no Subscribe call is about to send for
      either carries this generation's mark and its subscribe frame was written to
      this very connection (or its sender holds the connection and is about to
      write), or the present subscription was granted this generation and a send
      failed after that. Callers whose wait for a connection timed out need no
      exception. */
  lemma NoSubscriptionLost(steps: seq<Step>, key: string)
    requires Exec(steps).Some?
    requires Exec(steps).value.run.Serving? && key in Exec(steps).value.reg.subscriptions
    requires !AboutToSend(Exec(steps).value, key)
    ensures
      var s := Exec(steps).value;
      || FailedSinceGrant(s, key)
      || (s.reg.subscriptions[key].lastWireGen == s.reg.connGen && Delivered(s, key))
  {
    RunKeepsInv(steps);
    var s := Exec(steps).value;
    assert Covered(s, key);
    if s.reg.subscriptions[key].lastWireGen != s.reg.connGen {
      GrantedMeansMarkedOrFailed(s, key);
    }
  }

  /** Wire-grant uniqueness: two grants to one subscription in one generation are
      separated by a failed send for that key in that generation. */
  lemma GrantUnique(steps: seq<Step>, i: nat, j: nat)
    requires Exec(steps).Some?
    requires i < j < |Exec(steps).value.log| && Exec(steps).value.log[i].Granted?
    requires Exec(steps).value.log[j] == Exec(steps).value.log[i]
    ensures
      var log := Exec(steps).value.log;
      exists m :: i < m < j && log[m] == SendFailed(log[i].key, log[i].gen)
  {
    RunKeepsInv(steps);
    var log := Exec(steps).value.log;
    assert FailedBetween(log, i, j, log[i].key, log[i].gen);
  }

  /** Frames against grants: a grant is written at most once, to a connection no
      older than itself; so two frames for one subscription on one connection, with
      no failure between their grants, include one whose grant is older than the
      connection it reached. */
  lemma DuplicateFramesAreStale(steps: seq<Step>, c: nat, d: nat)
    requires Exec(steps).Some?
    requires c < d && c in Exec(steps).value.past.wires && d in Exec(steps).value.past.wires
    requires Exec(steps).value.past.wires[c] == Exec(steps).value.past.wires[d]
    ensures
      var s := Exec(steps).value;
      var g := s.past.wires[c];
      && s.past.rewrites == 0
      && d < |s.log| && s.log[c].Granted? && s.log[d].Granted?
      && s.log[c].gen <= g && s.log[d].gen <= g
      && (s.log[c].key == s.log[d].key && s.log[c].obj == s.log[d].obj
          && !(exists m :: c < m < d && s.log[m] == SendFailed(s.log[c].key, g))
          ==> s.log[c].gen < g || s.log[d].gen < g)
  {
    RunKeepsInv(steps);
    var s := Exec(steps).value;
    assert WireOk(s, c) && WireOk(s, d);
    if s.log[c] == s.log[d] {
      assert FailedBetween(s.log, c, d, s.log[c].key, s.log[c].gen);
    }
  }

  /** A mark never runs ahead of the generation, and a step takes it away only by
      the failure of a send claimed in that same generation, or by a newer claim. */
  lemma MarkOnlyClearedByOwnFailure(steps: seq<Step>, step: Step, key: string)
    requires Exec(steps).Some? && Apply(Exec(steps).value, step).Some?
    requires key in Exec(steps).value.reg.subscriptions
    ensures
      var s, t := Exec(steps).value, Apply(Exec(steps).value, step).value;
      var mark := s.reg.subscriptions[key].lastWireGen;
      && mark <= s.reg.connGen
      && (key in t.reg.subscriptions && t.reg.subscriptions[key].lastWireGen != mark ==>
            || t.reg.subscriptions[key].lastWireGen == s.reg.connGen > mark
            || (step.SendFails? && s.sends[step.a].key == key && s.sends[step.a].gen == mark))
  {
    RunKeepsInv(steps);
    MarkStep(Exec(steps).value, step, key);
  }

  /** A failure leaves the way open for another try: after a failed send the key, if
      it is still tracked, no longer carries the mark of that send, and as long as
      the generation is the same the next call can claim it. */
  lemma RetryIsPossible(steps: seq<Step>, a: nat)
    requires Exec(steps).Some? && Apply(Exec(steps).value, SendFails(a)).Some?
    ensures
      var s, t := Exec(steps).value, Apply(Exec(steps).value, SendFails(a)).value;
      var d := s.sends[a];
      d.key in t.reg.subscriptions ==>
        && t.reg.subscriptions[d.key].lastWireGen != d.gen
        && (d.gen == t.reg.connGen ==> Claim(t.reg, d.key).1 == Some(d.gen))
  {
    RunKeepsInv(steps);
    var s := Exec(steps).value;
    hide RegistryInv, RunInv, CoverInv, MarkInv, GrantsApart, DeliveryInv, GoneInv, Exec;
    assert SendOk(s, a);
  }

  // What a step may do to a mark.
  predicate MarkMoves(s: State, t: State, step: Step, key: string)
    requires key in s.reg.subscriptions
  {
    var mark := s.reg.subscriptions[key].lastWireGen;
    key in t.reg.subscriptions && t.reg.subscriptions[key].lastWireGen != mark ==>
      || t.reg.subscriptions[key].lastWireGen == s.reg.connGen > mark
      || (step.SendFails? && step.a in s.sends && s.sends[step.a].key == key && s.sends[step.a].gen == mark)
  }

  lemma SendMarkMoves(s: State, step: Step, key: string)
    requires Apply(s, step).Some? && key in s.reg.subscriptions
    requires s.reg.subscriptions[key].lastWireGen <= s.reg.connGen
    requires step.CallerSends? || step.ReplayNext?
    ensures MarkMoves(s, Apply(s, step).value, step, key)
  {}

  lemma FailMarkMoves(s: State, a: nat, key: string)
    requires DoFail(s, a).Some? && key in s.reg.subscriptions
    ensures MarkMoves(s, DoFail(s, a).value, SendFails(a), key)
  {
    FailLog(s, a);
    hide DoFail;
  }

  lemma OtherMarkMoves(s: State, step: Step, key: string)
    requires Apply(s, step).Some? && key in s.reg.subscriptions
    requires !step.CallerSends? && !step.ReplayNext? && !step.SendFails?
    ensures MarkMoves(s, Apply(s, step).value, step, key)
  {}

  lemma MarkStep(s: State, step: Step, key: string)
    requires RegistryInv(s.reg) && Apply(s, step).Some? && key in s.reg.subscriptions
    ensures s.reg.subscriptions[key].lastWireGen <= s.reg.connGen
    ensures MarkMoves(s, Apply(s, step).value, step, key)
  {
    assert Entry(s.reg, key);
    hide MarkMoves, RegistryInv;
    match step {
      case SendFails(a) => FailMarkMoves(s, a, key);
      case CallerSends(a) => SendMarkMoves(s, step, key);
      case ReplayNext(k) => SendMarkMoves(s, step, key);
      case _ => OtherMarkMoves(s, step, key);
    }
  }

  /** Whatever has happened, every tracked subscription has a subscriber, and a
      subscriber is listed under its own key only and once at most; so FanOut's
      contract holds of every reachable registry. */
  lemma EachSubscriberListedOnce(steps: seq<Step>, key: string, sub: Subscriber)
    requires Exec(steps).Some? && key in Exec(steps).value.reg.subscriptions
    ensures
      var s := Exec(steps).value;
      var subs := s.reg.subscriptions[key].subs;
      && subs != []
      && multiset(subs)[sub] == (if sub in subs then 1 else 0)
      && (sub in subs ==> sub.subKey == key)
      && RegistryInv(s.reg)
  {
    RunKeepsInv(steps);
    var s := Exec(steps).value;
    assert Entry(s.reg, key);
    PublicClient.ListedOnce(s.reg.subscriptions[key].subs, sub);
  }

  /** Calling an unsubscribe function again, at any later time, changes nothing in
      the registry and sends nothing. */
  lemma UnsubscribeTwice(before: seq<Step>, key: string, sub: Subscriber, after: seq<Step>)
    requires Exec(before + [Unsubscribe(key, sub)] + after).Some?
    ensures
      var s := Exec(before + [Unsubscribe(key, sub)] + after).value;
      Drop(s.reg, key, sub) == (s.reg, false)
  {
    var steps := before + [Unsubscribe(key, sub)] + after;
    RunKeepsInv(steps);
    StaysGone(before, key, sub, after);
    DropAgain(Exec(steps).value.reg, key, sub);
  }

  lemma {:induction false} StaysGone(before: seq<Step>, key: string, sub: Subscriber, after: seq<Step>)
    requires Exec(before + [Unsubscribe(key, sub)] + after).Some?
    ensures sub in Exec(before + [Unsubscribe(key, sub)] + after).value.past.gone
  {
    var steps := before + [Unsubscribe(key, sub)] + after;
    if after == [] {
      assert steps[..|steps| - 1] == before;
    } else {
      assert steps[..|steps| - 1] == before + [Unsubscribe(key, sub)] + after[..|after| - 1];
      StaysGone(before, key, sub, after[..|after| - 1]);
      GoneForEver(Exec(steps[..|steps| - 1]).value, steps[|steps| - 1], sub);
    }
  }

  lemma GoneForEver(s: State, step: Step, sub: Subscriber)
    requires Apply(s, step).Some? && sub in s.past.gone
    ensures sub in Apply(s, step).value.past.gone
  {
    match step {
      case CallerSends(a) =>
      case ReplayNext(k) =>
      case FailedCallerRemoves(a) =>
      case _ =>
    }
  }
}
