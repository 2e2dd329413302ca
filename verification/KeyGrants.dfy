/** Grants per key rather than per subscription object: a key that is dropped and
    tracked again may be granted again in one generation, and its removal upstream is
    then recorded in between. */
module KeyGrants {
  import opened Wrappers
  import opened Subscription
  import opened Registry
  import opened RegistryProtocol
  import RegistrySafety

  ghost predicate UnsubscribedAfter(log: seq<Event>, i: nat, key: string) {
    exists m :: i < m < |log| && log[m] == Unsubscribed(key)
  }

  ghost predicate UnsubscribedBetween(log: seq<Event>, i: nat, j: nat, key: string) {
    exists m :: i < m < j && m < |log| && log[m] == Unsubscribed(key)
  }

  // The subscription granted at i is the tracked one, or the key was unsubscribed
  // since; a closed client tracks nothing any more.
  ghost predicate TrackOk(s: State, i: nat)
    requires i < |s.log| && s.log[i].Granted?
  {
    var e := s.log[i];
    if e.key in s.reg.subscriptions
    then s.reg.subscriptions[e.key].obj == e.obj || UnsubscribedAfter(s.log, i, e.key)
    else s.reg.closed || UnsubscribedAfter(s.log, i, e.key)
  }

  ghost predicate Apart(log: seq<Event>) {
    forall i, j | 0 <= i < j < |log| && log[i].Granted? && log[j].Granted? && log[j].key == log[i].key ::
      log[j].obj == log[i].obj || UnsubscribedBetween(log, i, j, log[i].key)
  }

  ghost predicate Inv(s: State) {
    (forall i | 0 <= i < |s.log| && s.log[i].Granted? :: TrackOk(s, i)) && Apart(s.log)
  }

  lemma Grows(log: seq<Event>, more: seq<Event>, i: nat, key: string)
    requires UnsubscribedAfter(log, i, key)
    ensures UnsubscribedAfter(log + more, i, key)
  {
    var m :| i < m < |log| && log[m] == Unsubscribed(key);
    assert (log + more)[m] == Unsubscribed(key);
  }

  lemma ApartGrows(log: seq<Event>, more: seq<Event>)
    requires Apart(log) && forall e <- more :: !e.Granted?
    ensures Apart(log + more)
  {
    var t := log + more;
    forall i, j | 0 <= i < j < |t| && t[i].Granted? && t[j].Granted? && t[j].key == t[i].key && t[j].obj != t[i].obj
      ensures UnsubscribedBetween(t, i, j, t[i].key)
    {
      assert j < |log| && t[i] == log[i] && t[j] == log[j];
      var m :| i < m < j && m < |log| && log[m] == Unsubscribed(log[i].key);
      assert t[m] == Unsubscribed(t[i].key);
    }
  }

  // What became of key k: still the same subscription, new after none, or gone with
  // an unsubscribe or a close.
  ghost predicate KeyMoves(s: State, t: State, more: seq<Event>, k: string) {
    if k in t.reg.subscriptions
    then if k in s.reg.subscriptions then t.reg.subscriptions[k].obj == s.reg.subscriptions[k].obj else !s.reg.closed
    else t.reg.closed || Unsubscribed(k) in more || (k !in s.reg.subscriptions && !s.reg.closed)
  }

  // A step that grants nothing.
  lemma NoGrantKeeps(s: State, t: State, more: seq<Event>)
    requires Inv(s) && t.log == s.log + more && (forall e <- more :: !e.Granted?)
    requires forall k :: KeyMoves(s, t, more, k)
    ensures Inv(t)
  {
    ApartGrows(s.log, more);
    forall i | 0 <= i < |t.log| && t.log[i].Granted? ensures TrackOk(t, i) {
      assert i < |s.log| && t.log[i] == s.log[i] && TrackOk(s, i);
      var k := s.log[i].key;
      assert KeyMoves(s, t, more, k);
      if UnsubscribedAfter(s.log, i, k) {
        Grows(s.log, more, i, k);
      } else if Unsubscribed(k) in more {
        var n :| 0 <= n < |more| && more[n] == Unsubscribed(k);
        assert t.log[|s.log| + n] == Unsubscribed(k);
      }
    }
  }

  lemma BeginSendKeeps(s: State, a: nat, key: string)
    requires Inv(s)
    ensures Inv(BeginSend(s, a, key).0)
  {
    var (t, began) := BeginSend(s, a, key);
    if began {
      var g := Granted(key, s.reg.subscriptions[key].obj, s.reg.connGen);
      var n := |s.log|;
      assert t.log == s.log + [g];
      forall i | 0 <= i < |t.log| && t.log[i].Granted? ensures TrackOk(t, i) {
        if i < n {
          assert TrackOk(s, i);
          if UnsubscribedAfter(s.log, i, s.log[i].key) {
            Grows(s.log, [g], i, s.log[i].key);
          }
        }
      }
      forall i, j | 0 <= i < j < |t.log| && t.log[i].Granted? && t.log[j].Granted? && t.log[j].key == t.log[i].key
        ensures t.log[j].obj == t.log[i].obj || UnsubscribedBetween(t.log, i, j, t.log[i].key)
      {
        GrantApart(s, t, g, i, j);
      }
    }
  }

  lemma GrantApart(s: State, t: State, g: Event, i: nat, j: nat)
    requires Inv(s) && t.log == s.log + [g] && g.Granted? && g.key in s.reg.subscriptions
    requires g.obj == s.reg.subscriptions[g.key].obj
    requires i < j < |t.log| && t.log[i].Granted? && t.log[j].Granted? && t.log[j].key == t.log[i].key
    ensures t.log[j].obj == t.log[i].obj || UnsubscribedBetween(t.log, i, j, t.log[i].key)
  {
    var log := s.log;
    assert t.log[i] == log[i];
    if t.log[j].obj != t.log[i].obj {
      if j < |log| {
        assert UnsubscribedBetween(log, i, j, log[i].key);
        var m :| i < m < j && m < |log| && log[m] == Unsubscribed(log[i].key);
        assert t.log[m] == Unsubscribed(t.log[i].key);
      } else {
        assert TrackOk(s, i);
        var m :| i < m < |log| && log[m] == Unsubscribed(log[i].key);
        assert t.log[m] == Unsubscribed(t.log[i].key);
      }
    }
  }

  lemma DropKeeps(s: State, t: State, key: string, sub: Subscriber)
    requires Inv(s) && RegistryInv(s.reg)
    requires t.reg == DoDrop(s, key, sub).reg && t.log == DoDrop(s, key, sub).log
    ensures Inv(t)
  {
    var more := if Drop(s.reg, key, sub).1 then [Unsubscribed(key)] else [];
    assert t.log == s.log + more;
    assert s.reg.closed ==> t.reg.closed;
    NoGrantKeeps(s, t, more);
  }

  // The registry and the log after a send began are all of it that matters.
  lemma SameLog(s: State, t: State)
    requires Inv(s) && t.reg == s.reg && t.log == s.log
    ensures Inv(t)
  {
    forall i | 0 <= i < |t.log| && t.log[i].Granted? ensures TrackOk(t, i) {
      assert TrackOk(s, i);
    }
  }

  lemma FailKeeps(s: State, a: nat)
    requires Inv(s) && DoFail(s, a).Some?
    ensures Inv(DoFail(s, a).value)
  {
    var t := DoFail(s, a).value;
    assert t.log == s.log + [SendFailed(s.sends[a].key, s.sends[a].gen)];
    assert s.reg.closed == t.reg.closed;
    forall k ensures KeyMoves(s, t, [SendFailed(s.sends[a].key, s.sends[a].gen)], k) {
      assert k in t.reg.subscriptions <==> k in s.reg.subscriptions;
    }
    NoGrantKeeps(s, t, [SendFailed(s.sends[a].key, s.sends[a].gen)]);
  }

  // Beginning a send moves the registry and the log, and nothing else here matters.
  lemma SendsKeep(s: State, step: Step)
    requires Inv(s) && (step.CallerSends? || step.ReplayNext?) && Apply(s, step).Some?
    ensures Inv(Apply(s, step).value)
  {
    var t := Apply(s, step).value;
    if step.CallerSends? {
      BeginSendKeeps(s, step.a, s.callers[step.a].key);
      RegistrySafety.CallerSendsLog(s, step.a);
      SameLog(BeginSend(s, step.a, s.callers[step.a].key).0, t);
    } else {
      BeginSendKeeps(s, 0, step.key);
      RegistrySafety.ReplayNextLog(s, step.key);
      SameLog(BeginSend(s, 0, step.key).0, t);
    }
  }

  // Subscribe, Dial, ConnectionEnds and Close.
  lemma RegistryStepKeeps(s: State, step: Step)
    requires Inv(s) && (step.Subscribe? || step.Dial? || step.ConnectionEnds? || step.Close?) && Apply(s, step).Some?
    ensures Inv(Apply(s, step).value)
  {
    var t := Apply(s, step).value;
    assert t.log == s.log + [];
    NoGrantKeeps(s, t, []);
  }

  lemma StepKeepsInv(s: State, step: Step)
    requires Inv(s) && RegistryInv(s.reg) && Apply(s, step).Some?
    ensures Inv(Apply(s, step).value)
  {
    hide Inv, RegistryInv;
    var t := Apply(s, step).value;
    match step {
      case Subscribe(_, _) => RegistryStepKeeps(s, step);
      case CallerSends(_) => SendsKeep(s, step);
      case ReplayNext(_) => SendsKeep(s, step);
      case SendFails(a) => FailKeeps(s, a);
      case FailedCallerRemoves(a) => DropKeeps(s, t, s.callers[a].key, s.callers[a].sub);
      case Unsubscribe(key, sub) => DropKeeps(s, t, key, sub);
      case Dial => RegistryStepKeeps(s, step);
      case ConnectionEnds => RegistryStepKeeps(s, step);
      case Close => RegistryStepKeeps(s, step);
      case _ => SameLog(s, t);
    }
  }

  lemma {:induction false} RunKeepsInv(steps: seq<Step>)
    requires Exec(steps).Some?
    ensures Inv(Exec(steps).value)
  {
    if steps != [] {
      var before := steps[..|steps| - 1];
      RunKeepsInv(before);
      RegistrySafety.RunKeepsInv(before);
      StepKeepsInv(Exec(before).value, steps[|steps| - 1]);
    }
  }

  // ---------------------------------------------------------------------

  /** Grants per key: two grants for one key in one generation, whatever the
      subscription objects, have a failed send for that key and generation or an
      unsubscribe of the key between them. */
  lemma GrantUniquePerKey(steps: seq<Step>, i: nat, j: nat)
    requires Exec(steps).Some?
    requires i < j < |Exec(steps).value.log|
    requires Exec(steps).value.log[i].Granted? && Exec(steps).value.log[j].Granted?
    requires Exec(steps).value.log[i].key == Exec(steps).value.log[j].key
    requires Exec(steps).value.log[i].gen == Exec(steps).value.log[j].gen
    ensures
      var log := Exec(steps).value.log;
      exists m :: i < m < j && (log[m] == SendFailed(log[i].key, log[i].gen) || log[m] == Unsubscribed(log[i].key))
  {
    RunKeepsInv(steps);
    var log := Exec(steps).value.log;
    if log[j].obj == log[i].obj {
      RegistrySafety.GrantUnique(steps, i, j);
    } else {
      assert UnsubscribedBetween(log, i, j, log[i].key);
    }
  }

  /** Frames per key: when two subscribe frames for one key reach one connection, and
      between their grants no send for the key failed in that connection's generation
      and the key was not unsubscribed, one of the grants is older than the connection. */
  lemma DuplicateFramesPerKey(steps: seq<Step>, c: nat, d: nat)
    requires Exec(steps).Some?
    requires c < d && c in Exec(steps).value.past.wires && d in Exec(steps).value.past.wires
    requires Exec(steps).value.past.wires[c] == Exec(steps).value.past.wires[d]
    ensures
      var s := Exec(steps).value;
      var g := s.past.wires[c];
      && d < |s.log| && s.log[c].Granted? && s.log[d].Granted? && s.log[c].gen <= g && s.log[d].gen <= g
      && (s.log[c].key == s.log[d].key
          && !(exists m :: c < m < d &&
                 (s.log[m] == SendFailed(s.log[c].key, g) || s.log[m] == Unsubscribed(s.log[c].key)))
          ==> s.log[c].gen < g || s.log[d].gen < g)
  {
    RegistrySafety.DuplicateFramesAreStale(steps, c, d);
    var s := Exec(steps).value;
    var g := s.past.wires[c];
    if s.log[c].key == s.log[d].key && s.log[c].gen == g == s.log[d].gen {
      GrantUniquePerKey(steps, c, d);
    }
  }
}
