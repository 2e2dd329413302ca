/** The registry protocol's history is true: its log and its record of frames grow by
    what happens to the registry and on the wire, and by nothing else. */
module RegistryHistory {
  import opened Wrappers
  import opened Subscription
  import opened Registry
  import opened RegistryProtocol
  import RegistrySafety

  // The key is marked for the present generation, and was not before.
  predicate NewlyMarked(s: State, t: State, key: string) {
    && key in s.reg.subscriptions && key in t.reg.subscriptions
    && s.reg.subscriptions[key].lastWireGen != t.reg.connGen == t.reg.subscriptions[key].lastWireGen
    && t.reg.connGen > 0
  }

  // The key was tracked, is not any more, and the client is not closed.
  predicate Untracked(s: State, t: State, key: string) {
    key in s.reg.subscriptions && key !in t.reg.subscriptions && !t.reg.closed
  }

  predicate IsGrant(s: State, t: State, e: Event) {
    e.Granted? && NewlyMarked(s, t, e.key) && e.gen == t.reg.connGen && e.obj == t.reg.subscriptions[e.key].obj
  }

  // The events of a step, read off the states before and after and the step's name.
  predicate True(s: State, step: Step, t: State, e: Event) {
    match e
    case Granted(_, _, _) => IsGrant(s, t, e)
    case SendFailed(key, gen) =>
      step.SendFails? && step.a in s.sends && s.sends[step.a].key == key && s.sends[step.a].gen == gen
    case Unsubscribed(key) => Untracked(s, t, key)
  }

  lemma BeginSendLog(s: State, a: nat, key: string)
    requires RegistryInv(s.reg)
    ensures
      var (t, began) := BeginSend(s, a, key);
      && t.past.wires == s.past.wires && t.reg.subscriptions.Keys == s.reg.subscriptions.Keys
      && (forall k :: NewlyMarked(s, t, k) <==> k == key && began)
      && (if began then |t.log| == |s.log| + 1 && t.log[..|s.log|] == s.log && IsGrant(s, t, t.log[|s.log|])
          else t.log == s.log)
  {
    assert key in s.reg.subscriptions ==> Entry(s.reg, key);
  }

  // What a step adds to the log, if anything.
  function Added(s: State, t: State): seq<Event>
    requires |s.log| <= |t.log|
  {
    t.log[|s.log|..]
  }

  ghost predicate Grown(s: State, step: Step, t: State) {
    && s.log <= t.log && |Added(s, t)| <= 1
    && (forall e <- Added(s, t) :: True(s, step, t, e))
    && (step.SendFails? ==> Added(s, t) != [])
    && (forall key | NewlyMarked(s, t, key) :: Added(s, t) != [])
    && (forall key | Untracked(s, t, key) && step.Unsubscribe? :: Added(s, t) != [])
    && (forall key | Untracked(s, t, key) && step.FailedCallerRemoves? :: Added(s, t) != [])
  }

  lemma SendsGrow(s: State, step: Step)
    requires RegistryInv(s.reg) && Apply(s, step).Some? && (step.CallerSends? || step.ReplayNext?)
    ensures Grown(s, step, Apply(s, step).value)
  {
    var (a, key) := if step.CallerSends? then (step.a, s.callers[step.a].key) else (0, step.key);
    var (b, t) := (BeginSend(s, a, key).0, Apply(s, step).value);
    BeginSendLog(s, a, key);
    assert t.log == b.log && t.reg == b.reg;
    hide BeginSend, RegistryInv, Apply;
    assert forall k :: NewlyMarked(s, t, k) <==> NewlyMarked(s, b, k);
    assert forall e :: IsGrant(s, t, e) <==> IsGrant(s, b, e);
    if t.log != s.log {
      assert Added(s, t) == [t.log[|s.log|]];
    }
  }

  lemma FailGrows(s: State, a: nat)
    requires RegistryInv(s.reg) && DoFail(s, a).Some?
    ensures Grown(s, SendFails(a), DoFail(s, a).value)
  {
    RegistrySafety.FailLog(s, a);
    var t := DoFail(s, a).value;
    hide DoFail;
    assert Added(s, t) == [SendFailed(s.sends[a].key, s.sends[a].gen)];
  }

  lemma DropKeepsMarks(r: Registry, key: string, sub: Subscriber)
    ensures
      var (t, last) := Drop(r, key, sub);
      && t.connGen == r.connGen && t.closed == r.closed
      && t.subscriptions.Keys == (if last then r.subscriptions.Keys - {key} else r.subscriptions.Keys)
      && (last ==> key in r.subscriptions)
      && forall k <- t.subscriptions :: t.subscriptions[k].lastWireGen == r.subscriptions[k].lastWireGen
  {
    hide Without;
  }

  lemma DropGrows(s: State, step: Step, key: string, sub: Subscriber)
    requires RegistryInv(s.reg) && Apply(s, step).Some?
    requires step == Unsubscribe(key, sub)
             || (step.FailedCallerRemoves? && step.a in s.callers
                 && s.callers[step.a].key == key && s.callers[step.a].sub == sub)
    ensures Grown(s, step, Apply(s, step).value)
  {
    var t := Apply(s, step).value;
    var more := if Drop(s.reg, key, sub).1 then [Unsubscribed(key)] else [];
    assert t.log == s.log + more && t.reg == Drop(s.reg, key, sub).0;
    hide Apply, RegistryInv;
    DropKeepsMarks(s.reg, key, sub);
    hide Drop;
    assert Added(s, t) == more;
  }

  lemma OtherGrows(s: State, step: Step)
    requires RegistryInv(s.reg) && Apply(s, step).Some?
    requires !step.CallerSends? && !step.ReplayNext? && !step.SendFails?
    requires !step.Unsubscribe? && !step.FailedCallerRemoves?
    ensures Grown(s, step, Apply(s, step).value)
  {
    var t := Apply(s, step).value;
    assert t.log == s.log;
    forall key ensures !NewlyMarked(s, t, key) {
      assert key in s.reg.subscriptions ==> Entry(s.reg, key);
    }
  }

  /** The log is true, and complete: an entry for every mark that is set, for every
      failed send and for every key that its last subscriber leaves, and no others. */
  lemma LogIsTrue(steps: seq<Step>, step: Step)
    requires Exec(steps).Some? && Apply(Exec(steps).value, step).Some?
    ensures Grown(Exec(steps).value, step, Apply(Exec(steps).value, step).value)
  {
    RegistrySafety.RunKeepsInv(steps);
    var s := Exec(steps).value;
    hide RegistryInv, Grown, Exec, Apply;
    match step {
      case CallerSends(_) => SendsGrow(s, step);
      case ReplayNext(_) => SendsGrow(s, step);
      case SendFails(a) => FailIsApply(s, a); FailGrows(s, a);
      case Unsubscribe(key, sub) => DropGrows(s, step, key, sub);
      case FailedCallerRemoves(a) => CallerExists(s, a); DropGrows(s, step, s.callers[a].key, s.callers[a].sub);
      case _ => OtherGrows(s, step);
    }
  }

  lemma FailIsApply(s: State, a: nat)
    ensures Apply(s, SendFails(a)) == DoFail(s, a)
  {}

  lemma CallerExists(s: State, a: nat)
    requires Apply(s, FailedCallerRemoves(a)).Some?
    ensures a in s.callers
  {}

  /** And so is the record of frames: each write, and nothing else, adds the frame of
      the sender's own claim on the connection the sender had read. */
  lemma WiresAreTrue(s: State, step: Step)
    requires Apply(s, step).Some?
    ensures
      var t := Apply(s, step).value;
      if step.WriteFrame?
      then step.a in s.sends && s.sends[step.a].target.Some?
           && t.past.wires == s.past.wires[s.sends[step.a].claim := s.sends[step.a].target.value]
      else t.past.wires == s.past.wires
  {}

  /** The connection a sender reads is the live one, and it reads one at most. */
  lemma TargetIsLive(s: State, step: Step, a: nat)
    requires Apply(s, step).Some? && a in s.sends && a in Apply(s, step).value.sends
    requires Apply(s, step).value.sends[a].target != s.sends[a].target
    requires !step.CallerSends? && !step.ReplayNext?
    ensures step == ReadConn(a) && s.sends[a].target == None && s.reg.connected
    ensures Apply(s, step).value.sends[a].target == Some(s.reg.connGen)
  {}
}
