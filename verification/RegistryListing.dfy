/** Who is listed, and so who receives what: a subscriber that a Subscribe call made
    stays listed until it is unsubscribed, its own call fails, or the client closes. */
module RegistryListing {
  import opened Wrappers
  import opened Subscription
  import opened Registry
  import opened RegistryProtocol
  import RegistrySafety
  import PublicClient

  // ---------------------------------------------------------------------
  // What the schedule alone says

  // The subscribers that the Subscribe calls made, numbered in order, each with the
  // spec its own caller asked for.
  function Made(steps: seq<Step>): map<Subscriber, SubscribeSpec> {
    if steps == [] then map[]
    else
      var m := Made(steps[..|steps| - 1]);
      match steps[|steps| - 1]
      case Subscribe(key, spec) => m[Subscriber(|m| + 1, key) := spec]
      case _ => m
  }

  // The subscriber was unsubscribed, or removed by its own call after its send failed.
  predicate Removed(steps: seq<Step>, sub: Subscriber) {
    Unsubscribe(sub.subKey, sub) in steps || FailedCallerRemoves(sub.id) in steps
  }

  predicate Live(steps: seq<Step>, sub: Subscriber) {
    sub in Made(steps) && !Removed(steps, sub) && Close !in steps
  }

  // ---------------------------------------------------------------------
  // Invariant

  ghost predicate OneEach(made: map<Subscriber, SubscribeSpec>) {
    forall sub, other | sub in made && other in made && sub.id == other.id :: sub == other
  }

  ghost predicate MadeInv(steps: seq<Step>, r: Registry) {
    && |Made(steps)| == r.nextSubID && OneEach(Made(steps))
    && (forall sub <- Made(steps) :: 0 < sub.id <= r.nextSubID)
    && (forall sub | Removed(steps, sub) :: sub.id <= r.nextSubID)
  }

  ghost predicate ListInv(steps: seq<Step>, r: Registry) {
    && (r.closed <==> Close in steps)
    && (forall sub :: Listed(r, sub) <==> Live(steps, sub))
  }

  ghost predicate SpecInv(steps: seq<Step>, r: Registry) {
    && (forall key <- r.subscriptions :: Subscribe(key, r.subscriptions[key].spec) in steps)
    && (forall sub <- Made(steps) :: Subscribe(sub.subKey, Made(steps)[sub]) in steps)
  }

  // Every Subscribe call is the actor with the number of its subscriber.
  ghost predicate CallInv(steps: seq<Step>, s: State) {
    && s.nextActor == s.reg.nextSubID + 1
    && (forall a <- s.callers :: s.callers[a].sub.id == a && s.callers[a].sub in Made(steps))
  }

  ghost predicate Inv(steps: seq<Step>, s: State) {
    MadeInv(steps, s.reg) && ListInv(steps, s.reg) && SpecInv(steps, s.reg) && CallInv(steps, s)
  }

  lemma Longer(steps: seq<Step>, step: Step)
    ensures forall x :: x in steps + [step] <==> x in steps || x == step
  {}

  lemma MadeLonger(steps: seq<Step>, step: Step)
    ensures !step.Subscribe? ==> Made(steps + [step]) == Made(steps)
    ensures step.Subscribe? ==>
              Made(steps + [step]) == Made(steps)[Subscriber(|Made(steps)| + 1, step.key) := step.spec]
  {
    assert (steps + [step])[..|steps|] == steps;
  }

  lemma RemovedLonger(steps: seq<Step>, step: Step, sub: Subscriber)
    ensures Removed(steps + [step], sub)
            <==> Removed(steps, sub) || step == Unsubscribe(sub.subKey, sub) || step == FailedCallerRemoves(sub.id)
    ensures Close in steps + [step] <==> Close in steps || step == Close
  {}

  // The lists are as they were.
  ghost predicate SameLists(r: Registry, t: Registry) {
    && t.nextSubID == r.nextSubID && t.closed == r.closed
    && t.subscriptions.Keys == r.subscriptions.Keys
    && forall key <- r.subscriptions ::
         && t.subscriptions[key].subs == r.subscriptions[key].subs
         && t.subscriptions[key].spec == r.subscriptions[key].spec
  }

  predicate IsQuiet(step: Step) {
    !step.Subscribe? && !step.Unsubscribe? && !step.FailedCallerRemoves? && !step.Close?
  }

  // A step that makes no subscriber.
  lemma MadeFrame(steps: seq<Step>, step: Step, r: Registry, t: Registry)
    requires MadeInv(steps, r) && !step.Subscribe? && t.nextSubID == r.nextSubID
    requires step.Unsubscribe? ==> step.sub.id <= r.nextSubID
    requires step.FailedCallerRemoves? ==> step.a <= r.nextSubID
    ensures MadeInv(steps + [step], t)
  {
    MadeLonger(steps, step);
    hide Made, Removed, OneEach;
    forall sub | Removed(steps + [step], sub) ensures sub.id <= r.nextSubID {
      RemovedLonger(steps, step, sub);
    }
  }

  lemma SpecFrame(steps: seq<Step>, step: Step, r: Registry, t: Registry)
    requires SpecInv(steps, r) && !step.Subscribe? && t.subscriptions.Keys <= r.subscriptions.Keys
    requires forall key <- t.subscriptions :: t.subscriptions[key].spec == r.subscriptions[key].spec
    ensures SpecInv(steps + [step], t)
  {
    MadeLonger(steps, step);
    Longer(steps, step);
    hide Made;
  }

  lemma LiveFrame(steps: seq<Step>, step: Step, sub: Subscriber)
    requires IsQuiet(step)
    ensures Live(steps + [step], sub) <==> Live(steps, sub)
  {
    MadeLonger(steps, step);
    RemovedLonger(steps, step, sub);
    hide Made, Removed;
  }

  lemma QuietKeeps(steps: seq<Step>, step: Step, r: Registry, t: Registry)
    requires MadeInv(steps, r) && ListInv(steps, r) && SpecInv(steps, r)
    requires SameLists(r, t) && IsQuiet(step)
    ensures MadeInv(steps + [step], t) && ListInv(steps + [step], t) && SpecInv(steps + [step], t)
  {
    MadeFrame(steps, step, r, t);
    SpecFrame(steps, step, r, t);
    Longer(steps, step);
    hide MadeInv, SpecInv, Live;
    forall sub ensures Listed(t, sub) <==> Live(steps + [step], sub) {
      LiveFrame(steps, step, sub);
      assert Listed(t, sub) <==> Listed(r, sub);
    }
  }

  lemma OneMore(m: map<Subscriber, SubscribeSpec>, sub: Subscriber, spec: SubscribeSpec)
    requires OneEach(m) && forall other <- m :: other.id < sub.id
    ensures OneEach(m[sub := spec]) && |m[sub := spec]| == |m| + 1 && sub !in m
  {
    assert m[sub := spec].Keys == m.Keys + {sub};
  }

  lemma SubscribeMakes(steps: seq<Step>, r: Registry, step: Step)
    requires MadeInv(steps, r) && step.Subscribe?
    ensures
      var (sub, made) := (Subscriber(r.nextSubID + 1, step.key), Made(steps + [step]));
      && made == Made(steps)[sub := step.spec] && |made| == r.nextSubID + 1 && OneEach(made)
      && sub !in Made(steps) && !Removed(steps, sub)
  {
    hide Removed, Made, OneEach;
    MadeLonger(steps, step);
    OneMore(Made(steps), Subscriber(r.nextSubID + 1, step.key), step.spec);
  }

  lemma SubscribeLive(steps: seq<Step>, step: Step, made: Subscriber, sub: Subscriber)
    requires step.Subscribe? && Close !in steps && !Removed(steps, made)
    requires Made(steps + [step]).Keys == Made(steps).Keys + {made}
    ensures Live(steps + [step], sub) <==> Live(steps, sub) || sub == made
  {
    RemovedLonger(steps, step, sub);
    hide Made, Removed;
  }

  lemma SubscribeKeepsLists(steps: seq<Step>, r: Registry, key: string, spec: SubscribeSpec)
    requires MadeInv(steps, r) && ListInv(steps, r) && !r.closed
    ensures ListInv(steps + [Subscribe(key, spec)], Register(r, key, spec).0)
  {
    var (step, t) := (Subscribe(key, spec), Register(r, key, spec).0);
    assert t.closed == r.closed && Register(r, key, spec).1 == Subscriber(r.nextSubID + 1, key);
    hide Made, Listed, Live, Removed, MadeInv, Register;
    SubscribeMakes(steps, r, step);
    RemovedLonger(steps, step, Subscriber(0, key));
    forall sub ensures Listed(t, sub) <==> Live(steps + [step], sub) {
      RegisterLists(r, key, spec, sub);
      SubscribeLive(steps, step, Subscriber(r.nextSubID + 1, key), sub);
    }
  }

  lemma SubscribeKeepsMade(steps: seq<Step>, r: Registry, key: string, spec: SubscribeSpec)
    requires MadeInv(steps, r)
    ensures MadeInv(steps + [Subscribe(key, spec)], Register(r, key, spec).0)
  {
    var step := Subscribe(key, spec);
    SubscribeMakes(steps, r, step);
    assert Register(r, key, spec).0.nextSubID == r.nextSubID + 1;
    hide Made, Removed, Register, OneEach;
    forall sub | Removed(steps + [step], sub) ensures sub.id <= r.nextSubID {
      RemovedLonger(steps, step, sub);
    }
  }

  lemma SubscribeKeepsSpecs(steps: seq<Step>, r: Registry, key: string, spec: SubscribeSpec)
    requires MadeInv(steps, r) && SpecInv(steps, r)
    ensures SpecInv(steps + [Subscribe(key, spec)], Register(r, key, spec).0)
  {
    var (step, t) := (Subscribe(key, spec), Register(r, key, spec).0);
    SubscribeMakes(steps, r, step);
    hide Made, MadeInv, Removed, Register;
    forall k <- t.subscriptions ensures Subscribe(k, t.subscriptions[k].spec) in steps + [step] {
      RegisterSpecs(r, key, spec, k);
      StaysIn(steps, step, Subscribe(k, t.subscriptions[k].spec));
    }
    var made := Made(steps + [step]);
    forall sub <- made ensures Subscribe(sub.subKey, made[sub]) in steps + [step] {
      StaysIn(steps, step, Subscribe(sub.subKey, made[sub]));
    }
  }

  lemma StaysIn(steps: seq<Step>, step: Step, x: Step)
    requires x in steps || x == step
    ensures x in steps + [step]
  {}

  lemma RegisterSpecs(r: Registry, key: string, spec: SubscribeSpec, k: string)
    requires k in Register(r, key, spec).0.subscriptions
    ensures
      var t := Register(r, key, spec).0;
      if k in r.subscriptions then t.subscriptions[k].spec == r.subscriptions[k].spec
      else k == key && t.subscriptions[k].spec == spec
  {}

  predicate Removes(steps: seq<Step>, step: Step, sub: Subscriber) {
    step == Unsubscribe(sub.subKey, sub) || (step == FailedCallerRemoves(sub.id) && sub in Made(steps))
  }

  lemma DropLive(steps: seq<Step>, step: Step, sub: Subscriber, other: Subscriber)
    requires Removes(steps, step, sub)
    requires OneEach(Made(steps))
    ensures Live(steps + [step], other) <==> Live(steps, other) && other != sub
  {
    MadeLonger(steps, step);
    RemovedLonger(steps, step, other);
    hide Made, Removed;
  }

  lemma DropFrame(r: Registry, key: string, sub: Subscriber)
    ensures var t := Drop(r, key, sub).0;
            && t.nextSubID == r.nextSubID && t.closed == r.closed && t.subscriptions.Keys <= r.subscriptions.Keys
            && forall k <- t.subscriptions :: t.subscriptions[k].spec == r.subscriptions[k].spec
  {}

  lemma DropKeepsLists(steps: seq<Step>, step: Step, r: Registry, sub: Subscriber)
    requires MadeInv(steps, r) && ListInv(steps, r) && SpecInv(steps, r) && RegistryInv(r)
    requires Removes(steps, step, sub) && sub.id <= r.nextSubID
    ensures var t := Drop(r, sub.subKey, sub).0;
            MadeInv(steps + [step], t) && ListInv(steps + [step], t) && SpecInv(steps + [step], t)
  {
    var t := Drop(r, sub.subKey, sub).0;
    DropFrame(r, sub.subKey, sub);
    MadeFrame(steps, step, r, t);
    SpecFrame(steps, step, r, t);
    Longer(steps, step);
    hide RegistryInv, Drop, Made, Listed, Live, SpecInv, OneEach, Removed;
    forall other ensures Listed(t, other) <==> Live(steps + [step], other) {
      DropUnlists(r, sub.subKey, sub, other);
      DropLive(steps, step, sub, other);
    }
  }

  lemma CloseKeeps(steps: seq<Step>, r: Registry)
    requires MadeInv(steps, r) && ListInv(steps, r) && SpecInv(steps, r)
    ensures var t := CloseAll(r);
            MadeInv(steps + [Close], t) && ListInv(steps + [Close], t) && SpecInv(steps + [Close], t)
  {
    MadeFrame(steps, Close, r, CloseAll(r));
    SpecFrame(steps, Close, r, CloseAll(r));
    Longer(steps, Close);
  }

  // The steps that leave every list alone.
  ghost predicate Quiet(s: State, t: State) {
    && SameLists(s.reg, t.reg) && t.nextActor == s.nextActor
    && forall a <- t.callers :: a in s.callers && t.callers[a].sub == s.callers[a].sub
  }

  lemma BeginSendQuiet(s: State, a: nat, key: string)
    ensures SameLists(s.reg, BeginSend(s, a, key).0.reg)
    ensures BeginSend(s, a, key).0.callers == s.callers && BeginSend(s, a, key).0.nextActor == s.nextActor
    ensures !BeginSend(s, a, key).1 ==> BeginSend(s, a, key).0 == s
  {}

  lemma CallerSendsQuiet(s: State, a: nat)
    requires DoCallerSends(s, a).Some?
    ensures Quiet(s, DoCallerSends(s, a).value)
  {
    BeginSendQuiet(s, a, s.callers[a].key);
    hide SameLists, BeginSend;
  }

  lemma ReplayNextQuiet(s: State, key: string)
    requires DoReplayNext(s, key).Some?
    ensures Quiet(s, DoReplayNext(s, key).value)
  {
    BeginSendQuiet(s, 0, key);
    hide SameLists, BeginSend;
  }

  lemma FinishQuiet(s: State, a: nat)
    ensures DoSucceed(s, a).Some? ==> Quiet(s, DoSucceed(s, a).value)
    ensures DoFail(s, a).Some? ==> Quiet(s, DoFail(s, a).value)
  {}

  lemma OtherQuiet(s: State, step: Step)
    requires Apply(s, step).Some? && IsQuiet(step)
    requires !step.CallerSends? && !step.ReplayNext? && !step.SendSucceeds? && !step.SendFails?
    ensures Quiet(s, Apply(s, step).value)
  {}

  lemma QuietLists(s: State, step: Step)
    requires Apply(s, step).Some? && IsQuiet(step)
    ensures Quiet(s, Apply(s, step).value)
  {
    hide Quiet;
    match step {
      case CallerSends(a) => CallerSendsQuiet(s, a);
      case ReplayNext(key) => ReplayNextQuiet(s, key);
      case SendSucceeds(a) => FinishQuiet(s, a);
      case SendFails(a) => FinishQuiet(s, a);
      case _ => OtherQuiet(s, step);
    }
  }

  // ---------------------------------------------------------------------

  lemma SubscribeCalls(steps: seq<Step>, s: State, key: string, spec: SubscribeSpec)
    requires MadeInv(steps, s.reg) && CallInv(steps, s) && DoSubscribe(s, key, spec).Some?
    ensures CallInv(steps + [Subscribe(key, spec)], DoSubscribe(s, key, spec).value)
    ensures !s.reg.closed && DoSubscribe(s, key, spec).value.reg == Register(s.reg, key, spec).0
  {
    SubscribeMakes(steps, s.reg, Subscribe(key, spec));
    var (r, sub, _) := Register(s.reg, key, spec);
    assert r.nextSubID == s.reg.nextSubID + 1 && sub == Subscriber(s.reg.nextSubID + 1, key);
    hide Register, Made, MadeInv, Removed, OneEach;
  }

  lemma SubscribeKeeps(steps: seq<Step>, s: State, key: string, spec: SubscribeSpec)
    requires Inv(steps, s) && DoSubscribe(s, key, spec).Some?
    ensures Inv(steps + [Subscribe(key, spec)], DoSubscribe(s, key, spec).value)
  {
    hide Register, DoSubscribe, MadeInv, ListInv, SpecInv, CallInv;
    SubscribeCalls(steps, s, key, spec);
    SubscribeKeepsMade(steps, s.reg, key, spec);
    SubscribeKeepsLists(steps, s.reg, key, spec);
    SubscribeKeepsSpecs(steps, s.reg, key, spec);
  }

  lemma CallFrame(steps: seq<Step>, step: Step, s: State, t: State)
    requires CallInv(steps, s) && !step.Subscribe?
    requires t.nextActor == s.nextActor && t.reg.nextSubID == s.reg.nextSubID
    requires forall a <- t.callers :: a in s.callers && t.callers[a].sub == s.callers[a].sub
    ensures CallInv(steps + [step], t)
  {
    MadeLonger(steps, step);
    hide Made;
  }

  lemma DropKeepsAll(steps: seq<Step>, step: Step, s: State, t: State, sub: Subscriber)
    requires Inv(steps, s) && RegistryInv(s.reg) && Removes(steps, step, sub) && sub.id <= s.reg.nextSubID
    requires t == DoDrop(s, sub.subKey, sub).(callers := t.callers)
    requires forall a <- t.callers :: a in s.callers && t.callers[a] == s.callers[a]
    ensures Inv(steps + [step], t)
  {
    DropKeepsLists(steps, step, s.reg, sub);
    DropFrame(s.reg, sub.subKey, sub);
    hide RegistryInv, Drop, Made, ListInv, MadeInv, SpecInv, CallInv;
    CallFrame(steps, step, s, t);
  }

  lemma FailedCallerKeeps(steps: seq<Step>, s: State, a: nat)
    requires Inv(steps, s) && RegistryInv(s.reg) && DoFailedCaller(s, a).Some?
    requires s.callers[a].sub.subKey == s.callers[a].key
    ensures Inv(steps + [FailedCallerRemoves(a)], DoFailedCaller(s, a).value)
  {
    var sub := s.callers[a].sub;
    assert sub in Made(steps) && sub.id == a && sub.id <= s.reg.nextSubID;
    hide RegistryInv, DoDrop, Made, ListInv, MadeInv, SpecInv, CallInv;
    DropKeepsAll(steps, FailedCallerRemoves(a), s, DoFailedCaller(s, a).value, sub);
  }

  lemma QuietKeepsAll(steps: seq<Step>, s: State, step: Step)
    requires Inv(steps, s) && Apply(s, step).Some? && IsQuiet(step)
    ensures Inv(steps + [step], Apply(s, step).value)
  {
    hide Apply, SameLists, MadeInv, ListInv, SpecInv, CallInv;
    var t := Apply(s, step).value;
    QuietLists(s, step);
    QuietKeeps(steps, step, s.reg, t.reg);
    SameNumbers(s.reg, t.reg);
    CallFrame(steps, step, s, t);
  }

  lemma SameNumbers(r: Registry, t: Registry)
    requires SameLists(r, t)
    ensures t.nextSubID == r.nextSubID
  {}

  lemma CloseKeepsAll(steps: seq<Step>, s: State)
    requires Inv(steps, s)
    ensures Inv(steps + [Close], s.(reg := CloseAll(s.reg)))
  {
    hide MadeInv, ListInv, SpecInv, CallInv;
    CloseKeeps(steps, s.reg);
    CallFrame(steps, Close, s, s.(reg := CloseAll(s.reg)));
  }

  lemma StepKeepsInv(steps: seq<Step>, s: State, step: Step)
    requires Inv(steps, s) && RegistryInv(s.reg) && RegistrySafety.GoneInv(s) && Apply(s, step).Some?
    ensures Inv(steps + [step], Apply(s, step).value)
  {
    var t := Apply(s, step).value;
    hide RegistryInv, Inv, DoSubscribe, Drop;
    if IsQuiet(step) {
      QuietKeepsAll(steps, s, step);
      return;
    }
    match step {
      case Subscribe(key, spec) => SubscribeKeeps(steps, s, key, spec);
      case Unsubscribe(_, sub) => DropKeepsAll(steps, step, s, t, sub);
      case FailedCallerRemoves(a) => FailedCallerKeeps(steps, s, a);
      case Close => CloseKeepsAll(steps, s);
    }
  }

  lemma {:induction false} RunKeepsInv(steps: seq<Step>)
    requires Exec(steps).Some?
    ensures Inv(steps, Exec(steps).value)
  {
    hide Inv, Exec, Apply, RegistryInv, RegistrySafety.GoneInv;
    if steps == [] {
      StartInv();
    } else {
      var before := steps[..|steps| - 1];
      ExecLast(steps);
      RunKeepsInv(before);
      Reached(before);
      assert before + [steps[|steps| - 1]] == steps;
      StepKeepsInv(before, Exec(before).value, steps[|steps| - 1]);
    }
  }

  lemma StartInv()
    ensures Exec([]).Some? && Inv([], Exec([]).value)
  {}

  lemma ExecLast(steps: seq<Step>)
    requires steps != [] && Exec(steps).Some?
    ensures Exec(steps[..|steps| - 1]).Some?
    ensures Exec(steps) == Apply(Exec(steps[..|steps| - 1]).value, steps[|steps| - 1])
  {}

  lemma Reached(steps: seq<Step>)
    requires Exec(steps).Some?
    ensures
      var s := Exec(steps).value;
      RegistryInv(s.reg) && RegistrySafety.GoneInv(s) && RegistrySafety.RunInv(s)
  {
    RegistrySafety.RunKeepsInv(steps);
  }

  // ---------------------------------------------------------------------
  // Main results

  /** Nobody is dropped by accident: after any schedule the listed subscribers are
      exactly those that some Subscribe call made, and that were not unsubscribed
      since, nor removed by their own failed call, nor let go by Close. */
  lemma ListedExactly(steps: seq<Step>, sub: Subscriber)
    requires Exec(steps).Some?
    ensures Listed(Exec(steps).value.reg, sub) <==> Live(steps, sub)
  {
    RunKeepsInv(steps);
  }

  /** A Subscribe call is refused exactly when the client is closed; otherwise it
      makes a new subscriber, listed at once beside all the others. */
  lemma SubscribeIsRefusedOnlyWhenClosed(steps: seq<Step>, key: string, spec: SubscribeSpec)
    requires Exec(steps).Some?
    ensures
      var t := Apply(Exec(steps).value, Subscribe(key, spec));
      && (t.None? <==> Close in steps)
      && (t.Some? ==>
            var sub := Subscriber(|Made(steps)| + 1, key);
            && !Listed(Exec(steps).value.reg, sub)
            && forall other :: Listed(t.value.reg, other) <==> Listed(Exec(steps).value.reg, other) || other == sub)
  {
    RunKeepsInv(steps);
    var s := Exec(steps).value;
    hide Exec;
    SubscribeMakes(steps, s.reg, Subscribe(key, spec));
    forall other
      ensures Listed(Register(s.reg, key, spec).0, other)
              <==> Listed(s.reg, other) || other == Register(s.reg, key, spec).1
    {
      RegisterLists(s.reg, key, spec, other);
    }
  }

  // The callers go by the key of their spec, and the specs can share: no separator
  // before a tag, and blanks the only padding of the symbol.
  ghost predicate Shareable(steps: seq<Step>) {
    forall step <- steps | step.Subscribe? ::
      step.key == Key(step.spec) && Unambiguous(step.spec) && PlainPadding(step.spec.symbol)
  }

  lemma OwnSpecDecides(
    steps: seq<Step>, a: SubscribeSpec, b: SubscribeSpec, key: string, channel: string, symbol: string)
    requires Shareable(steps) && Subscribe(key, a) in steps && Subscribe(key, b) in steps
    ensures Matches(a, channel, symbol) == Matches(b, channel, symbol)
  {
    hide Key, Unambiguous, PlainPadding, Matches;
    assert Subscribe(key, a).key == Key(a) && Subscribe(key, b).key == Key(b);
    SharingIsSound(a, b, channel, symbol);
  }

  /** Everyone receives what they asked for: whoever shares an upstream subscription,
      and whoever came first, the fan-out hands a notification to exactly those live
      subscribers whose own spec matches it. */
  lemma EveryoneReceivesTheirOwn(steps: seq<Step>, sub: Subscriber, channel: string, symbol: string)
    requires Exec(steps).Some? && Shareable(steps)
    ensures PublicClient.Wants(Exec(steps).value.reg, channel, symbol, sub)
            <==> Live(steps, sub) && Matches(Made(steps)[sub], channel, symbol)
  {
    RunKeepsInv(steps);
    var r := Exec(steps).value.reg;
    hide Exec, Matches, Shareable, Made;
    assert Listed(r, sub) <==> Live(steps, sub);
    if Listed(r, sub) {
      OwnSpecDecides(steps, r.subscriptions[sub.subKey].spec, Made(steps)[sub], sub.subKey, channel, symbol);
    }
  }

  /** The spec that a shared subscription sends and matches by stays that of the call
      that first tracked the key. */
  lemma SpecStays(s: State, step: Step, key: string)
    requires Apply(s, step).Some? && key in Apply(s, step).value.reg.subscriptions
    ensures
      var t := Apply(s, step).value;
      if key in s.reg.subscriptions
      then t.reg.subscriptions[key].spec == s.reg.subscriptions[key].spec
      else step == Subscribe(key, t.reg.subscriptions[key].spec)
  {
    hide Register, Drop;
    if IsQuiet(step) {
      QuietLists(s, step);
      hide Apply;
    } else {
      match step {
        case Subscribe(k, spec) => RegisterSpecs(s.reg, k, spec, key);
        case Unsubscribe(k, sub) => DropFrame(s.reg, k, sub);
        case FailedCallerRemoves(a) => DropFrame(s.reg, s.callers[a].key, s.callers[a].sub);
        case Close =>
      }
    }
  }

  // ---------------------------------------------------------------------
  // How a Subscribe call ends

  ghost predicate FailInv(steps: seq<Step>, s: State) {
    && (forall a | a in s.callers && s.callers[a].Failing? :: SendFails(a) in steps)
    && (forall a | FailedCallerRemoves(a) in steps :: SendFails(a) in steps)
    && (forall a | a != 0 && SendFails(a) in steps ::
          (a in s.callers && s.callers[a].Failing?) || FailedCallerRemoves(a) in steps)
  }

  lemma StepKeepsFailInv(steps: seq<Step>, s: State, step: Step)
    requires FailInv(steps, s) && RegistrySafety.RunInv(s) && Apply(s, step).Some?
    ensures FailInv(steps + [step], Apply(s, step).value)
  {
    Longer(steps, step);
    FailingMoves(s, step);
  }

  lemma FailingMoves(s: State, step: Step)
    requires RegistrySafety.RunInv(s) && Apply(s, step).Some?
    ensures
      var t := Apply(s, step).value;
      && (forall a | a in s.callers && s.callers[a].Failing? && step != FailedCallerRemoves(a) ::
            a in t.callers && t.callers[a].Failing?)
      && (forall a | a in t.callers && t.callers[a].Failing? ::
            (a in s.callers && s.callers[a].Failing?) || step == SendFails(a))
      && (step.SendFails? && step.a != 0 ==> step.a in t.callers && t.callers[step.a].Failing?)
      && (step.FailedCallerRemoves? ==> step.a in s.callers && s.callers[step.a].Failing?)
  {}

  lemma {:induction false} RunKeepsFailInv(steps: seq<Step>)
    requires Exec(steps).Some?
    ensures FailInv(steps, Exec(steps).value)
  {
    if steps != [] {
      var before := steps[..|steps| - 1];
      ExecLast(steps);
      hide Exec, Apply, FailInv, RegistrySafety.RunInv;
      RunKeepsFailInv(before);
      Reached(before);
      StepKeepsFailInv(before, Exec(before).value, steps[|steps| - 1]);
      assert before + [steps[|steps| - 1]] == steps;
    }
  }

  /** A Subscribe call takes its subscriber back if and only if its own send failed:
      it has done so, or is about to. A call that timed out waiting for a connection,
      or found the key claimed by another, leaves its subscriber listed. */
  lemma FailedCallsTakeBack(steps: seq<Step>, sub: Subscriber)
    requires Exec(steps).Some? && sub in Made(steps)
    ensures
      var s := Exec(steps).value;
      SendFails(sub.id) in steps <==>
        || FailedCallerRemoves(sub.id) in steps
        || (sub.id in s.callers && s.callers[sub.id].Failing? && s.callers[sub.id].sub == sub)
  {
    RunKeepsInv(steps);
    RunKeepsFailInv(steps);
    var s := Exec(steps).value;
    assert sub.id in s.callers ==> s.callers[sub.id].sub == sub;
  }

  // The step by which a call gives up, from where it stands.
  function NextOwn(s: State, a: nat): Step
    requires a in s.callers
  {
    match s.callers[a]
    case Polling(_, _, sawNil) => if sawNil then PollTimeout(a) else Poll(a)
    case Ready(_, _) => CallerSends(a)
    case Sending(_, _) =>
      if a in s.sends && s.sends[a].target.Some? then SendFails(a)
      else if a in s.sends && s.sends[a].sawNil then SendSucceeds(a)
      else ReadConn(a)
    case Failing(_, _) => FailedCallerRemoves(a)
  }

  function Distance(s: State, a: nat): nat {
    if a !in s.callers then 0
    else
      match s.callers[a]
      case Polling(_, _, sawNil) => if sawNil then 1 else 5
      case Ready(_, _) => 4
      case Sending(_, _) =>
        if a in s.sends && s.sends[a].target.Some? then 2 else if a in s.sends && s.sends[a].sawNil then 1 else 3
      case Failing(_, _) => 1
  }

  lemma OwnStepAdvances(s: State, a: nat)
    requires RegistrySafety.RunInv(s) && a in s.callers
    ensures var t := Apply(s, NextOwn(s, a)); t.Some? && Distance(t.value, a) < Distance(s, a)
  {}

  lemma StepAdvances(steps: seq<Step>, a: nat)
    requires Exec(steps).Some? && a in Exec(steps).value.callers
    ensures
      var t := Exec(steps + [NextOwn(Exec(steps).value, a)]);
      t.Some? && Distance(t.value, a) < Distance(Exec(steps).value, a)
  {
    RegistrySafety.RunKeepsInv(steps);
    OwnStepAdvances(Exec(steps).value, a);
    hide Apply, NextOwn, Distance, RegistrySafety.Inv;
    ExecOne(steps, NextOwn(Exec(steps).value, a));
  }

  lemma DistanceBound(s: State, a: nat)
    ensures Distance(s, a) <= 5 && (Distance(s, a) == 0 ==> a !in s.callers)
  {}

  /** No call is stuck: from any reachable state a Subscribe call can return, at most
      five of its own steps away, whatever connection, server and run loop do. */
  lemma {:induction false} CallCanReturn(steps: seq<Step>, a: nat) returns (more: seq<Step>)
    requires Exec(steps).Some?
    ensures |more| <= 5 && |more| <= Distance(Exec(steps).value, a)
    ensures Exec(steps + more).Some? && a !in Exec(steps + more).value.callers
    decreases Distance(Exec(steps).value, a)
  {
    hide Exec, NextOwn, Distance;
    var s := Exec(steps).value;
    DistanceBound(s, a);
    if a !in s.callers {
      assert steps + [] == steps;
      return [];
    }
    StepAdvances(steps, a);
    var step := NextOwn(s, a);
    var rest := CallCanReturn(steps + [step], a);
    more := [step] + rest;
    assert steps + more == steps + [step] + rest;
  }

  /** An unsubscribe function works as long as the client is open: called at any time
      after the subscriber was made, it takes that subscriber off, and nobody else. */
  lemma UnsubscribeTakesOff(steps: seq<Step>, sub: Subscriber)
    requires Exec(steps).Some? && sub in Made(steps)
    ensures
      var t := Apply(Exec(steps).value, Unsubscribe(sub.subKey, sub));
      t.Some? && forall other :: Listed(t.value.reg, other) <==> Listed(Exec(steps).value.reg, other) && other != sub
  {
    RunKeepsInv(steps);
    RegistrySafety.RunKeepsInv(steps);
    var r := Exec(steps).value.reg;
    hide Exec, Made, RegistryInv, Drop;
    forall other
      ensures Listed(Drop(r, sub.subKey, sub).0, other) <==> Listed(r, other) && other != sub
    {
      DropUnlists(r, sub.subKey, sub, other);
    }
  }

  /** Close works at any time, any number of times: it lets everybody go, and no later
      Subscribe gets in. */
  lemma CloseLetsAllGo(steps: seq<Step>, sub: Subscriber, key: string, spec: SubscribeSpec)
    requires Exec(steps).Some?
    ensures
      var t := Exec(steps + [Close]);
      t.Some? && !Listed(t.value.reg, sub) && Apply(t.value, Subscribe(key, spec)).None?
  {
    ExecOne(steps, Close);
    hide Exec;
  }

  // ---------------------------------------------------------------------
  // The run loop

  /** The run loop goes round: it dials, snapshots the tracked keys, looks at each key
      of the snapshot once, serves until the connection ends, and dials again. */
  lemma RunLoopGoesRound(s: State, step: Step)
    requires Apply(s, step).Some?
    ensures
      var t := Apply(s, step).value;
      match step
      case Dial => s.run.Dialing? && t.run.Connected? && t.reg.connected && t.reg.connGen == s.reg.connGen + 1
      case Snapshot => s.run.Connected? && t.run == Replaying(s.reg.subscriptions.Keys)
      case ReplayNext(key) =>
        && s.run.Replaying? && key in s.run.todo
        && (t.run == Replaying(s.run.todo - {key}) || t.run == ReplaySending(s.run.todo - {key}))
      case ReplayEnds => s.run == Replaying({}) && t.run.Serving?
      case ConnectionEnds => s.run.Serving? && t.run.Dialing? && !t.reg.connected
      case SendSucceeds(a) => t.run == (if a == 0 && s.run.ReplaySending? then Replaying(s.run.todo) else s.run)
      case SendFails(a) => t.run == (if a == 0 && s.run.ReplaySending? then Replaying(s.run.todo) else s.run)
      case _ => t.run == s.run && t.reg.connGen == s.reg.connGen
  {}

  /** A dial can succeed whenever the run loop makes one, and then a Subscribe call that
      is waiting finds the connection, or has timed out before. */
  lemma DialConnects(s: State, a: nat)
    requires s.run.Dialing?
    ensures
      var t := Apply(s, Dial);
      && t.Some? && t.value.reg.connected && t.value.callers == s.callers && t.value.sends == s.sends
      && (a in s.callers && s.callers[a].Polling? ==>
            var u := Apply(t.value, Poll(a));
            u.Some? && u.value.callers == s.callers[a := Ready(s.callers[a].key, s.callers[a].sub)])
  {}

  // Steps until the run loop dials again if the connection is lost after the replay.
  function Rank(s: State): nat {
    match s.run
    case Dialing => 0
    case Serving => 1
    case Replaying(todo) => 2 + 4 * |todo|
    case ReplaySending(todo) =>
      2 + 4 * |todo| + if 0 in s.sends && (s.sends[0].target.Some? || s.sends[0].sawNil) then 1 else 2
    case Connected => 3 + 4 * |s.reg.subscriptions|
  }

  lemma ReplayStep(s: State) returns (step: Step)
    requires RegistrySafety.RunInv(s) && s.run.Replaying?
    ensures Apply(s, step).Some? && Rank(Apply(s, step).value) < Rank(s)
  {
    if s.run.todo == {} {
      return ReplayEnds;
    }
    var key :| key in s.run.todo;
    step := ReplayNext(key);
    RunLoopGoesRound(s, step);
    assert |s.run.todo - {key}| == |s.run.todo| - 1;
    hide BeginSend;
  }

  lemma ReplaySendStep(s: State) returns (step: Step)
    requires RegistrySafety.RunInv(s) && s.run.ReplaySending?
    ensures Apply(s, step).Some? && Rank(Apply(s, step).value) < Rank(s)
  {
    step := if s.sends[0].target.Some? then SendFails(0)
            else if s.sends[0].sawNil then SendSucceeds(0)
            else ReadConn(0);
  }

  lemma SnapshotStep(s: State)
    requires s.run.Connected?
    ensures Apply(s, Snapshot).Some? && Rank(Apply(s, Snapshot).value) < Rank(s)
  {
    assert |s.reg.subscriptions.Keys| == |s.reg.subscriptions|;
  }

  lemma RunStep(s: State) returns (step: Step)
    requires RegistrySafety.RunInv(s) && !s.run.Dialing?
    ensures Apply(s, step).Some? && Rank(Apply(s, step).value) < Rank(s)
  {
    hide RegistrySafety.RunInv;
    match s.run {
      case Connected => SnapshotStep(s); step := Snapshot;
      case Replaying(_) => step := ReplayStep(s);
      case ReplaySending(_) => step := ReplaySendStep(s);
      case Serving => step := ConnectionEnds;
    }
  }

  /** The client can always reconnect: from any reachable state the run loop's own
      steps get through the replay and, once the connection is lost, to dialling. */
  lemma {:induction false} CanAlwaysReconnect(steps: seq<Step>) returns (more: seq<Step>)
    requires Exec(steps).Some?
    ensures Exec(steps + more).Some? && Exec(steps + more).value.run.Dialing?
    decreases Rank(Exec(steps).value)
  {
    hide Exec, Apply, Rank, RegistrySafety.RunInv;
    if Exec(steps).value.run.Dialing? {
      assert steps + [] == steps;
      return [];
    }
    Reached(steps);
    var step := RunStep(Exec(steps).value);
    ExecOne(steps, step);
    var rest := CanAlwaysReconnect(steps + [step]);
    more := [step] + rest;
    assert steps + more == steps + [step] + rest;
  }

  lemma ExecOne(steps: seq<Step>, step: Step)
    requires Exec(steps).Some?
    ensures Exec(steps + [step]) == Apply(Exec(steps).value, step)
  {
    assert (steps + [step])[..|steps|] == steps;
  }
}
