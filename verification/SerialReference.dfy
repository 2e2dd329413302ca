/** What reference counting is for: after serialised calls the server holds exactly
    what the callers who have not unsubscribed want, each thing once. */
module SerialReference {
  import opened Wrappers
  import opened Subscription
  import opened Registry
  import opened SerialRegistry

  // ---------------------------------------------------------------------
  // The plain side: who wants what

  function Count(ops: seq<Op>): nat {
    if ops == [] then 0 else Count(ops[..|ops| - 1]) + if ops[|ops| - 1].Subscribe? then 1 else 0
  }

  // The subscribers of all calls so far that were not undone, each with its own spec.
  function Wanted(ops: seq<Op>): map<Subscriber, SubscribeSpec> {
    if ops == [] then map[]
    else
      var before := ops[..|ops| - 1];
      match ops[|ops| - 1]
      case Subscribe(spec) => Wanted(before)[Subscriber(Count(before) + 1, Key(spec)) := spec]
      case Unsubscribe(key, sub) => if sub.subKey == key then Wanted(before) - {sub} else Wanted(before)
      case _ => Wanted(before)
  }

  // ---------------------------------------------------------------------

  ghost predicate Lists(r: Registry, wanted: map<Subscriber, SubscribeSpec>) {
    forall sub :: Listed(r, sub) <==> sub in wanted
  }

  ghost predicate Inv(ops: seq<Op>, r: Registry) {
    && r.nextSubID == Count(ops) && Lists(r, Wanted(ops))
    && forall sub <- Wanted(ops) :: sub.subKey == Key(Wanted(ops)[sub])
  }

  ghost predicate SameLists(r: Registry, t: Registry) {
    t.nextSubID == r.nextSubID && forall sub :: Listed(t, sub) <==> Listed(r, sub)
  }

  lemma ClaimLists(r: Registry, key: string)
    ensures SameLists(r, Claim(r, key).0)
  {}

  lemma SendLists(w: World, key: string)
    ensures SameLists(w.reg, Send(w, key).reg)
  {
    ClaimLists(w.reg, key);
    hide ToWireParams, SameLists;
    assert Claim(w.reg, key).1.None? ==> SameLists(w.reg, w.reg) by { SameIsSame(w.reg); }
  }

  lemma SameIsSame(r: Registry)
    ensures SameLists(r, r)
  {}

  lemma {:induction false} SendAllLists(w: World, keys: seq<string>)
    ensures SameLists(w.reg, SendAll(w, keys).reg)
    decreases |keys|
  {
    hide Send;
    if keys != [] {
      SendLists(w, keys[0]);
      SendAllLists(Send(w, keys[0]), keys[1..]);
    }
  }

  lemma SubscribeLists(w: World, spec: SubscribeSpec, sub: Subscriber)
    ensures var t := Perform(w, Subscribe(spec)).reg;
            && t.nextSubID == w.reg.nextSubID + 1
            && (Listed(t, sub) <==> Listed(w.reg, sub) || sub == Subscriber(w.reg.nextSubID + 1, Key(spec)))
  {
    hide Key, ToWireParams, Send;
    var reg := Register(w.reg, Key(spec), spec).0;
    RegisterLists(w.reg, Key(spec), spec, sub);
    SendLists(w.(reg := reg), Key(spec));
  }

  lemma UnsubscribeLists(w: World, key: string, sub: Subscriber, other: Subscriber)
    requires RegistryInv(w.reg)
    ensures var t := Perform(w, Unsubscribe(key, sub)).reg;
            && t.nextSubID == w.reg.nextSubID
            && (Listed(t, other) <==> Listed(w.reg, other) && (other == sub ==> sub.subKey != key))
  {
    hide Key, ToWireParams;
    assert Perform(w, Unsubscribe(key, sub)).reg == Drop(w.reg, key, sub).0;
    if sub.subKey == key {
      DropUnlists(w.reg, key, sub, other);
    } else {
      OtherKey(w.reg, key, sub);
    }
  }

  // A subscriber is not listed under another's key.
  lemma OtherKey(r: Registry, key: string, sub: Subscriber)
    requires RegistryInv(r) && sub.subKey != key
    ensures Drop(r, key, sub) == (r, false)
  {
    if key in r.subscriptions {
      assert Entry(r, key);
    }
    DropAgain(r, key, sub);
  }

  lemma ConnectionLists(w: World, op: Op)
    requires op.LoseConnection? || op.Reconnect?
    ensures SameLists(w.reg, Perform(w, op).reg)
  {
    hide Key, ToWireParams;
    if op.Reconnect? {
      SendAllLists(World(Connect(w.reg), FRESH), op.order);
    }
  }

  lemma Longer(ops: seq<Op>, op: Op)
    ensures Count(ops + [op]) == Count(ops) + if op.Subscribe? then 1 else 0
    ensures op.Subscribe? ==> Wanted(ops + [op]) == Wanted(ops)[Subscriber(Count(ops) + 1, Key(op.spec)) := op.spec]
    ensures op.Unsubscribe? ==>
              Wanted(ops + [op]) == if op.sub.subKey == op.key then Wanted(ops) - {op.sub} else Wanted(ops)
    ensures !op.Subscribe? && !op.Unsubscribe? ==> Wanted(ops + [op]) == Wanted(ops)
  {
    assert (ops + [op])[..|ops|] == ops;
    hide Key;
  }

  lemma SubscribeKeeps(ops: seq<Op>, w: World, spec: SubscribeSpec)
    requires Inv(ops, w.reg)
    ensures Inv(ops + [Subscribe(spec)], Perform(w, Subscribe(spec)).reg)
  {
    Longer(ops, Subscribe(spec));
    hide Key, Perform, Wanted, Count, Listed;
    var t := Perform(w, Subscribe(spec)).reg;
    var made := Subscriber(w.reg.nextSubID + 1, Key(spec));
    SubscribeLists(w, spec, made);
    forall sub ensures Listed(t, sub) <==> Listed(w.reg, sub) || sub == made {
      SubscribeLists(w, spec, sub);
    }
  }

  lemma UnsubscribeKeeps(ops: seq<Op>, w: World, key: string, sub: Subscriber)
    requires Inv(ops, w.reg) && RegistryInv(w.reg)
    ensures Inv(ops + [Unsubscribe(key, sub)], Perform(w, Unsubscribe(key, sub)).reg)
  {
    Longer(ops, Unsubscribe(key, sub));
    hide Key, Perform, Wanted, Count, Listed, RegistryInv;
    var t := Perform(w, Unsubscribe(key, sub)).reg;
    UnsubscribeLists(w, key, sub, sub);
    forall other ensures Listed(t, other) <==> Listed(w.reg, other) && (other == sub ==> sub.subKey != key) {
      UnsubscribeLists(w, key, sub, other);
    }
  }

  lemma ConnectionKeepsInv(ops: seq<Op>, w: World, op: Op)
    requires Inv(ops, w.reg) && (op.LoseConnection? || op.Reconnect?)
    ensures Inv(ops + [op], Perform(w, op).reg)
  {
    Longer(ops, op);
    hide Key, Perform, Wanted, Count, Listed;
    ConnectionLists(w, op);
  }

  lemma StepKeepsInv(ops: seq<Op>, w: World, op: Op)
    requires Inv(ops, w.reg) && RegistryInv(w.reg)
    ensures Inv(ops + [op], Perform(w, op).reg)
  {
    hide Perform, RegistryInv, Inv;
    match op {
      case Subscribe(spec) => SubscribeKeeps(ops, w, spec);
      case Unsubscribe(key, sub) => UnsubscribeKeeps(ops, w, key, sub);
      case _ => ConnectionKeepsInv(ops, w, op);
    }
  }

  lemma Reached(ops: seq<Op>)
    ensures RegistryInv(Run(ops).reg) && Keyed(Run(ops).reg)
  {
    SerialRegistry.RunKeepsInv(ops);
  }

  lemma RunLast(ops: seq<Op>)
    requires ops != []
    ensures Run(ops) == Perform(Run(ops[..|ops| - 1]), ops[|ops| - 1])
    ensures ops[..|ops| - 1] + [ops[|ops| - 1]] == ops
  {
    hide Perform;
  }

  lemma StartInv()
    ensures Inv([], Run([]).reg) && Asked([], Run([]).reg)
  {}

  lemma {:induction false} RunKeepsInv(ops: seq<Op>)
    ensures Inv(ops, Run(ops).reg)
  {
    hide Inv, RegistryInv, Perform, Keyed, Run;
    if ops == [] {
      StartInv();
    } else {
      var before := ops[..|ops| - 1];
      RunLast(ops);
      RunKeepsInv(before);
      Reached(before);
      StepKeepsInv(before, Run(before), ops[|ops| - 1]);
    }
  }

  /** After any serialised run the listed subscribers are exactly those of the calls
      that were not undone. */
  lemma ListedExactly(ops: seq<Op>, sub: Subscriber)
    ensures Listed(Run(ops).reg, sub) <==> sub in Wanted(ops)
  {
    RunKeepsInv(ops);
  }

  // ---------------------------------------------------------------------

  ghost predicate AllUnambiguous(ops: seq<Op>) {
    forall op <- ops | op.Subscribe? :: Unambiguous(op.spec)
  }

  // Every tracked spec was asked for, and so was every wanted one.
  ghost predicate Asked(ops: seq<Op>, r: Registry) {
    && (forall key <- r.subscriptions :: Subscribe(r.subscriptions[key].spec) in ops)
    && (forall sub <- Wanted(ops) :: Subscribe(Wanted(ops)[sub]) in ops)
  }

  ghost predicate SameSpecs(r: Registry, t: Registry) {
    t.subscriptions.Keys <= r.subscriptions.Keys
    && forall key <- t.subscriptions :: t.subscriptions[key].spec == r.subscriptions[key].spec
  }

  lemma SendSpecs(w: World, key: string)
    ensures SameSpecs(w.reg, Send(w, key).reg)
  {
    hide ToWireParams;
  }

  lemma {:induction false} SendAllSpecs(w: World, keys: seq<string>)
    ensures SameSpecs(w.reg, SendAll(w, keys).reg)
    decreases |keys|
  {
    hide Send;
    if keys != [] {
      SendSpecs(w, keys[0]);
      SendAllSpecs(Send(w, keys[0]), keys[1..]);
    }
  }

  lemma SubscribeSpecs(w: World, spec: SubscribeSpec, key: string)
    requires key in Perform(w, Subscribe(spec)).reg.subscriptions
    ensures var t := Perform(w, Subscribe(spec)).reg;
            || t.subscriptions[key].spec == spec
            || (key in w.reg.subscriptions && t.subscriptions[key].spec == w.reg.subscriptions[key].spec)
  {
    hide Key, ToWireParams, Send;
    SendSpecs(w.(reg := Register(w.reg, Key(spec), spec).0), Key(spec));
  }

  lemma OtherSpecs(w: World, op: Op)
    requires !op.Subscribe?
    ensures SameSpecs(w.reg, Perform(w, op).reg)
  {
    hide Key, ToWireParams;
    if op.Reconnect? {
      SendAllSpecs(World(Connect(w.reg), FRESH), op.order);
    }
  }

  // The key's spec is the one just asked for, or as it was.
  predicate SpecMoves(r: Registry, op: Op, t: Registry, key: string)
    requires key in t.subscriptions
  {
    || (op.Subscribe? && t.subscriptions[key].spec == op.spec)
    || (key in r.subscriptions && t.subscriptions[key].spec == r.subscriptions[key].spec)
  }

  lemma AskedLonger(ops: seq<Op>, op: Op, r: Registry, t: Registry)
    requires Asked(ops, r) && forall key <- t.subscriptions :: SpecMoves(r, op, t, key)
    ensures Asked(ops + [op], t)
  {
    Longer(ops, op);
    hide Key, Wanted, Count;
    assert forall x :: x in ops + [op] <==> x in ops || x == op;
    forall key <- t.subscriptions ensures Subscribe(t.subscriptions[key].spec) in ops + [op] {
      assert SpecMoves(r, op, t, key);
    }
  }

  lemma StepSpecs(w: World, op: Op, key: string)
    requires key in Perform(w, op).reg.subscriptions
    ensures SpecMoves(w.reg, op, Perform(w, op).reg, key)
  {
    hide Perform;
    if op.Subscribe? {
      SubscribeSpecs(w, op.spec, key);
    } else {
      OtherSpecs(w, op);
    }
  }

  lemma StepAsked(ops: seq<Op>, w: World, op: Op)
    requires Asked(ops, w.reg)
    ensures Asked(ops + [op], Perform(w, op).reg)
  {
    hide Asked, Perform, SpecMoves;
    var t := Perform(w, op).reg;
    forall key <- t.subscriptions ensures SpecMoves(w.reg, op, t, key) {
      StepSpecs(w, op, key);
    }
    AskedLonger(ops, op, w.reg, t);
  }

  lemma {:induction false} RunAsked(ops: seq<Op>)
    ensures Asked(ops, Run(ops).reg)
  {
    hide Asked, Perform, Run;
    if ops == [] {
      StartInv();
    } else {
      var before := ops[..|ops| - 1];
      RunLast(ops);
      RunAsked(before);
      StepAsked(before, Run(before), ops[|ops| - 1]);
    }
  }

  // A tracked key asks the server for what each of its own callers wants.
  lemma SameWish(ops: seq<Op>, r: Registry, sub: Subscriber)
    requires AllUnambiguous(ops) && Asked(ops, r) && Keyed(r) && Inv(ops, r) && sub in Wanted(ops)
    ensures sub.subKey in r.subscriptions && ParamsOf(r, sub.subKey) == ToWireParams(Wanted(ops)[sub])
  {
    assert Listed(r, sub);
    hide Key, ToWireParams, Unambiguous, Wanted;
    var (a, b) := (r.subscriptions[sub.subKey].spec, Wanted(ops)[sub]);
    assert Subscribe(a) in ops && Subscribe(b) in ops;
    assert Unambiguous(Subscribe(a).spec) && Unambiguous(Subscribe(b).spec);
    KeyFaithful(a, b);
  }

  // Whoever is listed first for a tracked key wants it.
  lemma SomebodyWants(ops: seq<Op>, r: Registry, key: string) returns (sub: Subscriber)
    requires RegistryInv(r) && Inv(ops, r) && key in r.subscriptions
    ensures sub in Wanted(ops) && sub.subKey == key
  {
    assert Entry(r, key);
    sub := r.subscriptions[key].subs[0];
    assert sub in r.subscriptions[key].subs;
    assert Listed(r, sub);
  }

  /** Reference counting refines a plain set: after any serialised run, whenever the
      client is connected, the server holds exactly the parameters that some caller
      asked for who has not unsubscribed; and it was sent one subscribe more than
      unsubscribes for each, on that connection, however many callers share it. */
  lemma ServerHoldsWhatIsWanted(ops: seq<Op>, p: Params)
    requires AllUnambiguous(ops) && Run(ops).reg.connected
    ensures
      var (wanted, server) := (Wanted(ops), Run(ops).server);
      && (p in server.active <==> exists sub :: sub in wanted && ToWireParams(wanted[sub]) == p)
      && server.subscribes[p] == server.unsubscribes[p] + if p in server.active then 1 else 0
  {
    var (r, wanted) := (Run(ops).reg, Wanted(ops));
    ReferenceCountingRefinesSet(ops);
    Reached(ops);
    RunKeepsInv(ops);
    RunAsked(ops);
    hide Run, Key, ToWireParams, AllUnambiguous, RegistryInv, Inv, Wanted, Asked, Keyed;
    if p in Run(ops).server.active {
      var key :| key in r.subscriptions && ToWireParams(r.subscriptions[key].spec) == p;
      var sub := SomebodyWants(ops, r, key);
      SameWish(ops, r, sub);
    }
    if sub :| sub in wanted && ToWireParams(wanted[sub]) == p {
      SameWish(ops, r, sub);
    }
  }

  lemma {:induction false} SendAllStaysConnected(w: World, keys: seq<string>)
    requires w.reg.connected
    ensures SendAll(w, keys).reg.connected
    decreases |keys|
  {
    hide ToWireParams;
    if keys != [] {
      SendAllStaysConnected(Send(w, keys[0]), keys[1..]);
    }
  }

  /** A lost connection comes back: with the tracked keys in any order, once each, the
      replay leaves the client connected, so that the above holds again. */
  lemma ReconnectConnects(ops: seq<Op>, order: seq<string>)
    requires multiset(order) == multiset(Run(ops).reg.subscriptions.Keys)
    ensures Run(ops + [Reconnect(order)]).reg.connected
    ensures !Run(ops + [LoseConnection]).reg.connected
  {
    assert (ops + [Reconnect(order)])[..|ops|] == ops && (ops + [LoseConnection])[..|ops|] == ops;
    hide SendAll;
    SendAllStaysConnected(World(Connect(Run(ops).reg), FRESH), order);
  }
}
