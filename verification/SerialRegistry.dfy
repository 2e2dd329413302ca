/** Whole runs of Subscribe, unsubscribe, connection loss and reconnect, one call at
    a time, with every write reaching the server: reference counting refines a
    plain set. Built from the same critical sections as the concurrent protocol. */
module SerialRegistry {
  import opened Wrappers
  import opened Subscription
  import opened Registry

  type Params = map<string, WireValue>

  // What the server has seen on the live connection.
  datatype Server = Server(active: set<Params>, subscribes: multiset<Params>, unsubscribes: multiset<Params>)

  datatype World = World(reg: Registry, server: Server)

  const FRESH := Server({}, multiset{}, multiset{})
  const START := World(EMPTY, FRESH)

  datatype Op =
    | Subscribe(spec: SubscribeSpec)
    | Unsubscribe(key: string, sub: Subscriber)
    | LoseConnection
    | Reconnect(order: seq<string>)  // the keys in the order resubscribeAll meets them

  function OnSubscribe(v: Server, p: Params): Server {
    Server(v.active + {p}, v.subscribes + multiset{p}, v.unsubscribes)
  }

  function OnUnsubscribe(v: Server, p: Params): Server {
    Server(v.active - {p}, v.subscribes, v.unsubscribes + multiset{p})
  }

  // sendSubscribeIfNeeded with an acknowledged write.
  function Send(w: World, key: string): World {
    match Claim(w.reg, key)
    case (_, None) => w
    case (reg, Some(_)) => World(reg, OnSubscribe(w.server, ToWireParams(w.reg.subscriptions[key].spec)))
  }

  function SendAll(w: World, keys: seq<string>): World
    decreases |keys|
  {
    if keys == [] then w else SendAll(Send(w, keys[0]), keys[1..])
  }

  // One call, run to its end. Without a connection a first Subscribe waits for one
  // in vain and leaves the key to the next replay.
  function Perform(w: World, op: Op): World {
    match op
    case Subscribe(spec) =>
      var (reg, _, first) := Register(w.reg, Key(spec), spec);
      if first && reg.connected then Send(w.(reg := reg), Key(spec)) else w.(reg := reg)
    case Unsubscribe(key, sub) =>
      var (reg, last) := Drop(w.reg, key, sub);
      if last && reg.connected
      then World(reg, OnUnsubscribe(w.server, ToWireParams(w.reg.subscriptions[key].spec)))
      else w.(reg := reg)
    case LoseConnection => World(Disconnect(w.reg), FRESH)
    case Reconnect(order) =>
      if w.reg.connected || multiset(order) != multiset(w.reg.subscriptions.Keys) then w
      else SendAll(World(Connect(w.reg), FRESH), order)
  }

  function Run(ops: seq<Op>): World {
    if ops == [] then START else Perform(Run(ops[..|ops| - 1]), ops[|ops| - 1])
  }

  // ---------------------------------------------------------------------

  // The plain set the server should hold.
  ghost function Tracked(r: Registry): set<Params> {
    set key | key in r.subscriptions :: ToWireParams(r.subscriptions[key].spec)
  }

  ghost predicate Keyed(r: Registry) {
    forall key <- r.subscriptions :: Key(r.subscriptions[key].spec) == key
  }

  ghost predicate Balanced(v: Server) {
    forall p :: v.subscribes[p] == v.unsubscribes[p] + if p in v.active then 1 else 0
  }

  function ParamsOf(r: Registry, key: string): Params
    requires key in r.subscriptions
  {
    ToWireParams(r.subscriptions[key].spec)
  }

  // All keys but those of `todo` are marked for the present generation, and their
  // parameters are what the server holds.
  ghost predicate Synced(w: World, todo: set<string>) {
    && (forall key <- w.reg.subscriptions :: (w.reg.subscriptions[key].lastWireGen == w.reg.connGen) <==> key !in todo)
    && (forall p :: p in w.server.active <==>
          exists key :: key in w.reg.subscriptions && key !in todo && ParamsOf(w.reg, key) == p)
    && Balanced(w.server)
  }

  ghost predicate Inv(w: World) {
    RegistryInv(w.reg) && Keyed(w.reg) && (w.reg.connected ==> Synced(w, {}))
  }

  // Distinct keys ask for distinct things.
  lemma DistinctParams(r: Registry, k: string, l: string)
    requires Keyed(r) && k in r.subscriptions && l in r.subscriptions && k != l
    ensures ParamsOf(r, k) != ParamsOf(r, l)
  {
    hide Key, ToWireParams;
    if ParamsOf(r, k) == ParamsOf(r, l) {
      SameParamsSameKey(r.subscriptions[k].spec, r.subscriptions[l].spec);
    }
  }

  lemma OnSubscribeBalanced(v: Server, p: Params)
    requires Balanced(v) && p !in v.active
    ensures Balanced(OnSubscribe(v, p))
  {}

  lemma OnUnsubscribeBalanced(v: Server, p: Params)
    requires Balanced(v) && p in v.active
    ensures Balanced(OnUnsubscribe(v, p))
  {}

  lemma SendSyncs(w: World, key: string, todo: set<string>)
    requires RegistryInv(w.reg) && Keyed(w.reg) && w.reg.connected && Synced(w, todo)
    requires key in todo && key in w.reg.subscriptions
    ensures RegistryInv(Send(w, key).reg) && Keyed(Send(w, key).reg) && Send(w, key).reg.connected
    ensures Send(w, key).reg.subscriptions.Keys == w.reg.subscriptions.Keys && Send(w, key).reg.closed == w.reg.closed
    ensures Synced(Send(w, key), todo - {key})
  {
    hide Key, ToWireParams, RegistryInv;
    assert w.reg.connGen > 0 by { ConnectedGen(w.reg); }
    ClaimKeeps(w.reg, key);
    var t := Send(w, key);
    var p := ParamsOf(w.reg, key);
    assert forall k <- w.reg.subscriptions :: ParamsOf(t.reg, k) == ParamsOf(w.reg, k);
    forall k | k in w.reg.subscriptions && k !in todo ensures ParamsOf(w.reg, k) != p {
      DistinctParams(w.reg, k, key);
    }
    assert p !in w.server.active;
    OnSubscribeBalanced(w.server, p);
    assert t.server == OnSubscribe(w.server, p);
    forall q ensures q in t.server.active <==>
      exists k :: k in t.reg.subscriptions && k !in todo - {key} && ParamsOf(t.reg, k) == q
    {
      if q == p {
        assert ParamsOf(t.reg, key) == q;
      } else if k :| k in w.reg.subscriptions && k !in todo && ParamsOf(w.reg, k) == q {
        assert ParamsOf(t.reg, k) == q;
      }
    }
  }

  lemma ConnectedGen(r: Registry)
    requires RegistryInv(r) && r.connected
    ensures r.connGen > 0
  {}

  lemma {:induction false} SendAllSyncs(w: World, keys: seq<string>, todo: set<string>)
    requires RegistryInv(w.reg) && Keyed(w.reg) && w.reg.connected && Synced(w, todo)
    requires multiset(keys) == multiset(todo) && todo <= w.reg.subscriptions.Keys
    ensures Inv(SendAll(w, keys))
    ensures SendAll(w, keys).reg.subscriptions.Keys == w.reg.subscriptions.Keys
    ensures SendAll(w, keys).reg.connected && SendAll(w, keys).reg.closed == w.reg.closed
    decreases |keys|
  {
    hide Key, ToWireParams, RegistryInv, Keyed, Send, Synced;
    if keys == [] {
      assert forall k :: k in todo <==> k in multiset(keys);
      assert todo == {};
    } else {
      assert keys == [keys[0]] + keys[1..];
      assert keys[0] in multiset(keys);
      SendSyncs(w, keys[0], todo);
      assert multiset(todo - {keys[0]}) == multiset(todo) - multiset{keys[0]};
      SendAllSyncs(Send(w, keys[0]), keys[1..], todo - {keys[0]});
    }
  }

  lemma RegisterSyncs(w: World, spec: SubscribeSpec)
    requires RegistryInv(w.reg) && Keyed(w.reg) && !w.reg.closed
    ensures
      var (reg, _, first) := Register(w.reg, Key(spec), spec);
      && RegistryInv(reg) && Keyed(reg) && reg.connected == w.reg.connected && Key(spec) in reg.subscriptions
      && (w.reg.connected && Synced(w, {}) ==> Synced(World(reg, w.server), if first then {Key(spec)} else {}))
  {
    hide Key, ToWireParams, RegistryInv;
    var key := Key(spec);
    var (reg, _, first) := Register(w.reg, key, spec);
    RegisterKeeps(w.reg, key, spec);
    assert forall k <- w.reg.subscriptions :: ParamsOf(reg, k) == ParamsOf(w.reg, k);
    if w.reg.connected && Synced(w, {}) {
      ConnectedGen(w.reg);
      var t := World(reg, w.server);
      var todo := if first then {key} else {};
      forall p ensures p in t.server.active <==>
        exists k :: k in reg.subscriptions && k !in todo && ParamsOf(reg, k) == p
      {
        if k :| k in w.reg.subscriptions && ParamsOf(w.reg, k) == p {
          assert k in reg.subscriptions && k !in todo && ParamsOf(reg, k) == p;
        }
      }
    }
  }

  lemma DropSyncs(w: World, key: string, sub: Subscriber)
    requires Inv(w)
    ensures Inv(Perform(w, Unsubscribe(key, sub)))
  {
    hide Key, ToWireParams, RegistryInv;
    DropKeeps(w.reg, key, sub);
    var (reg, last) := Drop(w.reg, key, sub);
    var t := Perform(w, Unsubscribe(key, sub));
    assert forall k <- reg.subscriptions :: k in w.reg.subscriptions && ParamsOf(reg, k) == ParamsOf(w.reg, k);
    if w.reg.connected && last {
      var p := ParamsOf(w.reg, key);
      assert p in w.server.active;
      OnUnsubscribeBalanced(w.server, p);
      forall q ensures q in t.server.active <==> exists k :: k in reg.subscriptions && ParamsOf(reg, k) == q {
        if q in t.server.active {
          var k :| k in w.reg.subscriptions && ParamsOf(w.reg, k) == q;
          assert k in reg.subscriptions && ParamsOf(reg, k) == q;
        } else if k :| k in reg.subscriptions && ParamsOf(reg, k) == q {
          DistinctParams(w.reg, k, key);
        }
      }
    } else if w.reg.connected {
      forall q ensures q in t.server.active <==> exists k :: k in reg.subscriptions && ParamsOf(reg, k) == q {
        if q in w.server.active {
          var k :| k in w.reg.subscriptions && ParamsOf(w.reg, k) == q;
          assert k in reg.subscriptions && ParamsOf(reg, k) == q;
        }
      }
    }
  }

  lemma ReconnectSyncs(w: World, order: seq<string>)
    requires Inv(w)
    ensures Inv(Perform(w, Reconnect(order))) && Perform(w, Reconnect(order)).reg.closed == w.reg.closed
  {
    hide Key, ToWireParams;
    if !w.reg.connected && multiset(order) == multiset(w.reg.subscriptions.Keys) {
      ConnectionKeeps(w.reg);
      var t := World(Connect(w.reg), FRESH);
      assert forall k <- w.reg.subscriptions :: Entry(w.reg, k);
      SendAllSyncs(t, order, w.reg.subscriptions.Keys);
    }
  }

  lemma PerformKeepsInv(w: World, op: Op)
    requires Inv(w) && !w.reg.closed
    ensures Inv(Perform(w, op)) && !Perform(w, op).reg.closed
  {
    hide Key, ToWireParams, RegistryInv;
    match op {
      case Subscribe(spec) =>
        RegisterSyncs(w, spec);
        var (reg, _, first) := Register(w.reg, Key(spec), spec);
        if first && reg.connected {
          SendSyncs(World(reg, w.server), Key(spec), {Key(spec)});
        }
      case Unsubscribe(key, sub) => DropSyncs(w, key, sub);
      case LoseConnection => ConnectionKeeps(w.reg);
      case Reconnect(order) => ReconnectSyncs(w, order);
    }
  }

  lemma {:induction false} RunKeepsInv(ops: seq<Op>)
    ensures Inv(Run(ops)) && !Run(ops).reg.closed
  {
    hide Key, ToWireParams;
    if ops != [] {
      RunKeepsInv(ops[..|ops| - 1]);
      PerformKeepsInv(Run(ops[..|ops| - 1]), ops[|ops| - 1]);
    }
  }

  /** Reference counting refines a plain set: after any serialised run, whenever the
      client is connected the server's subscriptions on the live connection are
      exactly the wire parameters of the tracked keys, and for every parameter set
      the subscribes sent on that connection exceed the unsubscribes by one if it is
      active and by none if it is not. */
  lemma ReferenceCountingRefinesSet(ops: seq<Op>)
    requires Run(ops).reg.connected
    ensures
      var w := Run(ops);
      && w.server.active == Tracked(w.reg)
      && (forall p :: w.server.subscribes[p] == w.server.unsubscribes[p] + if p in w.server.active then 1 else 0)
  {
    hide Key, ToWireParams;
    RunKeepsInv(ops);
    var w := Run(ops);
    forall p | p in w.server.active ensures p in Tracked(w.reg) {
      var key :| key in w.reg.subscriptions && ParamsOf(w.reg, key) == p;
    }
    forall p | p in Tracked(w.reg) ensures p in w.server.active {
      var key :| key in w.reg.subscriptions && ToWireParams(w.reg.subscriptions[key].spec) == p;
      assert ParamsOf(w.reg, key) == p;
    }
  }
}
