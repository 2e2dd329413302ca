/** The locked state of the public stream client: connection, generation and
    reference-counted subscriptions, with one function per critical section. */
module Registry {
  import opened Wrappers
  import opened Subscription

  // One local subscriber; subKey is fixed at construction.
  datatype Subscriber = Subscriber(id: nat, subKey: string)

  // A shared upstream subscription. `obj` is its identity: a key dropped and
  // tracked again gets a new one.
  datatype Shared = Shared(obj: nat, spec: SubscribeSpec, subs: seq<Subscriber>, lastWireGen: nat)

  datatype Registry = Registry(
    connected: bool,                       // c.conn != nil
    connGen: nat,
    subscriptions: map<string, Shared>,
    closed: bool,
    nextSubID: nat,
    nextObj: nat
  )

  const EMPTY := Registry(false, 0, map[], false, 0, 0)

  // Subscribe's first critical section: the new subscriber, and whether it is the
  // first local one for its key.
  function Register(r: Registry, key: string, spec: SubscribeSpec): (Registry, Subscriber, bool) {
    var shared := key in r.subscriptions;
    var entry := if shared then r.subscriptions[key] else Shared(r.nextObj, spec, [], 0);
    var sub := Subscriber(r.nextSubID + 1, key);
    (r.(subscriptions := r.subscriptions[key := entry.(subs := entry.subs + [sub])],
        nextSubID := r.nextSubID + 1,
        nextObj := if shared then r.nextObj else r.nextObj + 1),
     sub, !shared)
  }

  // sendSubscribeIfNeeded's first critical section: the generation it claimed, if any.
  function Claim(r: Registry, key: string): (Registry, Option<nat>) {
    if key !in r.subscriptions || r.connGen == 0 || r.subscriptions[key].lastWireGen == r.connGen then (r, None)
    else (r.(subscriptions := r.subscriptions[key := r.subscriptions[key].(lastWireGen := r.connGen)]), Some(r.connGen))
  }

  // Its second one, after a failed send claimed for generation gen.
  function Unclaim(r: Registry, key: string, gen: nat): Registry {
    if key in r.subscriptions && r.subscriptions[key].lastWireGen == gen
    then r.(subscriptions := r.subscriptions[key := r.subscriptions[key].(lastWireGen := 0)])
    else r
  }

  function Without(subs: seq<Subscriber>, sub: Subscriber): seq<Subscriber> {
    if subs == [] then []
    else if subs[0] == sub then subs[1..]
    else [subs[0]] + Without(subs[1..], sub)
  }

  // removeSubscriber's critical section, and whether an upstream unsubscribe follows.
  function Drop(r: Registry, key: string, sub: Subscriber): (Registry, bool) {
    if key !in r.subscriptions then (r, false)
    else
      var entry := r.subscriptions[key];
      var rest := Without(entry.subs, sub);
      if rest == [] then (r.(subscriptions := r.subscriptions - {key}), true)
      else (r.(subscriptions := r.subscriptions[key := entry.(subs := rest)]), false)
  }

  function Connect(r: Registry): Registry {
    r.(connected := true, connGen := r.connGen + 1)
  }

  function Disconnect(r: Registry): Registry {
    r.(connected := false)
  }

  function CloseAll(r: Registry): Registry {
    r.(closed := true, subscriptions := map[])
  }

  // ---------------------------------------------------------------------
  // Invariant

  predicate Distinct(subs: seq<Subscriber>) {
    forall i, j | 0 <= i < j < |subs| :: subs[i].id != subs[j].id
  }

  ghost predicate Entry(r: Registry, key: string)
    requires key in r.subscriptions
  {
    var e := r.subscriptions[key];
    && e.subs != []
    && (forall i | 0 <= i < |e.subs| :: e.subs[i].subKey == key && e.subs[i].id <= r.nextSubID)
    && Distinct(e.subs)
    && e.obj < r.nextObj
    && e.lastWireGen <= r.connGen
  }

  /** Every tracked key has a subscriber; every subscriber is listed once, under its
      own key; no mark runs ahead of the generation. */
  ghost predicate RegistryInv(r: Registry) {
    && (forall key <- r.subscriptions :: Entry(r, key))
    && (forall k, l | k in r.subscriptions && l in r.subscriptions ::
          r.subscriptions[k].obj == r.subscriptions[l].obj ==> k == l)
    && (r.connected ==> r.connGen > 0)
    && (r.closed ==> r.subscriptions == map[])
  }

  predicate Listed(r: Registry, sub: Subscriber) {
    sub.subKey in r.subscriptions && sub in r.subscriptions[sub.subKey].subs
  }

  /** Registration lists the new subscriber beside all that were listed before. */
  lemma RegisterLists(r: Registry, key: string, spec: SubscribeSpec, sub: Subscriber)
    ensures Listed(Register(r, key, spec).0, sub) <==> Listed(r, sub) || sub == Register(r, key, spec).1
  {}

  lemma RegisterKeeps(r: Registry, key: string, spec: SubscribeSpec)
    requires RegistryInv(r) && !r.closed
    ensures RegistryInv(Register(r, key, spec).0)
    ensures !Listed(r, Register(r, key, spec).1)
  {
    var t := Register(r, key, spec).0;
    forall k <- t.subscriptions ensures Entry(t, k) {
      assert k in r.subscriptions ==> Entry(r, k);
    }
    assert key in r.subscriptions ==> Entry(r, key);
  }

  lemma ClaimKeeps(r: Registry, key: string)
    requires RegistryInv(r)
    ensures RegistryInv(Claim(r, key).0)
  {
    var t := Claim(r, key).0;
    forall k <- t.subscriptions ensures Entry(t, k) {
      assert Entry(r, k);
    }
  }

  lemma UnclaimKeeps(r: Registry, key: string, gen: nat)
    requires RegistryInv(r)
    ensures RegistryInv(Unclaim(r, key, gen))
  {
    var t := Unclaim(r, key, gen);
    forall k <- t.subscriptions ensures Entry(t, k) {
      assert Entry(r, k);
    }
  }

  lemma {:induction false} WithoutMembers(subs: seq<Subscriber>, sub: Subscriber)
    requires Distinct(subs)
    ensures forall s :: s in Without(subs, sub) <==> s in subs && s != sub
    ensures sub !in subs ==> Without(subs, sub) == subs
  {
    if subs != [] {
      var rest := subs[1..];
      assert subs == [subs[0]] + rest;
      assert Distinct(rest) && forall s <- rest :: s.id != subs[0].id;
      WithoutMembers(rest, sub);
    }
  }

  /** The splice takes out the subscriber and nothing else. */
  lemma {:induction false} WithoutDistinct(subs: seq<Subscriber>, sub: Subscriber)
    requires Distinct(subs)
    ensures forall s :: s in Without(subs, sub) <==> s in subs && s != sub
    ensures Distinct(Without(subs, sub))
    ensures sub !in subs ==> Without(subs, sub) == subs
  {
    WithoutMembers(subs, sub);
    if subs != [] && subs[0] != sub {
      var rest := subs[1..];
      var w := Without(rest, sub);
      WithoutDistinct(rest, sub);
      assert forall s <- rest :: s.id != subs[0].id;
      forall i, j | 0 <= i < j < |Without(subs, sub)|
        ensures Without(subs, sub)[i].id != Without(subs, sub)[j].id
      {
        assert w[j - 1] in rest;
      }
    }
  }

  // The entry of a key after a subscriber was taken off its list.
  lemma DroppedEntry(r: Registry, key: string, sub: Subscriber)
    requires key in r.subscriptions && Entry(r, key) && key in Drop(r, key, sub).0.subscriptions
    ensures Entry(Drop(r, key, sub).0, key)
  {
    var e := r.subscriptions[key];
    WithoutDistinct(e.subs, sub);
    hide Without;
    var subs := Without(e.subs, sub);
    assert forall i | 0 <= i < |subs| :: subs[i] in subs;
  }

  lemma DropKeeps(r: Registry, key: string, sub: Subscriber)
    requires RegistryInv(r)
    ensures RegistryInv(Drop(r, key, sub).0)
  {
    hide Without, Entry;
    var t := Drop(r, key, sub).0;
    forall k <- t.subscriptions ensures Entry(t, k) {
      assert Entry(r, k);
      if k == key {
        DroppedEntry(r, key, sub);
      } else {
        EntryFrame(r, t, k);
      }
    }
  }

  lemma EntryFrame(r: Registry, t: Registry, k: string)
    requires k in r.subscriptions && k in t.subscriptions && t.subscriptions[k] == r.subscriptions[k] && Entry(r, k)
    requires t.nextSubID >= r.nextSubID && t.nextObj >= r.nextObj && t.connGen >= r.connGen
    ensures Entry(t, k)
  {}

  lemma ConnectionKeeps(r: Registry)
    requires RegistryInv(r)
    ensures RegistryInv(Connect(r)) && RegistryInv(Disconnect(r)) && RegistryInv(CloseAll(r))
  {
    forall k <- r.subscriptions ensures Entry(Connect(r), k) && Entry(Disconnect(r), k) {
      assert Entry(r, k);
    }
  }

  /** A drop takes its subscriber off the list, and nobody else off any. */
  lemma DropUnlists(r: Registry, key: string, sub: Subscriber, other: Subscriber)
    requires RegistryInv(r) && sub.subKey == key
    ensures Listed(Drop(r, key, sub).0, other) <==> Listed(r, other) && other != sub
  {
    if key in r.subscriptions {
      assert Entry(r, key);
      WithoutDistinct(r.subscriptions[key].subs, sub);
      hide Without, Distinct;
      var rest := Without(r.subscriptions[key].subs, sub);
      assert rest == [] ==> other !in rest;
    }
  }

  /** Dropping a subscriber that is not listed, as the second call of an
      unsubscribe function does, changes nothing and sends nothing. */
  lemma DropAgain(r: Registry, key: string, sub: Subscriber)
    requires RegistryInv(r) && (key in r.subscriptions ==> sub !in r.subscriptions[key].subs)
    ensures Drop(r, key, sub) == (r, false)
  {
    if key in r.subscriptions {
      assert Entry(r, key);
      WithoutDistinct(r.subscriptions[key].subs, sub);
      assert r.subscriptions[key := r.subscriptions[key]] == r.subscriptions;
    }
  }
}
