/** The public stream client's locked fields, updated in place. Each method is one
    critical section and refines the registry function of the same step. */
module PublicClient {
  import opened Wrappers
  import opened Subscription
  import opened Registry

  // The fields of a decoded data payload that fan-out peeks at; absent ones are "".
  datatype Peek = Peek(symbol: string, market: string)

  // A notification; data is None when the payload is missing or does not decode.
  datatype Message = Message(channel: string, methodName: string, data: Option<Peek>)

  function ChannelOf(msg: Message): string {
    if msg.channel == "" then msg.methodName else msg.channel
  }

  function SymbolOf(msg: Message): string {
    match msg.data
    case None => ""
    case Some(peek) => if peek.symbol == "" then peek.market else peek.symbol
  }

  /** A notification goes by its channel and, only without one, by its method; its symbol
      is the payload's symbol and, only without one, its market. */
  lemma FallsBack(channel: string, methodName: string, symbol: string, market: string)
    requires channel != "" && symbol != ""
    ensures ChannelOf(Message(channel, methodName, None)) == channel
    ensures ChannelOf(Message("", methodName, None)) == methodName
    ensures SymbolOf(Message(channel, methodName, Some(Peek(symbol, market)))) == symbol
    ensures SymbolOf(Message(channel, methodName, Some(Peek("", market)))) == market
    ensures SymbolOf(Message(channel, methodName, None)) == ""
  {}

  // extractSymbol
  method ExtractSymbol(data: Option<Peek>) returns (symbol: string)
    ensures forall msg: Message | msg.data == data :: symbol == SymbolOf(msg)
  {
    if data.None? {
      return "";
    }
    if data.value.symbol != "" {
      return data.value.symbol;
    }
    symbol := data.value.market;
  }

  // Subscriber sub is listed by a subscription that matches the notification.
  ghost predicate Wants(r: Registry, channel: string, symbol: string, sub: Subscriber) {
    && Listed(r, sub)
    && Matches(r.subscriptions[sub.subKey].spec, channel, symbol)
  }

  lemma {:induction false} ListedOnce(subs: seq<Subscriber>, sub: Subscriber)
    requires Distinct(subs)
    ensures multiset(subs)[sub] == if sub in subs then 1 else 0
  {
    if subs != [] {
      assert subs == [subs[0]] + subs[1..];
      assert forall s <- subs[1..] :: s.id != subs[0].id;
      ListedOnce(subs[1..], sub);
    }
  }

  lemma ListedUnder(subs: seq<Subscriber>, key: string)
    requires Distinct(subs) && forall i | 0 <= i < |subs| :: subs[i].subKey == key
    ensures forall sub :: multiset(subs)[sub] == if sub in subs then 1 else 0
    ensures forall sub <- subs :: sub.subKey == key
  {
    forall sub ensures multiset(subs)[sub] == if sub in subs then 1 else 0 {
      ListedOnce(subs, sub);
    }
  }

  // The scan and splice of removeSubscriber.
  method Splice(subs: seq<Subscriber>, sub: Subscriber) returns (rest: seq<Subscriber>)
    ensures rest == Without(subs, sub)
  {
    var i := 0;
    while i < |subs| && subs[i] != sub
      invariant 0 <= i <= |subs|
      invariant Without(subs, sub) == subs[..i] + Without(subs[i..], sub)
    {
      assert subs[i..][1..] == subs[i + 1..];
      i := i + 1;
    }
    if i == |subs| {
      return subs;
    }
    assert subs[i..][1..] == subs[i + 1..];
    rest := subs[..i] + subs[i + 1..];
  }

  class Client {
    var connected: bool
    var connGen: nat
    var subscriptions: map<string, Shared>
    var closed: bool
    var nextSubID: nat
    var nextObj: nat

    ghost function View(): Registry
      reads this
    {
      EMPTY.(connected := connected, connGen := connGen, subscriptions := subscriptions,
             closed := closed, nextSubID := nextSubID, nextObj := nextObj)
    }

    constructor ()
      ensures View() == EMPTY && RegistryInv(View())
    {
      connected, connGen, subscriptions, closed, nextSubID, nextObj := false, 0, map[], false, 0, 0;
    }

    method AddSubscriber(key: string, spec: SubscribeSpec) returns (r: Option<(Subscriber, bool)>)
      requires RegistryInv(View())
      modifies this
      ensures r.None? <==> old(closed)
      ensures r.None? ==> View() == old(View())
      ensures r.Some? ==> (View(), r.value.0, r.value.1) == Register(old(View()), key, spec)
      ensures r.Some? ==>
                && !Listed(old(View()), r.value.0)
                && forall sub :: Listed(View(), sub) <==> Listed(old(View()), sub) || sub == r.value.0
      ensures RegistryInv(View())
    {
      if closed {
        return None;
      }
      RegisterKeeps(View(), key, spec);
      var shared := key in subscriptions;
      var entry := if shared then subscriptions[key] else Shared(nextObj, spec, [], 0);
      if !shared {
        nextObj := nextObj + 1;
      }
      nextSubID := nextSubID + 1;
      var sub := Subscriber(nextSubID, key);
      subscriptions := subscriptions[key := entry.(subs := entry.subs + [sub])];
      assert View() == Register(old(View()), key, spec).0;
      r := Some((sub, !shared));
      forall other ensures Listed(View(), other) <==> Listed(old(View()), other) || other == sub {
        RegisterLists(old(View()), key, spec, other);
      }
    }

    method ClaimGeneration(key: string) returns (gen: Option<nat>)
      requires RegistryInv(View())
      modifies this`subscriptions
      ensures (View(), gen) == Claim(old(View()), key)
      ensures RegistryInv(View())
    {
      ClaimKeeps(View(), key);
      if key !in subscriptions || connGen == 0 || subscriptions[key].lastWireGen == connGen {
        return None;
      }
      subscriptions := subscriptions[key := subscriptions[key].(lastWireGen := connGen)];
      gen := Some(connGen);
    }

    method ResetGeneration(key: string, gen: nat)
      requires RegistryInv(View())
      modifies this`subscriptions
      ensures View() == Unclaim(old(View()), key, gen)
      ensures RegistryInv(View())
    {
      UnclaimKeeps(View(), key, gen);
      if key in subscriptions && subscriptions[key].lastWireGen == gen {
        subscriptions := subscriptions[key := subscriptions[key].(lastWireGen := 0)];
      }
    }

    method RemoveSubscriber(key: string, sub: Subscriber) returns (last: bool)
      requires RegistryInv(View())
      modifies this`subscriptions
      ensures (View(), last) == Drop(old(View()), key, sub)
      ensures sub.subKey == key ==>
                forall other :: Listed(View(), other) <==> Listed(old(View()), other) && other != sub
      ensures RegistryInv(View())
    {
      DropKeeps(View(), key, sub);
      forall other | sub.subKey == key
        ensures Listed(Drop(View(), key, sub).0, other) <==> Listed(View(), other) && other != sub
      {
        DropUnlists(View(), key, sub, other);
      }
      if key !in subscriptions {
        return false;
      }
      var entry := subscriptions[key];
      var subs := Splice(entry.subs, sub);
      last := |subs| == 0;
      if last {
        subscriptions := subscriptions - {key};
      } else {
        subscriptions := subscriptions[key := entry.(subs := subs)];
      }
    }

    method StoreConnection()
      requires RegistryInv(View())
      modifies this`connected, this`connGen
      ensures View() == Connect(old(View())) && RegistryInv(View())
    {
      ConnectionKeeps(View());
      connected := true;
      connGen := connGen + 1;
    }

    method ClearConnection()
      requires RegistryInv(View())
      modifies this`connected
      ensures View() == Disconnect(old(View())) && RegistryInv(View())
    {
      ConnectionKeeps(View());
      connected := false;
    }

    // Close, up to the release of the lock; `first` says that it does the closing.
    method CloseLocked() returns (first: bool)
      requires RegistryInv(View())
      modifies this`closed, this`subscriptions
      ensures first == !old(closed)
      ensures View() == CloseAll(old(View())) && RegistryInv(View())
    {
      ConnectionKeeps(View());
      if closed {
        return false;
      }
      closed := true;
      subscriptions := map[];
      first := true;
    }

    // The snapshot of resubscribeAll: every tracked key once, in any order.
    method SnapshotKeys() returns (keys: seq<string>)
      ensures multiset(keys) == multiset(subscriptions.Keys)
    {
      keys := [];
      var todo := subscriptions.Keys;
      while todo != {}
        invariant todo <= subscriptions.Keys
        invariant multiset(keys) == multiset(subscriptions.Keys - todo)
        decreases todo
      {
        var k :| k in todo;
        keys := keys + [k];
        todo := todo - {k};
      }
      assert subscriptions.Keys - todo == subscriptions.Keys;
    }

    /** Exactly-once fan-out: the snapshot holds each subscriber whose subscription
        matches the message exactly once, and no other, whatever the iteration order. */
    method FanOut(msg: Message) returns (matched: seq<Subscriber>)
      requires RegistryInv(View())
      ensures forall sub :: multiset(matched)[sub] == if Wants(View(), ChannelOf(msg), SymbolOf(msg), sub) then 1 else 0
    {
      var channel := msg.channel;
      if channel == "" {
        channel := msg.methodName;
      }
      var symbol := ExtractSymbol(msg.data);
      matched := [];
      var todo := subscriptions.Keys;
      while todo != {}
        invariant todo <= subscriptions.Keys
        invariant forall sub :: multiset(matched)[sub] ==
                    if Wants(View(), channel, symbol, sub) && sub.subKey !in todo then 1 else 0
        decreases todo
      {
        var k :| k in todo;
        var entry := subscriptions[k];
        assert Entry(View(), k);
        if Matches(entry.spec, channel, symbol) {
          ListedUnder(entry.subs, k);
          matched := matched + entry.subs;
        }
        todo := todo - {k};
      }
    }
  }
}
