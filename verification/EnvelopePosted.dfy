/** What the posted envelope carries, signed or not: read by the JSON tags of the wire
    types, with absent keys as zero values, it gives back all the caller put in. */
module EnvelopePosted {
  import opened Wrappers
  import opened Text
  import opened Envelope
  import opened EnvelopeAgreement
  import opened F = Float64
  import EnvelopeFlattening

  // ---------------------------------------------------------------------
  // Reading a field of a Go struct from JSON

  function GetText(m: Fields, k: Name): string {
    match Get(m, k)
    case Some(Str(s)) => s
    case _ => ""
  }

  function GetFlag(m: Fields, k: Name): bool {
    Get(m, k) == Some(Bool(true))
  }

  function GetInt(m: Fields, k: Name): int {
    match Get(m, k)
    case Some(Num(n)) => n
    case _ => 0
  }

  function GetNat(m: Fields, k: Name): nat {
    var n := GetInt(m, k);
    if n < 0 then 0 else n
  }

  function GetId(m: Fields, k: Name): nat {
    var id := ParseDigits(GetText(m, k));
    if id.Some? then id.value else 0
  }

  function GetObject(m: Fields, k: Name): Fields {
    match Get(m, k)
    case Some(Obj(fields)) => fields
    case _ => map[]
  }

  // types.PlaceOrderItem, by its JSON tags.
  function ReadOrder(m: Fields): OrderInput {
    OrderInput(
      GetText(m, Symbol), GetText(m, Side), GetText(m, OrderType),
      GetText(m, Price), GetText(m, TriggerPrice), GetText(m, Quantity),
      GetFlag(m, ReduceOnly), GetFlag(m, PostOnly), GetFlag(m, IsTriggerMarket),
      GetText(m, ClientOrderId), GetFlag(m, ClosePosition), GetInt(m, ExpiresAt),
      GetText(m, TimeInForce), GetInt(m, DurationSeconds), GetInt(m, IntervalSeconds))
  }

  // The envelope types' common fields; an account not named there is named in params.
  function ReadContext(envelope: Fields): Context {
    var params := GetObject(envelope, Params);
    Context(
      GetId(if Get(envelope, SubaccountId).Some? then envelope else params, SubaccountId),
      GetText(envelope, WalletAddress), GetNat(envelope, Nonce), GetInt(envelope, ExpiresAfter),
      GetObject(envelope, Signature))
  }

  // ---------------------------------------------------------------------

  lemma OrderGet(o: OrderInput, f: Name)
    ensures Get(WireOrder(o), f) == WireField(o, f)
  {
    hide WireField;
  }

  lemma OrderTextPosted(o: OrderInput)
    ensures
      var (p, w) := (ReadOrder(WireOrder(o)), WireOrder(o));
      && p.symbol == o.symbol && p.side == o.side && p.orderType == o.orderType && p.price == o.price
      && p.triggerPrice == o.triggerPrice && p.quantity == o.quantity
  {
    hide WireOrder, Get;
    OrderGet(o, Symbol);
    OrderGet(o, Side);
    OrderGet(o, OrderType);
    OrderGet(o, Price);
    OrderGet(o, TriggerPrice);
    OrderGet(o, Quantity);
  }

  lemma OrderFlagsPosted(o: OrderInput)
    ensures
      var p := ReadOrder(WireOrder(o));
      && p.reduceOnly == o.reduceOnly && p.postOnly == o.postOnly && p.isTriggerMarket == o.isTriggerMarket
      && p.clientOrderId == o.clientOrderId && p.closePosition == o.closePosition
  {
    hide WireOrder, Get;
    OrderGet(o, ReduceOnly);
    OrderGet(o, PostOnly);
    OrderGet(o, IsTriggerMarket);
    OrderGet(o, ClientOrderId);
    OrderGet(o, ClosePosition);
  }

  lemma OrderTimesPosted(o: OrderInput)
    ensures
      var p := ReadOrder(WireOrder(o));
      && p.expiresAt == o.expiresAt && p.timeInForce == o.timeInForce
      && p.durationSeconds == o.durationSeconds && p.intervalSeconds == o.intervalSeconds
  {
    hide WireOrder, Get;
    OrderGet(o, ExpiresAt);
    OrderGet(o, TimeInForce);
    OrderGet(o, DurationSeconds);
    OrderGet(o, IntervalSeconds);
  }

  /** Posted is what was asked for: all fifteen fields of an order can be read back
      from its wire form, the five that are not signed included. */
  lemma OrderReadsBack(o: OrderInput)
    ensures ReadOrder(WireOrder(o)) == o
  {
    hide ReadOrder, WireOrder;
    OrderTextPosted(o);
    OrderFlagsPosted(o);
    OrderTimesPosted(o);
  }

  lemma OrdersReadBack(orders: seq<OrderInput>)
    ensures |WireOrders(orders)| == |orders|
    ensures forall i | 0 <= i < |orders| ::
              WireOrders(orders)[i].Obj? && ReadOrder(WireOrders(orders)[i].fields) == orders[i]
  {
    hide WireOrder, ReadOrder;
    forall i | 0 <= i < |orders| ensures ReadOrder(WireOrder(orders[i])) == orders[i] {
      OrderReadsBack(orders[i]);
    }
  }

  lemma EnvelopeGet(req: Request, c: Context, k: Name)
    ensures k != Params ==> Get(EnvelopeOf(req, c), k) == TopField(req, c, k)
    ensures GetObject(EnvelopeOf(req, c), Params) == ParamsOf(req, c)
  {
    hide TopField, ParamsOf;
  }

  // The actions whose envelope type has a wallet address.
  predicate HasWallet(req: Request) {
    || req.PlaceOrders? || req.CancelOrders? || req.CancelOrdersByCloid? || req.CancelAllOrders?
    || req.ModifyOrder? || req.ModifyOrderByCloid? || req.UpdateLeverage? || req.WithdrawCollateral?
    || req.TransferCollateral? || req.RemoveDelegatedSigner? || req.ScheduleCancel? || req.SubAccountAction?
  }

  lemma AccountReadsBack(req: Request, c: Context)
    ensures ReadContext(EnvelopeOf(req, c)).account == c.account
  {
    EnvelopeGet(req, c, SubaccountId);
    ParamsGet(req, c, SubaccountId);
    DecimalParses(c.account);
    hide EnvelopeOf, ParamsOf, TopOf, Get, GetObject, Decimal, ParseDigits;
  }

  lemma TopReadsBack(req: Request, c: Context)
    ensures
      var d := ReadContext(EnvelopeOf(req, c));
      && d.nonce == c.nonce && d.expiresAfter == c.expiresAfter && d.signature == c.signature
      && d.wallet == if HasWallet(req) then c.wallet else ""
  {
    EnvelopeGet(req, c, Nonce);
    EnvelopeGet(req, c, ExpiresAfter);
    EnvelopeGet(req, c, Signature);
    EnvelopeGet(req, c, WalletAddress);
    hide EnvelopeOf, ParamsOf, Get, Decimal, ParamField;
  }

  /** The rest of the envelope: account, nonce, expiry, signature and, but for four
      actions, the signer's address can be read back from it. */
  lemma ContextReadsBack(req: Request, c: Context)
    ensures ReadContext(EnvelopeOf(req, c)) == c.(wallet := if HasWallet(req) then c.wallet else "")
  {
    AccountReadsBack(req, c);
    TopReadsBack(req, c);
    hide ReadContext, EnvelopeOf;
  }

  // ---------------------------------------------------------------------
  // Over the websocket

  lemma SentAt(m: Fields, k: Name)
    ensures EnvelopeFlattening.Sent(Obj(m)).Obj?
    ensures Get(EnvelopeFlattening.Sent(Obj(m)).fields, k) == EnvelopeFlattening.MapSent(Get(m, k))
  {}

  lemma SentInt(m: Fields, k: Name)
    ensures GetInt(EnvelopeFlattening.Sent(Obj(m)).fields, k) == Resent(GetInt(m, k))
  {
    EnvelopeFlattening.ZeroKept();
    SentAt(m, k);
    hide EnvelopeFlattening.Sent, Get, Resent;
    assert forall n :: EnvelopeFlattening.Sent(Num(n)) == Num(Resent(n)) by {
      forall n ensures EnvelopeFlattening.Sent(Num(n)) == Num(Resent(n)) { SentNum(n); }
    }
    assert forall j: Json | !j.Num? :: !EnvelopeFlattening.Sent(j).Num? by {
      forall j: Json | !j.Num? ensures !EnvelopeFlattening.Sent(j).Num? { SentShape(j); }
    }
  }

  lemma SentNum(n: int)
    ensures EnvelopeFlattening.Sent(Num(n)) == Num(Resent(n))
  {}

  lemma SentShape(j: Json)
    ensures EnvelopeFlattening.Sent(j).Num? <==> j.Num?
    ensures j.Str? || j.Bool? || EnvelopeFlattening.Sent(j).Str? || EnvelopeFlattening.Sent(j).Bool? ==>
              EnvelopeFlattening.Sent(j) == j
  {}

  lemma SentTextAndFlag(m: Fields, k: Name)
    ensures GetText(EnvelopeFlattening.Sent(Obj(m)).fields, k) == GetText(m, k)
    ensures GetFlag(EnvelopeFlattening.Sent(Obj(m)).fields, k) == GetFlag(m, k)
  {
    SentAt(m, k);
    if Get(m, k).Some? {
      SentShape(Get(m, k).value);
    }
    hide EnvelopeFlattening.Sent, Get;
  }

  /** Over the websocket the same holds of an order if and only if its expiry and its
      TWAP timing come out of the float64 they pass through as they went in. */
  lemma OrderReadsBackSent(o: OrderInput)
    ensures ReadOrder(EnvelopeFlattening.Sent(Obj(WireOrder(o))).fields) == o
            <==> Kept(o.expiresAt) && Kept(o.durationSeconds) && Kept(o.intervalSeconds)
  {
    OrderReadsBack(o);
    var w := WireOrder(o);
    SentAt(w, Symbol);
    hide WireOrder, EnvelopeFlattening.Sent, Resent, GetText, GetFlag, GetInt;
    var sent := EnvelopeFlattening.Sent(Obj(w)).fields;
    forall k: Name
      ensures GetInt(sent, k) == Resent(GetInt(w, k))
      ensures GetText(sent, k) == GetText(w, k) && GetFlag(sent, k) == GetFlag(w, k)
    {
      SentInt(w, k);
      SentTextAndFlag(w, k);
    }
  }

  // A signature as the wire type has it: two texts and a byte.
  function WireSignature(r: string, s: string, v: int): Fields {
    map[R := Str(r), S := Str(s), V := Num(v)]
  }

  lemma SignatureKept(r: string, s: string, v: int)
    requires 0 <= v < 256
    ensures EnvelopeFlattening.Sent(Obj(WireSignature(r, s, v))) == Obj(WireSignature(r, s, v))
  {
    SmallIntegersAreKept(v);
    SentNum(v);
    SentShape(Str(r));
    SentShape(Str(s));
    var m := WireSignature(r, s, v);
    SentAt(m, R);
    hide EnvelopeFlattening.Sent, Resent;
    forall k: Name ensures Get(EnvelopeFlattening.Sent(Obj(m)).fields, k) == Get(m, k) {
      SentAt(m, k);
    }
    hide WireSignature;
    SameGet(EnvelopeFlattening.Sent(Obj(m)).fields, m);
  }

  lemma SameGet(a: Fields, b: Fields)
    requires forall k: Name :: Get(a, k) == Get(b, k)
    ensures a == b
  {
    assert forall k: Name :: k in a <==> Get(a, k).Some?;
    assert forall k: Name :: k in b <==> Get(b, k).Some?;
  }

  /** What is not signed gets through the websocket too: the signature itself, and the
      signer's address for the actions that name it. */
  lemma SignatureIsSent(req: Request, c: Context, r: string, s: string, v: int)
    requires c.signature == WireSignature(r, s, v) && 0 <= v < 256
    ensures GetObject(EnvelopeFlattening.SentOf(req, c), Signature) == c.signature
    ensures HasWallet(req) ==> GetText(EnvelopeFlattening.SentOf(req, c), WalletAddress) == c.wallet
  {
    SignatureKept(r, s, v);
    EnvelopeFlattening.SentGet(req, c, Signature);
    EnvelopeFlattening.SentGet(req, c, WalletAddress);
    SentShape(Str(c.wallet));
    TopKeys(req, c);
    hide EnvelopeFlattening.SentOf, EnvelopeFlattening.Sent, TopField, ParamField, WireSignature, Get;
  }

  lemma TopKeys(req: Request, c: Context)
    ensures TopField(req, c, Signature) == Some(Obj(c.signature))
    ensures HasWallet(req) ==> TopField(req, c, WalletAddress) == Some(Str(c.wallet))
    ensures TopField(req, c, Orders) == None
  {}

  lemma SentList(items: seq<Json>)
    ensures EnvelopeFlattening.Sent(Arr(items)).Arr? && |EnvelopeFlattening.Sent(Arr(items)).items| == |items|
    ensures forall i | 0 <= i < |items| ::
              EnvelopeFlattening.Sent(Arr(items)).items[i] == EnvelopeFlattening.Sent(items[i])
  {}

  /** And so do the orders: as many as were placed, each as it was if its numbers are
      kept. */
  lemma OrdersAreSent(req: Request, c: Context, i: nat)
    requires req.PlaceOrders? && i < |req.orders|
    ensures
      var j := Get(EnvelopeFlattening.SentOf(req, c), Orders);
      && j.Some? && j.value.Arr? && |j.value.items| == |req.orders| && j.value.items[i].Obj?
      && var o := req.orders[i];
      && (ReadOrder(j.value.items[i].fields) == o
          <==> Kept(o.expiresAt) && Kept(o.durationSeconds) && Kept(o.intervalSeconds))
  {
    hide EnvelopeFlattening.SentOf, EnvelopeFlattening.Sent, TopField, ParamField, WireOrder, ReadOrder, Get, Kept;
    EnvelopeFlattening.SentGet(req, c, Orders);
    TopKeys(req, c);
    OrdersParam(req, c);
    SentList(WireOrders(req.orders));
    SentAt(WireOrder(req.orders[i]), Symbol);
    OrderReadsBackSent(req.orders[i]);
  }

  lemma OrdersParam(req: Request, c: Context)
    requires req.PlaceOrders?
    ensures ParamField(req, c, Orders) == Some(Arr(WireOrders(req.orders)))
  {
    hide WireOrders;
  }
}
