/** What a signature commits to: two actions have the same typed data only if they
    are the same action, up to the parts that are posted without being signed. */
module EnvelopeCommitment {
  import opened Wrappers
  import opened Text
  import opened Int64
  import opened Envelope
  import opened EnvelopeAgreement

  // An order without the fields that are posted but not signed.
  function SignedOrder(o: OrderInput): OrderInput {
    o.(postOnly := false, expiresAt := 0, timeInForce := "", durationSeconds := 0, intervalSeconds := 0)
  }

  // A request without its unsigned parts; nil and empty slices are signed alike.
  function SignedRequest(req: Request): Request {
    match req
    case PlaceOrders(orders, grouping) =>
      PlaceOrders(seq(|orders|, i requires 0 <= i < |orders| => SignedOrder(orders[i])), grouping)
    case CancelOrdersByCloid(cloids) => CancelOrdersByCloid(Some(OrEmpty(cloids)))
    case CancelAllOrders(symbols) => CancelAllOrders(Some(OrEmpty(symbols)))
    case AddDelegatedSigner(delegate, permissions, expiresAt) =>
      AddDelegatedSigner(delegate, Some(OrEmpty(permissions)), expiresAt)
    case _ => req
  }

  // Order ids are uint64.
  predicate IdsAreUint64(req: Request) {
    req.CancelOrders? ==> forall id <- req.orderIds :: id < TWO64
  }

  predicate SameContext(c: Context, d: Context) {
    c.account == d.account && c.nonce == d.nonce && c.expiresAfter == d.expiresAfter
  }

  // ---------------------------------------------------------------------
  // The unsigned parts do not reach the typed data

  lemma SignedOrderSuffices(o: OrderInput)
    ensures OrderMessage(SignedOrder(o)) == OrderMessage(o)
  {
    assert forall f: Name :: OrderField(SignedOrder(o), f) == OrderField(o, f);
    hide OrderField, SignedOrder;
  }

  lemma SignedRequestSuffices(req: Request, f: Name)
    ensures OwnField(SignedRequest(req), f) == OwnField(req, f)
    ensures PrimaryOf(SignedRequest(req)) == PrimaryOf(req)
  {
    hide OrderMessage;
    if req.PlaceOrders? {
      forall i | 0 <= i < |req.orders| ensures OrderMessage(SignedOrder(req.orders[i])) == OrderMessage(req.orders[i]) {
        SignedOrderSuffices(req.orders[i]);
      }
      assert OrderMessages(SignedRequest(req).orders) == OrderMessages(req.orders);
    }
  }

  lemma MessageSuffices(req: Request, c: Context, d: Context, f: Name)
    requires SameContext(c, d)
    ensures MessageField(SignedRequest(req), d, f) == MessageField(req, c, f)
    ensures PrimaryOf(SignedRequest(req)) == PrimaryOf(req)
  {
    SignedRequestSuffices(req, f);
    hide OwnField;
  }

  // ---------------------------------------------------------------------
  // The signed parts can be read off it

  lemma DecimalInjective(m: nat, n: nat)
    ensures UintText(m) == UintText(n) <==> m == n
  {
    DecimalParses(m);
    DecimalParses(n);
  }

  lemma OrderAt(o: OrderInput, f: Name)
    ensures At(OrderMessage(o), f) == OrderField(o, f)
  {
    hide OrderField;
  }

  lemma OrderFieldReadsBack(a: OrderInput, b: OrderInput, f: Name)
    requires OrderMessage(a) == OrderMessage(b)
    ensures OrderField(a, f) == OrderField(b, f)
  {
    hide OrderMessage, OrderField;
    OrderAt(a, f);
    OrderAt(b, f);
  }

  lemma OrderTermsReadBack(a: OrderInput, b: OrderInput)
    requires OrderMessage(a) == OrderMessage(b)
    ensures a.symbol == b.symbol && a.side == b.side && a.orderType == b.orderType
    ensures a.price == b.price && a.triggerPrice == b.triggerPrice
  {
    hide OrderMessage;
    OrderFieldReadsBack(a, b, Symbol);
    OrderFieldReadsBack(a, b, Side);
    OrderFieldReadsBack(a, b, OrderType);
    OrderFieldReadsBack(a, b, Price);
    OrderFieldReadsBack(a, b, TriggerPrice);
  }

  lemma OrderFlagsReadBack(a: OrderInput, b: OrderInput)
    requires OrderMessage(a) == OrderMessage(b)
    ensures a.quantity == b.quantity && a.clientOrderId == b.clientOrderId
    ensures a.reduceOnly == b.reduceOnly && a.isTriggerMarket == b.isTriggerMarket && a.closePosition == b.closePosition
  {
    hide OrderMessage;
    OrderFieldReadsBack(a, b, Quantity);
    OrderFieldReadsBack(a, b, ClientOrderId);
    OrderFieldReadsBack(a, b, ReduceOnly);
    OrderFieldReadsBack(a, b, IsTriggerMarket);
    OrderFieldReadsBack(a, b, ClosePosition);
  }

  lemma OrderReadsBack(a: OrderInput, b: OrderInput)
    requires OrderMessage(a) == OrderMessage(b)
    ensures SignedOrder(a) == SignedOrder(b)
  {
    hide OrderMessage;
    OrderTermsReadBack(a, b);
    OrderFlagsReadBack(a, b);
  }

  lemma OrdersReadBack(a: seq<OrderInput>, b: seq<OrderInput>)
    requires OrderMessages(a) == OrderMessages(b)
    ensures |a| == |b| && forall i | 0 <= i < |a| :: SignedOrder(a[i]) == SignedOrder(b[i])
  {
    hide OrderMessage, SignedOrder;
    assert |OrderMessages(a)| == |a| && |OrderMessages(b)| == |b|;
    forall i | 0 <= i < |a| ensures SignedOrder(a[i]) == SignedOrder(b[i]) {
      assert OrderMessages(a)[i] == OrderMessages(b)[i];
      OrderReadsBack(a[i], b[i]);
    }
  }

  // The conversion to int64 loses nothing, even where it changes the value.
  lemma CastsReadBack(a: seq<nat>, b: seq<nat>)
    requires (forall id <- a :: id < TWO64) && (forall id <- b :: id < TWO64) && CastIds(a) == CastIds(b)
    ensures a == b
  {
    assert |CastIds(a)| == |a| && |CastIds(b)| == |b|;
    forall i | 0 <= i < |a| ensures a[i] == b[i] {
      assert CastIds(a)[i] == CastIds(b)[i];
      assert a[i] in a && b[i] in b;
    }
  }

  ghost predicate SameMessages(a: Request, c: Context, b: Request, d: Context) {
    PrimaryOf(a) == PrimaryOf(b) && forall f: Name :: MessageField(a, c, f) == MessageField(b, d, f)
  }

  lemma ContextReadsBack(a: Request, c: Context, b: Request, d: Context)
    requires SameMessages(a, c, b, d)
    ensures SameContext(c, d)
  {
    hide OwnField, IntText, UintText;
    var account := if a.CreateSubaccount? then MasterSubAccountId else SubAccountId;
    assert MessageField(a, c, account) == MessageField(b, d, account);
    assert MessageField(a, c, Nonce) == MessageField(b, d, Nonce);
    assert MessageField(a, c, ExpiresAfter) == MessageField(b, d, ExpiresAfter);
    DecimalInjective(c.account, d.account);
    DecimalInjective(c.nonce, d.nonce);
    IntTextInjective(c.expiresAfter, d.expiresAfter);
  }

  lemma OwnReadsBack(a: Request, c: Context, b: Request, d: Context, f: Name)
    requires SameMessages(a, c, b, d) && !IsCommon(f)
    ensures OwnField(a, f) == OwnField(b, f)
  {
    assert MessageField(a, c, f) == MessageField(b, d, f);
    hide OwnField;
  }

  predicate IsList(req: Request) {
    req.PlaceOrders? || req.CancelOrders? || req.CancelOrdersByCloid? || req.CancelAllOrders?
  }

  lemma ListsReadBack(a: Request, c: Context, b: Request, d: Context)
    requires SameMessages(a, c, b, d) && IsList(a) && IdsAreUint64(a) && IdsAreUint64(b)
    ensures SignedRequest(a) == SignedRequest(b)
  {
    hide OrderMessages, CastIds, SignedOrder;
    var f := match a
             case PlaceOrders(_, _) => Orders
             case CancelOrders(_) => OrderIds
             case CancelOrdersByCloid(_) => ClientOrderIds
             case _ => Symbols;
    OwnReadsBack(a, c, b, d, f);
    if a.PlaceOrders? {
      OwnReadsBack(a, c, b, d, Grouping);
      OrdersReadBack(a.orders, b.orders);
    } else if a.CancelOrders? {
      CastsReadBack(a.orderIds, b.orderIds);
    }
  }

  lemma LeverageReadsBack(a: Request, c: Context, b: Request, d: Context)
    requires SameMessages(a, c, b, d) && a.UpdateLeverage?
    ensures SignedRequest(a) == SignedRequest(b)
  {
    assert PrimaryOf(a) == PrimaryOf(b);
    hide SameMessages;
    OwnReadsBack(a, c, b, d, Symbol);
    OwnReadsBack(a, c, b, d, Leverage);
  }

  lemma ModifyReadsBack(a: Request, c: Context, b: Request, d: Context)
    requires SameMessages(a, c, b, d) && a.ModifyOrder?
    ensures SignedRequest(a) == SignedRequest(b)
  {
    assert PrimaryOf(a) == PrimaryOf(b);
    hide UintText, SameMessages;
    OwnReadsBack(a, c, b, d, OrderId);
    OwnReadsBack(a, c, b, d, Price);
    OwnReadsBack(a, c, b, d, Quantity);
    OwnReadsBack(a, c, b, d, TriggerPrice);
    DecimalInjective(a.orderId, b.orderId);
  }

  lemma ModifyByCloidReadsBack(a: Request, c: Context, b: Request, d: Context)
    requires SameMessages(a, c, b, d) && a.ModifyOrderByCloid?
    ensures SignedRequest(a) == SignedRequest(b)
  {
    assert PrimaryOf(a) == PrimaryOf(b);
    hide SameMessages;
    OwnReadsBack(a, c, b, d, ClientOrderId);
    OwnReadsBack(a, c, b, d, Price);
    OwnReadsBack(a, c, b, d, Quantity);
    OwnReadsBack(a, c, b, d, TriggerPrice);
  }

  lemma CollateralReadsBack(a: Request, c: Context, b: Request, d: Context)
    requires SameMessages(a, c, b, d) && (a.WithdrawCollateral? || a.TransferCollateral?)
    ensures SignedRequest(a) == SignedRequest(b)
  {
    assert PrimaryOf(a) == PrimaryOf(b);
    hide IntText, UintText, SameMessages;
    OwnReadsBack(a, c, b, d, Symbol);
    OwnReadsBack(a, c, b, d, Amount);
    if a.WithdrawCollateral? {
      OwnReadsBack(a, c, b, d, Destination);
    } else {
      OwnReadsBack(a, c, b, d, To);
      DecimalInjective(a.to, b.to);
    }
  }

  lemma AddDelegateReadsBack(a: Request, c: Context, b: Request, d: Context)
    requires SameMessages(a, c, b, d) && a.AddDelegatedSigner?
    ensures SignedRequest(a) == SignedRequest(b)
  {
    assert PrimaryOf(a) == PrimaryOf(b);
    hide IntText, SameMessages;
    OwnReadsBack(a, c, b, d, DelegateAddress);
    OwnReadsBack(a, c, b, d, Permissions);
    OwnReadsBack(a, c, b, d, ExpiresAt);
    IntTextInjective(a.expiresAt, b.expiresAt);
  }

  lemma RemoveDelegateReadsBack(a: Request, c: Context, b: Request, d: Context)
    requires SameMessages(a, c, b, d) && a.RemoveDelegatedSigner?
    ensures SignedRequest(a) == SignedRequest(b)
  {
    assert PrimaryOf(a) == PrimaryOf(b);
    hide SameMessages;
    OwnReadsBack(a, c, b, d, DelegateAddress);
  }

  lemma OthersReadBack(a: Request, c: Context, b: Request, d: Context)
    requires SameMessages(a, c, b, d)
    requires
      || a.CreateSubaccount? || a.UpdateSubAccountName? || a.RemoveAllDelegatedSigners?
      || a.ScheduleCancel? || a.SubAccountAction?
    ensures SignedRequest(a) == SignedRequest(b)
  {
    assert PrimaryOf(a) == PrimaryOf(b);
    hide IntText, UintText, SameMessages;
    OwnReadsBack(a, c, b, d, AccountName);
    OwnReadsBack(a, c, b, d, TimeoutSeconds);
    OwnReadsBack(a, c, b, d, Action);
    if a.ScheduleCancel? {
      IntTextInjective(a.timeoutSeconds, b.timeoutSeconds);
    }
  }

  lemma RequestReadsBack(a: Request, c: Context, b: Request, d: Context)
    requires SameMessages(a, c, b, d) && IdsAreUint64(a) && IdsAreUint64(b)
    ensures SignedRequest(a) == SignedRequest(b)
  {
    hide SameMessages, SignedRequest, IdsAreUint64;
    if IsList(a) {
      ListsReadBack(a, c, b, d);
    } else if a.UpdateLeverage? {
      LeverageReadsBack(a, c, b, d);
    } else if a.ModifyOrder? {
      ModifyReadsBack(a, c, b, d);
    } else if a.ModifyOrderByCloid? {
      ModifyByCloidReadsBack(a, c, b, d);
    } else if a.WithdrawCollateral? || a.TransferCollateral? {
      CollateralReadsBack(a, c, b, d);
    } else if a.AddDelegatedSigner? {
      AddDelegateReadsBack(a, c, b, d);
    } else if a.RemoveDelegatedSigner? {
      RemoveDelegateReadsBack(a, c, b, d);
    } else {
      OthersReadBack(a, c, b, d);
    }
  }

  lemma SameDataSameMessages(a: Request, c: Context, b: Request, d: Context)
    ensures Build(a, c) == Build(b, d) <==> SameMessages(a, c, b, d)
  {
    hide MessageField, PrimaryOf;
    SameFields(Build(a, c).message, Build(b, d).message);
    forall f: Name
      ensures At(Build(a, c).message, f) == MessageField(a, c, f)
      ensures At(Build(b, d).message, f) == MessageField(b, d, f)
    {
      BuildAt(a, c, f);
      BuildAt(b, d, f);
    }
    hide At;
  }

  /** A signature commits to the action: two calls have the same typed data if and
      only if account, nonce, expiry and every signed part of the request are the
      same. Nothing else is covered: an order's postOnly, expiry, time in force and
      TWAP timing are posted unsigned. */
  lemma SignatureCommits(a: Request, c: Context, b: Request, d: Context)
    requires IdsAreUint64(a) && IdsAreUint64(b)
    ensures Build(a, c) == Build(b, d) <==> SameContext(c, d) && SignedRequest(a) == SignedRequest(b)
  {
    hide Build, SameMessages, SignedRequest, IdsAreUint64, SameContext;
    SameDataSameMessages(a, c, b, d);
    if SameMessages(a, c, b, d) {
      ContextReadsBack(a, c, b, d);
      RequestReadsBack(a, c, b, d);
    }
    if SameContext(c, d) && SignedRequest(a) == SignedRequest(b) {
      SignedPartsSuffice(a, c, b, d);
    }
  }

  lemma SignedPartsSuffice(a: Request, c: Context, b: Request, d: Context)
    requires SameContext(c, d) && SignedRequest(a) == SignedRequest(b)
    ensures SameMessages(a, c, b, d)
  {
    hide SignedRequest, MessageField, PrimaryOf;
    forall f: Name ensures MessageField(a, c, f) == MessageField(b, d, f) && PrimaryOf(a) == PrimaryOf(b) {
      MessageSuffices(a, c, c, f);
      MessageSuffices(b, d, c, f);
    }
    assert PrimaryOf(a) == PrimaryOf(b) by {
      MessageSuffices(a, c, c, Nonce);
      MessageSuffices(b, d, c, Nonce);
    }
  }
}
