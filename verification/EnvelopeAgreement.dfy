/** Signed equals posted, over REST and over the websocket. */
module EnvelopeAgreement {
  import opened Wrappers
  import opened Text
  import opened Int64
  import opened Envelope

  // Every id survives the conversion to int64 that the typed data applies.
  predicate IdsFit(req: Request) {
    req.CancelOrders? ==> forall id <- req.orderIds :: id < TWO63
  }

  // A generic read action that is not named like a write action.
  predicate IsRead(req: Request) {
    req.SubAccountAction? ==> req.action.Other?
  }

  lemma IntTextInjective(m: int, n: int)
    ensures IntText(m) == IntText(n) <==> m == n
  {
    SignedDecimalParses(m);
    SignedDecimalParses(n);
  }

  predicate IsOrderFlag(f: Name) {
    f == ReduceOnly || f == IsTriggerMarket || f == ClosePosition
  }

  // A zero value that the wire leaves out reads back as itself.
  lemma OrderFlagRead(o: OrderInput, f: Name)
    requires IsOrderFlag(f)
    ensures OrderFieldType(f).Some? && OrderField(o, f).Some?
    ensures CoerceSimple(OrderFieldType(f).value, WireField(o, f)) == OrderField(o, f).value
  {}

  lemma OrderTextRead(o: OrderInput, f: Name)
    requires !IsOrderFlag(f)
    ensures OrderFieldType(f).Some? <==> OrderField(o, f).Some?
    ensures OrderField(o, f).Some? ==> CoerceSimple(OrderFieldType(f).value, WireField(o, f)) == OrderField(o, f).value
  {}

  lemma OrderFieldAgrees(o: OrderInput, f: Name)
    ensures OrderFieldType(f).Some? <==> OrderField(o, f).Some?
    ensures OrderField(o, f).Some? ==> CoerceSimple(OrderFieldType(f).value, WireField(o, f)) == OrderField(o, f).value
  {
    hide IsOrderFlag, OrderFieldType, OrderField, CoerceSimple, WireField;
    if IsOrderFlag(f) {
      OrderFlagRead(o, f);
    } else {
      OrderTextRead(o, f);
    }
  }

  lemma OrderAgrees(o: OrderInput)
    ensures CoerceOrder(Obj(WireOrder(o))) == OrderMessage(o)
  {
    var w := WireOrder(o);
    forall f ensures Get(w, f) == WireField(o, f) {}
    forall f: Name {
      OrderFieldAgrees(o, f);
    }
    hide WireField, OrderField, OrderFieldType, CoerceSimple;
  }

  lemma OrdersAgree(orders: seq<OrderInput>)
    ensures Coerce(OrderList, Some(Arr(WireOrders(orders)))) == TOrders(OrderMessages(orders))
  {
    forall i | 0 <= i < |orders| ensures CoerceOrder(WireOrders(orders)[i]) == OrderMessages(orders)[i] {
      OrderAgrees(orders[i]);
    }
    hide CoerceOrder, OrderMessage, WireOrder;
  }

  lemma TextsAgree(texts: seq<string>)
    ensures Coerce(TextList, Some(Arr(WireTexts(texts)))) == TTexts(texts)
  {}

  lemma IdsAgree(ids: seq<nat>)
    ensures Coerce(Uint256List, Some(Arr(WireIds(ids)))) == TInts(ids)
  {
    forall i | 0 <= i < |ids| ensures ReadUint(WireIds(ids)[i]) == ids[i] {
      DecimalParses(ids[i]);
    }
  }

  lemma ParamsGet(req: Request, c: Context, k: Name)
    ensures Get(ParamsOf(req, c), k) == ParamField(req, c, k)
    ensures Get(TopOf(req, c), k) == TopField(req, c, k)
  {}

  lemma DispatchAgrees(req: Request, c: Context)
    ensures Dispatch(ParamsOf(req, c)) == PrimaryOf(req) <==> IsRead(req)
  {
    hide ParamsOf, Get;
    ParamsGet(req, c, Action);
    ParamsGet(req, c, ClientOrderIds);
    ParamsGet(req, c, ClientOrderId);
    DispatchKeys(req, c);
    hide ParamField;
  }

  // The keys that dispatch looks at.
  lemma DispatchKeys(req: Request, c: Context)
    ensures ParamField(req, c, Action) == Some(Word(VerbOf(req)))
    ensures ParamField(req, c, ClientOrderIds).Some? <==> req.CancelOrdersByCloid?
    ensures ParamField(req, c, ClientOrderId).Some? <==> req.ModifyOrderByCloid?
  {}

  lemma CastsAgree(ids: seq<nat>)
    ensures CastIds(ids) == ids <==> forall id <- ids :: id < TWO63
  {
    if forall id <- ids :: id < TWO63 {
      forall i | 0 <= i < |ids| ensures CastIds(ids)[i] == ids[i] {
        assert ids[i] in ids;
      }
    } else {
      var id :| id in ids && id >= TWO63;
      var i :| 0 <= i < |ids| && ids[i] == id;
      assert CastIds(ids)[i] < ids[i];
    }
  }

  // The field f of the action, read back from the params it was written to.
  predicate OwnFieldRead(req: Request, c: Context, f: Name) {
    && (OwnType(PrimaryOf(req), f).Some? <==> OwnField(req, f).Some?)
    && (OwnField(req, f).Some? ==>
          Coerce(OwnType(PrimaryOf(req), f).value, ParamField(req, c, WireName(f))) == OwnField(req, f).value)
  }

  lemma PlacedListAgrees(req: Request, c: Context)
    requires req.PlaceOrders?
    ensures OwnFieldRead(req, c, Orders)
  {
    hide OrderMessages, WireOrders, Coerce;
    OrdersAgree(req.orders);
  }

  lemma CancelledIdsAgree(req: Request, c: Context, f: Name)
    requires req.CancelOrders?
    ensures OwnFieldRead(req, c, f) <==> f != OrderIds || IdsFit(req)
  {
    hide WireIds, CastIds, Coerce;
    IdsAgree(req.orderIds);
    CastsAgree(req.orderIds);
  }

  lemma CancelledCloidsAgree(req: Request, c: Context, f: Name)
    requires req.CancelOrdersByCloid?
    ensures OwnFieldRead(req, c, f)
  {
    hide WireTexts, Coerce;
    TextsAgree(OrEmpty(req.cloids));
    NullReadsEmpty();
  }

  lemma NullReadsEmpty()
    ensures Coerce(TextList, Some(Null)) == TTexts([])
  {}

  lemma CancelAllAgrees(req: Request, c: Context, f: Name)
    requires req.CancelAllOrders?
    ensures OwnFieldRead(req, c, f)
  {
    hide WireTexts, Coerce;
    TextsAgree(OrEmpty(req.symbols));
  }

  lemma PermissionsAgree(req: Request, c: Context)
    requires req.AddDelegatedSigner?
    ensures OwnFieldRead(req, c, Permissions)
  {
    hide WireTexts, Coerce;
    TextsAgree(OrEmpty(req.permissions));
  }

  // The fields that go by another name on the wire are common to all actions, or
  // the delegate's address.
  lemma RenamedFieldsAgree(req: Request, c: Context, f: Name)
    requires WireName(f) != f
    ensures OwnFieldRead(req, c, f)
  {
    hide CoerceOrder, ReadUint, ReadText, Decimal, WireOrders, WireIds, WireTexts;
  }

  // Fields of simple types, one group of actions at a time.
  lemma PlaceFieldsAgree(req: Request, c: Context, f: Name)
    requires (req.PlaceOrders? && f != Orders) || req.UpdateLeverage?
    requires WireName(f) == f
    ensures OwnFieldRead(req, c, f)
  {
    hide WireName, Items, OrderMessages, WireOrders, CoerceOrder, ReadUint, ReadText;
  }

  lemma ModifyFieldsAgree(req: Request, c: Context, f: Name)
    requires req.ModifyOrder?
    requires WireName(f) == f
    ensures OwnFieldRead(req, c, f)
  {
    hide WireName, Items, CoerceOrder, ReadUint, ReadText, Decimal;
  }

  lemma ModifyByCloidFieldsAgree(req: Request, c: Context, f: Name)
    requires req.ModifyOrderByCloid?
    requires WireName(f) == f
    ensures OwnFieldRead(req, c, f)
  {
    hide WireName, Items, CoerceOrder, ReadUint, ReadText, Decimal;
  }

  lemma WithdrawFieldsAgree(req: Request, c: Context, f: Name)
    requires req.WithdrawCollateral?
    requires WireName(f) == f
    ensures OwnFieldRead(req, c, f)
  {
    hide WireName, Items, CoerceOrder, ReadUint, ReadText, Decimal;
  }

  lemma TransferFieldsAgree(req: Request, c: Context, f: Name)
    requires req.TransferCollateral?
    requires WireName(f) == f
    ensures OwnFieldRead(req, c, f)
  {
    hide WireName, Items, CoerceOrder, ReadUint, ReadText, Decimal;
  }

  lemma NameFieldsAgree(req: Request, c: Context, f: Name)
    requires req.CreateSubaccount? || req.UpdateSubAccountName?
    requires WireName(f) == f
    ensures OwnFieldRead(req, c, f)
  {
    hide WireName, Items, CoerceOrder, ReadUint, ReadText, Decimal;
  }

  lemma AddDelegateFieldsAgree(req: Request, c: Context, f: Name)
    requires req.AddDelegatedSigner? && f != Permissions && f != DelegateAddress
    requires WireName(f) == f
    ensures OwnFieldRead(req, c, f)
  {
    hide WireName, Items, CoerceOrder, ReadUint, ReadText, WireTexts;
  }

  lemma RemoveDelegateFieldsAgree(req: Request, c: Context, f: Name)
    requires (req.RemoveDelegatedSigner? && f != DelegateAddress) || req.RemoveAllDelegatedSigners?
    requires WireName(f) == f
    ensures OwnFieldRead(req, c, f)
  {
    hide WireName, Items, CoerceOrder, ReadUint, ReadText;
  }

  lemma OtherFieldsAgree(req: Request, c: Context, f: Name)
    requires req.ScheduleCancel? || req.SubAccountAction?
    requires WireName(f) == f
    ensures OwnFieldRead(req, c, f)
  {
    hide WireName, Items, CoerceOrder, ReadUint, ReadText, SignedDecimal;
  }

  lemma OwnFieldAgrees(req: Request, c: Context, f: Name)
    ensures OwnFieldRead(req, c, f) <==> f != OrderIds || IdsFit(req)
  {
    assert (f == OrderIds ==> WireName(f) == f) && (f == DelegateAddress ==> WireName(f) != f);
    hide OwnFieldRead, WireName;
    if WireName(f) != f {
      RenamedFieldsAgree(req, c, f);
      return;
    }
    match req {
      case PlaceOrders(_, _) => if f == Orders { PlacedListAgrees(req, c); } else { PlaceFieldsAgree(req, c, f); }
      case CancelOrders(_) => CancelledIdsAgree(req, c, f);
      case CancelOrdersByCloid(_) => CancelledCloidsAgree(req, c, f);
      case CancelAllOrders(_) => CancelAllAgrees(req, c, f);
      case ModifyOrder(_, _, _, _) => ModifyFieldsAgree(req, c, f);
      case ModifyOrderByCloid(_, _, _, _) => ModifyByCloidFieldsAgree(req, c, f);
      case UpdateLeverage(_, _) => PlaceFieldsAgree(req, c, f);
      case WithdrawCollateral(_, _, _) => WithdrawFieldsAgree(req, c, f);
      case TransferCollateral(_, _, _) => TransferFieldsAgree(req, c, f);
      case CreateSubaccount(_) => NameFieldsAgree(req, c, f);
      case UpdateSubAccountName(_) => NameFieldsAgree(req, c, f);
      case AddDelegatedSigner(_, _, _) =>
        if f == Permissions { PermissionsAgree(req, c); } else { AddDelegateFieldsAgree(req, c, f); }
      case RemoveDelegatedSigner(_) => RemoveDelegateFieldsAgree(req, c, f);
      case RemoveAllDelegatedSigners => RemoveDelegateFieldsAgree(req, c, f);
      case ScheduleCancel(_) => OtherFieldsAgree(req, c, f);
      case SubAccountAction(_) => OtherFieldsAgree(req, c, f);
    }
  }

  predicate IsCommon(f: Name) {
    f == SubAccountId || f == MasterSubAccountId || f == ExpiresAfter || f == Nonce
  }

  // Field f as the server rebuilds it from the posted envelope.
  function Reread(req: Request, c: Context, f: Name): Option<Typed> {
    RebuiltField(PrimaryOf(req), ParamsOf(req, c), TopOf(req, c), f)
  }

  lemma AccountAgrees(req: Request, c: Context, f: Name)
    requires f == SubAccountId || f == MasterSubAccountId
    ensures Reread(req, c, f) == MessageField(req, c, f)
  {
    ParamsGet(req, c, SubaccountId);
    hide ParamsOf, TopOf, Get, Decimal, SignsNonce, OwnType, OwnField;
  }

  lemma NonceAndExpiryAgree(req: Request, c: Context, f: Name)
    requires f == ExpiresAfter || f == Nonce
    ensures Reread(req, c, f) == MessageField(req, c, f)
  {
    ParamsGet(req, c, f);
    ParamsGet(req, c, Nonce);
    hide ParamsOf, TopOf, Get, Decimal, OwnType, OwnField, ParamField;
  }

  lemma OwnPart(req: Request, c: Context, f: Name)
    requires !IsCommon(f)
    ensures MessageField(req, c, f) == OwnField(req, f)
    ensures Reread(req, c, f) ==
            match OwnType(PrimaryOf(req), f)
            case None => None
            case Some(t) => Some(Coerce(t, Get(ParamsOf(req, c), WireName(f))))
  {
    hide OwnType, OwnField, ParamsOf, TopOf, Get, Coerce, SignsNonce, WireName;
  }

  lemma OwnPartAgrees(req: Request, c: Context, f: Name)
    requires !IsCommon(f)
    ensures Reread(req, c, f) == MessageField(req, c, f) <==> f != OrderIds || IdsFit(req)
  {
    hide Reread, MessageField, ParamsOf, TopOf, Get, Coerce, OwnType, OwnField, ParamField, IdsFit, WireName, IsCommon;
    OwnPart(req, c, f);
    ParamsGet(req, c, WireName(f));
    OwnFieldAgrees(req, c, f);
  }

  lemma FieldAgrees(req: Request, c: Context, f: Name)
    ensures Reread(req, c, f) == MessageField(req, c, f) <==> f != OrderIds || IdsFit(req)
  {
    hide Reread, MessageField, IdsFit;
    if f == SubAccountId || f == MasterSubAccountId {
      AccountAgrees(req, c, f);
    } else if f == ExpiresAfter || f == Nonce {
      NonceAndExpiryAgree(req, c, f);
    } else {
      OwnPartAgrees(req, c, f);
    }
  }

  // ---------------------------------------------------------------------
  // From fields to whole messages

  function At(m: map<Name, Typed>, f: Name): Option<Typed> {
    if f in m then Some(m[f]) else None
  }

  lemma SameFields(a: map<Name, Typed>, b: map<Name, Typed>)
    ensures (forall f: Name :: At(a, f) == At(b, f)) <==> a == b
  {
    if forall f: Name :: At(a, f) == At(b, f) {
      forall f: Name ensures (f in a <==> f in b) && (f in a ==> a[f] == b[f]) {
        assert At(a, f) == At(b, f);
      }
      assert a.Keys == b.Keys;
    }
  }

  lemma BuildAt(req: Request, c: Context, f: Name)
    ensures At(Build(req, c).message, f) == MessageField(req, c, f)
  {
    hide MessageField, PrimaryOf;
  }

  lemma RebuildAt(params: Fields, top: Fields, f: Name)
    ensures At(Rebuild(params, top).message, f) == RebuiltField(Dispatch(params), params, top, f)
  {
    hide RebuiltField, Dispatch;
  }

  // The rebuilt typed data is the signed one exactly when each field is.
  lemma FieldsDecide(req: Request, c: Context, params: Fields, top: Fields)
    ensures Rebuild(params, top) == Build(req, c) <==>
            && Dispatch(params) == PrimaryOf(req)
            && forall f: Name :: RebuiltField(PrimaryOf(req), params, top, f) == MessageField(req, c, f)
  {
    var (r, m) := (Rebuild(params, top), Build(req, c));
    assert r.primary == Dispatch(params) && m.primary == PrimaryOf(req);
    hide Rebuild, Build, RebuiltField, MessageField, Dispatch, PrimaryOf, At;
    SameFields(r.message, m.message);
    forall f: Name
      ensures At(r.message, f) == RebuiltField(Dispatch(params), params, top, f)
      ensures At(m.message, f) == MessageField(req, c, f)
    {
      BuildAt(req, c, f);
      RebuildAt(params, top, f);
    }
  }

  /** Signed equals posted, over REST: rebuilding the typed data from the envelope
      gives exactly what was digested, for every action, fields left out when empty
      included, if and only if each order id to cancel is below 2^63 and a generic
      read action is not named like a write action. */
  lemma RestAgrees(req: Request, c: Context)
    ensures Rebuild(ParamsOf(req, c), TopOf(req, c)) == Build(req, c) <==> IdsFit(req) && IsRead(req)
  {
    hide Rebuild, Build, Dispatch, IsRead, IdsFit, RebuiltField, MessageField, ParamsOf, TopOf;
    DispatchAgrees(req, c);
    FieldsDecide(req, c, ParamsOf(req, c), TopOf(req, c));
    forall f: Name ensures Reread(req, c, f) == MessageField(req, c, f) <==> f != OrderIds || IdsFit(req) {
      FieldAgrees(req, c, f);
    }
    assert Reread(req, c, OrderIds) == MessageField(req, c, OrderIds) <==> IdsFit(req);
  }
}
