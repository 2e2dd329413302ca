/** Signed actions: the EIP-712 typed data that is digested, the REST envelope that
    is posted, and its flattened form for the websocket. The server has only the
    envelope, so what it rebuilds must be exactly what was signed. */
module Envelope {
  import opened Wrappers
  import opened Text
  import opened Int64

  // JSON keys and typed-data field names.
  datatype Name =
    | Action | Orders | Grouping | OrderIds | ClientOrderIds | Symbols | OrderId | ClientOrderId
    | Price | Quantity | TriggerPrice | Symbol | Leverage | Amount | Destination | To | AccountName
    | Permissions | ExpiresAt | TimeoutSeconds | Nonce | ExpiresAfter | WalletAddress | DelegateAddress
    | SubaccountId | SubAccountId | MasterSubAccountId | Signature | Params
    | Side | OrderType | ReduceOnly | PostOnly | IsTriggerMarket | ClosePosition
    | TimeInForce | DurationSeconds | IntervalSeconds | V | R | S

  // An action string: one of the write actions, or any other text.
  datatype Verb =
    | PlaceOrdersVerb | CancelOrdersVerb | CancelAllOrdersVerb | ModifyOrderVerb | UpdateLeverageVerb
    | WithdrawCollateralVerb | TransferCollateralVerb | CreateSubaccountVerb | UpdateSubAccountNameVerb
    | AddDelegatedSignerVerb | RemoveDelegatedSignerVerb | RemoveAllDelegatedSignersVerb | ScheduleCancelVerb
    | Other(text: string)

  datatype Json =
    | Null
    | Bool(b: bool)
    | Num(n: int)
    | Str(s: string)
    | Word(verb: Verb)
    | Arr(items: seq<Json>)
    | Obj(fields: Fields)

  type Fields = map<Name, Json>

  // The Go values inside a typed-data message; integers travel as decimal text.
  datatype Typed =
    | TText(s: string)
    | TWord(verb: Verb)
    | TBool(b: bool)
    | TTexts(texts: seq<string>)
    | TInts(ints: seq<int>)
    | TOrders(orders: seq<map<Name, Typed>>)

  datatype Primary =
    | PPlaceOrders | PCancelOrders | PCancelOrdersByCloid | PCancelAllOrders | PModifyOrder | PModifyOrderByCloid
    | PUpdateLeverage | PWithdrawCollateral | PTransferCollateral | PCreateSubaccount | PUpdateSubAccountName
    | PAddDelegatedSigner | PRemoveDelegatedSigner | PRemoveAllDelegatedSigners | PScheduleCancel | PSubAccountAction

  datatype TypedData = TypedData(primary: Primary, message: map<Name, Typed>)

  // ---------------------------------------------------------------------
  // What a caller signs

  datatype OrderInput = OrderInput(
    symbol: string, side: string, orderType: string, price: string, triggerPrice: string, quantity: string,
    reduceOnly: bool, postOnly: bool, isTriggerMarket: bool, clientOrderId: string, closePosition: bool,
    expiresAt: int, timeInForce: string, durationSeconds: int, intervalSeconds: int
  )

  // The arguments of the Sign methods; None is a nil slice.
  datatype Request =
    | PlaceOrders(orders: seq<OrderInput>, grouping: string)
    | CancelOrders(orderIds: seq<nat>)
    | CancelOrdersByCloid(cloids: Option<seq<string>>)
    | CancelAllOrders(symbols: Option<seq<string>>)
    | ModifyOrder(orderId: nat, price: string, quantity: string, triggerPrice: string)
    | ModifyOrderByCloid(cloid: string, price: string, quantity: string, triggerPrice: string)
    | UpdateLeverage(symbol: string, leverage: string)
    | WithdrawCollateral(symbol: string, amount: string, destination: string)
    | TransferCollateral(to: nat, symbol: string, amount: string)
    | CreateSubaccount(name: string)
    | UpdateSubAccountName(name: string)
    | AddDelegatedSigner(delegate: string, permissions: Option<seq<string>>, expiresAt: int)
    | RemoveDelegatedSigner(delegate: string)
    | RemoveAllDelegatedSigners
    | ScheduleCancel(timeoutSeconds: int)
    | SubAccountAction(action: Verb)

  // The resolved nonce and expiry, the account and the signer's own address.
  datatype Context = Context(account: nat, wallet: string, nonce: nat, expiresAfter: int, signature: Fields)

  // ---------------------------------------------------------------------
  // The typed data (package eip712)

  function UintText(n: nat): Typed {
    TText(Decimal(n))
  }

  function IntText(n: int): Typed {
    TText(SignedDecimal(n))
  }

  // The map that BuildPlaceOrders makes of one order, field by field.
  function OrderField(o: OrderInput, f: Name): Option<Typed> {
    if f == Symbol then Some(TText(o.symbol))
    else if f == Side then Some(TText(o.side))
    else if f == OrderType then Some(TText(o.orderType))
    else if f == Price then Some(TText(o.price))
    else if f == TriggerPrice then Some(TText(o.triggerPrice))
    else if f == Quantity then Some(TText(o.quantity))
    else if f == ReduceOnly then Some(TBool(o.reduceOnly))
    else if f == IsTriggerMarket then Some(TBool(o.isTriggerMarket))
    else if f == ClientOrderId then Some(TText(o.clientOrderId))
    else if f == ClosePosition then Some(TBool(o.closePosition))
    else None
  }

  function OrderMessage(o: OrderInput): map<Name, Typed> {
    map f: Name | OrderField(o, f).Some? :: OrderField(o, f).value
  }

  function OrderMessages(orders: seq<OrderInput>): seq<map<Name, Typed>> {
    seq(|orders|, i requires 0 <= i < |orders| => OrderMessage(orders[i]))
  }

  // math.NewHexOrDecimal256(int64(id))
  function CastIds(ids: seq<nat>): seq<int> {
    seq(|ids|, i requires 0 <= i < |ids| => Wrap(ids[i]))
  }

  function OrEmpty(texts: Option<seq<string>>): seq<string> {
    if texts.None? then [] else texts.value
  }

  function PrimaryOf(req: Request): Primary {
    match req
    case PlaceOrders(_, _) => PPlaceOrders
    case CancelOrders(_) => PCancelOrders
    case CancelOrdersByCloid(_) => PCancelOrdersByCloid
    case CancelAllOrders(_) => PCancelAllOrders
    case ModifyOrder(_, _, _, _) => PModifyOrder
    case ModifyOrderByCloid(_, _, _, _) => PModifyOrderByCloid
    case UpdateLeverage(_, _) => PUpdateLeverage
    case WithdrawCollateral(_, _, _) => PWithdrawCollateral
    case TransferCollateral(_, _, _) => PTransferCollateral
    case CreateSubaccount(_) => PCreateSubaccount
    case UpdateSubAccountName(_) => PUpdateSubAccountName
    case AddDelegatedSigner(_, _, _) => PAddDelegatedSigner
    case RemoveDelegatedSigner(_) => PRemoveDelegatedSigner
    case RemoveAllDelegatedSigners => PRemoveAllDelegatedSigners
    case ScheduleCancel(_) => PScheduleCancel
    case SubAccountAction(_) => PSubAccountAction
  }

  // The fields of the message that are the action's own.
  function OwnField(req: Request, f: Name): Option<Typed> {
    match req
    case PlaceOrders(orders, grouping) =>
      if f == Orders then Some(TOrders(OrderMessages(orders)))
      else if f == Grouping then Some(TText(grouping))
      else None
    case CancelOrders(ids) =>
      if f == OrderIds then Some(TInts(CastIds(ids)))
      else None
    case CancelOrdersByCloid(cloids) =>
      if f == ClientOrderIds then Some(TTexts(OrEmpty(cloids)))
      else None
    case CancelAllOrders(symbols) =>
      if f == Symbols then Some(TTexts(OrEmpty(symbols)))
      else None
    case ModifyOrder(id, price, quantity, trigger) =>
      if f == OrderId then Some(UintText(id))
      else if f == Price then Some(TText(price))
      else if f == Quantity then Some(TText(quantity))
      else if f == TriggerPrice then Some(TText(trigger))
      else None
    case ModifyOrderByCloid(cloid, price, quantity, trigger) =>
      if f == ClientOrderId then Some(TText(cloid))
      else if f == Price then Some(TText(price))
      else if f == Quantity then Some(TText(quantity))
      else if f == TriggerPrice then Some(TText(trigger))
      else None
    case UpdateLeverage(symbol, leverage) =>
      if f == Symbol then Some(TText(symbol))
      else if f == Leverage then Some(TText(leverage))
      else None
    case WithdrawCollateral(symbol, amount, destination) =>
      if f == Symbol then Some(TText(symbol))
      else if f == Amount then Some(TText(amount))
      else if f == Destination then Some(TText(destination))
      else None
    case TransferCollateral(to, symbol, amount) =>
      if f == To then Some(UintText(to))
      else if f == Symbol then Some(TText(symbol))
      else if f == Amount then Some(TText(amount))
      else None
    case CreateSubaccount(name) =>
      if f == AccountName then Some(TText(name))
      else None
    case UpdateSubAccountName(name) =>
      if f == AccountName then Some(TText(name))
      else None
    case AddDelegatedSigner(delegate, permissions, expiresAt) =>
      if f == DelegateAddress then Some(TText(delegate))
      else if f == Permissions then Some(TTexts(OrEmpty(permissions)))
      else if f == ExpiresAt then Some(IntText(expiresAt))
      else None
    case RemoveDelegatedSigner(delegate) =>
      if f == DelegateAddress then Some(TText(delegate))
      else None
    case ScheduleCancel(timeout) =>
      if f == TimeoutSeconds then Some(IntText(timeout))
      else None
    case SubAccountAction(action) =>
      if f == Action then Some(TWord(action))
      else None
    case _ => None
  }

  // The whole message; the read actions leave out a zero nonce.
  function MessageField(req: Request, c: Context, f: Name): Option<Typed> {
    if f == SubAccountId then (if req.CreateSubaccount? then None else Some(UintText(c.account)))
    else if f == MasterSubAccountId then (if req.CreateSubaccount? then Some(UintText(c.account)) else None)
    else if f == ExpiresAfter then Some(IntText(c.expiresAfter))
    else if f == Nonce then (if req.SubAccountAction? && c.nonce == 0 then None else Some(UintText(c.nonce)))
    else OwnField(req, f)
  }

  // The Build functions of package eip712.
  function Build(req: Request, c: Context): TypedData {
    TypedData(PrimaryOf(req), map f: Name | MessageField(req, c, f).Some? :: MessageField(req, c, f).value)
  }

  // ---------------------------------------------------------------------
  // The envelope (package signer); omitempty leaves out zero values

  function Get(m: Fields, k: Name): Option<Json> {
    if k in m then Some(m[k]) else None
  }

  function OmitText(s: string): Option<Json> {
    if s == "" then None else Some(Str(s))
  }

  function OmitFlag(b: bool): Option<Json> {
    if b then Some(Bool(true)) else None
  }

  function OmitNum(n: int): Option<Json> {
    if n == 0 then None else Some(Num(n))
  }

  // types.PlaceOrderItem as JSON, field by field.
  function WireField(o: OrderInput, f: Name): Option<Json> {
    if f == Symbol then Some(Str(o.symbol))
    else if f == Side then Some(Str(o.side))
    else if f == OrderType then Some(Str(o.orderType))
    else if f == Price then Some(Str(o.price))
    else if f == TriggerPrice then OmitText(o.triggerPrice)
    else if f == Quantity then Some(Str(o.quantity))
    else if f == ReduceOnly then OmitFlag(o.reduceOnly)
    else if f == PostOnly then OmitFlag(o.postOnly)
    else if f == IsTriggerMarket then OmitFlag(o.isTriggerMarket)
    else if f == ClientOrderId then OmitText(o.clientOrderId)
    else if f == ClosePosition then OmitFlag(o.closePosition)
    else if f == ExpiresAt then OmitNum(o.expiresAt)
    else if f == TimeInForce then OmitText(o.timeInForce)
    else if f == DurationSeconds then OmitNum(o.durationSeconds)
    else if f == IntervalSeconds then OmitNum(o.intervalSeconds)
    else None
  }

  function WireOrder(o: OrderInput): Fields {
    map f: Name | WireField(o, f).Some? :: WireField(o, f).value
  }

  function WireOrders(orders: seq<OrderInput>): seq<Json> {
    seq(|orders|, i requires 0 <= i < |orders| => Obj(WireOrder(orders[i])))
  }

  function WireIds(ids: seq<nat>): seq<Json> {
    seq(|ids|, i requires 0 <= i < |ids| => Str(Decimal(ids[i])))
  }

  function WireTexts(texts: seq<string>): seq<Json> {
    seq(|texts|, i requires 0 <= i < |texts| => Str(texts[i]))
  }

  function VerbOf(req: Request): Verb {
    match req
    case PlaceOrders(_, _) => PlaceOrdersVerb
    case CancelOrders(_) => CancelOrdersVerb
    case CancelOrdersByCloid(_) => CancelOrdersVerb
    case CancelAllOrders(_) => CancelAllOrdersVerb
    case ModifyOrder(_, _, _, _) => ModifyOrderVerb
    case ModifyOrderByCloid(_, _, _, _) => ModifyOrderVerb
    case UpdateLeverage(_, _) => UpdateLeverageVerb
    case WithdrawCollateral(_, _, _) => WithdrawCollateralVerb
    case TransferCollateral(_, _, _) => TransferCollateralVerb
    case CreateSubaccount(_) => CreateSubaccountVerb
    case UpdateSubAccountName(_) => UpdateSubAccountNameVerb
    case AddDelegatedSigner(_, _, _) => AddDelegatedSignerVerb
    case RemoveDelegatedSigner(_) => RemoveDelegatedSignerVerb
    case RemoveAllDelegatedSigners => RemoveAllDelegatedSignersVerb
    case ScheduleCancel(_) => ScheduleCancelVerb
    case SubAccountAction(action) => action
  }

  // The params object, key by key.
  function ParamField(req: Request, c: Context, k: Name): Option<Json> {
    if k == Action then Some(Word(VerbOf(req))) else
    match req
    case PlaceOrders(orders, grouping) =>
      if k == Orders then Some(Arr(WireOrders(orders)))
      else if k == Grouping then Some(Str(grouping))
      else None
    case CancelOrders(ids) =>
      if k == OrderIds then Some(Arr(WireIds(ids)))
      else None
    case CancelOrdersByCloid(cloids) =>
      if k == ClientOrderIds then Some(if cloids.None? then Null else Arr(WireTexts(cloids.value)))
      else None
    case CancelAllOrders(symbols) =>
      if k == Symbols then Some(Arr(WireTexts(OrEmpty(symbols))))
      else None
    case ModifyOrder(id, price, quantity, trigger) =>
      if k == OrderId then Some(Str(Decimal(id)))
      else if k == Price then OmitText(price)
      else if k == Quantity then OmitText(quantity)
      else if k == TriggerPrice then OmitText(trigger)
      else None
    case ModifyOrderByCloid(cloid, price, quantity, trigger) =>
      if k == ClientOrderId then Some(Str(cloid))
      else if k == Price then OmitText(price)
      else if k == Quantity then OmitText(quantity)
      else if k == TriggerPrice then OmitText(trigger)
      else None
    case UpdateLeverage(symbol, leverage) =>
      if k == Symbol then Some(Str(symbol))
      else if k == Leverage then Some(Str(leverage))
      else None
    case WithdrawCollateral(symbol, amount, destination) =>
      if k == Symbol then Some(Str(symbol))
      else if k == Amount then Some(Str(amount))
      else if k == Destination then Some(Str(destination))
      else None
    case TransferCollateral(to, symbol, amount) =>
      if k == To then Some(Str(Decimal(to)))
      else if k == Symbol then Some(Str(symbol))
      else if k == Amount then Some(Str(amount))
      else None
    case CreateSubaccount(name) =>
      if k == SubaccountId then Some(Str(Decimal(c.account)))
      else if k == AccountName then Some(Str(name))
      else None
    case UpdateSubAccountName(name) =>
      if k == AccountName then Some(Str(name))
      else None
    case AddDelegatedSigner(delegate, permissions, expiresAt) =>
      if k == WalletAddress then Some(Str(delegate))
      else if k == Permissions then Some(Arr(WireTexts(OrEmpty(permissions))))
      else if k == ExpiresAt then OmitNum(expiresAt)
      else None
    case RemoveDelegatedSigner(delegate) =>
      if k == WalletAddress then Some(Str(delegate))
      else None
    case ScheduleCancel(timeout) =>
      if k == TimeoutSeconds then Some(Num(timeout))
      else None
    case _ => None
  }

  function ParamsOf(req: Request, c: Context): Fields {
    map k: Name | ParamField(req, c, k).Some? :: ParamField(req, c, k).value
  }

  // The envelope types that carry the signer's address at the top level.
  predicate NamesWallet(req: Request) {
    !(req.CreateSubaccount? || req.UpdateSubAccountName? || req.AddDelegatedSigner? || req.RemoveAllDelegatedSigners?)
  }

  // The top level of the envelope, without its params, key by key.
  function TopField(req: Request, c: Context, k: Name): Option<Json> {
    if k == Signature then Some(Obj(c.signature))
    else if k == Nonce then (if req.SubAccountAction? then OmitNum(c.nonce) else Some(Num(c.nonce)))
    else if k == ExpiresAfter then OmitNum(c.expiresAfter)
    else if k == SubaccountId then (if req.CreateSubaccount? then None else Some(Str(Decimal(c.account))))
    else if k == WalletAddress then (if NamesWallet(req) then Some(Str(c.wallet)) else None)
    else None
  }

  function TopOf(req: Request, c: Context): Fields {
    map k: Name | TopField(req, c, k).Some? :: TopField(req, c, k).value
  }

  function EnvelopeOf(req: Request, c: Context): Fields {
    TopOf(req, c)[Params := Obj(ParamsOf(req, c))]
  }

  // ---------------------------------------------------------------------
  // Rebuilding the typed data from the wire, from the published schemas

  datatype FieldType = Uint256 | Text | Flag | TextList | Uint256List | OrderList

  function OrderFieldType(f: Name): Option<FieldType> {
    if f == Symbol then Some(Text)
    else if f == Side then Some(Text)
    else if f == OrderType then Some(Text)
    else if f == Price then Some(Text)
    else if f == TriggerPrice then Some(Text)
    else if f == Quantity then Some(Text)
    else if f == ReduceOnly then Some(Flag)
    else if f == IsTriggerMarket then Some(Flag)
    else if f == ClientOrderId then Some(Text)
    else if f == ClosePosition then Some(Flag)
    else None
  }

  function OwnType(p: Primary, f: Name): Option<FieldType> {
    match p
    case PPlaceOrders =>
      if f == Orders then Some(OrderList)
      else if f == Grouping then Some(Text)
      else None
    case PCancelOrders =>
      if f == OrderIds then Some(Uint256List)
      else None
    case PCancelOrdersByCloid =>
      if f == ClientOrderIds then Some(TextList)
      else None
    case PCancelAllOrders =>
      if f == Symbols then Some(TextList)
      else None
    case PModifyOrder =>
      if f == OrderId then Some(Uint256)
      else if f == Price then Some(Text)
      else if f == Quantity then Some(Text)
      else if f == TriggerPrice then Some(Text)
      else None
    case PModifyOrderByCloid =>
      if f == ClientOrderId then Some(Text)
      else if f == Price then Some(Text)
      else if f == Quantity then Some(Text)
      else if f == TriggerPrice then Some(Text)
      else None
    case PUpdateLeverage =>
      if f == Symbol then Some(Text)
      else if f == Leverage then Some(Text)
      else None
    case PWithdrawCollateral =>
      if f == Symbol then Some(Text)
      else if f == Amount then Some(Text)
      else if f == Destination then Some(Text)
      else None
    case PTransferCollateral =>
      if f == To then Some(Uint256)
      else if f == Symbol then Some(Text)
      else if f == Amount then Some(Text)
      else None
    case PCreateSubaccount =>
      if f == AccountName then Some(Text)
      else None
    case PUpdateSubAccountName =>
      if f == AccountName then Some(Text)
      else None
    case PAddDelegatedSigner =>
      if f == DelegateAddress then Some(Text)
      else if f == Permissions then Some(TextList)
      else if f == ExpiresAt then Some(Uint256)
      else None
    case PRemoveDelegatedSigner =>
      if f == DelegateAddress then Some(Text)
      else None
    case PScheduleCancel =>
      if f == TimeoutSeconds then Some(Uint256)
      else None
    case PSubAccountAction =>
      if f == Action then Some(Text)
      else None
    case _ => None
  }

  function SchemaType(p: Primary, withNonce: bool, f: Name): Option<FieldType> {
    if f == SubAccountId then (if p.PCreateSubaccount? then None else Some(Uint256))
    else if f == MasterSubAccountId then (if p.PCreateSubaccount? then Some(Uint256) else None)
    else if f == ExpiresAfter then Some(Uint256)
    else if f == Nonce then (if withNonce then Some(Uint256) else None)
    else OwnType(p, f)
  }

  // The wire key of a typed-data field, and whether it is a top-level key.
  function WireName(f: Name): Name {
    if f == SubAccountId || f == MasterSubAccountId then SubaccountId
    else if f == DelegateAddress then WalletAddress
    else f
  }

  predicate AtTop(f: Name) {
    f == SubAccountId || f == Nonce || f == ExpiresAfter
  }

  function Field(params: Fields, top: Fields, f: Name): Option<Json> {
    Get(if AtTop(f) then top else params, WireName(f))
  }

  function ReadUint(j: Json): int {
    match j
    case Num(n) => n
    case Str(s) => (var v := ParseDigits(s); if v.Some? then v.value else 0)
    case _ => 0
  }

  function ReadText(j: Json): string {
    if j.Str? then j.s else ""
  }

  // A field of a simple type; one that is missing reads as its zero value.
  function CoerceSimple(t: FieldType, j: Option<Json>): Typed {
    match (t, j)
    case (Uint256, Some(Str(s))) => TText(s)
    case (Uint256, Some(Num(n))) => IntText(n)
    case (Uint256, _) => UintText(0)
    case (Text, Some(Str(s))) => TText(s)
    case (Text, Some(Word(v))) => TWord(v)
    case (Text, _) => TText("")
    case (Flag, Some(Bool(b))) => TBool(b)
    case (_, _) => TBool(false)
  }

  function CoerceOrder(j: Json): map<Name, Typed> {
    var m := if j.Obj? then j.fields else map[];
    map f: Name | OrderFieldType(f).Some? :: CoerceSimple(OrderFieldType(f).value, Get(m, f))
  }

  function Items(j: Option<Json>): seq<Json> {
    if j.Some? && j.value.Arr? then j.value.items else []
  }

  function Coerce(t: FieldType, j: Option<Json>): Typed {
    var items := Items(j);
    match t
    case TextList => TTexts(seq(|items|, i requires 0 <= i < |items| => ReadText(items[i])))
    case Uint256List => TInts(seq(|items|, i requires 0 <= i < |items| => ReadUint(items[i])))
    case OrderList => TOrders(seq(|items|, i requires 0 <= i < |items| => CoerceOrder(items[i])))
    case _ => CoerceSimple(t, j)
  }

  function Dispatch(params: Fields): Primary {
    var action := Get(params, Action);
    match if action.Some? && action.value.Word? then action.value.verb else Other("")
    case PlaceOrdersVerb => PPlaceOrders
    case CancelOrdersVerb => if Get(params, ClientOrderIds).Some? then PCancelOrdersByCloid else PCancelOrders
    case CancelAllOrdersVerb => PCancelAllOrders
    case ModifyOrderVerb => if Get(params, ClientOrderId).Some? then PModifyOrderByCloid else PModifyOrder
    case UpdateLeverageVerb => PUpdateLeverage
    case WithdrawCollateralVerb => PWithdrawCollateral
    case TransferCollateralVerb => PTransferCollateral
    case CreateSubaccountVerb => PCreateSubaccount
    case UpdateSubAccountNameVerb => PUpdateSubAccountName
    case AddDelegatedSignerVerb => PAddDelegatedSigner
    case RemoveDelegatedSignerVerb => PRemoveDelegatedSigner
    case RemoveAllDelegatedSignersVerb => PRemoveAllDelegatedSigners
    case ScheduleCancelVerb => PScheduleCancel
    case Other(_) => PSubAccountAction
  }

  // The read actions sign their nonce only when it is not zero.
  predicate SignsNonce(p: Primary, top: Fields) {
    p.PSubAccountAction? ==>
      match Get(top, Nonce)
      case Some(Num(n)) => n != 0
      case _ => false
  }

  function RebuiltField(p: Primary, params: Fields, top: Fields, f: Name): Option<Typed> {
    match SchemaType(p, SignsNonce(p, top), f)
    case None => None
    case Some(t) => Some(Coerce(t, Field(params, top, f)))
  }

  function Rebuild(params: Fields, top: Fields): TypedData {
    var p := Dispatch(params);
    TypedData(p, map f: Name | RebuiltField(p, params, top, f).Some? :: RebuiltField(p, params, top, f).value)
  }

  // ---------------------------------------------------------------------
  // The loops that fill slices, and the params built entry by entry

  // The loops of SignPlaceOrders and BuildPlaceOrders.
  method FillOrders(orders: seq<OrderInput>) returns (encoded: seq<map<Name, Typed>>, wire: seq<Json>)
    ensures encoded == OrderMessages(orders) && wire == WireOrders(orders)
  {
    hide OrderMessage, WireOrder;
    var encodedItems := new map<Name, Typed>[|orders|](_ => map[]);
    var wireItems := new Json[|orders|](_ => Null);
    for i := 0 to |orders|
      invariant forall j | 0 <= j < i :: encodedItems[j] == OrderMessage(orders[j])
      invariant forall j | 0 <= j < i :: wireItems[j] == Obj(WireOrder(orders[j]))
    {
      encodedItems[i] := OrderMessage(orders[i]);
      wireItems[i] := Obj(WireOrder(orders[i]));
    }
    encoded, wire := encodedItems[..], wireItems[..];
  }

  // The loop of BuildCancelOrders.
  method FillCasts(ids: seq<nat>) returns (encoded: seq<int>)
    ensures encoded == CastIds(ids)
  {
    var items := new int[|ids|](_ => 0);
    for i := 0 to |ids|
      invariant forall j | 0 <= j < i :: items[j] == Wrap(ids[j])
    {
      items[i] := Wrap(ids[i]);
    }
    encoded := items[..];
  }

  // The loop of SignCancelOrders.
  method FillIds(ids: seq<nat>) returns (wire: seq<Json>)
    ensures wire == WireIds(ids)
  {
    var items := new Json[|ids|](_ => Null);
    for i := 0 to |ids|
      invariant forall j | 0 <= j < i :: items[j] == Str(Decimal(ids[j]))
    {
      items[i] := Str(Decimal(ids[i]));
    }
    wire := items[..];
  }

  // The params of SignModifyOrder: a field that is not being modified gets no key.
  method ModifyParams(req: Request, c: Context) returns (params: Fields)
    requires req.ModifyOrder?
    ensures forall k :: Get(params, k) == ParamField(req, c, k)
  {
    hide Decimal;
    params := map[Action := Word(ModifyOrderVerb), OrderId := Str(Decimal(req.orderId))];
    if req.price != "" {
      params := params[Price := Str(req.price)];
    }
    if req.quantity != "" {
      params := params[Quantity := Str(req.quantity)];
    }
    if req.triggerPrice != "" {
      params := params[TriggerPrice := Str(req.triggerPrice)];
    }
  }
}
