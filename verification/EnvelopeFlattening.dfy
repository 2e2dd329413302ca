/** The websocket form of a signed envelope: decoded into a generic map, where
    every number becomes a float64, flattened into one level of params, and encoded
    again for the frame. */
module EnvelopeFlattening {
  import opened Wrappers
  import opened Text
  import opened Int64
  import opened F = Float64
  import opened Envelope
  import opened EnvelopeAgreement

  // ---------------------------------------------------------------------
  // Decoding and flattening

  function Floats(j: Json): Json {
    match j
    case Num(n) => Num(F.Decoded(n))
    case Arr(items) => Arr(seq(|items|, i requires 0 <= i < |items| => Floats(items[i])))
    case Obj(fields) => Obj(map k | k in fields :: Floats(fields[k]))
    case _ => j
  }

  function Decoded(envelope: Fields): Fields {
    map k | k in envelope :: Floats(envelope[k])
  }

  // The params object of a decoded envelope; anything else counts as absent.
  function InnerParams(decoded: Fields): Fields {
    if Params in decoded && decoded[Params].Obj? then decoded[Params].fields else map[]
  }

  // Top-level keys win over params of the same name.
  function Flatten(envelope: Fields): Fields {
    var decoded := Decoded(envelope);
    InnerParams(decoded) + (decoded - {Params})
  }

  // base with the entries of m that are neither params nor still to come.
  function Merged(base: Fields, m: Fields, keys: set<Name>): Fields {
    base + (m - {Params} - keys)
  }

  lemma MergeNext(base: Fields, m: Fields, keys: set<Name>, k: Name)
    requires k in keys && k in m
    ensures Merged(base, m, keys - {k}) ==
            if k == Params then Merged(base, m, keys) else Merged(base, m, keys)[k := m[k]]
  {
    if k == Params {
      assert m - {Params} - (keys - {k}) == m - {Params} - keys;
    }
  }

  lemma MergeEnds(base: Fields, m: Fields)
    ensures Merged(base, m, m.Keys) == base
    ensures Merged(base, m, {}) == base + (m - {Params})
  {
    assert m - {Params} - m.Keys == map[];
    assert m - {Params} - {} == m - {Params};
  }

  // The loop that merges the top-level keys into params.
  method Merge(base: Fields, decoded: Fields) returns (params: Fields)
    ensures params == base + (decoded - {Params})
  {
    hide Merged;
    params := base;
    var keys := decoded.Keys;
    MergeEnds(base, decoded);
    while keys != {}
      invariant keys <= decoded.Keys && params == Merged(base, decoded, keys)
      decreases |keys|
    {
      var k :| k in keys;
      MergeNext(base, decoded, keys, k);
      keys := keys - {k};
      if k == Params {
        continue;
      }
      params := params[k := decoded[k]];
    }
  }

  method FlattenSignedEnvelope(envelope: Fields) returns (params: Fields)
    ensures params == Flatten(envelope)
  {
    var decoded := Decoded(envelope);
    params := Merge(InnerParams(decoded), decoded);
  }

  // ---------------------------------------------------------------------
  // The frame: json.Marshal of the flattened params

  function Reprinted(j: Json): Json {
    match j
    case Num(f) => Num(Printed(f))
    case Arr(items) => Arr(seq(|items|, i requires 0 <= i < |items| => Reprinted(items[i])))
    case Obj(fields) => Obj(map k | k in fields :: Reprinted(fields[k]))
    case _ => j
  }

  function Marshalled(flat: Fields): Fields {
    map k | k in flat :: Reprinted(flat[k])
  }

  function SentOf(req: Request, c: Context): Fields {
    Marshalled(Flatten(EnvelopeOf(req, c)))
  }

  // What the two conversions make of a JSON value.
  function Sent(j: Json): Json {
    match j
    case Num(n) => Num(Resent(n))
    case Arr(items) => Arr(seq(|items|, i requires 0 <= i < |items| => Sent(items[i])))
    case Obj(fields) => Obj(map k | k in fields :: Sent(fields[k]))
    case _ => j
  }

  lemma {:induction false} FloatsReprinted(j: Json)
    ensures Reprinted(Floats(j)) == Sent(j)
  {
    hide F.Decoded, Printed;
    match j {
      case Arr(items) =>
        forall i | 0 <= i < |items| ensures Reprinted(Floats(items[i])) == Sent(items[i]) {
          FloatsReprinted(items[i]);
        }
      case Obj(fields) =>
        forall k | k in fields ensures Reprinted(Floats(fields[k])) == Sent(fields[k]) {
          FloatsReprinted(fields[k]);
        }
      case _ =>
    }
  }

  // ---------------------------------------------------------------------
  // What a field reads as in the frame

  function MapSent(j: Option<Json>): Option<Json> {
    if j.None? then None else Some(Sent(j.value))
  }

  // Key k of the frame's params.
  function SentField(req: Request, c: Context, k: Name): Option<Json> {
    MapSent(if TopField(req, c, k).Some? then TopField(req, c, k) else ParamField(req, c, k))
  }

  lemma FlattenGet(top: Fields, params: Fields, k: Name)
    requires k != Params
    ensures var j := if Get(top, k).Some? then Get(top, k) else Get(params, k);
            Get(Flatten(top[Params := Obj(params)]), k) == if j.None? then None else Some(Floats(j.value))
  {
    var decoded := Decoded(top[Params := Obj(params)]);
    assert decoded[Params] == Floats(Obj(params));
  }

  lemma MarshalledAt(flat: Fields, k: Name)
    ensures Get(Marshalled(flat), k) == if Get(flat, k).None? then None else Some(Reprinted(Get(flat, k).value))
  {
    hide Reprinted;
  }

  lemma SentGet(req: Request, c: Context, k: Name)
    requires k != Params
    ensures Get(SentOf(req, c), k) == SentField(req, c, k)
  {
    hide Flatten, ParamsOf, TopOf, TopField, ParamField, Floats, Reprinted, Sent, Get, Marshalled;
    ParamsGet(req, c, k);
    FlattenGet(TopOf(req, c), ParamsOf(req, c), k);
    MarshalledAt(Flatten(EnvelopeOf(req, c)), k);
    var j := if TopField(req, c, k).Some? then TopField(req, c, k) else ParamField(req, c, k);
    if j.Some? {
      FloatsReprinted(j.value);
    }
  }

  // Rounding numbers does not touch a field that is read as text, flag or list.
  lemma TextsAndFlagsKeep(t: FieldType, j: Option<Json>)
    requires t == Text || t == Flag
    ensures CoerceSimple(t, MapSent(j)) == CoerceSimple(t, j)
  {}

  lemma CoerceOrderKeeps(j: Json)
    ensures CoerceOrder(Sent(j)) == CoerceOrder(j)
  {
    var m := if j.Obj? then j.fields else map[];
    var n := if j.Obj? then Sent(j).fields else map[];
    forall f: Name | OrderFieldType(f).Some?
      ensures CoerceSimple(OrderFieldType(f).value, Get(n, f)) == CoerceSimple(OrderFieldType(f).value, Get(m, f))
    {
      assert Get(n, f) == MapSent(Get(m, f));
      TextsAndFlagsKeep(OrderFieldType(f).value, Get(m, f));
    }
    hide CoerceSimple, OrderFieldType, Get;
    assert !Sent(j).Obj? ==> !j.Obj?;
  }

  predicate OnlyTexts(j: Option<Json>) {
    forall i | 0 <= i < |Items(j)| :: Items(j)[i].Str?
  }

  lemma CoerceKeeps(t: FieldType, j: Option<Json>)
    requires t == Uint256 ==> j.None? || !j.value.Num?
    requires t == Uint256List ==> OnlyTexts(j)
    ensures Coerce(t, MapSent(j)) == Coerce(t, j)
  {
    var (a, b) := (Items(MapSent(j)), Items(j));
    assert |a| == |b| && forall i | 0 <= i < |b| :: a[i] == Sent(b[i]);
    if t == OrderList {
      forall i | 0 <= i < |b| ensures CoerceOrder(a[i]) == CoerceOrder(b[i]) {
        CoerceOrderKeeps(b[i]);
      }
    }
    hide CoerceOrder, Get;
  }

  // ---------------------------------------------------------------------
  // Signed equals posted, over the websocket

  // The integers of the typed data that travel as JSON numbers are exact, and the
  // one param that shares its name with a top-level key holds the same text.
  predicate FieldSurvives(req: Request, c: Context, f: Name) {
    if f == Nonce then Kept(c.nonce)
    else if f == ExpiresAfter then Kept(c.expiresAfter)
    else if f == ExpiresAt then (req.AddDelegatedSigner? ==> Kept(req.expiresAt))
    else if f == TimeoutSeconds then (req.ScheduleCancel? ==> Kept(req.timeoutSeconds))
    else if f == DelegateAddress then (req.RemoveDelegatedSigner? ==> req.delegate == c.wallet)
    else true
  }

  predicate SurvivesSending(req: Request, c: Context) {
    && Kept(c.nonce) && Kept(c.expiresAfter)
    && (req.AddDelegatedSigner? ==> Kept(req.expiresAt))
    && (req.ScheduleCancel? ==> Kept(req.timeoutSeconds))
    && (req.RemoveDelegatedSigner? ==> req.delegate == c.wallet)
  }

  // Field f as the server rebuilds it from the frame.
  function SentReread(req: Request, c: Context, f: Name): Option<Typed> {
    RebuiltField(PrimaryOf(req), SentOf(req, c), SentOf(req, c), f)
  }

  lemma IntegerSurvives(n: int)
    ensures IntText(Resent(n)) == IntText(n) <==> Kept(n)
  {
    IntTextInjective(Resent(n), n);
  }

  lemma ZeroKept()
    ensures Kept(0)
  {
    SmallIntegersAreKept(0);
  }

  // Dispatch looks at the action and at two keys it only asks for.
  lemma DispatchByKeys(a: Fields, b: Fields, verb: Verb)
    requires Get(a, Action) == Get(b, Action) == Some(Word(verb))
    requires Get(a, ClientOrderIds).Some? <==> Get(b, ClientOrderIds).Some?
    requires Get(a, ClientOrderId).Some? <==> Get(b, ClientOrderId).Some?
    ensures Dispatch(a) == Dispatch(b)
  {
    hide Get;
  }

  lemma DispatchSurvives(req: Request, c: Context)
    ensures Dispatch(SentOf(req, c)) == Dispatch(ParamsOf(req, c))
  {
    hide SentOf, ParamsOf, TopOf, Get, VerbOf, ParamField, Dispatch;
    DispatchKeys(req, c);
    SentGet(req, c, Action);
    SentGet(req, c, ClientOrderIds);
    SentGet(req, c, ClientOrderId);
    ParamsGet(req, c, Action);
    ParamsGet(req, c, ClientOrderIds);
    ParamsGet(req, c, ClientOrderId);
    DispatchByKeys(SentOf(req, c), ParamsOf(req, c), VerbOf(req));
  }

  lemma CoerceUint(j: Option<Json>)
    ensures Coerce(Uint256, j) == CoerceSimple(Uint256, j)
  {}

  lemma NotAParam(req: Request, c: Context, k: Name)
    requires k == Nonce || k == ExpiresAfter
    ensures ParamField(req, c, k).None?
  {}

  // What a nonce that reads as n is rebuilt to.
  function NonceText(p: Primary, n: int): Option<Typed> {
    if p.PSubAccountAction? && n == 0 then None else Some(IntText(n))
  }

  lemma RebuiltNonce(p: Primary, params: Fields, top: Fields, n: int)
    requires Get(top, Nonce) == Some(Num(n)) || (n == 0 && p.PSubAccountAction? && Get(top, Nonce) == None)
    ensures RebuiltField(p, params, top, Nonce) == NonceText(p, n)
  {
    hide Get, OwnType, SignedDecimal, Decimal;
    assert Field(params, top, Nonce) == Get(top, Nonce);
  }

  lemma RereadNonce(req: Request, c: Context)
    ensures Reread(req, c, Nonce) == NonceText(PrimaryOf(req), c.nonce)
  {
    NotAParam(req, c, Nonce);
    hide ParamsOf, TopOf, Get, RebuiltField, ParamField, NonceText;
    ParamsGet(req, c, Nonce);
    RebuiltNonce(PrimaryOf(req), ParamsOf(req, c), TopOf(req, c), c.nonce);
  }

  lemma SentNonce(req: Request, c: Context)
    ensures SentReread(req, c, Nonce) == NonceText(PrimaryOf(req), Resent(c.nonce))
  {
    hide SentOf, Get, RebuiltField, NonceText, Resent, SentField;
    SentNonceField(req, c);
    ZeroKept();
    SentGet(req, c, Nonce);
    RebuiltNonce(PrimaryOf(req), SentOf(req, c), SentOf(req, c), Resent(c.nonce));
  }

  lemma SentNonceField(req: Request, c: Context)
    ensures SentField(req, c, Nonce) ==
            if req.SubAccountAction? && c.nonce == 0 then None else Some(Num(Resent(c.nonce)))
  {
    NotAParam(req, c, Nonce);
    hide ParamField, Resent;
  }

  lemma NonceSurvives(req: Request, c: Context)
    ensures SentReread(req, c, Nonce) == Reread(req, c, Nonce) <==> Kept(c.nonce)
  {
    hide Kept, Resent, IntText, Reread, SentReread;
    RereadNonce(req, c);
    SentNonce(req, c);
    IntegerSurvives(c.nonce);
    KeptMeansSame(c.nonce);
  }

  lemma KeptMeansSame(n: int)
    ensures Kept(n) <==> Resent(n) == n
  {
    hide Resent;
  }

  lemma ExpirySurvives(req: Request, c: Context)
    ensures SentReread(req, c, ExpiresAfter) == Reread(req, c, ExpiresAfter) <==> Kept(c.expiresAfter)
  {
    hide SentOf, ParamsOf, TopOf, Get, Kept, Resent, SignedDecimal, Decimal, OwnType, PrimaryOf, Coerce;
    NotAParam(req, c, ExpiresAfter);
    hide SignsNonce, ParamField;
    SentGet(req, c, ExpiresAfter);
    ParamsGet(req, c, ExpiresAfter);
    IntegerSurvives(c.expiresAfter);
    ZeroKept();
    CoerceUint(Get(SentOf(req, c), ExpiresAfter));
    CoerceUint(Get(TopOf(req, c), ExpiresAfter));
  }

  lemma AccountSurvives(req: Request, c: Context, f: Name)
    requires f == SubAccountId || f == MasterSubAccountId
    ensures SentReread(req, c, f) == Reread(req, c, f)
  {
    hide SentOf, ParamsOf, TopOf, Get, SignedDecimal, Decimal, OwnType, Coerce, SignsNonce;
    SentGet(req, c, SubaccountId);
    ParamsGet(req, c, SubaccountId);
    CoerceUint(Get(SentOf(req, c), SubaccountId));
    CoerceUint(Get(TopOf(req, c), SubaccountId));
    CoerceUint(Get(ParamsOf(req, c), SubaccountId));
  }

  lemma OwnTypeOf(req: Request, c: Context, f: Name)
    requires !IsCommon(f)
    ensures SentReread(req, c, f) ==
            match OwnType(PrimaryOf(req), f)
            case None => None
            case Some(t) => Some(Coerce(t, Get(SentOf(req, c), WireName(f))))
  {
    hide OwnType, SentOf, Get, Coerce, SignsNonce, WireName;
  }

  // A param of the action that is neither a number nor named like a top-level key.
  predicate IsPlain(req: Request, f: Name) {
    && !IsCommon(f)
    && (f == ExpiresAt ==> !req.AddDelegatedSigner?)
    && (f == TimeoutSeconds ==> !req.ScheduleCancel?)
    && (f == DelegateAddress ==> !req.RemoveDelegatedSigner?)
  }

  lemma PlainKey(req: Request, c: Context, f: Name)
    requires IsPlain(req, f) && OwnType(PrimaryOf(req), f).Some?
    ensures WireName(f) != Params && TopField(req, c, WireName(f)).None?
  {}

  lemma UintNames(p: Primary, f: Name)
    requires OwnType(p, f) == Some(Uint256)
    ensures f == OrderId || f == To || f == ExpiresAt || f == TimeoutSeconds
    ensures f == ExpiresAt ==> p == PAddDelegatedSigner
    ensures f == TimeoutSeconds ==> p == PScheduleCancel
  {}

  lemma IdsAreTexts(req: Request, c: Context, f: Name)
    requires f == OrderId || f == To
    ensures ParamField(req, c, f).None? || !ParamField(req, c, f).value.Num?
  {
    hide Decimal, WireIds, WireOrders, WireTexts;
  }

  lemma PlainUint(req: Request, c: Context, f: Name)
    requires IsPlain(req, f) && OwnType(PrimaryOf(req), f) == Some(Uint256)
    ensures ParamField(req, c, WireName(f)).None? || !ParamField(req, c, WireName(f)).value.Num?
  {
    hide OwnType, ParamField;
    UintNames(PrimaryOf(req), f);
    IdsAreTexts(req, c, f);
  }

  lemma IdListNames(p: Primary, f: Name)
    requires OwnType(p, f) == Some(Uint256List)
    ensures p == PCancelOrders && f == OrderIds
  {}

  lemma PlainIds(req: Request, c: Context, f: Name)
    requires OwnType(PrimaryOf(req), f) == Some(Uint256List)
    ensures OnlyTexts(ParamField(req, c, WireName(f)))
  {
    IdListNames(PrimaryOf(req), f);
    hide OwnType;
    assert ParamField(req, c, OrderIds) == Some(Arr(WireIds(req.orderIds)));
  }

  lemma PlainSurvives(req: Request, c: Context, f: Name)
    requires IsPlain(req, f)
    ensures SentReread(req, c, f) == Reread(req, c, f)
  {
    hide SentOf, ParamsOf, TopOf, Get, Coerce, OwnType, ParamField, TopField;
    hide SentReread, Reread, OnlyTexts, MessageField;
    OwnTypeOf(req, c, f);
    OwnPart(req, c, f);
    if OwnType(PrimaryOf(req), f).Some? {
      PlainKey(req, c, f);
      if OwnType(PrimaryOf(req), f).value == Uint256 {
        PlainUint(req, c, f);
      } else if OwnType(PrimaryOf(req), f).value == Uint256List {
        PlainIds(req, c, f);
      }
      SentGet(req, c, WireName(f));
      ParamsGet(req, c, WireName(f));
      CoerceKeeps(OwnType(PrimaryOf(req), f).value, ParamField(req, c, WireName(f)));
    }
  }

  predicate IsNumber(req: Request, f: Name, n: int) {
    || (f == ExpiresAt && req.AddDelegatedSigner? && n == req.expiresAt)
    || (f == TimeoutSeconds && req.ScheduleCancel? && n == req.timeoutSeconds)
  }

  lemma NumberParam(req: Request, c: Context, f: Name, n: int)
    requires IsNumber(req, f, n)
    ensures WireName(f) == f != Params && !IsCommon(f) && OwnType(PrimaryOf(req), f) == Some(Uint256)
    ensures TopField(req, c, f) == None
    ensures ParamField(req, c, f) == Some(Num(n)) || (n == 0 && ParamField(req, c, f) == None)
  {}

  lemma ReadNumber(j: Option<Json>, n: int)
    requires j == Some(Num(n)) || (n == 0 && j == None)
    ensures Coerce(Uint256, j) == IntText(n)
  {}

  lemma NumberSurvives(req: Request, c: Context, f: Name, n: int)
    requires IsNumber(req, f, n)
    ensures SentReread(req, c, f) == Reread(req, c, f) <==> Kept(n)
  {
    hide SentOf, ParamsOf, TopOf, Get, Coerce, SentReread, Reread, MessageField, OwnType, TopField, ParamField;
    hide Kept, Resent, IntText, WireName, IsCommon, IsNumber, PrimaryOf;
    NumberParam(req, c, f, n);
    OwnTypeOf(req, c, f);
    OwnPart(req, c, f);
    SentGet(req, c, f);
    ParamsGet(req, c, f);
    IntegerSurvives(n);
    ZeroKept();
    ReadNumber(Get(SentOf(req, c), f), Resent(n));
    ReadNumber(Get(ParamsOf(req, c), f), n);
  }

  lemma DelegateParam(req: Request, c: Context)
    requires req.RemoveDelegatedSigner?
    ensures OwnType(PrimaryOf(req), DelegateAddress) == Some(FieldType.Text)
    ensures TopField(req, c, WalletAddress) == Some(Str(c.wallet))
    ensures ParamField(req, c, WalletAddress) == Some(Str(req.delegate))
  {}

  lemma ReadString(s: string)
    ensures Coerce(FieldType.Text, Some(Str(s))) == TText(s)
  {}

  // removeDelegatedSigner: the signer's own address replaces the delegate's.
  lemma DelegateIsReplaced(req: Request, c: Context)
    requires req.RemoveDelegatedSigner?
    ensures SentReread(req, c, DelegateAddress) == Some(TText(c.wallet))
    ensures Reread(req, c, DelegateAddress) == Some(TText(req.delegate))
  {
    hide SentOf, ParamsOf, TopOf, Get, Coerce, SentReread, Reread, MessageField;
    hide OwnType, TopField, ParamField, PrimaryOf;
    DelegateParam(req, c);
    OwnTypeOf(req, c, DelegateAddress);
    OwnPart(req, c, DelegateAddress);
    SentGet(req, c, WalletAddress);
    ParamsGet(req, c, WalletAddress);
    ReadString(c.wallet);
    ReadString(req.delegate);
  }

  lemma FieldKept(req: Request, c: Context, f: Name)
    ensures SentReread(req, c, f) == Reread(req, c, f) <==> FieldSurvives(req, c, f)
  {
    hide SentReread, Reread, Kept;
    if f == Nonce {
      NonceSurvives(req, c);
    } else if f == ExpiresAfter {
      ExpirySurvives(req, c);
    } else if f == SubAccountId || f == MasterSubAccountId {
      AccountSurvives(req, c, f);
    } else if IsPlain(req, f) {
      PlainSurvives(req, c, f);
    } else if f == ExpiresAt {
      NumberSurvives(req, c, f, req.expiresAt);
    } else if f == TimeoutSeconds {
      NumberSurvives(req, c, f, req.timeoutSeconds);
    } else {
      DelegateIsReplaced(req, c);
    }
  }

  lemma SurvivalByField(req: Request, c: Context)
    ensures SurvivesSending(req, c) <==> forall f: Name :: FieldSurvives(req, c, f)
  {
    hide Kept;
    if forall f: Name :: FieldSurvives(req, c, f) {
      assert FieldSurvives(req, c, Nonce) && FieldSurvives(req, c, ExpiresAfter) && FieldSurvives(req, c, ExpiresAt);
      assert FieldSurvives(req, c, TimeoutSeconds) && FieldSurvives(req, c, DelegateAddress);
    }
  }

  /** Signed equals posted, over the websocket: what the server rebuilds from the
      frame is exactly what was digested if and only if it is so over REST, every
      integer sent as a JSON number comes out of the float64 it passes through as it
      went in, and the action is not removeDelegatedSigner for an address other than
      the signer's own. */
  lemma WebsocketAgrees(req: Request, c: Context)
    ensures Rebuild(SentOf(req, c), SentOf(req, c)) == Build(req, c)
            <==> IdsFit(req) && IsRead(req) && SurvivesSending(req, c)
  {
    hide Rebuild, Build, Dispatch, IsRead, IdsFit, RebuiltField, MessageField, ParamsOf, SentOf, TopOf;
    hide FieldSurvives, SurvivesSending;
    DispatchSurvives(req, c);
    DispatchAgrees(req, c);
    SurvivalByField(req, c);
    FieldsDecide(req, c, SentOf(req, c), SentOf(req, c));
    forall f: Name
      ensures SentReread(req, c, f) == MessageField(req, c, f)
              <==> FieldSurvives(req, c, f) && (f != OrderIds || IdsFit(req))
    {
      FieldAgrees(req, c, f);
      FieldKept(req, c, f);
      OrderIdsSurvive(req, c);
    }
    assert SentReread(req, c, OrderIds) == MessageField(req, c, OrderIds) ==> IdsFit(req);
  }

  lemma OrderIdsSurvive(req: Request, c: Context)
    ensures FieldSurvives(req, c, OrderIds)
  {}

  /** Sufficient conditions a caller can check at a glance. */
  lemma SmallIntegersSurvive(req: Request, c: Context)
    requires c.nonce <= TWO53 && -TWO53 <= c.expiresAfter <= TWO53 && IdsFit(req) && IsRead(req)
    requires req.AddDelegatedSigner? ==> -TWO53 <= req.expiresAt <= TWO53
    requires req.ScheduleCancel? ==> -TWO53 <= req.timeoutSeconds <= TWO53
    requires !req.RemoveDelegatedSigner?
    ensures Rebuild(SentOf(req, c), SentOf(req, c)) == Build(req, c)
  {
    hide Rebuild, Build, SentOf, Kept;
    SmallIntegersAreKept(c.nonce);
    SmallIntegersAreKept(c.expiresAfter);
    if req.AddDelegatedSigner? {
      SmallIntegersAreKept(req.expiresAt);
    } else if req.ScheduleCancel? {
      SmallIntegersAreKept(req.timeoutSeconds);
    }
    WebsocketAgrees(req, c);
  }

  /** Being a float is not enough: no action signed with the nonce
      2^60 is posted as it was signed, although 2^60 is a float. */
  lemma LargeNonceIsChanged(req: Request, c: Context)
    requires c.nonce == TWO60
    ensures F.Decoded(c.nonce) == c.nonce
    ensures Rebuild(SentOf(req, c), SentOf(req, c)) != Build(req, c)
  {
    hide Rebuild, Build, SentOf, Kept, F.Decoded;
    TwoTo60IsNotKept();
    WebsocketAgrees(req, c);
  }
}
