/** Subscription specs of the public stream client: the deduplication key, the
    wire parameters, and which notifications a spec receives. */
module Subscription {
  import opened Wrappers
  import opened Text

  datatype SubscribeSpec = SubscribeSpec(
    kind: string,            // Type
    symbol: string,
    depth: int,
    timeframe: string,
    updateFrequencyMs: int,
    format: string
  )

  datatype WireValue = Str(s: string) | Num(n: int)

  // strings.ToUpper(strings.TrimSpace(symbol)) on ASCII.
  function WireSymbol(symbol: string): string {
    ToUpper(Trim(symbol, IsSpace))
  }

  predicate Valid(s: SubscribeSpec) {
    Trim(s.kind, IsSpace) != "" && Trim(s.symbol, IsSpace) != ""
  }

  function Part(tag: string, value: string): string {
    tag + "=" + value
  }

  // The components of the key, for a given canonical symbol.
  function Parts(s: SubscribeSpec, symbol: string): seq<string> {
    [Part("type", s.kind), Part("symbol", symbol)]
    + (if s.depth > 0 then [Part("depth", Decimal(s.depth))] else [])
    + (if s.timeframe != "" then [Part("tf", s.timeframe)] else [])
    + (if s.updateFrequencyMs > 0 then [Part("freq", Decimal(s.updateFrequencyMs))] else [])
    + (if s.format != "" then [Part("fmt", s.format)] else [])
  }

  function KeyWith(s: SubscribeSpec, symbol: string): string {
    Join(Sort(Parts(s, symbol)), '|')
  }

  function Key(s: SubscribeSpec): string {
    KeyWith(s, WireSymbol(s.symbol))
  }

  function ParamsWith(s: SubscribeSpec, symbol: string): map<string, WireValue> {
    var p := map["type" := Str(s.kind), "symbol" := Str(symbol)];
    var p := if s.depth > 0 then p["depth" := Num(s.depth)] else p;
    var p := if s.timeframe != "" then p["timeframe" := Str(s.timeframe)] else p;
    var p := if s.updateFrequencyMs > 0 then p["updateFrequencyMs" := Num(s.updateFrequencyMs)] else p;
    if s.format != "" then p["format" := Str(s.format)] else p
  }

  function ToWireParams(s: SubscribeSpec): map<string, WireValue> {
    ParamsWith(s, WireSymbol(s.symbol))
  }

  // The key as the source builds it: a slice that grows, is sorted and joined.
  method BuildKey(s: SubscribeSpec) returns (key: string)
    ensures key == Key(s)
  {
    var parts := [Part("type", s.kind), Part("symbol", WireSymbol(s.symbol))];
    if s.depth > 0 {
      parts := parts + [Part("depth", Decimal(s.depth))];
    }
    if s.timeframe != "" {
      parts := parts + [Part("tf", s.timeframe)];
    }
    if s.updateFrequencyMs > 0 {
      parts := parts + [Part("freq", Decimal(s.updateFrequencyMs))];
    }
    if s.format != "" {
      parts := parts + [Part("fmt", s.format)];
    }
    assert parts == Parts(s, WireSymbol(s.symbol));
    key := Join(Sort(parts), '|');
  }

  method BuildWireParams(s: SubscribeSpec) returns (p: map<string, WireValue>)
    ensures p == ToWireParams(s)
  {
    p := map["type" := Str(s.kind), "symbol" := Str(WireSymbol(s.symbol))];
    if s.depth > 0 {
      p := p["depth" := Num(s.depth)];
    }
    if s.timeframe != "" {
      p := p["timeframe" := Str(s.timeframe)];
    }
    if s.updateFrequencyMs > 0 {
      p := p["updateFrequencyMs" := Num(s.updateFrequencyMs)];
    }
    if s.format != "" {
      p := p["format" := Str(s.format)];
    }
  }

  // ---------------------------------------------------------------------
  // Notification matching

  function NotificationChannel(s: SubscribeSpec): string {
    match s.kind
    case "orderbook" => "orderbookUpdate"
    case "price" => "priceUpdate"
    case "candle" => "candleUpdate"
    case "trade" => "trade"
    case "liquidations" => "liquidation"
    case _ => ""
  }

  // trimSpaceAndUpper: blanks only, unlike the wire symbol.
  function MatchSymbol(s: string): string {
    ToUpper(Trim(s, IsBlank))
  }

  predicate Matches(s: SubscribeSpec, channel: string, symbol: string) {
    var mapped := NotificationChannel(s);
    && channel == (if mapped == "" then s.kind else mapped)
    && (symbol == "" || MatchSymbol(symbol) == MatchSymbol(s.symbol))
  }

  // The public streams: what a subscribe request calls each, and what its
  // notifications do.
  datatype Stream = TradeStream | OrderbookStream | PriceStream | CandleStream | LiquidationStream

  function RequestType(stream: Stream): string {
    match stream
    case TradeStream => "trade"
    case OrderbookStream => "orderbook"
    case PriceStream => "price"
    case CandleStream => "candle"
    case LiquidationStream => "liquidations"
  }

  function NotifiedAs(stream: Stream): string {
    match stream
    case TradeStream => "trade"
    case OrderbookStream => "orderbookUpdate"
    case PriceStream => "priceUpdate"
    case CandleStream => "candleUpdate"
    case LiquidationStream => "liquidation"
  }

  /** A spec for a public stream receives the notifications of that stream, for its
      symbol or for none, and no others. */
  lemma StreamMatches(stream: Stream, s: SubscribeSpec, channel: string, symbol: string)
    requires s.kind == RequestType(stream)
    ensures Matches(s, channel, symbol) <==>
            channel == NotifiedAs(stream) && (symbol == "" || MatchSymbol(symbol) == MatchSymbol(s.symbol))
  {}

  /** A spec of a type that is none of them goes by the type's own name. */
  lemma OtherTypeMatches(s: SubscribeSpec, channel: string, symbol: string)
    requires forall stream :: s.kind != RequestType(stream)
    ensures Matches(s, channel, symbol) <==>
            channel == s.kind && (symbol == "" || MatchSymbol(symbol) == MatchSymbol(s.symbol))
  {
    forall stream ensures s.kind != RequestType(stream) {}
    assert s.kind != RequestType(TradeStream) && s.kind != RequestType(OrderbookStream);
    assert s.kind != RequestType(PriceStream) && s.kind != RequestType(CandleStream);
    assert s.kind != RequestType(LiquidationStream);
  }

  /** No notification reaches specs for two different public streams, or for two
      different symbols of one if it names a symbol. */
  lemma StreamsDoNotMix(x: Stream, y: Stream, a: SubscribeSpec, b: SubscribeSpec, channel: string, symbol: string)
    requires a.kind == RequestType(x) && b.kind == RequestType(y)
    requires Matches(a, channel, symbol) && Matches(b, channel, symbol)
    ensures x == y && (symbol != "" ==> MatchSymbol(a.symbol) == MatchSymbol(b.symbol))
  {
    StreamMatches(x, a, channel, symbol);
    StreamMatches(y, b, channel, symbol);
    hide Matches, MatchSymbol;
  }

  // ---------------------------------------------------------------------
  // What the wire parameters carry

  function TextParam(p: map<string, WireValue>, name: string): string {
    if name in p && p[name].Str? then p[name].s else ""
  }

  function NumberParam(p: map<string, WireValue>, name: string): int {
    if name in p && p[name].Num? then p[name].n else 0
  }

  // What the server is asked for, absent parameters being zero.
  function ReadParams(p: map<string, WireValue>): SubscribeSpec {
    SubscribeSpec(TextParam(p, "type"), TextParam(p, "symbol"), NumberParam(p, "depth"),
                  TextParam(p, "timeframe"), NumberParam(p, "updateFrequencyMs"), TextParam(p, "format"))
  }

  /** The server is asked for what the caller wants: the parameters give back the spec
      in canonical form, with every number that is not positive as zero. */
  lemma ParamsReadBack(s: SubscribeSpec)
    ensures ReadParams(ToWireParams(s)) ==
            SubscribeSpec(s.kind, WireSymbol(s.symbol), Positive(s.depth), s.timeframe,
                          Positive(s.updateFrequencyMs), s.format)
  {
    hide WireSymbol;
  }

  // ---------------------------------------------------------------------
  // The key is faithful to the wire parameters

  function Positive(n: int): nat {
    if n > 0 then n else 0
  }

  // Same values in every field that reaches the wire.
  predicate SameFields(a: SubscribeSpec, wa: string, b: SubscribeSpec, wb: string) {
    && a.kind == b.kind && wa == wb && a.timeframe == b.timeframe && a.format == b.format
    && Positive(a.depth) == Positive(b.depth) && Positive(a.updateFrequencyMs) == Positive(b.updateFrequencyMs)
  }

  lemma SameParamsSameFields(a: SubscribeSpec, wa: string, b: SubscribeSpec, wb: string)
    ensures ParamsWith(a, wa) == ParamsWith(b, wb) <==> SameFields(a, wa, b, wb)
  {
    var p, q := ParamsWith(a, wa), ParamsWith(b, wb);
    if p == q {
      assert p["type"] == q["type"] && p["symbol"] == q["symbol"];
      assert "depth" in p <==> "depth" in q;
      assert "timeframe" in p <==> "timeframe" in q;
      assert "updateFrequencyMs" in p <==> "updateFrequencyMs" in q;
      assert "format" in p <==> "format" in q;
    }
  }

  // The value the key carries under a tag.
  function Field(s: SubscribeSpec, symbol: string, tag: string): Option<string> {
    match tag
    case "type" => Some(s.kind)
    case "symbol" => Some(symbol)
    case "depth" => if s.depth > 0 then Some(Decimal(s.depth)) else None
    case "tf" => if s.timeframe != "" then Some(s.timeframe) else None
    case "freq" => if s.updateFrequencyMs > 0 then Some(Decimal(s.updateFrequencyMs)) else None
    case "fmt" => if s.format != "" then Some(s.format) else None
    case _ => None
  }

  lemma PartInjective(t: string, v: string, t': string, v': string)
    requires '=' !in t && '=' !in t' && Part(t, v) == Part(t', v')
    ensures t == t' && v == v'
  {
    var x, y := Part(t, v), Part(t', v');
    assert x[..|t|] == t && y[..|t'|] == t';
    CutUnique(x, '=', |t|);
    CutUnique(y, '=', |t'|);
    assert x[|t| + 1..] == v && y[|t'| + 1..] == v';
  }

  lemma PartMeansField(s: SubscribeSpec, symbol: string, tag: string, v: string)
    requires tag in {"type", "symbol", "depth", "tf", "freq", "fmt"}
    ensures Part(tag, v) in Parts(s, symbol) <==> Field(s, symbol, tag) == Some(v)
  {
    forall t, u | t in {"type", "symbol", "depth", "tf", "freq", "fmt"} && Part(t, u) == Part(tag, v)
      ensures t == tag && u == v
    {
      PartInjective(t, u, tag, v);
    }
  }

  lemma SamePartsSameField(a: SubscribeSpec, wa: string, b: SubscribeSpec, wb: string, tag: string)
    requires multiset(Parts(a, wa)) == multiset(Parts(b, wb))
    requires tag in {"type", "symbol", "depth", "tf", "freq", "fmt"}
    ensures Field(a, wa, tag) == Field(b, wb, tag)
  {
    forall v ensures Field(a, wa, tag) == Some(v) <==> Field(b, wb, tag) == Some(v) {
      PartMeansField(a, wa, tag, v);
      PartMeansField(b, wb, tag, v);
      assert Part(tag, v) in multiset(Parts(a, wa)) <==> Part(tag, v) in multiset(Parts(b, wb));
    }
    if Field(a, wa, tag).None? && Field(b, wb, tag).Some? {
      assert Field(b, wb, tag) == Some(Field(b, wb, tag).value);
    }
  }

  lemma SameFieldsEach(a: SubscribeSpec, wa: string, b: SubscribeSpec, wb: string)
    requires forall tag | tag in {"type", "symbol", "depth", "tf", "freq", "fmt"} ::
               Field(a, wa, tag) == Field(b, wb, tag)
    ensures SameFields(a, wa, b, wb)
  {
    assert Field(a, wa, "type") == Field(b, wb, "type") && Field(a, wa, "symbol") == Field(b, wb, "symbol");
    assert Field(a, wa, "tf") == Field(b, wb, "tf") && Field(a, wa, "fmt") == Field(b, wb, "fmt");
    assert Field(a, wa, "depth") == Field(b, wb, "depth") && Field(a, wa, "freq") == Field(b, wb, "freq");
    DecimalParses(Positive(a.depth));
    DecimalParses(Positive(b.depth));
    DecimalParses(Positive(a.updateFrequencyMs));
    DecimalParses(Positive(b.updateFrequencyMs));
  }

  // ---------------------------------------------------------------------
  // Taking a key apart: a '|' separates two parts when a tag follows it

  predicate IsTag(t: string) {
    t in {"type", "symbol", "depth", "tf", "freq", "fmt"}
  }

  ghost predicate StartsPart(s: string) {
    exists t :: IsTag(t) && t + "=" <= s
  }

  // Where the first separator of s is, or |s|.
  ghost function CutParts(s: string): (i: nat)
    ensures i <= |s|
  {
    if s == "" || (s[0] == '|' && StartsPart(s[1..])) then 0 else 1 + CutParts(s[1..])
  }

  ghost function SplitParts(s: string): seq<string> {
    var i := CutParts(s);
    if i == |s| then [s] else [s[..i]] + SplitParts(s[i + 1..])
  }

  // No '|' of v is followed by one of the tags.
  ghost predicate NoTag(v: string) {
    forall i | 0 <= i < |v| && v[i] == '|' :: !StartsPart(v[i + 1..])
  }

  lemma TagChars(t: string)
    requires IsTag(t)
    ensures '|' !in t + "=" && 'a' <= (t + "=")[0] <= 'z'
  {}

  // What follows a value in the key does not complete a tag that begins inside it.
  lemma PrefixInside(t: string, x: string, rest: string)
    requires '|' !in t && t <= x + "|" + rest
    ensures t <= x
  {
    var s := x + "|" + rest;
    assert s[|x|] == '|' && forall i | 0 <= i < |t| :: t[i] in t && t[i] == s[i];
    assert |t| <= |x|;
    assert s[..|t|] == x[..|t|];
  }

  lemma TagEndsInside(x: string, rest: string)
    requires StartsPart(x + "|" + rest)
    ensures StartsPart(x)
  {
    var t :| IsTag(t) && t + "=" <= x + "|" + rest;
    TagChars(t);
    PrefixInside(t + "=", x, rest);
  }

  // The value v, at the end of the key or before a separator.
  lemma {:induction false} CutAfter(v: string, tail: string)
    requires NoTag(v)
    requires tail == "" || (tail[0] == '|' && StartsPart(tail[1..]))
    ensures CutParts(v + tail) == |v|
  {
    var s := v + tail;
    if v == "" {
      assert s == tail;
    } else {
      assert s[1..] == v[1..] + tail;
      assert NoTag(v[1..]) by {
        forall i | 0 <= i < |v[1..]| && v[1..][i] == '|' ensures !StartsPart(v[1..][i + 1..]) {
          assert v[1..][i + 1..] == v[i + 2..] && v[i + 1] == '|';
        }
      }
      CutAfter(v[1..], tail);
      if v[0] == '|' {
        assert !StartsPart(v[1..]);
        if tail != "" {
          assert tail == "|" + tail[1..];
          assert s[1..] == v[1..] + "|" + tail[1..];
          assert !StartsPart(s[1..]) by {
            if StartsPart(s[1..]) {
              TagEndsInside(v[1..], tail[1..]);
            }
          }
        } else {
          assert s[1..] == v[1..];
        }
      }
    }
  }

  ghost predicate Sealed(parts: seq<string>) {
    forall p <- parts :: StartsPart(p) && NoTag(p)
  }

  lemma StartExtends(p: string, rest: string)
    requires StartsPart(p)
    ensures StartsPart(p + rest)
  {
    var t :| IsTag(t) && t + "=" <= p;
    assert t + "=" <= p + rest;
  }

  lemma SplitFirst(p: string, rest: string)
    requires NoTag(p) && StartsPart(rest)
    ensures SplitParts(p + ['|'] + rest) == [p] + SplitParts(rest)
  {
    var (s, tail) := (p + ['|'] + rest, "|" + rest);
    assert s == p + tail && tail[1..] == rest;
    CutAfter(p, tail);
    hide StartsPart, NoTag;
    assert s[..|p|] == p && s[|p| + 1..] == rest;
  }

  lemma SplitLast(p: string)
    requires NoTag(p)
    ensures SplitParts(p) == [p]
  {
    CutAfter(p, "");
    assert p + "" == p;
  }

  lemma {:induction false} SplitJoin(parts: seq<string>)
    requires parts != [] && Sealed(parts)
    ensures SplitParts(Join(parts, '|')) == parts
    ensures StartsPart(Join(parts, '|'))
  {
    hide StartsPart, NoTag, SplitParts;
    var p := parts[0];
    if |parts| == 1 {
      SplitLast(p);
    } else {
      var rest := Join(parts[1..], '|');
      SplitJoin(parts[1..]);
      SplitFirst(p, rest);
      StartExtends(p, ['|'] + rest);
      assert p + ['|'] + rest == p + (['|'] + rest);
    }
  }

  // A value under its tag is as free of tags as the value alone.
  lemma PartSealed(tag: string, v: string)
    requires IsTag(tag) && NoTag(v)
    ensures StartsPart(Part(tag, v)) && NoTag(Part(tag, v))
  {
    var (t, p) := (tag + "=", Part(tag, v));
    TagChars(tag);
    assert t <= p && p == t + v;
    assert StartsPart(p);
    hide StartsPart, IsTag;
    assert forall k | 0 <= k < |t| :: t[k] in t && p[k] == t[k];
    forall i | 0 <= i < |p| && p[i] == '|' ensures !StartsPart(p[i + 1..]) {
      assert p[i + 1..] == v[i - |t| + 1..];
    }
  }

  // The free strings hold no '|' that one of the key's tags follows.
  ghost predicate Unambiguous(s: SubscribeSpec) {
    NoTag(s.kind) && NoTag(s.timeframe) && NoTag(s.format)
  }

  lemma DecimalNoTag(n: nat)
    ensures NoTag(Decimal(n))
  {
    assert forall i | 0 <= i < |Decimal(n)| :: Decimal(n)[i] != '|';
  }

  lemma PartStartsLow(x: string)
    requires StartsPart(x)
    ensures x != "" && 'a' <= x[0] <= 'z'
  {
    var t :| IsTag(t) && t + "=" <= x;
    TagChars(t);
    assert (t + "=")[0] == x[0];
  }

  // A canonical symbol has no lower-case letter, and every tag begins with one.
  lemma WireSymbolNoTag(symbol: string)
    ensures NoTag(WireSymbol(symbol))
  {
    var w := WireSymbol(symbol);
    forall i | 0 <= i < |w| && w[i] == '|' ensures !StartsPart(w[i + 1..]) {
      assert i + 1 < |w| ==> w[i + 1..][0] == w[i + 1];
      if StartsPart(w[i + 1..]) {
        PartStartsLow(w[i + 1..]);
      }
    }
  }

  lemma PartIsSealed(s: SubscribeSpec, symbol: string, p: string)
    requires Unambiguous(s) && NoTag(symbol) && p in Parts(s, symbol)
    ensures StartsPart(p) && NoTag(p)
  {
    hide StartsPart, NoTag, Part;
    DecimalNoTag(Positive(s.depth));
    DecimalNoTag(Positive(s.updateFrequencyMs));
    PartSealed("type", s.kind);
    PartSealed("symbol", symbol);
    PartSealed("depth", Decimal(Positive(s.depth)));
    PartSealed("tf", s.timeframe);
    PartSealed("freq", Decimal(Positive(s.updateFrequencyMs)));
    PartSealed("fmt", s.format);
    hide Decimal;
  }

  lemma PartsSealed(s: SubscribeSpec, symbol: string)
    requires Unambiguous(s) && NoTag(symbol)
    ensures Sealed(Sort(Parts(s, symbol))) && Sort(Parts(s, symbol)) != []
  {
    var parts, sorted := Parts(s, symbol), Sort(Parts(s, symbol));
    assert parts[0] in multiset(sorted);
    hide StartsPart, NoTag, Parts, Sort, Unambiguous;
    forall p <- sorted ensures StartsPart(p) && NoTag(p) {
      assert p in multiset(parts);
      PartIsSealed(s, symbol, p);
    }
  }

  lemma SameKeySameFields(a: SubscribeSpec, wa: string, b: SubscribeSpec, wb: string)
    requires Unambiguous(a) && NoTag(wa) && Unambiguous(b) && NoTag(wb) && KeyWith(a, wa) == KeyWith(b, wb)
    ensures SameFields(a, wa, b, wb)
  {
    hide NoTag, StartsPart, Part;
    PartsSealed(a, wa);
    PartsSealed(b, wb);
    SplitJoin(Sort(Parts(a, wa)));
    SplitJoin(Sort(Parts(b, wb)));
    forall tag | tag in {"type", "symbol", "depth", "tf", "freq", "fmt"}
      ensures Field(a, wa, tag) == Field(b, wb, tag)
    {
      SamePartsSameField(a, wa, b, wb, tag);
    }
    SameFieldsEach(a, wa, b, wb);
  }

  // The deduplication key is faithful, whatever canonicalisation gives the symbols.
  lemma KeyFaithfulWith(a: SubscribeSpec, wa: string, b: SubscribeSpec, wb: string)
    requires Unambiguous(a) && NoTag(wa) && Unambiguous(b) && NoTag(wb)
    ensures KeyWith(a, wa) == KeyWith(b, wb) <==> ParamsWith(a, wa) == ParamsWith(b, wb)
  {
    SameParamsSameFields(a, wa, b, wb);
    if KeyWith(a, wa) == KeyWith(b, wb) {
      SameKeySameFields(a, wa, b, wb);
    }
    if SameFields(a, wa, b, wb) {
      SameFieldsSameKey(a, wa, b, wb);
    }
  }

  lemma SameFieldsSameKey(a: SubscribeSpec, wa: string, b: SubscribeSpec, wb: string)
    requires SameFields(a, wa, b, wb)
    ensures KeyWith(a, wa) == KeyWith(b, wb)
  {
    assert Parts(a, wa) == Parts(b, wb);
  }

  /** Two specs whose free strings hold no '|' followed by a tag share a subscription
      exactly when they ask the server for the same thing. The symbol may hold
      anything. */
  lemma KeyFaithful(a: SubscribeSpec, b: SubscribeSpec)
    requires Unambiguous(a) && Unambiguous(b)
    ensures Key(a) == Key(b) <==> ToWireParams(a) == ToWireParams(b)
  {
    hide Unambiguous, NoTag;
    WireSymbolNoTag(a.symbol);
    WireSymbolNoTag(b.symbol);
    KeyFaithfulWith(a, WireSymbol(a.symbol), b, WireSymbol(b.symbol));
  }

  // In particular when they hold no '|' at all.
  lemma NoBarIsUnambiguous(s: SubscribeSpec)
    requires '|' !in s.kind && '|' !in s.timeframe && '|' !in s.format
    ensures Unambiguous(s)
  {}

  /** One direction needs no such care: the same request always has the same key. */
  lemma SameParamsSameKey(a: SubscribeSpec, b: SubscribeSpec)
    requires ToWireParams(a) == ToWireParams(b)
    ensures Key(a) == Key(b)
  {
    SameParamsSameFields(a, WireSymbol(a.symbol), b, WireSymbol(b.symbol));
    SameFieldsSameKey(a, WireSymbol(a.symbol), b, WireSymbol(b.symbol));
  }

  lemma FirstDecides(a: string, b: string)
    requires a != "" && b != "" && a[0] < b[0]
    ensures LexLe(a, b) && !LexLe(b, a)
  {}

  lemma SecondDecides(a: string, b: string)
    requires |a| > 1 && |b| > 1 && a[0] == b[0] && a[1] < b[1]
    ensures LexLe(a, b) && !LexLe(b, a)
  {
    FirstDecides(a[1..], b[1..]);
  }

  lemma InsertLast(a: string, b: string, c: string)
    requires LexLe(b, c) && !LexLe(a, b) && !LexLe(a, c)
    ensures Insert(a, [b, c]) == [b, c, a]
  {
    hide LexLe;
    assert [b, c][1..] == [c];
    assert Insert(a, [c]) == [c, a];
  }

  lemma SortTwo(b: string, c: string)
    requires LexLe(b, c)
    ensures Sort([b, c]) == [b, c]
  {
    hide LexLe;
    assert [b, c][1..] == [c] && Sort([c]) == [c];
  }

  lemma SortThree(a: string, b: string, c: string)
    requires LexLe(b, c) && !LexLe(a, b) && !LexLe(a, c)
    ensures Sort([a, b, c]) == [b, c, a]
  {
    hide LexLe, Insert;
    SortTwo(b, c);
    InsertLast(a, b, c);
    assert [a, b, c][1..] == [b, c];
  }

  lemma PartHeads(kind: string, symbol: string, timeframe: string)
    ensures var (a, b, c) := (Part("type", kind), Part("symbol", symbol), Part("tf", timeframe));
            && |a| > 1 && |b| > 1 && |c| > 1
            && a[0] == 't' && a[1] == 'y' && b[0] == 's' && c[0] == 't' && c[1] == 'f'
  {}

  lemma ThreeSorted(kind: string, symbol: string, timeframe: string)
    ensures Sort([Part("type", kind), Part("symbol", symbol), Part("tf", timeframe)])
            == [Part("symbol", symbol), Part("tf", timeframe), Part("type", kind)]
  {
    var (a, b, c) := (Part("type", kind), Part("symbol", symbol), Part("tf", timeframe));
    PartHeads(kind, symbol, timeframe);
    hide Part, LexLe, Sort;
    FirstDecides(b, c);
    FirstDecides(b, a);
    SecondDecides(c, a);
    SortThree(a, b, c);
  }

  lemma JoinThree(a: string, b: string, c: string)
    ensures Join([a, b, c], '|') == a + "|" + (b + "|" + c)
  {
    assert [a, b, c][1..] == [b, c] && [b, c][1..] == [c];
    assert Join([c], '|') == c;
    assert Join([b, c], '|') == b + ['|'] + Join([c], '|');
    assert Join([a, b, c], '|') == a + ['|'] + Join([b, c], '|');
  }

  // The key of a spec with a time frame and nothing else optional.
  lemma ThreePartKey(s: SubscribeSpec, symbol: string)
    requires s.depth <= 0 && s.timeframe != "" && s.updateFrequencyMs <= 0 && s.format == ""
    ensures KeyWith(s, symbol) == Part("symbol", symbol) + "|" + (Part("tf", s.timeframe) + "|" + Part("type", s.kind))
  {
    hide Part, Sort, Join;
    assert Parts(s, symbol) == [Part("type", s.kind), Part("symbol", symbol), Part("tf", s.timeframe)];
    ThreeSorted(s.kind, symbol, s.timeframe);
    JoinThree(Part("symbol", symbol), Part("tf", s.timeframe), Part("type", s.kind));
  }

  /** The condition is needed: for any types t and z, symbol and time frame,
      two specs that differ only in where they put a '|' share a key although they
      ask the server for different things. */
  lemma BarBreaksKey(symbol: string, t: string, z: string, timeframe: string)
    requires timeframe != ""
    ensures
      var a := SubscribeSpec(t + "|type=" + z, symbol, 0, timeframe, 0, "");
      var b := SubscribeSpec(z, symbol, 0, timeframe + "|type=" + t, 0, "");
      Key(a) == Key(b) && ToWireParams(a) != ToWireParams(b)
  {
    var a := SubscribeSpec(t + "|type=" + z, symbol, 0, timeframe, 0, "");
    var b := SubscribeSpec(z, symbol, 0, timeframe + "|type=" + t, 0, "");
    ThreePartKey(a, WireSymbol(symbol));
    ThreePartKey(b, WireSymbol(symbol));
    BarMoves(timeframe, t, z);
    assert |a.kind| > |z|;
    hide KeyWith, WireSymbol, Part;
    assert ToWireParams(a)["type"] == Str(a.kind) && ToWireParams(b)["type"] == Str(z);
  }

  lemma BarMoves(timeframe: string, t: string, z: string)
    ensures Part("tf", timeframe) + "|" + Part("type", t + "|type=" + z)
            == Part("tf", timeframe + "|type=" + t) + "|" + Part("type", z)
  {
    assert "|type=" == "|" + "type=";
    assert Part("type", t + "|type=" + z) == "type=" + t + "|" + "type=" + z;
    assert Part("tf", timeframe + "|type=" + t) == "tf=" + timeframe + "|" + "type=" + t;
    assert Part("tf", timeframe) == "tf=" + timeframe && Part("type", z) == "type=" + z;
  }

  // ---------------------------------------------------------------------
  // Sharing one subscription between specs with the same key

  // Nothing but blanks pads the symbol: no newline, vertical tab, form feed or
  // carriage return is left at an end once blanks are gone.
  predicate PlainPadding(symbol: string) {
    var t := Trim(symbol, IsBlank);
    t == "" || (!IsSpace(t[0]) && !IsSpace(t[|t| - 1]))
  }

  lemma PlainPaddingMatch(symbol: string)
    ensures PlainPadding(symbol) <==> MatchSymbol(symbol) == WireSymbol(symbol)
  {
    var t := Trim(symbol, IsBlank);
    TrimTwice(symbol, IsBlank, IsSpace);
    TrimEnds(t, IsSpace);
    if MatchSymbol(symbol) == WireSymbol(symbol) {
      assert |Trim(t, IsSpace)| == |t|;
      TrimShorter(t, IsSpace);
    }
  }

  lemma {:induction false} TrimShorter(s: string, p: char -> bool)
    requires |Trim(s, p)| == |s|
    ensures Trim(s, p) == s
  {
    if s != "" {
      TrimEnds(s[1..], p);
      TrimEnds(s[..|s| - 1], p);
    }
  }

  lemma WireSymbolMatchesItself(symbol: string)
    ensures MatchSymbol(WireSymbol(symbol)) == WireSymbol(symbol)
    ensures WireSymbol(WireSymbol(symbol)) == WireSymbol(symbol)
  {
    var t := Trim(symbol, IsSpace);
    TrimEnds(symbol, IsSpace);
    TrimEnds(t, IsSpace);
    TrimEnds(t, IsBlank);
    UpperTrim(t, IsSpace);
    UpperTrim(t, IsBlank);
    UpperTwice(t);
  }

  // The spec as it appears on the wire.
  function Canonical(s: SubscribeSpec): SubscribeSpec {
    s.(symbol := WireSymbol(s.symbol))
  }

  /** Specs with one key receive exactly the same notifications, so handing the
      first caller's spec to all of them is sound, when blanks are the only padding. */
  lemma SharingIsSound(a: SubscribeSpec, b: SubscribeSpec, channel: string, symbol: string)
    requires Unambiguous(a) && Unambiguous(b) && Key(a) == Key(b)
    requires PlainPadding(a.symbol) && PlainPadding(b.symbol)
    ensures Matches(a, channel, symbol) == Matches(b, channel, symbol)
  {
    WireSymbolNoTag(a.symbol);
    WireSymbolNoTag(b.symbol);
    SameKeySameFields(a, WireSymbol(a.symbol), b, WireSymbol(b.symbol));
    SameFieldsMatch(a, b, channel, symbol);
  }

  lemma SameFieldsMatch(a: SubscribeSpec, b: SubscribeSpec, channel: string, symbol: string)
    requires a.kind == b.kind && WireSymbol(a.symbol) == WireSymbol(b.symbol)
    requires PlainPadding(a.symbol) && PlainPadding(b.symbol)
    ensures Matches(a, channel, symbol) == Matches(b, channel, symbol)
  {
    PlainPaddingMatch(a.symbol);
    PlainPaddingMatch(b.symbol);
    assert NotificationChannel(a) == NotificationChannel(b);
  }

  function Channel(s: SubscribeSpec): string {
    var mapped := NotificationChannel(s);
    if mapped == "" then s.kind else mapped
  }

  lemma PlainPaddingSound(s: SubscribeSpec, channel: string, symbol: string)
    requires PlainPadding(s.symbol)
    ensures Matches(s, channel, symbol) == Matches(Canonical(s), channel, symbol)
  {
    WireSymbolMatchesItself(s.symbol);
    PlainPaddingMatch(s.symbol);
  }

  // Otherwise the canonical symbol itself is the notification that tells them apart.
  lemma OtherPaddingBreaks(s: SubscribeSpec)
    requires Valid(s) && !PlainPadding(s.symbol)
    ensures Matches(Canonical(s), Channel(s), WireSymbol(s.symbol))
    ensures !Matches(s, Channel(s), WireSymbol(s.symbol))
  {
    WireSymbolMatchesItself(s.symbol);
    PlainPaddingMatch(s.symbol);
    assert WireSymbol(s.symbol) != "";
  }

  /** The padding condition is exact: the key trims all white space and matching
      only blanks, so a spec and its canonical form always share a key, and agree
      on every notification if and only if the padding is plain. */
  lemma SharingNeedsPlainPadding(s: SubscribeSpec)
    requires Valid(s)
    ensures Key(Canonical(s)) == Key(s)
    ensures (forall channel, symbol :: Matches(s, channel, symbol) == Matches(Canonical(s), channel, symbol))
            <==> PlainPadding(s.symbol)
  {
    WireSymbolMatchesItself(s.symbol);
    hide Matches, WireSymbol, PlainPadding;
    if PlainPadding(s.symbol) {
      forall channel, symbol ensures Matches(s, channel, symbol) == Matches(Canonical(s), channel, symbol) {
        PlainPaddingSound(s, channel, symbol);
      }
    } else {
      OtherPaddingBreaks(s);
    }
  }

  lemma TrimmedAlready(s: string, p: char -> bool)
    requires s == "" || (!p(s[0]) && !p(s[|s| - 1]))
    ensures Trim(s, p) == s
  {}

  /** For instance a newline after the symbol: the spec shares the key of its canonical
      form, and misses the notification that names just the canonical symbol. */
  lemma NewlineBreaksMatching(s: SubscribeSpec, w: string)
    requires Valid(s) && s.symbol == w + "\n" && w != "" && !IsBlank(w[0])
    ensures Key(Canonical(s)) == Key(s)
    ensures Matches(Canonical(s), Channel(s), WireSymbol(s.symbol)) && !Matches(s, Channel(s), WireSymbol(s.symbol))
  {
    TrimmedAlready(s.symbol, IsBlank);
    SharingNeedsPlainPadding(s);
    OtherPaddingBreaks(s);
  }

  // The byte loops of trimSpaceAndUpper.
  method TrimSpaceAndUpper(s: string) returns (r: string)
    ensures r == MatchSymbol(s)
  {
    var start, end := 0, |s|;
    assert s[start..end] == s;
    while start < end && IsBlank(s[start])
      invariant 0 <= start <= end == |s|
      invariant Trim(s[start..end], IsBlank) == Trim(s, IsBlank)
    {
      assert s[start..end][1..] == s[start + 1..end];
      start := start + 1;
    }
    while end > start && IsBlank(s[end - 1])
      invariant 0 <= start <= end <= |s|
      invariant start < end ==> !IsBlank(s[start])
      invariant Trim(s[start..end], IsBlank) == Trim(s, IsBlank)
    {
      assert s[start..end][..end - start - 1] == s[start..end - 1];
      end := end - 1;
    }
    r := UpperAscii(s[start..end]);
  }

  // upperASCII: the input itself when it has no lower-case letter, else a copy.
  method UpperAscii(s: string) returns (r: string)
    ensures r == ToUpper(s)
  {
    var i := 0;
    while i < |s| && !('a' <= s[i] <= 'z')
      invariant 0 <= i <= |s|
      invariant forall j | 0 <= j < i :: Upper(s[j]) == s[j]
    {
      i := i + 1;
    }
    if i == |s| {
      return s;
    }
    r := "";
    i := 0;
    while i < |s|
      invariant 0 <= i <= |s| && |r| == i
      invariant forall j | 0 <= j < i :: r[j] == Upper(s[j])
    {
      r := r + [Upper(s[i])];
      i := i + 1;
    }
  }
}
