/** A 65-byte secp256k1 signature (r, s, v) as hex: split for the REST envelope,
    printed for the websocket handshake, and parsed back to recover the signer. */
module SignatureCodec {
  import opened Wrappers
  import opened Text

  type Byte = b: int | 0 <= b < 256

  datatype Signature = Signature(r: string, s: string, v: Byte)

  // ---------------------------------------------------------------------
  // Hex

  type Nibble = d: int | 0 <= d < 16

  function DigitValue(c: char): Option<Nibble> {
    if '0' <= c <= '9' then Some(c as int - '0' as int)
    else if 'a' <= c <= 'f' then Some(c as int - 'a' as int + 10)
    else if 'A' <= c <= 'F' then Some(c as int - 'A' as int + 10)
    else None
  }

  function HexDigit(d: nat): (c: char)
    requires d < 16
    ensures DigitValue(c) == Some(d)
  {
    if d < 10 then ('0' as int + d) as char else ('a' as int + d - 10) as char
  }

  function ByteHex(b: Byte): (h: string)
    ensures |h| == 2
  {
    [HexDigit(b / 16), HexDigit(b % 16)]
  }

  function PairValue(s: string): Option<Byte>
    requires |s| >= 2
  {
    var (hi, lo) := (DigitValue(s[0]), DigitValue(s[1]));
    if hi.None? || lo.None? then None
    else
      var (h: Nibble, l: Nibble) := (hi.value, lo.value);
      Some(h * 16 + l)
  }

  // common.Bytes2Hex
  function Hex(bytes: seq<Byte>): (h: string)
    ensures |h| == 2 * |bytes|
  {
    if bytes == [] then "" else ByteHex(bytes[0]) + Hex(bytes[1..])
  }

  // hex.DecodeString with its error dropped: the bytes before the first bad pair.
  function DecodePairs(s: string): (bytes: seq<Byte>)
    ensures 2 * |bytes| <= |s|
  {
    if |s| < 2 || PairValue(s).None? then [] else [PairValue(s).value] + DecodePairs(s[2..])
  }

  // common.FromHex of a string without its prefix.
  function FromHex(s: string): seq<Byte> {
    DecodePairs(if |s| % 2 == 1 then "0" + s else s)
  }

  function TrimPrefix(s: string, prefix: string): string {
    if prefix <= s then s[|prefix|..] else s
  }

  // ---------------------------------------------------------------------
  // The operations

  function Split(signature: seq<Byte>): Result<Signature, string> {
    if |signature| != 65 then Failure("signature must be 65 bytes")
    else
      var v := signature[64];
      Success(Signature("0x" + Hex(signature[..32]), "0x" + Hex(signature[32..64]), if v < 27 then v + 27 else v))
  }

  function SignatureHex(sig: Signature): string {
    "0x" + TrimPrefix(sig.r, "0x") + TrimPrefix(sig.s, "0x") + ByteHex(sig.v)
  }

  function StripPrefix(s: string): string {
    if |s| >= 2 && (s[..2] == "0x" || s[..2] == "0X") then s[2..] else s
  }

  // What RecoverSigner hands to the curve library.
  function Parse(text: string): Result<seq<Byte>, string> {
    var signature := FromHex(StripPrefix(text));
    if |signature| != 65 then Failure("signature must be 65 bytes")
    else Success(signature[64 := Normalized(signature[64])])
  }

  function Normalized(v: Byte): Byte {
    if v >= 27 then v - 27 else v
  }

  // The parsing part of RecoverSigner, with its edit of signature[64] in place.
  method ParseSignature(text: string) returns (r: Result<array<Byte>, string>)
    ensures r.Success? <==> Parse(text).Success?
    ensures r.Success? ==> fresh(r.value) && r.value[..] == Parse(text).value
  {
    var body := text;
    if |body| >= 2 && (body[..2] == "0x" || body[..2] == "0X") {
      body := body[2..];
    }
    var bytes := FromHex(body);
    if |bytes| != 65 {
      return Failure("signature must be 65 bytes");
    }
    var signature := new Byte[65](i requires 0 <= i < 65 => bytes[i]);
    assert signature[..] == bytes;
    if signature[64] >= 27 {
      signature[64] := signature[64] - 27;
    }
    r := Success(signature);
  }

  // ---------------------------------------------------------------------
  // Round trip

  lemma {:induction false} DecodeHex(bytes: seq<Byte>)
    ensures DecodePairs(Hex(bytes)) == bytes
  {
    if bytes != [] {
      var h := Hex(bytes);
      assert h[2..] == Hex(bytes[1..]);
      assert h[..2] == ByteHex(bytes[0]);
      DecodeHex(bytes[1..]);
    }
  }

  lemma {:induction false} HexAppend(a: seq<Byte>, b: seq<Byte>)
    ensures Hex(a + b) == Hex(a) + Hex(b)
  {
    if a == [] {
      assert a + b == b;
    } else {
      assert (a + b)[1..] == a[1..] + b;
      HexAppend(a[1..], b);
    }
  }

  lemma TrimPrefixed(h: string)
    ensures TrimPrefix("0x" + h, "0x") == h
  {}

  lemma HexParts(r: seq<Byte>, t: seq<Byte>, v: Byte)
    ensures Hex(r) + Hex(t) + ByteHex(v) == Hex(r + t + [v])
  {
    HexAppend(r, t);
    HexAppend(r + t, [v]);
    assert Hex([v]) == ByteHex(v) by {
      assert [v][1..] == [];
      assert ByteHex(v) + "" == ByteHex(v);
    }
    hide Hex, ByteHex;
  }

  // What the printer writes is the plain hex of r, s and the wire v.
  lemma SignatureHexIsHex(signature: seq<Byte>)
    requires |signature| == 65
    ensures SignatureHex(Split(signature).value) ==
            "0x" + Hex(signature[..64] + [Split(signature).value.v])
  {
    hide Hex, ByteHex, TrimPrefix;
    var sig := Split(signature).value;
    var (r, t) := (signature[..32], signature[32..64]);
    TrimPrefixed(Hex(r));
    TrimPrefixed(Hex(t));
    HexParts(r, t, sig.v);
    assert r + t == signature[..64];
    assert "0x" + Hex(r) + Hex(t) + ByteHex(sig.v) == "0x" + (Hex(r) + Hex(t) + ByteHex(sig.v));
  }

  lemma StripPrefixed(h: string)
    ensures StripPrefix("0x" + h) == h
  {
    assert ("0x" + h)[..2] == "0x";
  }

  /** Split cuts a signature, and only one of 65 bytes, into r and s of 32 bytes each,
      in hex under a prefix, and v in the 27/28 convention. */
  lemma SplitCuts(signature: seq<Byte>)
    ensures Split(signature).Success? <==> |signature| == 65
    ensures |signature| == 65 ==>
              var sig := Split(signature).value;
              && sig.r[..2] == "0x" == sig.s[..2]
              && DecodePairs(sig.r[2..]) == signature[..32] && DecodePairs(sig.s[2..]) == signature[32..64]
              && sig.v >= 27 && (sig.v == signature[64] || sig.v - 27 == signature[64] < 27)
  {
    if |signature| == 65 {
      var (r, s) := (Hex(signature[..32]), Hex(signature[32..64]));
      DecodeHex(signature[..32]);
      DecodeHex(signature[32..64]);
      hide Hex, DecodePairs;
      assert ("0x" + r)[..2] == "0x" && ("0x" + r)[2..] == r;
      assert ("0x" + s)[..2] == "0x" && ("0x" + s)[2..] == s;
    }
  }

  /** Split, print, parse: r and s come back as they were, and v in the 0/1
      convention, shifted down by 27 exactly when it was in the 27/28 one. */
  lemma RoundTrip(signature: seq<Byte>)
    requires |signature| == 65
    ensures Parse(SignatureHex(Split(signature).value))
            == Success(signature[..64] + [if signature[64] < 27 then signature[64] else signature[64] - 27])
  {
    var sig := Split(signature).value;
    var bytes := signature[..64] + [sig.v];
    SignatureHexIsHex(signature);
    DecodeHex(bytes);
    StripPrefixed(Hex(bytes));
    hide Hex, DecodePairs, SignatureHex, StripPrefix, Split;
    assert FromHex(Hex(bytes)) == bytes;
    assert bytes[64 := Normalized(sig.v)] == signature[..64] + [Normalized(sig.v)];
  }

  /** Printing is in lower case ... */
  lemma {:induction false} HexIsLowerCase(bytes: seq<Byte>)
    ensures forall c <- Hex(bytes) :: '0' <= c <= '9' || 'a' <= c <= 'f'
  {
    if bytes != [] {
      HexIsLowerCase(bytes[1..]);
      var h := ByteHex(bytes[0]);
      assert forall c <- h + Hex(bytes[1..]) :: c in h || c in Hex(bytes[1..]);
    }
  }

  lemma DigitCase(c: char)
    ensures DigitValue(Upper(c)) == DigitValue(c)
  {}

  lemma {:induction false} PairsCase(s: string)
    ensures DecodePairs(ToUpper(s)) == DecodePairs(s)
  {
    if |s| >= 2 {
      DigitCase(s[0]);
      DigitCase(s[1]);
      assert ToUpper(s)[2..] == ToUpper(s[2..]);
      PairsCase(s[2..]);
    }
  }

  lemma StripCase(text: string)
    ensures StripPrefix(ToUpper(text)) == ToUpper(StripPrefix(text))
  {
    var t := ToUpper(text);
    if |text| >= 2 {
      assert t[0] == Upper(text[0]) && t[1] == Upper(text[1]);
      assert t[2..] == ToUpper(text[2..]);
    }
  }

  /** ... and parsing does not mind the case, of the prefix or of the digits. */
  lemma CaseDoesNotMatter(text: string)
    ensures Parse(ToUpper(text)) == Parse(text)
  {
    StripCase(text);
    var s := StripPrefix(text);
    hide StripPrefix, DecodePairs;
    PairsCase(s);
    PairsCase("0" + s);
    assert "0" + ToUpper(s) == ToUpper("0" + s);
  }

  lemma Unprefixed(bytes: seq<Byte>)
    ensures StripPrefix(Hex(bytes)) == Hex(bytes)
  {
    HexIsLowerCase(bytes);
    var h := Hex(bytes);
    hide Hex;
    assert |h| >= 2 ==> h[1] in h && h[..2][1] == h[1];
  }

  lemma PrefixesStripped(h: string)
    ensures StripPrefix("0x" + h) == h && StripPrefix("0X" + h) == h
  {
    assert ("0x" + h)[..2] == "0x" && ("0X" + h)[..2] == "0X";
  }

  lemma StripAny(bytes: seq<Byte>, prefix: string)
    requires prefix in {"", "0x", "0X"}
    ensures StripPrefix(prefix + Hex(bytes)) == Hex(bytes)
  {
    Unprefixed(bytes);
    PrefixesStripped(Hex(bytes));
    hide Hex, StripPrefix;
    assert "" + Hex(bytes) == Hex(bytes);
  }

  /** Any 65 bytes can be parsed from their hex, under either prefix or none: all but v
      come back as they were, and v in the 0/1 convention whichever it was in. */
  lemma ParsesAnyHex(signature: seq<Byte>, prefix: string)
    requires |signature| == 65 && prefix in {"", "0x", "0X"}
    ensures
      var v := signature[64];
      Parse(prefix + Hex(signature)) == Success(signature[..64] + [if v < 27 then v else v - 27])
  {
    hide Hex, DecodePairs, StripPrefix;
    var h := Hex(signature);
    DecodeHex(signature);
    StripAny(signature, prefix);
    assert FromHex(h) == signature;
    assert signature[64 := Normalized(signature[64])] == signature[..64] + [Normalized(signature[64])];
  }

  // ---------------------------------------------------------------------
  // What the parser accepts

  predicate GoodPair(s: string, k: nat)
    requires 2 * k + 2 <= |s|
  {
    PairValue(s[2 * k..]).Some?
  }

  // Decoding stops at the first bad pair, or at the end.
  lemma {:induction false} DecodingStops(s: string)
    ensures var n := |DecodePairs(s)|;
            && (forall k: nat | k < n :: GoodPair(s, k))
            && (2 * n + 2 <= |s| ==> !GoodPair(s, n))
  {
    if |s| >= 2 {
      assert s[2 * 0..] == s;
      if PairValue(s).Some? {
        DecodingStops(s[2..]);
        var n := |DecodePairs(s[2..])|;
        forall k: nat | k < n + 1 ensures GoodPair(s, k) {
          if k > 0 {
            assert s[2..][2 * (k - 1)..] == s[2 * k..] && GoodPair(s[2..], k - 1);
          }
        }
        assert 2 * n + 4 <= |s| ==> s[2..][2 * n..] == s[2 * (n + 1)..];
      }
    }
  }

  // A text with its prefix stripped, padded to an even number of digits.
  function Body(text: string): string {
    var s := StripPrefix(text);
    if |s| % 2 == 1 then "0" + s else s
  }

  /** The parser takes a text exactly when 65 pairs of hex digits lead it and no
      66th follows: a text cut short is refused, one with other characters
      after the signature is not. */
  lemma AcceptedTexts(text: string)
    ensures Parse(text).Success? <==>
            var s := Body(text);
            && |s| >= 130
            && (forall k: nat | k < 65 :: GoodPair(s, k))
            && (|s| == 130 || !GoodPair(s, 65))
  {
    DecodingStops(Body(text));
    var (s, n) := (Body(text), |DecodePairs(Body(text))|);
    assert n > 65 ==> GoodPair(s, 65);
    assert n < 65 && |s| >= 130 ==> !GoodPair(s, n);
  }
}
