/** Percent-encoding of object keys (objectstore/s3.go:353-373): slashes stay, every other byte that is not
    unreserved (section 2.3 of RFC 3986) is written as '%' and two hexadecimal digits (section 2.1). */
module ObjectPath {
  import opened Results
  import opened Utf8

  type Bytes = seq<byte>

  const SLASH: byte := 0x2F
  const PERCENT: byte := 0x25
  const UPPER := "ABCDEFGHIJKLMNOPQRSTUVWXYZ"
  const LOWER := "abcdefghijklmnopqrstuvwxyz"
  const OTHERS := "0123456789-_.~"
  const UNRESERVED := UPPER + LOWER + OTHERS

  predicate Unreserved(b: byte) {
    (b as int as char) in UNRESERVED
  }

  predicate Between(b: byte, first: char, last: char) {
    first as int <= b as int <= last as int
  }

  /** The listed characters are the unreserved ones: letters, digits, hyphen, period, underscore and tilde. */
  lemma UnreservedExactly(b: byte)
    ensures Unreserved(b) <==>
            || Between(b, 'A', 'Z') || Between(b, 'a', 'z') || Between(b, '0', '9')
            || b == 0x2D || b == 0x2E || b == 0x5F || b == 0x7E
  {
    var c := b as int as char;
    UpperListed(c);
    LowerListed(c);
    OthersListed(c);
    hide UPPER, LOWER, OTHERS;
  }

  lemma UpperListed(c: char)
    ensures c in UPPER <==> 'A' <= c <= 'Z'
  {
    assert forall i :: 0 <= i < 26 ==> UPPER[i] as int == 65 + i;
    if 'A' <= c <= 'Z' {
      assert UPPER[c as int - 65] == c;
    }
  }

  lemma LowerListed(c: char)
    ensures c in LOWER <==> 'a' <= c <= 'z'
  {
    assert forall i :: 0 <= i < 26 ==> LOWER[i] as int == 97 + i;
    if 'a' <= c <= 'z' {
      assert LOWER[c as int - 97] == c;
    }
  }

  lemma OthersListed(c: char)
    ensures c in OTHERS <==> '0' <= c <= '9' || c == '-' || c == '_' || c == '.' || c == '~'
  {
    assert forall i :: 0 <= i < 10 ==> OTHERS[i] as int == 48 + i;
    if '0' <= c <= '9' {
      assert OTHERS[c as int - 48] == c;
    }
    assert OTHERS[10] == '-' && OTHERS[11] == '_' && OTHERS[12] == '.' && OTHERS[13] == '~';
  }

  /** An upper-case hexadecimal digit. */
  function HexDigit(n: byte): byte
    requires n < 16
  {
    if n < 10 then 0x30 + n else 0x37 + n
  }

  function EscapedByte(b: byte): Bytes {
    if Unreserved(b) then [b] else [PERCENT, HexDigit(b / 16), HexDigit(b % 16)]
  }

  /** awsEscape */
  function Escaped(s: Bytes): Bytes {
    if s == [] then [] else EscapedByte(s[0]) + Escaped(s[1..])
  }

  /** What one byte is written as in a path: a slash stands for itself. */
  function Unit(b: byte): Bytes {
    if b == SLASH then [SLASH] else EscapedByte(b)
  }

  /** The whole key, byte by byte. */
  function EscapedPath(s: Bytes): Bytes {
    if s == [] then [] else Unit(s[0]) + EscapedPath(s[1..])
  }

  // ---- decoding ----

  function HexValue(d: byte): (n: Option<byte>)
    ensures n.Some? ==> n.value < 16
  {
    if 0x30 <= d <= 0x39 then Some(d - 0x30)
    else if 0x41 <= d <= 0x46 then Some(d - 0x37)
    else if 0x61 <= d <= 0x66 then Some(d - 0x57)
    else None
  }

  /** Percent-decoding; None when a percent sign is not followed by two digits. */
  function Decoded(t: Bytes): Option<Bytes> {
    if t == [] then Some([])
    else if t[0] != PERCENT then
      match Decoded(t[1..])
      case None => None
      case Some(rest) => Some([t[0]] + rest)
    else if |t| < 3 then None
    else
      match (HexValue(t[1]), HexValue(t[2]), Decoded(t[3..]))
      case (Some(high), Some(low), Some(rest)) => Some([high * 16 + low] + rest)
      case _ => None
  }

  lemma HexRoundTrip(n: byte)
    requires n < 16
    ensures HexValue(HexDigit(n)) == Some(n)
  {
  }

  lemma PercentReserved()
    ensures !Unreserved(PERCENT) && !Unreserved(SLASH)
  {
    UnreservedExactly(PERCENT);
    UnreservedExactly(SLASH);
  }

  lemma DecodeUnit(b: byte, rest: Bytes)
    requires Decoded(rest).Some?
    ensures Decoded(Unit(b) + rest) == Some([b] + Decoded(rest).value)
  {
    PercentReserved();
    var t := Unit(b) + rest;
    if |Unit(b)| == 1 {
      assert t[1..] == rest;
    } else {
      assert t[3..] == rest;
      HexRoundTrip(b / 16);
      HexRoundTrip(b % 16);
    }
  }

  /** Decoding an escaped key gives the key back, for every byte string. */
  lemma {:induction false} DecodeUndoesEscape(s: Bytes)
    ensures Decoded(EscapedPath(s)) == Some(s)
  {
    if s != [] {
      DecodeUndoesEscape(s[1..]);
      DecodeUnit(s[0], EscapedPath(s[1..]));
      assert [s[0]] + s[1..] == s;
    }
  }

  /** So different keys are signed differently. */
  lemma EscapeIsInjective(a: Bytes, b: Bytes)
    ensures EscapedPath(a) == EscapedPath(b) <==> a == b
  {
    DecodeUndoesEscape(a);
    DecodeUndoesEscape(b);
  }

  lemma {:induction false} EscapeDistributes(a: Bytes, b: Bytes)
    ensures EscapedPath(a + b) == EscapedPath(a) + EscapedPath(b)
  {
    hide EscapedByte;
    if a == [] {
      assert a + b == b;
    } else {
      assert (a + b)[1..] == a[1..] + b;
      EscapeDistributes(a[1..], b);
      PrependUnit(a[0], a[1..] + b);
      PrependUnit(a[0], a[1..]);
      assert [a[0]] + (a[1..] + b) == a + b && [a[0]] + a[1..] == a;
      assert Unit(a[0]) + (EscapedPath(a[1..]) + EscapedPath(b)) == Unit(a[0]) + EscapedPath(a[1..]) + EscapedPath(b);
    }
  }

  // ---- the outputs are exactly the normal forms ----

  predicate UpperHex(d: byte) {
    0x30 <= d <= 0x39 || 0x41 <= d <= 0x46
  }

  /** Unreserved bytes and slashes stand for themselves and every other byte is a percent sign with two
      upper-case digits (the normal form of sections 6.2.2.1 and 6.2.2.2 of RFC 3986). */
  predicate Normal(t: Bytes) {
    if t == [] then true
    else if t[0] == SLASH || Unreserved(t[0]) then Normal(t[1..])
    else
      && t[0] == PERCENT
      && |t| >= 3 && UpperHex(t[1]) && UpperHex(t[2])
      && (var b := HexValue(t[1]).value * 16 + HexValue(t[2]).value; b != SLASH && !Unreserved(b))
      && Normal(t[3..])
  }

  lemma NormalUnit(b: byte, rest: Bytes)
    ensures Normal(Unit(b) + rest) <==> Normal(rest)
  {
    hide Unreserved;
    PercentReserved();
    var t := Unit(b) + rest;
    if |Unit(b)| == 1 {
      assert t[1..] == rest;
    } else {
      assert t[3..] == rest;
      HexRoundTrip(b / 16);
      HexRoundTrip(b % 16);
    }
  }

  lemma {:induction false} EscapedIsNormal(s: Bytes)
    ensures Normal(EscapedPath(s))
  {
    if s != [] {
      EscapedIsNormal(s[1..]);
      NormalUnit(s[0], EscapedPath(s[1..]));
    }
  }

  /** A text is the escape of some key exactly when it is in normal form, and then of the key it decodes to. */
  lemma {:induction false} NormalIsEscaped(t: Bytes)
    requires Normal(t)
    ensures Decoded(t).Some? && EscapedPath(Decoded(t).value) == t
  {
    hide Unreserved, EscapedByte;
    if t != [] {
      PercentReserved();
      if t[0] == SLASH || Unreserved(t[0]) {
        NormalIsEscaped(t[1..]);
        var s := Decoded(t[1..]).value;
        PrependUnit(t[0], s);
        UnitIs(t[0]);
        assert [t[0]] + t[1..] == t;
      } else {
        NormalIsEscaped(t[3..]);
        var b := HexValue(t[1]).value * 16 + HexValue(t[2]).value;
        var s := Decoded(t[3..]).value;
        PrependUnit(b, s);
        UnitIs(b);
        HexOf(t[1], t[2]);
        assert [t[0], t[1], t[2]] + t[3..] == t;
      }
    }
  }

  lemma PrependUnit(b: byte, s: Bytes)
    ensures EscapedPath([b] + s) == Unit(b) + EscapedPath(s)
  {
    assert ([b] + s)[1..] == s;
  }

  lemma UnitIs(b: byte)
    ensures Unit(b) == if b == SLASH || Unreserved(b) then [b] else [PERCENT, HexDigit(b / 16), HexDigit(b % 16)]
  {
    PercentReserved();
  }

  lemma HexOf(high: byte, low: byte)
    requires UpperHex(high) && UpperHex(low)
    ensures var b := HexValue(high).value * 16 + HexValue(low).value;
            HexDigit(b / 16) == high && HexDigit(b % 16) == low
  {
    var h, l := HexValue(high).value, HexValue(low).value;
    assert (h * 16 + l) / 16 == h && (h * 16 + l) % 16 == l;
  }

  /** Only unreserved bytes, percent signs and slashes come out. */
  lemma {:induction false} EscapedAlphabet(s: Bytes, i: nat)
    requires i < |EscapedPath(s)|
    ensures var b := EscapedPath(s)[i]; Unreserved(b) || b == PERCENT || b == SLASH
  {
    UnitAlphabet(s[0]);
    if i >= |Unit(s[0])| {
      EscapedAlphabet(s[1..], i - |Unit(s[0])|);
    }
  }

  lemma HexDigitsUnreserved(n: byte)
    requires n < 16
    ensures Unreserved(HexDigit(n)) && HexDigit(n) != SLASH && HexDigit(n) != PERCENT
  {
    hide Unreserved;
    UnreservedExactly(HexDigit(n));
  }

  lemma UnitAlphabet(b: byte)
    ensures forall i :: 0 <= i < |Unit(b)| ==> Unreserved(Unit(b)[i]) || Unit(b)[i] == PERCENT || Unit(b)[i] == SLASH
    ensures SLASH in Unit(b) <==> b == SLASH
  {
    hide Unreserved, HexDigit;
    PercentReserved();
    HexDigitsUnreserved(b / 16);
    HexDigitsUnreserved(b % 16);
  }

  // ---- segments ----

  /** strings.Split at the slashes. */
  function Split(s: Bytes): (parts: seq<Bytes>)
    ensures parts != []
  {
    if s == [] then [[]]
    else
      var rest := Split(s[1..]);
      if s[0] == SLASH then [[]] + rest else [[s[0]] + rest[0]] + rest[1..]
  }

  /** strings.JoinSegments with a slash. */
  function JoinSegments(parts: seq<Bytes>): Bytes {
    if parts == [] then [] else if |parts| == 1 then parts[0] else parts[0] + [SLASH] + JoinSegments(parts[1..])
  }

  function EscapedParts(parts: seq<Bytes>): seq<Bytes> {
    seq(|parts|, i requires 0 <= i < |parts| => Escaped(parts[i]))
  }

  lemma EscapedPartsSplit(parts: seq<Bytes>)
    requires parts != []
    ensures |EscapedParts(parts)| == |parts|
    ensures EscapedParts(parts)[0] == Escaped(parts[0])
    ensures EscapedParts(parts)[1..] == EscapedParts(parts[1..])
  {
  }

  lemma JoinFirst(first: Bytes, more: Bytes, rest: seq<Bytes>)
    ensures JoinSegments([first + more] + rest) == first + JoinSegments([more] + rest)
  {
    assert ([first + more] + rest)[1..] == rest == ([more] + rest)[1..];
    if rest != [] {
      assert first + more + [SLASH] + JoinSegments(rest) == first + (more + [SLASH] + JoinSegments(rest));
    }
  }

  /** Escaping the segments one by one is escaping the key byte by byte. */
  lemma {:induction false} EscapingPartsEscapesPath(s: Bytes)
    ensures JoinSegments(EscapedParts(Split(s))) == EscapedPath(s)
  {
    hide EscapedParts, EscapedByte, JoinSegments, Unreserved;
    EscapedPartsSplit(Split(s));
    var out := EscapedParts(Split(s));
    if s == [] {
      SingleJoin(out);
    } else {
      var rest := Split(s[1..]);
      EscapingPartsEscapesPath(s[1..]);
      EscapedPartsSplit(rest);
      var tail := EscapedParts(rest);
      assert tail == [tail[0]] + tail[1..];
      if s[0] == SLASH {
        assert Split(s)[1..] == rest && Split(s)[0] == [];
        assert out == [[]] + tail;
        JoinSlash(tail);
      } else {
        assert Split(s)[1..] == rest[1..] && Split(s)[0] == [s[0]] + rest[0];
        assert ([s[0]] + rest[0])[1..] == rest[0];
        assert Escaped([s[0]] + rest[0]) == EscapedByte(s[0]) + Escaped(rest[0]);
        assert out == [EscapedByte(s[0]) + tail[0]] + tail[1..];
        JoinFirst(EscapedByte(s[0]), tail[0], tail[1..]);
      }
    }
  }

  lemma SingleJoin(parts: seq<Bytes>)
    requires |parts| == 1 && parts[0] == []
    ensures JoinSegments(parts) == []
  {
  }

  lemma JoinSlash(parts: seq<Bytes>)
    requires parts != []
    ensures JoinSegments([[]] + parts) == [SLASH] + JoinSegments(parts)
  {
    assert ([[]] + parts)[1..] == parts;
    assert [] + [SLASH] == [SLASH];
  }

  /** Slashes keep their places: splitting the output gives the escaped segments of the input. */
  lemma {:induction false} SegmentsKept(s: Bytes)
    ensures Split(EscapedPath(s)) == EscapedParts(Split(s))
  {
    hide Unreserved, HexDigit;
    if s == [] {
      assert EscapedParts(Split(s)) == [[]];
    } else {
      var rest := EscapedPath(s[1..]);
      SegmentsKept(s[1..]);
      UnitAlphabet(s[0]);
      var parts := Split(s[1..]);
      assert EscapedPath(s) == Unit(s[0]) + rest;
      EscapedPartsSplit(parts);
      EscapedPartsSplit(Split(s));
      if s[0] == SLASH {
        assert ([SLASH] + rest)[1..] == rest;
        assert Split(s) == [[]] + parts;
        assert EscapedParts(Split(s)) == [[]] + EscapedParts(parts);
      } else {
        SplitAfter(Unit(s[0]), rest);
        assert ([s[0]] + parts[0])[1..] == parts[0];
        assert Split(s) == [[s[0]] + parts[0]] + parts[1..];
        assert EscapedParts(Split(s)) == [Unit(s[0]) + Escaped(parts[0])] + EscapedParts(parts)[1..];
      }
    }
  }

  lemma {:induction false} SplitAfter(u: Bytes, rest: Bytes)
    requires SLASH !in u
    ensures Split(u + rest) == [u + Split(rest)[0]] + Split(rest)[1..]
  {
    if u == [] {
      assert u + rest == rest && u + Split(rest)[0] == Split(rest)[0];
    } else {
      assert (u + rest)[1..] == u[1..] + rest;
      SplitAfter(u[1..], rest);
      assert [u[0]] + (u[1..] + Split(rest)[0]) == u + Split(rest)[0];
    }
  }

  // ---- the code ----

  lemma EscapedNext(s: Bytes, i: nat)
    requires i < |s|
    ensures Escaped(s[..i + 1]) == Escaped(s[..i]) + EscapedByte(s[i])
  {
    assert s[..i + 1] == s[..i] + [s[i]];
    EscapedConcat(s[..i], [s[i]]);
    assert [s[i]][1..] == [] && EscapedByte(s[i]) + [] == EscapedByte(s[i]);
  }

  lemma {:induction false} EscapedConcat(a: Bytes, b: Bytes)
    ensures Escaped(a + b) == Escaped(a) + Escaped(b)
  {
    hide EscapedByte;
    if a == [] {
      assert a + b == b;
    } else {
      assert (a + b)[1..] == a[1..] + b;
      EscapedConcat(a[1..], b);
      assert EscapedByte(a[0]) + (Escaped(a[1..]) + Escaped(b)) == EscapedByte(a[0]) + Escaped(a[1..]) + Escaped(b);
    }
  }

  method AwsEscape(value: Bytes) returns (builder: Bytes)
    ensures builder == Escaped(value)
  {
    builder := [];
    for i := 0 to |value|
      invariant builder == Escaped(value[..i])
    {
      EscapedNext(value, i);
      var b := value[i];
      if (b as int as char) in UNRESERVED {
        builder := builder + [b];
        continue;
      }
      builder := builder + [PERCENT, HexDigit(b / 16), HexDigit(b % 16)];
    }
    assert value[..|value|] == value;
  }

  method EscapePath(objectName: Bytes) returns (path: Bytes)
    ensures path == EscapedPath(objectName)
  {
    hide Split, Escaped, EscapedPath, JoinSegments;
    var parts := Split(objectName);
    var segments := new Bytes[|parts|](i requires 0 <= i < |parts| => parts[i]);
    for index := 0 to segments.Length
      invariant forall k :: 0 <= k < index ==> segments[k] == Escaped(parts[k])
      invariant forall k :: index <= k < segments.Length ==> segments[k] == parts[k]
    {
      var segment := AwsEscape(segments[index]);
      segments[index] := segment;
    }
    assert segments[..] == EscapedParts(parts);
    EscapingPartsEscapesPath(objectName);
    path := JoinSegments(segments[..]);
  }
}
