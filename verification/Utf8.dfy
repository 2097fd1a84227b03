/** Cutting an error message to the width of its column without splitting a character
    (mongox/mongox.go:207-218). UTF-8 is as in section 4 of RFC 3629. */
module Utf8 {

  newtype byte = x: int | 0 <= x < 256

  predicate Tail(b: byte) {
    0x80 <= b <= 0xBF
  }

  /** The length of the character the bytes start with; 0 when they start with none. */
  function CharLength(s: seq<byte>): (n: nat)
    ensures n <= |s| && n <= 4
  {
    if |s| >= 1 && s[0] <= 0x7F then 1
    else if |s| >= 2 && 0xC2 <= s[0] <= 0xDF && Tail(s[1]) then 2
    else if |s| >= 3 && ThreeByteHead(s[0], s[1]) && Tail(s[2]) then 3
    else if |s| >= 4 && FourByteHead(s[0], s[1]) && Tail(s[2]) && Tail(s[3]) then 4
    else 0
  }

  predicate ThreeByteHead(a: byte, b: byte) {
    || (a == 0xE0 && 0xA0 <= b <= 0xBF)
    || (0xE1 <= a <= 0xEC && Tail(b))
    || (a == 0xED && 0x80 <= b <= 0x9F)
    || (0xEE <= a <= 0xEF && Tail(b))
  }

  predicate FourByteHead(a: byte, b: byte) {
    || (a == 0xF0 && 0x90 <= b <= 0xBF)
    || (0xF1 <= a <= 0xF3 && Tail(b))
    || (a == 0xF4 && 0x80 <= b <= 0x8F)
  }

  /** utf8.ValidString */
  predicate ValidString(s: seq<byte>) {
    if s == [] then true else CharLength(s) > 0 && ValidString(s[CharLength(s)..])
  }

  /** A character is recognised by its own bytes, whatever follows them. */
  lemma CharLengthLocal(s: seq<byte>, k: nat)
    requires k <= |s|
    ensures CharLength(s) > 0 && CharLength(s) <= k ==> CharLength(s[..k]) == CharLength(s)
    ensures CharLength(s[..k]) > 0 ==> CharLength(s) == CharLength(s[..k])
  {
  }

  /** The Unicode scalar values. */
  predicate Scalar(c: nat) {
    c < 0xD800 || 0xE000 <= c < 0x11_0000
  }

  /** Section 3 of RFC 3629. */
  function Encoded(c: nat): seq<byte>
    requires Scalar(c)
  {
    if c < 0x80 then [c as byte]
    else if c < 0x800 then [(0xC0 + c / 64) as byte, (0x80 + c % 64) as byte]
    else if c < 0x1_0000 then [(0xE0 + c / 4096) as byte, (0x80 + c / 64 % 64) as byte, (0x80 + c % 64) as byte]
    else
      [(0xF0 + c / 262144) as byte, (0x80 + c / 4096 % 64) as byte, (0x80 + c / 64 % 64) as byte, (0x80 + c % 64) as byte]
  }

  lemma ShortHeads(c: nat)
    requires c < 0x1_0000 && Scalar(c)
    ensures 0x80 <= c < 0x800 ==> 2 <= c / 64 <= 31
    ensures 0x800 <= c ==> c / 64 / 64 == c / 4096 <= 15
    ensures 0x800 <= c < 0x1000 ==> c / 4096 == 0 && c / 64 % 64 >= 32
    ensures 0xD000 <= c < 0xE000 ==> c / 4096 == 13 && c / 64 % 64 <= 31
    ensures c >= 0xE000 ==> c / 4096 >= 14
    ensures 0x1000 <= c < 0xD000 ==> 1 <= c / 4096 <= 12
  {
  }

  lemma LongHeads(c: nat)
    requires 0x1_0000 <= c < 0x11_0000
    ensures c / 262144 <= 4
    ensures c < 0x4_0000 ==> c / 262144 == 0 && c / 4096 % 64 >= 16
    ensures c >= 0x10_0000 ==> c / 262144 == 4 && c / 4096 % 64 <= 15
    ensures 0x4_0000 <= c < 0x10_0000 ==> 1 <= c / 262144 <= 3
  {
  }

  /** The encoding of a scalar value is recognised as one character. */
  lemma EncodedIsCharacter(c: nat, s: seq<byte>)
    requires Scalar(c) && Encoded(c) <= s
    ensures CharLength(s) == |Encoded(c)|
  {
    CharLengthLocal(s, |Encoded(c)|);
    assert s[..|Encoded(c)|] == Encoded(c);
    if c < 0x80 {
    } else if c < 0x1_0000 {
      ShortHeads(c);
    } else {
      LongHeads(c);
    }
  }

  lemma TwoBytes(a: byte, b: byte) returns (c: nat)
    requires 0xC2 <= a <= 0xDF && Tail(b)
    ensures Scalar(c) && Encoded(c) == [a, b]
  {
    c := (a as nat - 0xC0) * 64 + (b as nat - 0x80);
    assert c / 64 == a as nat - 0xC0 && c % 64 == b as nat - 0x80;
  }

  lemma ThreeBytes(a: byte, b: byte, d: byte) returns (c: nat)
    requires ThreeByteHead(a, b) && Tail(d)
    ensures Scalar(c) && Encoded(c) == [a, b, d]
  {
    var high: nat := (a as nat - 0xE0) * 64 + (b as nat - 0x80);
    assert high / 64 == a as nat - 0xE0 && high % 64 == b as nat - 0x80;
    c := high * 64 + (d as nat - 0x80);
    assert c / 64 == high && c % 64 == d as nat - 0x80 && c / 4096 == high / 64;
  }

  lemma FourBytes(a: byte, b: byte, d: byte, e: byte) returns (c: nat)
    requires FourByteHead(a, b) && Tail(d) && Tail(e)
    ensures Scalar(c) && Encoded(c) == [a, b, d, e]
  {
    var top: nat := (a as nat - 0xF0) * 64 + (b as nat - 0x80);
    assert top / 64 == a as nat - 0xF0 && top % 64 == b as nat - 0x80;
    var high: nat := top * 64 + (d as nat - 0x80);
    assert high / 64 == top && high % 64 == d as nat - 0x80;
    c := high * 64 + (e as nat - 0x80);
    assert c / 64 == high && c % 64 == e as nat - 0x80 && c / 4096 == top && c / 262144 == top / 64;
  }

  /** And nothing else is. */
  lemma CharacterIsEncoded(s: seq<byte>) returns (c: nat)
    requires CharLength(s) > 0
    ensures Scalar(c) && s[..CharLength(s)] == Encoded(c)
  {
    var n := CharLength(s);
    hide Encoded;
    if n == 1 {
      c := s[0] as nat;
      assert Encoded(c) == [s[0]] by { OneByte(s[0]); }
    } else if n == 2 {
      c := TwoBytes(s[0], s[1]);
    } else if n == 3 {
      c := ThreeBytes(s[0], s[1], s[2]);
    } else {
      c := FourBytes(s[0], s[1], s[2], s[3]);
    }
  }

  lemma OneByte(b: byte)
    requires b < 0x80
    ensures Encoded(b as nat) == [b]
  {
  }

  /** In valid text, one of any four neighbouring cut points is valid. */
  lemma {:induction false} ValidCutNearby(s: seq<byte>, max: nat)
    requires ValidString(s) && max <= |s|
    ensures exists k :: 0 <= k <= max < k + 4 && ValidString(s[..k])
  {
    var n := CharLength(s);
    if max == 0 || max < n {
      assert ValidString(s[..0]);
    } else {
      ValidCutNearby(s[n..], max - n);
      var k :| 0 <= k <= max - n < k + 4 && ValidString(s[n..][..k]);
      CharLengthLocal(s, n + k);
      assert s[..n + k][n..] == s[n..][..k];
      assert ValidString(s[..n + k]);
    }
  }

  function ValidPrefix(cut: seq<byte>): (r: seq<byte>)
    ensures r <= cut && ValidString(r)
    ensures forall k :: |r| < k <= |cut| ==> !ValidString(cut[..k])
  {
    if ValidString(cut) then
      assert cut[..|cut|] == cut;
      cut
    else
      assert cut[..|cut|] == cut;
      var front := cut[..|cut| - 1];
      assert forall k :: 0 <= k <= |front| ==> front[..k] == cut[..k];
      ValidPrefix(front)
  }

  /** Text that is short enough is kept, valid or not; other text is cut to its longest valid prefix
      within max bytes. */
  function Shortened(s: seq<byte>, max: nat): seq<byte> {
    if |s| <= max then s else ValidPrefix(s[..max])
  }

  /** Cutting valid text keeps it valid and costs at most three bytes of the width. */
  lemma ShorteningValidText(s: seq<byte>, max: nat)
    requires ValidString(s)
    ensures var cut := Shortened(s, max);
            && cut <= s && ValidString(cut) && |cut| <= max
            && (|s| > max ==> max < |cut| + 4)
            && forall k :: |cut| < k <= max && k <= |s| ==> !ValidString(s[..k])
  {
    if |s| > max {
      ValidCutNearby(s, max);
      assert forall k :: 0 <= k <= max ==> s[..max][..k] == s[..k];
    }
  }

  /** Any text, valid or not: what fits stays as it is, and the cut of longer text is its longest valid prefix
      that fits. */
  lemma ShorteningAnyText(s: seq<byte>, max: nat)
    ensures |s| <= max ==> Shortened(s, max) == s
    ensures |s| > max ==>
              && Shortened(s, max) <= s && |Shortened(s, max)| <= max && ValidString(Shortened(s, max))
              && forall k :: |Shortened(s, max)| < k <= max ==> !ValidString(s[..k])
  {
    if |s| > max {
      assert forall k :: 0 <= k <= max ==> s[..max][..k] == s[..k];
    }
  }

  /** truncate of mongox.go. */
  method Truncate(s: seq<byte>, max: nat) returns (cut: seq<byte>)
    ensures cut == Shortened(s, max)
  {
    if |s| <= max {
      return s;
    }
    cut := s[..max];
    while |cut| > 0 && !ValidString(cut)
      invariant ValidPrefix(cut) == ValidPrefix(s[..max])
    {
      cut := cut[..|cut| - 1];
    }
  }
}
