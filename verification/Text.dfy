/** The parts of Go's strings and fmt packages the session logic relies on. */
module Text {
  import opened Results

  /** unicode.IsSpace */
  predicate IsSpace(c: char) {
    || c in {'\t', '\n', '\U{0B}', '\U{0C}', '\r', ' ', '\U{85}', '\U{A0}', '\U{1680}'}
    || '\U{2000}' <= c <= '\U{200A}'
    || c in {'\U{2028}', '\U{2029}', '\U{202F}', '\U{205F}', '\U{3000}'}
  }

  function TrimLeft(s: string): string {
    if s != "" && IsSpace(s[0]) then TrimLeft(s[1..]) else s
  }

  function TrimRight(s: string): string {
    if s != "" && IsSpace(s[|s| - 1]) then TrimRight(s[..|s| - 1]) else s
  }

  /** strings.TrimSpace */
  function TrimSpace(s: string): string {
    TrimRight(TrimLeft(s))
  }

  predicate Blank(s: string) {
    TrimSpace(s) == ""
  }

  lemma {:induction false} TrimmedLeft(s: string)
    ensures TrimLeft(s) == "" <==> forall i :: 0 <= i < |s| ==> IsSpace(s[i])
    ensures TrimLeft(s) != "" ==> !IsSpace(TrimLeft(s)[0])
  {
    hide IsSpace;
    if s != "" && IsSpace(s[0]) {
      TrimmedLeft(s[1..]);
      assert forall i :: 0 < i < |s| ==> s[i] == s[1..][i - 1];
      assert forall i :: 0 <= i < |s| - 1 ==> s[1..][i] == s[i + 1];
    }
  }

  lemma {:induction false} TrimmedRight(s: string)
    ensures TrimRight(s) == "" <==> forall i :: 0 <= i < |s| ==> IsSpace(s[i])
  {
    hide IsSpace;
    if s != "" && IsSpace(s[|s| - 1]) {
      TrimmedRight(s[..|s| - 1]);
    }
  }

  /** A text is blank exactly when all its characters are spaces. */
  lemma BlankExactly(s: string)
    ensures Blank(s) <==> forall i :: 0 <= i < |s| ==> IsSpace(s[i])
  {
    hide IsSpace;
    TrimmedLeft(s);
    TrimmedRight(TrimLeft(s));
  }

  predicate IsDigit(c: char) {
    '0' <= c <= '9'
  }

  function DigitChar(d: nat): char
    requires d < 10
  {
    '0' + d as char
  }

  function PrintNat(n: nat): string {
    if n < 10 then [DigitChar(n)] else PrintNat(n / 10) + [DigitChar(n % 10)]
  }

  /** fmt.Sprintf("%d", n) */
  function PrintInt(n: int): string {
    if n < 0 then "-" + PrintNat(-n) else PrintNat(n)
  }

  predicate InInt64(n: int) {
    -0x8000_0000_0000_0000 <= n < 0x8000_0000_0000_0000
  }

  /** The longest prefix made of decimal digits. */
  function LeadingDigits(s: string): (ds: string)
    ensures |ds| <= |s|
    ensures forall i :: 0 <= i < |ds| ==> IsDigit(ds[i])
  {
    if s != "" && IsDigit(s[0]) then [s[0]] + LeadingDigits(s[1..]) else ""
  }

  function ValueOf(ds: string): nat
    requires forall i :: 0 <= i < |ds| ==> IsDigit(ds[i])
  {
    if ds == "" then 0
    else
      assert IsDigit(ds[|ds| - 1]);
      10 * ValueOf(ds[..|ds| - 1]) + (ds[|ds| - 1] as int - '0' as int)
  }

  /** parseInt64 of logic.go: Sscanf("%d") on the trimmed text, so a sign is allowed and
      anything after the digits is ignored. None stands for the parse error. */
  function ParseInt64(raw: string): Option<int> {
    var s := TrimSpace(raw);
    var negative := s != "" && s[0] == '-';
    var body := if s != "" && (s[0] == '-' || s[0] == '+') then s[1..] else s;
    var ds := LeadingDigits(body);
    if ds == "" then None
    else
      var n := if negative then -(ValueOf(ds) as int) else ValueOf(ds);
      if InInt64(n) then Some(n) else None
  }

  lemma {:induction false} PrintNatDigits(n: nat)
    ensures PrintNat(n) != ""
    ensures forall i :: 0 <= i < |PrintNat(n)| ==> IsDigit(PrintNat(n)[i])
    ensures ValueOf(PrintNat(n)) == n
  {
    if n < 10 {
      assert PrintNat(n)[..0] == "";
      assert ValueOf(PrintNat(n)) == 10 * ValueOf("") + n;
    } else {
      PrintNatDigits(n / 10);
      assert PrintNat(n)[..|PrintNat(n)| - 1] == PrintNat(n / 10);
    }
  }

  lemma {:induction false} AllDigitsLead(s: string)
    requires forall i :: 0 <= i < |s| ==> IsDigit(s[i])
    ensures LeadingDigits(s) == s
  {
    if s != "" {
      AllDigitsLead(s[1..]);
    }
  }

  lemma NothingToTrim(s: string)
    requires s != "" && !IsSpace(s[0]) && !IsSpace(s[|s| - 1])
    ensures TrimSpace(s) == s
  {
  }

  lemma PrintIntEnds(n: int)
    ensures var s := PrintInt(n);
            s != "" && !IsSpace(s[0]) && !IsSpace(s[|s| - 1])
  {
    var ds := PrintNat(if n < 0 then -n else n);
    PrintNatDigits(if n < 0 then -n else n);
    assert IsDigit(ds[0]) && IsDigit(ds[|ds| - 1]);
    var s := PrintInt(n);
    assert s[|s| - 1] == ds[|ds| - 1];
  }

  /** A printed clock value survives the trip through the store: it is never blank and parses back. */
  lemma ParsePrintRoundTrip(n: int)
    requires InInt64(n)
    ensures ParseInt64(PrintInt(n)) == Some(n)
    ensures !Blank(PrintInt(n))
  {
    PrintIntEnds(n);
    NothingToTrim(PrintInt(n));
    var ds := PrintNat(if n < 0 then -n else n);
    PrintNatDigits(if n < 0 then -n else n);
    AllDigitsLead(ds);
    assert IsDigit(ds[0]);
    if n < 0 {
      assert PrintInt(n)[1..] == ds;
    }
  }
}
