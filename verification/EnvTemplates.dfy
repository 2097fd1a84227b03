/** Placeholders in configuration text (config/config.go:386-413): ${NAME} and ${NAME:default}. */
module EnvTemplates {
  import opened Results

  datatype Segment = Literal(text: string) | Hole(name: string, fallback: Option<string>)

  /** A template is a list of segments, and perhaps at its end a placeholder that is never closed. */
  datatype Template = Template(segments: seq<Segment>, unclosed: Option<string>)

  datatype EnvError = Unclosed(text: string) | Unset(name: string)

  type Env = map<string, string>

  // ---- finding text ----

  predicate OccursAt(text: string, sub: string, k: nat) {
    k + |sub| <= |text| && text[k..k + |sub|] == sub
  }

  /** strings.Index */
  function Index(text: string, sub: string): (k: int)
    requires sub != ""
    ensures -1 <= k < |text|
    ensures k >= 0 ==> OccursAt(text, sub, k)
    ensures forall j: nat :: (k < 0 || j < k) ==> !OccursAt(text, sub, j)
  {
    if |text| < |sub| then -1
    else if text[..|sub|] == sub then 0
    else
      var rest := Index(text[1..], sub);
      assert forall j: nat :: OccursAt(text, sub, j + 1) ==> OccursAt(text[1..], sub, j);
      assert forall j: nat :: OccursAt(text, sub, j) ==> j > 0 && OccursAt(text[1..], sub, j - 1);
      assert rest >= 0 ==> text[1..][rest..rest + |sub|] == text[rest + 1..rest + 1 + |sub|];
      if rest < 0 then -1 else rest + 1
  }

  ghost predicate Contains(text: string, sub: string) {
    exists k: nat :: OccursAt(text, sub, k)
  }

  lemma IndexIs(text: string, sub: string, k: nat)
    requires sub != "" && OccursAt(text, sub, k) && forall j: nat :: j < k ==> !OccursAt(text, sub, j)
    ensures Index(text, sub) == k
  {
    var found := Index(text, sub);
    assert found >= 0 ==> OccursAt(text, sub, found);
  }

  // ---- reading a template ----

  /** strings.Cut at the first colon. */
  function HoleOf(expr: string): (hole: Segment)
    ensures hole.Hole?
  {
    var colon := Index(expr, ":");
    if colon < 0 then Hole(expr, None) else Hole(expr[..colon], Some(expr[colon + 1..]))
  }

  function Plain(text: string): seq<Segment> {
    if text == "" then [] else [Literal(text)]
  }

  lemma ClosesAfter(input: string, start: nat)
    requires start == Index(input, "${") && Index(input[start..], "}") >= 0
    ensures Index(input[start..], "}") >= 2
  {
    var tail := input[start..];
    assert tail[0] == input[start..start + 2][0] == '$' && tail[1] == input[start..start + 2][1] == '{';
    var end := Index(tail, "}");
    assert tail[end] == tail[end..end + 1][0] == '}';
  }

  /** What one look at the text finds: no opening, an opening that is never closed, or a placeholder. */
  datatype Look = Nothing | Dangling(text: string, tail: string) | Found(text: string, expr: string, more: string)

  function LookAt(input: string): (look: Look)
    ensures look.Found? ==> |look.more| < |input|
  {
    var start := Index(input, "${");
    if start < 0 then Nothing
    else
      var tail := input[start..];
      var end := Index(tail, "}");
      if end < 0 then Dangling(input[..start], tail)
      else
        ClosesAfter(input, start);
        Found(input[..start], tail[2..end], tail[end + 1..])
  }

  function Scan(input: string): Template
    decreases |input|
  {
    match LookAt(input)
    case Nothing => Template(Plain(input), None)
    case Dangling(text, tail) => Template(Plain(text), Some(tail))
    case Found(text, expr, more) =>
      var rest := Scan(more);
      Template(Plain(text) + [HoleOf(expr)] + rest.segments, rest.unclosed)
  }

  // ---- writing a template ----

  function Printed(s: Segment): string {
    match s
    case Literal(text) => text
    case Hole(name, None) => "${" + name + "}"
    case Hole(name, Some(fallback)) => "${" + name + ":" + fallback + "}"
  }

  function PrintAll(segments: seq<Segment>): string {
    if segments == [] then "" else Printed(segments[0]) + PrintAll(segments[1..])
  }

  function Print(t: Template): string {
    PrintAll(t.segments) + if t.unclosed.Some? then t.unclosed.value else ""
  }

  /** Literals hold no "${", names neither ':' nor '}', defaults no '}'. */
  ghost predicate GoodSegment(s: Segment) {
    match s
    case Literal(text) => text != "" && !Contains(text, "${")
    case Hole(name, fallback) =>
      ':' !in name && '}' !in name && (fallback.Some? ==> '}' !in fallback.value)
  }

  ghost predicate GoodSegments(segments: seq<Segment>) {
    && (forall i :: 0 <= i < |segments| ==> GoodSegment(segments[i]))
    && (forall i :: 0 <= i < |segments| - 1 ==> segments[i].Literal? ==> segments[i + 1].Hole?)
  }

  ghost predicate Good(t: Template) {
    && GoodSegments(t.segments)
    && (t.unclosed.Some? ==> OccursAt(t.unclosed.value, "${", 0) && '}' !in t.unclosed.value)
  }

  // ---- reading back what was written ----

  lemma OneChar(text: string, c: char, k: nat)
    ensures OccursAt(text, [c], k) <==> k < |text| && text[k] == c
  {
    if k < |text| {
      assert text[k..k + 1] == [text[k]];
    }
  }

  lemma NotIn(text: string, c: char)
    ensures Index(text, [c]) < 0 <==> c !in text
  {
    forall k: nat ensures OccursAt(text, [c], k) <==> k < |text| && text[k] == c {
      OneChar(text, c, k);
    }
    if c in text {
      var k :| 0 <= k < |text| && text[k] == c;
      assert OccursAt(text, [c], k);
    }
  }

  lemma FirstOf(before: string, c: char, after: string)
    requires c !in before
    ensures Index(before + [c] + after, [c]) == |before|
  {
    var text := before + [c] + after;
    forall j: nat | j < |before| ensures !OccursAt(text, [c], j) {
      OneChar(text, c, j);
    }
    OneChar(text, c, |before|);
    IndexIs(text, [c], |before|);
  }

  /** A literal before an opening does not hide it, even if it ends in a dollar sign. */
  lemma OpensAfter(text: string, rest: string)
    requires !Contains(text, "${") && OccursAt(rest, "${", 0)
    ensures Index(text + rest, "${") == |text|
  {
    var whole := text + rest;
    assert rest[0] == rest[0..2][0] == '$';
    assert whole[|text|..|text| + 2] == rest[0..2];
    forall j: nat | j < |text| ensures !OccursAt(whole, "${", j) {
      if j + 2 <= |text| {
        assert whole[j..j + 2] == text[j..j + 2];
        assert !OccursAt(text, "${", j);
      } else {
        assert whole[j..j + 2][1] == '$';
      }
    }
    IndexIs(whole, "${", |text|);
  }

  function Inner(hole: Segment): string
    requires hole.Hole?
  {
    hole.name + if hole.fallback.Some? then ":" + hole.fallback.value else ""
  }

  lemma HoleOfInner(hole: Segment)
    requires hole.Hole? && GoodSegment(hole)
    ensures HoleOf(Inner(hole)) == hole && '}' !in Inner(hole)
  {
    match hole.fallback
    case None =>
      assert Inner(hole) == hole.name;
      NotIn(hole.name, ':');
    case Some(fallback) =>
      assert Inner(hole) == hole.name + [':'] + fallback;
      FirstOf(hole.name, ':', fallback);
  }

  lemma PrintedHole(hole: Segment)
    requires hole.Hole?
    ensures Printed(hole) == "${" + Inner(hole) + "}"
  {
  }

  function Enclosed(expr: string, more: string): string {
    "${" + expr + "}" + more
  }

  lemma FindsHole(text: string, expr: string, more: string)
    requires !Contains(text, "${") && '}' !in expr
    ensures LookAt(text + Enclosed(expr, more)) == Found(text, expr, more)
  {
    var tail := Enclosed(expr, more);
    var input := text + tail;
    assert tail[0..2] == "${";
    OpensAfter(text, tail);
    assert input[|text|..] == tail && input[..|text|] == text;
    assert tail == ("${" + expr) + ['}'] + more;
    FirstOf("${" + expr, '}', more);
    var end := |expr| + 2;
    assert tail[2..end] == expr && tail[end + 1..] == more;
  }

  lemma FindsDangling(text: string, tail: string)
    requires !Contains(text, "${") && OccursAt(tail, "${", 0) && '}' !in tail
    ensures LookAt(text + tail) == Dangling(text, tail)
  {
    OpensAfter(text, tail);
    assert (text + tail)[|text|..] == tail && (text + tail)[..|text|] == text;
    NotIn(tail, '}');
  }

  lemma FindsNothing(text: string)
    requires !Contains(text, "${")
    ensures LookAt(text) == Nothing
  {
    assert Index(text, "${") < 0;
  }

  /** Scanning "literal, hole, more". */
  lemma ScanHole(text: string, hole: Segment, more: string)
    requires !Contains(text, "${") && hole.Hole? && GoodSegment(hole)
    ensures Scan(text + (Printed(hole) + more)) ==
            Template(Plain(text) + [hole] + Scan(more).segments, Scan(more).unclosed)
  {
    hide LookAt, HoleOf, Contains;
    HoleOfInner(hole);
    PrintedHole(hole);
    assert Printed(hole) + more == Enclosed(Inner(hole), more);
    FindsHole(text, Inner(hole), more);
  }

  lemma ScanEnd(text: string, unclosed: Option<string>)
    requires !Contains(text, "${")
    requires unclosed.Some? ==> OccursAt(unclosed.value, "${", 0) && '}' !in unclosed.value
    ensures Scan(text + if unclosed.Some? then unclosed.value else "") == Template(Plain(text), unclosed)
  {
    hide LookAt, Contains, OccursAt;
    match unclosed
    case None =>
      assert text + "" == text;
      FindsNothing(text);
    case Some(tail) => FindsDangling(text, tail);
  }

  lemma NoText()
    ensures !Contains("", "${")
  {
  }

  lemma GoodRest(t: Template, n: nat)
    requires Good(t) && n <= |t.segments|
    ensures Good(Template(t.segments[n..], t.unclosed))
  {
  }

  lemma PrintSplit(t: Template)
    requires t.segments != []
    ensures Print(t) == Printed(t.segments[0]) + Print(Template(t.segments[1..], t.unclosed))
  {
  }

  /** Scanning undoes printing. */
  lemma {:induction false} ScanUndoesPrint(t: Template)
    requires Good(t)
    ensures Scan(Print(t)) == t
    decreases |t.segments|, 2
  {
    hide Scan, Print, Printed, OccursAt, Contains;
    NoText();
    if t.segments == [] {
      PrintEnd("", t.unclosed);
      ScanEnd("", t.unclosed);
    } else if t.segments[0].Hole? {
      var rest := Template(t.segments[1..], t.unclosed);
      GoodRest(t, 1);
      ScanUndoesPrint(rest);
      PrintSplit(t);
      ScanHole("", t.segments[0], Print(rest));
      assert "" + (Printed(t.segments[0]) + Print(rest)) == Print(t);
      assert Plain("") + [t.segments[0]] + rest.segments == t.segments;
    } else {
      ScanAfterLiteral(t);
    }
  }

  lemma PrintEnd(text: string, unclosed: Option<string>)
    ensures Print(Template(Plain(text), unclosed)) == text + if unclosed.Some? then unclosed.value else ""
  {
    assert Plain(text) == [] || Plain(text)[1..] == [];
    assert PrintAll(Plain(text)) == text;
  }

  lemma {:induction false} ScanAfterLiteral(t: Template)
    requires Good(t) && t.segments != [] && t.segments[0].Literal?
    ensures Scan(Print(t)) == t
    decreases |t.segments|, 1
  {
    hide Scan, Print, OccursAt, Contains;
    var text := t.segments[0].text;
    assert GoodSegment(t.segments[0]);
    if |t.segments| == 1 {
      assert t.segments == Plain(text);
      PrintEnd(text, t.unclosed);
      ScanEnd(text, t.unclosed);
    } else {
      LiteralThenHole(t);
    }
  }

  lemma {:induction false} LiteralThenHole(t: Template)
    requires Good(t) && |t.segments| > 1 && t.segments[0].Literal?
    ensures Scan(Print(t)) == t
    decreases |t.segments|, 0
  {
    hide Scan, Print, OccursAt, Contains;
    var text, hole := t.segments[0].text, t.segments[1];
    var rest := Template(t.segments[2..], t.unclosed);
    assert GoodSegment(t.segments[0]) && GoodSegment(hole) && hole.Hole?;
    GoodRest(t, 2);
    ScanUndoesPrint(rest);
    PrintSplit(t);
    PrintSplit(Template(t.segments[1..], t.unclosed));
    assert t.segments[1..][1..] == t.segments[2..];
    ScanHole(text, hole, Print(rest));
    assert Plain(text) + [hole] + rest.segments == t.segments;
  }

  // ---- every text is a template ----

  lemma CutAt(expr: string, colon: nat)
    requires colon == Index(expr, ":")
    ensures expr == expr[..colon] + ":" + expr[colon + 1..] && ':' !in expr[..colon]
  {
    OneChar(expr, ':', colon);
    forall j: nat | j < colon ensures expr[j] != ':' {
      OneChar(expr, ':', j);
    }
  }

  lemma HoleOfIsGood(expr: string)
    requires '}' !in expr
    ensures HoleOf(expr).Hole? && GoodSegment(HoleOf(expr)) && Printed(HoleOf(expr)) == "${" + expr + "}"
  {
    var colon := Index(expr, ":");
    NotIn(expr, ':');
    if colon >= 0 {
      CutAt(expr, colon);
      hide OccursAt;
      var name, fallback := expr[..colon], expr[colon + 1..];
      assert "${" + name + ":" + fallback + "}" == "${" + (name + ":" + fallback) + "}";
    }
  }

  lemma BeforeOpen(input: string, start: nat)
    requires start == Index(input, "${")
    ensures !Contains(input[..start], "${") && OccursAt(input[start..], "${", 0)
    ensures input == input[..start] + input[start..]
  {
    var text, tail := input[..start], input[start..];
    forall j: nat ensures !OccursAt(text, "${", j) {
      if j + 2 <= start {
        assert text[j..j + 2] == input[j..j + 2];
        assert !OccursAt(input, "${", j);
      }
    }
    assert tail[0..2] == input[start..start + 2];
  }

  lemma LookFacts(input: string)
    ensures match LookAt(input)
            case Nothing => !Contains(input, "${")
            case Dangling(text, tail) =>
              input == text + tail && !Contains(text, "${") && OccursAt(tail, "${", 0) && '}' !in tail
            case Found(text, expr, more) =>
              input == text + Enclosed(expr, more) && !Contains(text, "${") && '}' !in expr
  {
    hide Contains, OccursAt, Enclosed;
    var start := Index(input, "${");
    if start < 0 {
      NotFound(input);
    } else {
      BeforeOpen(input, start);
      AtOpen(input, start);
    }
  }

  lemma AtOpen(input: string, start: nat)
    requires start == Index(input, "${")
    ensures var tail := input[start..];
            var end := Index(tail, "}");
            if end < 0 then '}' !in tail && LookAt(input) == Dangling(input[..start], tail)
            else
              && 2 <= end < |tail|
              && '}' !in tail[2..end]
              && tail == Enclosed(tail[2..end], tail[end + 1..])
              && LookAt(input) == Found(input[..start], tail[2..end], tail[end + 1..])
  {
    hide OccursAt, Contains, Enclosed, LookAt;
    var tail := input[start..];
    NotIn(tail, '}');
    LookIs(input, start);
    BeforeOpen(input, start);
    var end := Index(tail, "}");
    if end >= 0 {
      ClosesAfter(input, start);
      BeforeClose(tail, tail[2..end]);
    }
  }

  lemma LookIs(input: string, start: nat)
    requires start == Index(input, "${")
    ensures var tail := input[start..];
            var end := Index(tail, "}");
            if end < 0 then LookAt(input) == Dangling(input[..start], tail)
            else 2 <= end < |tail| && LookAt(input) == Found(input[..start], tail[2..end], tail[end + 1..])
  {
    hide OccursAt;
    if Index(input[start..], "}") >= 0 {
      ClosesAfter(input, start);
    }
  }

  lemma NotFound(input: string)
    requires Index(input, "${") < 0
    ensures !Contains(input, "${")
  {
  }

  /** Printing undoes scanning, and what scanning finds is well formed: texts and well-formed templates
      correspond one to one. */
  lemma {:induction false} PrintUndoesScan(input: string)
    ensures Good(Scan(input)) && Print(Scan(input)) == input
    decreases |input|
  {
    hide LookAt, OccursAt, Contains, HoleOf, Plain, Printed, GoodSegment, Print, Enclosed;
    LookFacts(input);
    match LookAt(input)
    case Nothing =>
      PrintEnd(input, None);
      PlainIsGood(input);
      assert input + "" == input;
    case Dangling(text, tail) =>
      PlainIsGood(text);
      PrintEnd(text, Some(tail));
    case Found(text, expr, more) =>
      PrintUndoesScan(more);
      PrintHole(text, expr, Scan(more));
  }

  lemma PrintHole(text: string, expr: string, rest: Template)
    requires !Contains(text, "${") && '}' !in expr && Good(rest)
    ensures var t := Template(Plain(text) + [HoleOf(expr)] + rest.segments, rest.unclosed);
            Good(t) && Print(t) == text + Enclosed(expr, Print(rest))
  {
    hide OccursAt, Contains, HoleOf, Plain, Printed, GoodSegment;
    HoleOfIsGood(expr);
    PlainIsGood(text);
    var holes := [HoleOf(expr)] + rest.segments;
    PrintConcat(Plain(text), holes);
    assert holes[1..] == rest.segments;
    var t := Template(Plain(text) + [HoleOf(expr)] + rest.segments, rest.unclosed);
    assert t.segments == Plain(text) + holes;
    var last := if rest.unclosed.Some? then rest.unclosed.value else "";
    assert text + ("${" + expr + "}" + PrintAll(rest.segments)) + last == text + ("${" + expr + "}" + (PrintAll(rest.segments) + last));
  }

  lemma PlainIsGood(text: string)
    requires !Contains(text, "${")
    ensures GoodSegments(Plain(text)) && PrintAll(Plain(text)) == text && |Plain(text)| <= 1
  {
    assert Plain(text) == [] || Plain(text)[1..] == [];
  }

  lemma BeforeClose(text: string, expr: string)
    requires OccursAt(text, "${", 0) && Index(text, "}") >= 2 && expr == text[2..Index(text, "}")]
    ensures '}' !in expr && text == Enclosed(expr, text[Index(text, "}") + 1..])
  {
    var end := Index(text, "}");
    OneChar(text, '}', end);
    assert text[0..2] == "${";
    forall j: nat | j < |expr| ensures expr[j] != '}' {
      OneChar(text, '}', j + 2);
    }
  }

  lemma {:induction false} PrintConcat(a: seq<Segment>, b: seq<Segment>)
    ensures PrintAll(a + b) == PrintAll(a) + PrintAll(b)
  {
    if a == [] {
      assert a + b == b;
    } else {
      assert (a + b)[1..] == a[1..] + b;
      PrintConcat(a[1..], b);
    }
  }

  // ---- the value of a template ----

  function Prepend(text: string, r: Result<string, EnvError>): Result<string, EnvError> {
    if r.Ok? then Ok(text + r.value) else r
  }

  function HoleValue(hole: Segment, env: Env): Result<string, EnvError>
    requires hole.Hole?
  {
    if hole.name in env then Ok(env[hole.name])
    else if hole.fallback.Some? then Ok(hole.fallback.value)
    else Err(Unset(hole.name))
  }

  /** The segments' values one after the other; nothing in a value is read again. */
  function Value(segments: seq<Segment>, unclosed: Option<string>, env: Env): Result<string, EnvError> {
    if segments == [] then (if unclosed.Some? then Err(Unclosed(unclosed.value)) else Ok(""))
    else
      match segments[0]
      case Literal(text) => Prepend(text, Value(segments[1..], unclosed, env))
      case Hole(_, _) =>
        var r := HoleValue(segments[0], env);
        if r.Err? then r else Prepend(r.value, Value(segments[1..], unclosed, env))
  }

  /** ExpandEnv fails exactly when a placeholder is not closed or one is unset and has no default. */
  lemma {:induction false} FailsExactly(segments: seq<Segment>, unclosed: Option<string>, env: Env)
    ensures Value(segments, unclosed, env).Err? <==>
            unclosed.Some? || exists i :: 0 <= i < |segments| && Missing(segments[i], env)
  {
    if segments != [] {
      FailsExactly(segments[1..], unclosed, env);
      assert forall i :: 0 < i < |segments| ==> segments[i] == segments[1..][i - 1];
      assert forall i :: 0 <= i < |segments| - 1 ==> segments[1..][i] == segments[i + 1];
    }
  }

  predicate Missing(s: Segment, env: Env) {
    s.Hole? && s.name !in env && s.fallback.None?
  }

  // ---- the loop ----

  lemma PrependTwice(a: string, b: string, r: Result<string, EnvError>)
    ensures Prepend(a, Prepend(b, r)) == Prepend(a + b, r)
  {
    if r.Ok? {
      assert a + (b + r.value) == a + b + r.value;
    }
  }

  lemma ValueAfterPlain(text: string, more: seq<Segment>, unclosed: Option<string>, env: Env)
    ensures Value(Plain(text) + more, unclosed, env) == Prepend(text, Value(more, unclosed, env))
  {
    if text == "" {
      assert Plain(text) + more == more;
      var r := Value(more, unclosed, env);
      assert r.Ok? ==> "" + r.value == r.value;
    } else {
      assert (Plain(text) + more)[1..] == more;
    }
  }

  /** The value of the template the input spells. */
  function Expanded(input: string, env: Env): Result<string, EnvError> {
    Value(Scan(input).segments, Scan(input).unclosed, env)
  }

  lemma OneStep(rest: string, env: Env)
    ensures match LookAt(rest)
            case Nothing => Expanded(rest, env) == Ok(rest)
            case Dangling(text, tail) => Expanded(rest, env) == Err(Unclosed(tail))
            case Found(text, expr, more) =>
              var r := HoleValue(HoleOf(expr), env);
              Expanded(rest, env) == if r.Err? then r else Prepend(text + r.value, Expanded(more, env))
  {
    hide LookAt, HoleOf, HoleValue, Plain, Value;
    match LookAt(rest)
    case Nothing => PlainValue(rest, None, env);
    case Dangling(text, tail) => PlainValue(text, Some(tail), env);
    case Found(text, expr, more) => ValueAtHole(text, expr, Scan(more), env);
  }

  lemma PlainValue(text: string, unclosed: Option<string>, env: Env)
    ensures Value(Plain(text), unclosed, env) == if unclosed.Some? then Err(Unclosed(unclosed.value)) else Ok(text)
  {
    ValueAfterPlain(text, [], unclosed, env);
    assert Plain(text) + [] == Plain(text) && text + "" == text;
  }

  lemma ValueAtHole(text: string, expr: string, more: Template, env: Env)
    ensures HoleOf(expr).Hole?
    ensures var r := HoleValue(HoleOf(expr), env);
            Value(Plain(text) + [HoleOf(expr)] + more.segments, more.unclosed, env) ==
            if r.Err? then r else Prepend(text + r.value, Value(more.segments, more.unclosed, env))
  {
    var hole := HoleOf(expr);
    var holes := [hole] + more.segments;
    assert Plain(text) + [hole] + more.segments == Plain(text) + holes;
    ValueAfterPlain(text, holes, more.unclosed, env);
    assert holes[1..] == more.segments;
    var r := HoleValue(hole, env);
    if r.Ok? {
      PrependTwice(text, r.value, Value(more.segments, more.unclosed, env));
    }
  }

  lemma Slices(text: string, start: nat, end: nat)
    requires start + end < |text| && end >= 2
    ensures text[start..][2..end] == text[start + 2..start + end]
    ensures text[start..][end + 1..] == text[start + end + 1..]
  {
  }

  lemma LookCases(input: string)
    ensures var start := Index(input, "${");
            if start < 0 then LookAt(input) == Nothing
            else
              var end := Index(input[start..], "}");
              if end < 0 then LookAt(input) == Dangling(input[..start], input[start..])
              else
                && 2 <= end
                && LookAt(input) == Found(input[..start], input[start + 2..start + end], input[start + end + 1..])
  {
    hide OccursAt, LookAt;
    var start := Index(input, "${");
    if start < 0 {
      LookNothing(input);
    } else {
      LookIs(input, start);
      var end := Index(input[start..], "}");
      if end >= 0 {
        Slices(input, start, end);
      }
    }
  }

  lemma LookNothing(input: string)
    requires Index(input, "${") < 0
    ensures LookAt(input) == Nothing
  {
  }

  lemma Continues(out: string, text: string, expr: string, more: string, rest: string, env: Env)
    requires LookAt(rest) == Found(text, expr, more)
    ensures var r := HoleValue(HoleOf(expr), env);
            Prepend(out, Expanded(rest, env)) == if r.Err? then r else Prepend(out + text + r.value, Expanded(more, env))
  {
    hide LookAt, Expanded, HoleOf, HoleValue;
    OneStep(rest, env);
    var r := HoleValue(HoleOf(expr), env);
    if r.Ok? {
      PrependTwice(out, text + r.value, Expanded(more, env));
      assert out + (text + r.value) == out + text + r.value;
    }
  }

  lemma Ends(out: string, rest: string, env: Env)
    ensures LookAt(rest).Nothing? ==> Prepend(out, Expanded(rest, env)) == Ok(out + rest)
    ensures LookAt(rest).Dangling? ==> Prepend(out, Expanded(rest, env)) == Err(Unclosed(LookAt(rest).tail))
  {
    hide LookAt, Expanded;
    OneStep(rest, env);
  }

  method ExpandEnv(input: string, env: Env) returns (r: Result<string, EnvError>)
    ensures r == Expanded(input, env)
  {
    hide Expanded, OccursAt, LookAt, Prepend;
    var out := "";
    var rest := input;
    PrependNothing(Expanded(input, env));
    while true
      invariant Expanded(input, env) == Prepend(out, Expanded(rest, env))
      decreases |rest|
    {
      LookCases(rest);
      Ends(out, rest, env);
      var start := Index(rest, "${");
      if start < 0 {
        out := out + rest;
        break;
      }
      var end := Index(rest[start..], "}");
      if end < 0 {
        return Err(Unclosed(rest[start..]));
      }
      var expr := rest[start + 2..start + end];
      Continues(out, rest[..start], expr, rest[start + end + 1..], rest, env);
      var colon := Index(expr, ":");
      var name := if colon < 0 then expr else expr[..colon];
      var value;
      if name in env {
        value := env[name];
      } else if colon >= 0 {
        value := expr[colon + 1..];
      } else {
        return Err(Unset(name));
      }
      out := out + rest[..start] + value;
      rest := rest[start + end + 1..];
    }
    return Ok(out);
  }

  lemma PrependNothing(r: Result<string, EnvError>)
    ensures Prepend("", r) == r
  {
    assert r.Ok? ==> "" + r.value == r.value;
  }

  /** Expanding a printed template gives its value. */
  lemma ExpandsWhatIsPrinted(t: Template, env: Env)
    requires Good(t)
    ensures Expanded(Print(t), env) == Value(t.segments, t.unclosed, env)
  {
    ScanUndoesPrint(t);
  }

  /** A placeholder stands for the variable if it is set, even to nothing, and else for its default, which may
      hold colons; the text around it stays, and what replaced it is not read again. */
  lemma PlaceholderValue(text: string, name: string, fallback: Option<string>, more: string, env: Env)
    requires !Contains(text, "${") && ':' !in name && '}' !in name && (fallback.Some? ==> '}' !in fallback.value)
    ensures var written := match fallback
                           case None => "${" + name + "}" + more
                           case Some(default_) => "${" + name + ":" + default_ + "}" + more;
            var rest := Expanded(more, env);
            Expanded(text + written, env) ==
            if name in env then (if rest.Ok? then Ok(text + env[name] + rest.value) else rest)
            else if fallback.Some? then (if rest.Ok? then Ok(text + fallback.value + rest.value) else rest)
            else Err(Unset(name))
  {
    EnclosedText(name, fallback, more);
    ExpandsHole(text, Hole(name, fallback), more, env);
    hide Expanded, Contains, Enclosed, Inner;
  }

  lemma EnclosedText(name: string, fallback: Option<string>, more: string)
    ensures Enclosed(Inner(Hole(name, fallback)), more) ==
            match fallback
            case None => "${" + name + "}" + more
            case Some(default_) => "${" + name + ":" + default_ + "}" + more
  {
    match fallback
    case None => assert Inner(Hole(name, None)) == name;
    case Some(default_) => assert "${" + name + ":" + default_ == "${" + (name + (":" + default_));
  }

  lemma ExpandsHole(text: string, hole: Segment, more: string, env: Env)
    requires !Contains(text, "${") && hole.Hole? && GoodSegment(hole)
    ensures var r, rest := HoleValue(hole, env), Expanded(more, env);
            Expanded(text + Enclosed(Inner(hole), more), env) ==
            if r.Err? then r else if rest.Ok? then Ok(text + r.value + rest.value) else rest
  {
    HoleOfInner(hole);
    FindsHole(text, Inner(hole), more);
    hide LookAt, Expanded, HoleOf, Inner, Contains, Enclosed, HoleValue;
    OneStep(text + Enclosed(Inner(hole), more), env);
  }

  /** Text without an opening stays as it is, and an opening without an end fails with all that follows it. */
  lemma NoPlaceholder(text: string, tail: string, env: Env)
    requires !Contains(text, "${") && '}' !in tail
    ensures Expanded(text, env) == Ok(text)
    ensures Expanded(text + ("${" + tail), env) == Err(Unclosed("${" + tail))
  {
    FindsNothing(text);
    OneStep(text, env);
    assert ("${" + tail)[0..2] == "${";
    FindsDangling(text, "${" + tail);
    OneStep(text + ("${" + tail), env);
  }
}
