/** A statement can be read back from its text: with plain names no two statements of the write builder are
    sent as the same query with the same arguments (mysqlx/mysqlx.go:246-308). */
module StatementText {
  import opened Results
  import opened WriteBuilder

  /** The characters that end a name in the rendered text. */
  const STOPS: set<char> := {' ', ',', ')', '?'}

  predicate Name(s: string) {
    forall i :: 0 <= i < |s| ==> s[i] !in STOPS
  }

  predicate NamedChange(c: Change) {
    c.Assign? ==> Name(c.column)
  }

  predicate Named(stmt: Statement) {
    && Name(stmt.table)
    && match stmt
       case InsertInto(_, fields) => fields != [] && forall i :: 0 <= i < |fields| ==> Name(fields[i].column)
       case UpdateWhere(_, sets, _, _) =>
         sets != [] && forall i :: 0 <= i < |sets| ==> NamedChange(sets[i])
  }

  lemma Cut(x: string, r: string, y: string, q: string)
    requires Name(x) && Name(y) && r != "" && q != "" && r[0] in STOPS && q[0] in STOPS
    requires x + r == y + q
    ensures x == y && r == q
  {
    var text := x + r;
    assert forall i :: 0 <= i < |x| ==> text[i] == x[i];
    assert forall i :: 0 <= i < |y| ==> text[i] == y[i];
    assert text[|x|] in STOPS && text[|y|] in STOPS;
    assert text[..|x|] == x && text[|x|..] == r && text[..|y|] == y && text[|y|..] == q;
  }

  lemma Strip(a: string, x: string, y: string)
    requires a + x == a + y
    ensures x == y
  {
    assert (a + x)[|a|..] == x && (a + y)[|a|..] == y;
  }

  // ---- one SET entry ----

  function Target(c: Change): string {
    match c
    case Assign(column, _) => column
    case Bump => "version"
    case Retire => "is_deleted"
  }

  function Source(c: Change): string {
    match c
    case Assign(_, _) => "?"
    case Bump => "version + 1"
    case Retire => "1"
  }

  lemma ChangeParts(c: Change)
    ensures ChangeText(c, QuestionMark) == Target(c) + " = " + Source(c)
  {
  }

  predicate SameChange(c: Change, d: Change) {
    c.Assign? == d.Assign? && c.Bump? == d.Bump? && (c.Assign? ==> c.column == d.column)
  }

  lemma Grouped(a: string, b: string, c: string, d: string)
    ensures a + b + c + d == a + (b + (c + d))
  {
  }

  lemma ChangeDetermined(c: Change, r: string, d: Change, q: string)
    requires NamedChange(c) && NamedChange(d) && r != "" && q != ""
    requires ChangeText(c, QuestionMark) + r == ChangeText(d, QuestionMark) + q
    ensures SameChange(c, d) && r == q
  {
    ChangeParts(c);
    ChangeParts(d);
    Grouped(Target(c), " = ", Source(c), r);
    Grouped(Target(d), " = ", Source(d), q);
    Cut(Target(c), " = " + (Source(c) + r), Target(d), " = " + (Source(d) + q));
    Strip(" = ", Source(c) + r, Source(d) + q);
    assert (Source(c) + r)[0] == Source(c)[0] && (Source(d) + q)[0] == Source(d)[0];
    Strip(Source(c), r, q);
  }

  // ---- the SET list ----

  predicate SameChanges(s: seq<Change>, t: seq<Change>) {
    |s| == |t| && forall i :: 0 <= i < |s| ==> SameChange(s[i], t[i])
  }

  lemma FirstChange(sets: seq<Change>, w: string)
    requires sets != []
    ensures Join(ChangeTexts(sets, QuestionMark), ", ") + w ==
            ChangeText(sets[0], QuestionMark)
            + if |sets| == 1 then w else ", " + (Join(ChangeTexts(sets[1..], QuestionMark), ", ") + w)
  {
    hide ChangeTexts, Join;
    ChangeTextsSplit(sets, QuestionMark);
    if |sets| > 1 {
      Grouped(ChangeText(sets[0], QuestionMark), ", ", Join(ChangeTexts(sets[1..], QuestionMark), ", "), w);
    }
  }

  lemma {:induction false} ChangesDetermined(s: seq<Change>, w: string, t: seq<Change>, v: string)
    requires s != [] && t != [] && w != "" && v != "" && w[0] == ' ' == v[0]
    requires forall i :: 0 <= i < |s| ==> NamedChange(s[i])
    requires forall i :: 0 <= i < |t| ==> NamedChange(t[i])
    requires Join(ChangeTexts(s, QuestionMark), ", ") + w == Join(ChangeTexts(t, QuestionMark), ", ") + v
    ensures SameChanges(s, t) && w == v
  {
    hide ChangeTexts, Join, ChangeText, SameChange;
    FirstChange(s, w);
    FirstChange(t, v);
    var r := if |s| == 1 then w else ", " + (Join(ChangeTexts(s[1..], QuestionMark), ", ") + w);
    var q := if |t| == 1 then v else ", " + (Join(ChangeTexts(t[1..], QuestionMark), ", ") + v);
    ChangeDetermined(s[0], r, t[0], q);
    assert |s| == 1 <==> r[0] == ' ';
    if |s| > 1 {
      Strip(", ", Join(ChangeTexts(s[1..], QuestionMark), ", ") + w, Join(ChangeTexts(t[1..], QuestionMark), ", ") + v);
      ChangesDetermined(s[1..], w, t[1..], v);
      assert forall i :: 0 < i < |s| ==> s[i] == s[1..][i - 1] && t[i] == t[1..][i - 1];
    }
  }

  lemma {:induction false} ArgsDetermineChanges(s: seq<Change>, x: seq<Value>, t: seq<Change>, y: seq<Value>)
    requires SameChanges(s, t) && ChangeArgs(s) + x == ChangeArgs(t) + y
    ensures s == t && x == y
  {
    if s == [] {
      assert ChangeArgs(s) + x == x && ChangeArgs(t) + y == y;
    } else {
      assert SameChange(s[0], t[0]);
      if s[0].Assign? {
        assert (ChangeArgs(s) + x)[1..] == ChangeArgs(s[1..]) + x;
        assert (ChangeArgs(t) + y)[1..] == ChangeArgs(t[1..]) + y;
        assert s[0].value == (ChangeArgs(s) + x)[0] == (ChangeArgs(t) + y)[0] == t[0].value;
      } else {
        assert ChangeArgs(s) == ChangeArgs(s[1..]) && ChangeArgs(t) == ChangeArgs(t[1..]);
      }
      ArgsDetermineChanges(s[1..], x, t[1..], y);
      assert s == [s[0]] + s[1..] && t == [t[0]] + t[1..];
    }
  }

  // ---- column lists ----

  lemma {:induction false} ColumnsDetermined(s: seq<string>, w: string, t: seq<string>, v: string)
    requires s != [] && t != [] && w != "" && v != "" && w[0] == ')' == v[0]
    requires forall i :: 0 <= i < |s| ==> Name(s[i])
    requires forall i :: 0 <= i < |t| ==> Name(t[i])
    requires Join(s, ", ") + w == Join(t, ", ") + v
    ensures s == t
  {
    var r := if |s| == 1 then w else ", " + (Join(s[1..], ", ") + w);
    var q := if |t| == 1 then v else ", " + (Join(t[1..], ", ") + v);
    assert Join(s, ", ") + w == s[0] + r;
    assert Join(t, ", ") + v == t[0] + q;
    Cut(s[0], r, t[0], q);
    assert |s| == 1 <==> r[0] == ')';
    if |s| > 1 {
      Strip(", ", Join(s[1..], ", ") + w, Join(t[1..], ", ") + v);
      ColumnsDetermined(s[1..], w, t[1..], v);
      assert s == [s[0]] + s[1..] && t == [t[0]] + t[1..];
    } else {
      assert s == [s[0]] && t == [t[0]];
    }
  }

  // ---- statements ----

  /** The text after the SET list. */
  function Tail(version: Option<int>): string {
    if version.Some? then LIVE_ROW + " AND version = ?" else LIVE_ROW
  }

  lemma UpdateParts(table: string, sets: seq<Change>, id: string, version: Option<int>)
    ensures Rendered(UpdateWhere(table, sets, id, version), QuestionMark) ==
            "UPDATE " + (table + (" SET " + (Join(ChangeTexts(sets, QuestionMark), ", ") + Tail(version))))
  {
    hide Rendered, ChangeTexts, Join, LIVE_ROW;
    UpdateText(table, sets, id, version);
    var changes := Join(ChangeTexts(sets, QuestionMark), ", ");
    if version.Some? {
      SixParts("UPDATE ", table, " SET ", changes, LIVE_ROW, " AND version = ?");
    } else {
      SixParts("UPDATE ", table, " SET ", changes, LIVE_ROW, "");
      assert LIVE_ROW + "" == LIVE_ROW;
      assert "UPDATE " + table + " SET " + changes + LIVE_ROW + "" == "UPDATE " + table + " SET " + changes + LIVE_ROW;
    }
  }

  lemma SixParts(a: string, b: string, c: string, d: string, e: string, f: string)
    ensures a + b + c + d + e + f == a + (b + (c + (d + (e + f))))
  {
    Grouped(a + b + c, d, e, f);
    Grouped(a, b, c, d + (e + f));
  }

  lemma UpdateDetermined(a: Statement, b: Statement)
    requires Named(a) && Named(b) && a.UpdateWhere? && b.UpdateWhere? && CommandOf(a) == CommandOf(b)
    ensures a == b
  {
    hide Rendered, ChangeTexts, Join, LIVE_ROW, SameChange;
    UpdateParts(a.table, a.sets, a.id, a.version);
    UpdateParts(b.table, b.sets, b.id, b.version);
    var s := Join(ChangeTexts(a.sets, QuestionMark), ", ") + Tail(a.version);
    var t := Join(ChangeTexts(b.sets, QuestionMark), ", ") + Tail(b.version);
    Strip("UPDATE ", a.table + (" SET " + s), b.table + (" SET " + t));
    Cut(a.table, " SET " + s, b.table, " SET " + t);
    Strip(" SET ", s, t);
    TailStarts(a.version);
    TailStarts(b.version);
    ChangesDetermined(a.sets, Tail(a.version), b.sets, Tail(b.version));
    TailDetermines(a.version, b.version);
    var x, y := [Text(a.id)] + GuardArgs(a.version), [Text(b.id)] + GuardArgs(b.version);
    assert Arguments(a) == ChangeArgs(a.sets) + x && Arguments(b) == ChangeArgs(b.sets) + y;
    ArgsDetermineChanges(a.sets, x, b.sets, y);
    assert x[0] == Text(a.id) && y[0] == Text(b.id);
    if a.version.Some? {
      assert x[1] == Int(a.version.value) && y[1] == Int(b.version.value);
    }
  }

  lemma TailStarts(version: Option<int>)
    ensures Tail(version) != "" && Tail(version)[0] == ' '
  {
  }

  lemma TailDetermines(v: Option<int>, w: Option<int>)
    requires Tail(v) == Tail(w)
    ensures v.Some? == w.Some?
  {
    assert |LIVE_ROW + " AND version = ?"| > |LIVE_ROW|;
  }

  lemma InsertDetermined(a: Statement, b: Statement)
    requires Named(a) && Named(b) && a.InsertInto? && b.InsertInto? && CommandOf(a) == CommandOf(b)
    ensures a == b
  {
    hide Join, Slots, Columns;
    var s := ") VALUES (" + Join(Slots(a.fields, QuestionMark), ", ") + ")";
    var t := ") VALUES (" + Join(Slots(b.fields, QuestionMark), ", ") + ")";
    InsertParts(a.table, a.fields, s);
    InsertParts(b.table, b.fields, t);
    var x, y := Join(Columns(a.fields), ", ") + s, Join(Columns(b.fields), ", ") + t;
    Strip("INSERT INTO ", a.table + (" (" + x), b.table + (" (" + y));
    Cut(a.table, " (" + x, b.table, " (" + y);
    Strip(" (", x, y);
    ColumnsOf(a.fields);
    ColumnsOf(b.fields);
    ColumnsDetermined(Columns(a.fields), s, Columns(b.fields), t);
    forall i | 0 <= i < |a.fields| ensures |b.fields| == |a.fields| && a.fields[i] == b.fields[i] {
      assert Columns(a.fields)[i] == Columns(b.fields)[i];
      assert Values(a.fields)[i] == a.fields[i].value && Values(b.fields)[i] == b.fields[i].value;
    }
    assert Values(a.fields) == Values(b.fields);
  }

  lemma ColumnsOf(fields: seq<Field>)
    ensures |Columns(fields)| == |fields|
    ensures forall i :: 0 <= i < |fields| ==> Columns(fields)[i] == fields[i].column
  {
  }

  lemma InsertParts(table: string, fields: seq<Field>, s: string)
    requires s == ") VALUES (" + Join(Slots(fields, QuestionMark), ", ") + ")"
    ensures Rendered(InsertInto(table, fields), QuestionMark) ==
            "INSERT INTO " + (table + (" (" + (Join(Columns(fields), ", ") + s)))
  {
    hide Join, Slots, Columns;
    var columns, slots := Join(Columns(fields), ", "), Join(Slots(fields, QuestionMark), ", ");
    SevenParts("INSERT INTO ", table, " (", columns, ") VALUES (", slots, ")");
  }

  lemma SevenParts(a: string, b: string, c: string, d: string, e: string, f: string, g: string)
    ensures a + b + c + d + e + f + g == a + (b + (c + (d + (e + f + g))))
  {
    Grouped(a + b + c + d, e, f, g);
    Grouped(a + b, c, d, e + f + g);
    assert a + b + (c + (d + (e + f + g))) == a + (b + (c + (d + (e + f + g))));
  }

  /** Query and arguments determine the statement. */
  lemma CommandDeterminesStatement(a: Statement, b: Statement)
    requires Named(a) && Named(b) && CommandOf(a) == CommandOf(b)
    ensures a == b
  {
    if a.InsertInto? != b.InsertInto? {
      FirstLetter(a);
      FirstLetter(b);
    } else if a.InsertInto? {
      InsertDetermined(a, b);
    } else {
      UpdateDetermined(a, b);
    }
  }

  lemma FirstLetter(stmt: Statement)
    ensures Rendered(stmt, QuestionMark) != ""
    ensures Rendered(stmt, QuestionMark)[0] == if stmt.InsertInto? then 'I' else 'U'
  {
  }
}
