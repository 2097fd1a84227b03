/** The SQL write builder (mysqlx/mysqlx.go): statements rendered with '?' marks and a list of arguments. */
module WriteBuilder {
  import opened Results

  /** A Go argument. Nil is the nil interface; Null is any other value the driver sends as NULL, such as an
      invalid sql.NullString or a typed nil pointer. */
  datatype Value = Nil | Null | Int(n: int) | Text(s: string)

  datatype Field = Field(column: string, value: Value)

  /** One entry of a SET list. */
  datatype Change = Assign(column: string, value: Value) | Bump | Retire

  datatype Statement =
    | InsertInto(table: string, fields: seq<Field>)
    | UpdateWhere(table: string, sets: seq<Change>, id: string, version: Option<int>)

  const LIVE_ROW := " WHERE id = ? AND is_deleted = 0"

  type Slot = Value -> string

  /** strings.Join */
  function Join(parts: seq<string>, sep: string): string {
    if parts == [] then ""
    else if |parts| == 1 then parts[0]
    else parts[0] + sep + Join(parts[1..], sep)
  }

  function ChangeText(c: Change, slot: Slot): string {
    match c
    case Assign(column, value) => column + " = " + slot(value)
    case Bump => "version = version + 1"
    case Retire => "is_deleted = 1"
  }

  function ChangeTexts(sets: seq<Change>, slot: Slot): seq<string> {
    seq(|sets|, i requires 0 <= i < |sets| => ChangeText(sets[i], slot))
  }

  function Columns(fields: seq<Field>): seq<string> {
    seq(|fields|, i requires 0 <= i < |fields| => fields[i].column)
  }

  function Values(fields: seq<Field>): seq<Value> {
    seq(|fields|, i requires 0 <= i < |fields| => fields[i].value)
  }

  function Slots(fields: seq<Field>, slot: Slot): seq<string> {
    seq(|fields|, i requires 0 <= i < |fields| => slot(fields[i].value))
  }

  /** The statement as SQL text, with each value shown by the slot. */
  function Rendered(stmt: Statement, slot: Slot): string {
    match stmt
    case InsertInto(table, fields) =>
      "INSERT INTO " + table + " (" + Join(Columns(fields), ", ") + ") VALUES (" + Join(Slots(fields, slot), ", ") + ")"
    case UpdateWhere(table, sets, id, version) =>
      var query := "UPDATE " + table + " SET " + Join(ChangeTexts(sets, slot), ", ") + " WHERE id = " + slot(Text(id)) + " AND is_deleted = 0";
      match version
      case None => query
      case Some(v) => query + " AND version = " + slot(Int(v))
  }

  /** The text sent to the database: every value is a mark. */
  function QuestionMark(v: Value): string {
    "?"
  }

  function ChangeArgs(sets: seq<Change>): seq<Value> {
    if sets == [] then []
    else (if sets[0].Assign? then [sets[0].value] else []) + ChangeArgs(sets[1..])
  }

  function GuardArgs(version: Option<int>): seq<Value> {
    match version
    case None => []
    case Some(v) => [Int(v)]
  }

  function Arguments(stmt: Statement): seq<Value> {
    match stmt
    case InsertInto(_, fields) => Values(fields)
    case UpdateWhere(_, sets, id, version) => ChangeArgs(sets) + [Text(id)] + GuardArgs(version)
  }

  // ---- binding: the k-th mark takes the k-th argument ----

  function Marks(text: string): nat {
    if text == "" then 0 else (if text[0] == '?' then 1 else 0) + Marks(text[1..])
  }

  /** The text with its marks replaced from left to right; what replaces a mark is not looked at again. */
  function Bind(text: string, args: seq<Value>, show: Slot): string {
    if text == "" then ""
    else if text[0] == '?' && args != [] then show(args[0]) + Bind(text[1..], args[1..], show)
    else [text[0]] + Bind(text[1..], args, show)
  }

  /** Binding the arguments in the template gives the text, with as many arguments as marks. */
  predicate Binds(template: string, args: seq<Value>, show: Slot, text: string) {
    Marks(template) == |args| && Bind(template, args, show) == text
  }

  lemma {:induction false} BindConcat(a: string, b: string, xs: seq<Value>, ys: seq<Value>, show: Slot)
    requires Marks(a) == |xs|
    ensures Bind(a + b, xs + ys, show) == Bind(a, xs, show) + Bind(b, ys, show)
    ensures Marks(a + b) == |xs| + Marks(b)
  {
    if a == "" {
      assert a + b == b && xs + ys == ys;
    } else {
      assert (a + b)[1..] == a[1..] + b && (a + b)[0] == a[0];
      if a[0] == '?' {
        assert (xs + ys)[1..] == xs[1..] + ys && (xs + ys)[0] == xs[0];
        BindConcat(a[1..], b, xs[1..], ys, show);
      } else {
        BindConcat(a[1..], b, xs, ys, show);
      }
    }
  }

  lemma Then(a: string, xs: seq<Value>, p: string, b: string, ys: seq<Value>, q: string, show: Slot)
    requires Binds(a, xs, show, p) && Binds(b, ys, show, q)
    ensures Binds(a + b, xs + ys, show, p + q)
  {
    BindConcat(a, b, xs, ys, show);
  }

  lemma {:induction false} PlainText(a: string, show: Slot)
    requires '?' !in a
    ensures Binds(a, [], show, a)
  {
    if a != "" {
      PlainText(a[1..], show);
    }
  }

  lemma ThenPlain(a: string, xs: seq<Value>, p: string, b: string, show: Slot)
    requires Binds(a, xs, show, p) && '?' !in b
    ensures Binds(a + b, xs, show, p + b)
  {
    PlainText(b, show);
    Then(a, xs, p, b, [], b, show);
    assert xs + [] == xs;
  }

  lemma ThenMark(a: string, xs: seq<Value>, p: string, v: Value, show: Slot)
    requires Binds(a, xs, show, p)
    ensures Binds(a + QuestionMark(v), xs + [v], show, p + show(v))
  {
    OneMark(v, show);
    Then(a, xs, p, QuestionMark(v), [v], show(v), show);
  }

  lemma OneMark(v: Value, show: Slot)
    ensures Binds(QuestionMark(v), [v], show, show(v))
  {
    assert QuestionMark(v)[1..] == "";
    assert show(v) + Bind("", [], show) == show(v);
  }

  predicate PlainChange(c: Change) {
    c.Assign? ==> '?' !in c.column
  }

  /** No table or column name holds a question mark. */
  predicate PlainNames(stmt: Statement) {
    && '?' !in stmt.table
    && match stmt
       case InsertInto(_, fields) => forall i :: 0 <= i < |fields| ==> '?' !in fields[i].column
       case UpdateWhere(_, sets, _, _) => forall i :: 0 <= i < |sets| ==> PlainChange(sets[i])
  }

  lemma OneChange(c: Change)
    ensures ChangeArgs([c]) == if c.Assign? then [c.value] else []
  {
    assert [c][1..] == [];
  }

  lemma BindChange(c: Change, show: Slot)
    requires PlainChange(c)
    ensures Binds(ChangeText(c, QuestionMark), ChangeArgs([c]), show, ChangeText(c, show))
  {
    hide Binds;
    OneChange(c);
    match c
    case Assign(column, value) =>
      PlainText(column + " = ", show);
      ThenMark(column + " = ", [], column + " = ", value, show);
      assert [] + [value] == [value];
    case Bump => PlainText("version = version + 1", show);
    case Retire => PlainText("is_deleted = 1", show);
  }

  lemma ChangeTextsSplit(sets: seq<Change>, slot: Slot)
    requires sets != []
    ensures Join(ChangeTexts(sets, slot), ", ") ==
            if |sets| == 1 then ChangeText(sets[0], slot)
            else ChangeText(sets[0], slot) + ", " + Join(ChangeTexts(sets[1..], slot), ", ")
  {
    assert ChangeTexts(sets, slot)[1..] == ChangeTexts(sets[1..], slot);
  }

  lemma ChangeArgsSplit(sets: seq<Change>)
    requires sets != []
    ensures ChangeArgs(sets) == ChangeArgs([sets[0]]) + ChangeArgs(sets[1..])
    ensures |sets| == 1 ==> ChangeArgs(sets) == ChangeArgs([sets[0]])
  {
    OneChange(sets[0]);
  }

  lemma {:induction false} BindChanges(sets: seq<Change>, show: Slot)
    requires forall i :: 0 <= i < |sets| ==> PlainChange(sets[i])
    ensures Binds(Join(ChangeTexts(sets, QuestionMark), ", "), ChangeArgs(sets), show, Join(ChangeTexts(sets, show), ", "))
    decreases |sets|
  {
    if sets == [] {
      PlainText("", show);
    } else {
      hide Binds, ChangeTexts, ChangeText, ChangeArgs, Join, QuestionMark;
      ChangeTextsSplit(sets, QuestionMark);
      ChangeTextsSplit(sets, show);
      ChangeArgsSplit(sets);
      BindChange(sets[0], show);
      if |sets| > 1 {
        BindChanges(sets[1..], show);
        Listed(ChangeText(sets[0], QuestionMark), ChangeArgs([sets[0]]), ChangeText(sets[0], show),
               Join(ChangeTexts(sets[1..], QuestionMark), ", "), ChangeArgs(sets[1..]),
               Join(ChangeTexts(sets[1..], show), ", "), show);
      }
    }
  }

  lemma Listed(a: string, xs: seq<Value>, p: string, b: string, ys: seq<Value>, q: string, show: Slot)
    requires Binds(a, xs, show, p) && Binds(b, ys, show, q)
    ensures Binds(a + ", " + b, xs + ys, show, p + ", " + q)
  {
    hide Binds;
    ThenPlain(a, xs, p, ", ", show);
    Then(a + ", ", xs, p + ", ", b, ys, q, show);
  }

  lemma SlotsSplit(fields: seq<Field>, slot: Slot)
    requires fields != []
    ensures Join(Slots(fields, slot), ", ") ==
            if |fields| == 1 then slot(fields[0].value)
            else slot(fields[0].value) + ", " + Join(Slots(fields[1..], slot), ", ")
  {
    assert Slots(fields, slot)[1..] == Slots(fields[1..], slot);
  }

  lemma {:induction false} BindSlots(fields: seq<Field>, show: Slot)
    ensures Binds(Join(Slots(fields, QuestionMark), ", "), Values(fields), show, Join(Slots(fields, show), ", "))
    decreases |fields|
  {
    if fields == [] {
      PlainText("", show);
      assert Values(fields) == [];
    } else {
      hide Binds, Slots, QuestionMark;
      SlotsSplit(fields, QuestionMark);
      SlotsSplit(fields, show);
      var v := fields[0].value;
      OneMark(v, show);
      assert Values(fields) == [v] + Values(fields[1..]);
      if |fields| == 1 {
        assert Values(fields) == [v];
      } else {
        BindSlots(fields[1..], show);
        ThenPlain(QuestionMark(v), [v], show(v), ", ", show);
        Then(QuestionMark(v) + ", ", [v], show(v) + ", ", Join(Slots(fields[1..], QuestionMark), ", "), Values(fields[1..]),
             Join(Slots(fields[1..], show), ", "), show);
      }
    }
  }

  lemma {:induction false} JoinPlain(parts: seq<string>, sep: string)
    requires '?' !in sep && forall i :: 0 <= i < |parts| ==> '?' !in parts[i]
    ensures '?' !in Join(parts, sep)
  {
    if |parts| > 1 {
      JoinPlain(parts[1..], sep);
    }
  }

  /** With plain names the marks and the arguments agree in number, and binding them gives the statement
      with its own values in place: kept columns, then the id, then the expected version. */
  lemma BindingIsFaithful(stmt: Statement, show: Slot)
    requires PlainNames(stmt)
    ensures Binds(Rendered(stmt, QuestionMark), Arguments(stmt), show, Rendered(stmt, show))
  {
    match stmt
    case InsertInto(table, fields) => BindInsert(table, fields, show);
    case UpdateWhere(table, sets, id, version) => BindUpdate(table, sets, id, version, show);
  }

  lemma BindInsert(table: string, fields: seq<Field>, show: Slot)
    requires PlainNames(InsertInto(table, fields))
    ensures var stmt := InsertInto(table, fields);
            Binds(Rendered(stmt, QuestionMark), Arguments(stmt), show, Rendered(stmt, show))
  {
    hide Binds, Slots, Join, QuestionMark;
    var columns := Join(Columns(fields), ", ");
    JoinPlain(Columns(fields), ", ");
    var head := "INSERT INTO " + table + " (" + columns + ") VALUES (";
    PlainText(head, show);
    var template, text := Join(Slots(fields, QuestionMark), ", "), Join(Slots(fields, show), ", ");
    BindSlots(fields, show);
    Then(head, [], head, template, Values(fields), text, show);
    assert [] + Values(fields) == Values(fields);
    ThenPlain(head + template, Values(fields), head + text, ")", show);
  }

  lemma BindUpdate(table: string, sets: seq<Change>, id: string, version: Option<int>, show: Slot)
    requires PlainNames(UpdateWhere(table, sets, id, version))
    ensures var stmt := UpdateWhere(table, sets, id, version);
            Binds(Rendered(stmt, QuestionMark), Arguments(stmt), show, Rendered(stmt, show))
  {
    hide Binds, ChangeTexts, Join, QuestionMark;
    var head := "UPDATE " + table + " SET ";
    PlainText(head, show);
    var template, text := Join(ChangeTexts(sets, QuestionMark), ", "), Join(ChangeTexts(sets, show), ", ");
    var args := ChangeArgs(sets);
    BindChanges(sets, show);
    Then(head, [], head, template, args, text, show);
    assert [] + args == args;
    template, text := head + template, head + text;
    ThenPlain(template, args, text, " WHERE id = ", show);
    template, text := template + " WHERE id = ", text + " WHERE id = ";
    ThenMark(template, args, text, Text(id), show);
    template, text, args := template + QuestionMark(Text(id)), text + show(Text(id)), args + [Text(id)];
    ThenPlain(template, args, text, " AND is_deleted = 0", show);
    template, text := template + " AND is_deleted = 0", text + " AND is_deleted = 0";
    match version
    case None =>
      assert args + [] == args && template + "" == template && text + "" == text;
    case Some(v) =>
      ThenPlain(template, args, text, " AND version = ", show);
      template, text := template + " AND version = ", text + " AND version = ";
      ThenMark(template, args, text, Int(v), show);
  }

  // ---- how many marks there are ----

  lemma {:induction false} MarksAdd(a: string, b: string)
    ensures Marks(a + b) == Marks(a) + Marks(b)
  {
    if a == "" {
      assert a + b == b;
    } else {
      assert (a + b)[1..] == a[1..] + b;
      MarksAdd(a[1..], b);
    }
  }

  lemma {:induction false} NoMarks(a: string)
    ensures Marks(a) == 0 <==> '?' !in a
  {
    if a != "" {
      NoMarks(a[1..]);
      assert '?' in a <==> a[0] == '?' || '?' in a[1..];
    }
  }

  /** The marks in all the parts. */
  function TotalMarks(parts: seq<string>): nat {
    if parts == [] then 0 else Marks(parts[0]) + TotalMarks(parts[1..])
  }

  lemma {:induction false} JoinMarks(parts: seq<string>)
    ensures Marks(Join(parts, ", ")) == TotalMarks(parts)
  {
    if |parts| > 1 {
      NoMarks(", ");
      MarksAdd(parts[0], ", ");
      MarksAdd(parts[0] + ", ", Join(parts[1..], ", "));
      JoinMarks(parts[1..]);
    }
  }

  lemma {:induction false} NoneMarked(parts: seq<string>)
    ensures TotalMarks(parts) == 0 <==> forall i :: 0 <= i < |parts| ==> '?' !in parts[i]
  {
    if parts != [] {
      NoMarks(parts[0]);
      NoneMarked(parts[1..]);
      assert forall i :: 0 < i < |parts| ==> parts[i] == parts[1..][i - 1];
      assert forall i :: 0 <= i < |parts| - 1 ==> parts[1..][i] == parts[i + 1];
    }
  }

  function Names(stmt: Statement): seq<string> {
    match stmt
    case InsertInto(table, fields) => [table] + Columns(fields)
    case UpdateWhere(table, sets, _, _) => [table] + SetColumns(sets)
  }

  function SetColumns(sets: seq<Change>): seq<string> {
    seq(|sets|, i requires 0 <= i < |sets| => if sets[i].Assign? then sets[i].column else "")
  }

  lemma {:induction false} SlotMarks(fields: seq<Field>)
    ensures TotalMarks(Slots(fields, QuestionMark)) == |fields|
  {
    if fields != [] {
      var slots := Slots(fields, QuestionMark);
      assert slots[1..] == Slots(fields[1..], QuestionMark);
      assert slots[0] == QuestionMark(fields[0].value) == "?";
      SingleMark();
      SlotMarks(fields[1..]);
    }
  }

  lemma ChangeMarks(c: Change)
    ensures Marks(ChangeText(c, QuestionMark)) == |ChangeArgs([c])| + if c.Assign? then Marks(c.column) else 0
  {
    hide Marks;
    OneChange(c);
    match c
    case Assign(column, value) =>
      NoMarks(" = ");
      MarksAdd(column, " = ");
      SingleMark();
      MarksAdd(column + " = ", "?");
    case Bump => NoMarks("version = version + 1");
    case Retire => NoMarks("is_deleted = 1");
  }

  lemma {:induction false} ChangesMarks(sets: seq<Change>)
    ensures TotalMarks(ChangeTexts(sets, QuestionMark)) == |ChangeArgs(sets)| + TotalMarks(SetColumns(sets))
  {
    if sets != [] {
      assert ChangeTexts(sets, QuestionMark)[1..] == ChangeTexts(sets[1..], QuestionMark);
      assert SetColumns(sets)[1..] == SetColumns(sets[1..]);
      ChangesMarks(sets[1..]);
      ChangeMarks(sets[0]);
    }
  }

  lemma InsertMarks(table: string, fields: seq<Field>)
    ensures var stmt := InsertInto(table, fields);
            Marks(Rendered(stmt, QuestionMark)) == |Arguments(stmt)| + TotalMarks(Names(stmt))
  {
    hide Marks, Join, Slots, Columns, QuestionMark;
    var columns, slots := Join(Columns(fields), ", "), Join(Slots(fields, QuestionMark), ", ");
    JoinMarks(Columns(fields));
    JoinMarks(Slots(fields, QuestionMark));
    SlotMarks(fields);
    assert ([table] + Columns(fields))[1..] == Columns(fields);
    NoMarks("INSERT INTO ");
    MarksAdd("INSERT INTO ", table);
    NoMarks(" (");
    MarksAdd("INSERT INTO " + table, " (");
    MarksAdd("INSERT INTO " + table + " (", columns);
    NoMarks(") VALUES (");
    MarksAdd("INSERT INTO " + table + " (" + columns, ") VALUES (");
    MarksAdd("INSERT INTO " + table + " (" + columns + ") VALUES (", slots);
    NoMarks(")");
    MarksAdd("INSERT INTO " + table + " (" + columns + ") VALUES (" + slots, ")");
  }

  lemma UpdateMarks(table: string, sets: seq<Change>, id: string, version: Option<int>)
    ensures var stmt := UpdateWhere(table, sets, id, version);
            Marks(Rendered(stmt, QuestionMark)) == |Arguments(stmt)| + TotalMarks(Names(stmt))
  {
    hide Marks, Join, ChangeTexts, SetColumns, ChangeArgs;
    var changes := Join(ChangeTexts(sets, QuestionMark), ", ");
    JoinMarks(ChangeTexts(sets, QuestionMark));
    ChangesMarks(sets);
    assert ([table] + SetColumns(sets))[1..] == SetColumns(sets);
    NoMarks("UPDATE ");
    MarksAdd("UPDATE ", table);
    NoMarks(" SET ");
    MarksAdd("UPDATE " + table, " SET ");
    MarksAdd("UPDATE " + table + " SET ", changes);
    WhereMarks("UPDATE " + table + " SET " + changes);
  }

  lemma WhereMarks(query: string)
    ensures Marks(query + " WHERE id = " + "?" + " AND is_deleted = 0") == Marks(query) + 1
    ensures Marks(query + " WHERE id = " + "?" + " AND is_deleted = 0" + " AND version = " + "?") == Marks(query) + 2
  {
    hide Marks;
    NoMarks(" WHERE id = ");
    MarksAdd(query, " WHERE id = ");
    SingleMark();
    MarksAdd(query + " WHERE id = ", "?");
    NoMarks(" AND is_deleted = 0");
    MarksAdd(query + " WHERE id = " + "?", " AND is_deleted = 0");
    var live := query + " WHERE id = " + "?" + " AND is_deleted = 0";
    NoMarks(" AND version = ");
    MarksAdd(live, " AND version = ");
    MarksAdd(live + " AND version = ", "?");
  }

  lemma SingleMark()
    ensures Marks("?") == 1
  {
    assert "?"[1..] == "";
  }

  /** Marks and arguments agree in number exactly when no name holds a question mark. */
  lemma MarksMatchExactly(stmt: Statement)
    ensures Marks(Rendered(stmt, QuestionMark)) == |Arguments(stmt)| <==> PlainNames(stmt)
  {
    match stmt
    case InsertInto(table, fields) =>
      InsertMarks(table, fields);
      NoneMarked(Names(stmt));
      var names := Names(stmt);
      assert names[0] == table && forall i :: 0 <= i < |fields| ==> names[i + 1] == fields[i].column;
    case UpdateWhere(table, sets, id, version) =>
      UpdateMarks(table, sets, id, version);
      NoneMarked(Names(stmt));
      var names := Names(stmt);
      assert names[0] == table;
      assert forall i :: 0 <= i < |sets| ==> names[i + 1] == if sets[i].Assign? then sets[i].column else "";
  }

  // ---- placeholder lists ----

  function Repeat(unit: string, n: nat): string {
    if n == 0 then "" else Repeat(unit, n - 1) + unit
  }

  /** strings.TrimSuffix */
  function TrimSuffix(text: string, suffix: string): string {
    if |suffix| <= |text| && text[|text| - |suffix|..] == suffix then text[..|text| - |suffix|] else text
  }

  function Placeholders(n: int): string {
    if n <= 0 then "" else TrimSuffix(Repeat("?, ", n), ", ")
  }

  function PlaceholdersCompact(n: int): string {
    if n <= 0 then "" else TrimSuffix(Repeat("?,", n), ",")
  }

  lemma {:induction false} RepeatedMarks(sep: string, n: nat)
    requires '?' !in sep
    ensures Repeat("?" + sep, n + 1) == Join(seq(n + 1, _ => "?"), sep) + sep
    ensures Marks(Repeat("?" + sep, n)) == n
  {
    NoMarks(sep);
    SingleMark();
    MarksAdd("?", sep);
    if n > 0 {
      RepeatedMarks(sep, n - 1);
      MarksAdd(Repeat("?" + sep, n - 1), "?" + sep);
      JoinAppend(seq(n, _ => "?"), "?", sep);
      assert seq(n + 1, _ => "?") == seq(n, _ => "?") + ["?"];
    } else {
      assert Repeat("?" + sep, 1) == "" + ("?" + sep);
      assert seq(1, _ => "?") == ["?"];
    }
  }

  lemma {:induction false} JoinAppend(parts: seq<string>, last: string, sep: string)
    requires parts != []
    ensures Join(parts + [last], sep) == Join(parts, sep) + sep + last
  {
    if |parts| == 1 {
      assert (parts + [last])[1..] == [last];
    } else {
      assert (parts + [last])[1..] == parts[1..] + [last];
      JoinAppend(parts[1..], last, sep);
    }
  }

  lemma JoinedMarks(sep: string, n: nat)
    requires '?' !in sep && n > 0
    ensures TrimSuffix(Repeat("?" + sep, n), sep) == Join(seq(n, _ => "?"), sep)
    ensures Marks(Join(seq(n, _ => "?"), sep)) == n
  {
    RepeatedMarks(sep, n - 1);
    RepeatedMarks(sep, n);
    var joined := Join(seq(n, _ => "?"), sep);
    assert (joined + sep)[|joined|..] == sep && (joined + sep)[..|joined|] == joined;
    MarksAdd(joined, sep);
    NoMarks(sep);
  }

  /** n marks between separators, none when n is not positive, in both spellings. */
  lemma PlaceholdersJoinMarks(n: int)
    ensures n <= 0 ==> Placeholders(n) == PlaceholdersCompact(n) == ""
    ensures n > 0 ==> Placeholders(n) == Join(seq(n, _ => "?"), ", ") && PlaceholdersCompact(n) == Join(seq(n, _ => "?"), ",")
    ensures Marks(Placeholders(n)) == Marks(PlaceholdersCompact(n)) == if n > 0 then n else 0
  {
    if n > 0 {
      JoinedMarks(", ", n);
      JoinedMarks(",", n);
      assert "?" + ", " == "?, " && "?" + "," == "?,";
    }
  }

  // ---- what is written ----

  /** The fields that take part in an insert: those with a value. */
  function Kept(fields: seq<Field>): seq<Field> {
    if fields == [] then []
    else
      var last := fields[|fields| - 1];
      Kept(fields[..|fields| - 1]) + if last.value.Nil? then [] else [last]
  }

  predicate Writable(f: Field) {
    !f.value.Nil? && f.column != "id" && f.column != "is_deleted"
  }

  /** The assignments of an update. */
  function Assignments(fields: seq<Field>): seq<Change> {
    if fields == [] then []
    else
      var last := fields[|fields| - 1];
      Assignments(fields[..|fields| - 1]) + if Writable(last) then [Assign(last.column, last.value)] else []
  }

  /** Exactly the fields with a value are inserted. */
  lemma {:induction false} KeptExactly(fields: seq<Field>, f: Field)
    ensures f in Kept(fields) <==> f in fields && !f.value.Nil?
  {
    if fields != [] {
      var front := fields[..|fields| - 1];
      KeptExactly(front, f);
      assert fields == front + [fields[|fields| - 1]];
    }
  }

  /** Exactly the fields with a value, other than the id and the deletion flag, are set. */
  lemma {:induction false} AssignedExactly(fields: seq<Field>, c: Change)
    ensures c in Assignments(fields) <==> c.Assign? && Field(c.column, c.value) in fields && Writable(Field(c.column, c.value))
  {
    if fields != [] {
      var front, last := fields[..|fields| - 1], fields[|fields| - 1];
      AssignedExactly(front, c);
      assert fields == front + [last];
      assert c in Assignments(fields) <==> c in Assignments(front) || (Writable(last) && c == Assign(last.column, last.value));
    }
  }

  /** Each field is kept or left out by itself, in the given order and as often as it is given. */
  lemma {:induction false} KeptInOrder(a: seq<Field>, f: Field, b: seq<Field>)
    ensures Kept(a + b) == Kept(a) + Kept(b)
    ensures Kept([f]) == if f.value.Nil? then [] else [f]
  {
    assert [f][..0] == [];
    if b == [] {
      assert a + b == a;
    } else {
      KeptInOrder(a, f, b[..|b| - 1]);
      assert (a + b)[..|a + b| - 1] == a + b[..|b| - 1];
    }
  }

  lemma {:induction false} AssignedInOrder(a: seq<Field>, f: Field, b: seq<Field>)
    ensures Assignments(a + b) == Assignments(a) + Assignments(b)
    ensures Assignments([f]) ==
            if f.value.Nil? || f.column == "id" || f.column == "is_deleted" then [] else [Assign(f.column, f.value)]
  {
    assert [f][..0] == [];
    if b == [] {
      assert a + b == a;
    } else {
      AssignedInOrder(a, f, b[..|b| - 1]);
      assert (a + b)[..|a + b| - 1] == a + b[..|b| - 1];
    }
  }

  function UpdateSets(fields: seq<Field>, version: Option<int>): seq<Change> {
    Assignments(fields) + if version.Some? then [Bump] else []
  }

  datatype Command = Command(query: string, args: seq<Value>)

  function CommandOf(stmt: Statement): Command {
    Command(Rendered(stmt, QuestionMark), Arguments(stmt))
  }

  /** What the database answers: the statement failed, its row count cannot be read, or the row count. */
  datatype Reply = Refused(cause: string) | Uncounted(cause: string) | Affected(rows: int)

  datatype WriteError =
    | NothingToInsert(table: string)
    | InsertFailed(table: string, cause: string)
    | WriteFailed(cause: string)
    | CountFailed(cause: string)

  function AffectedRows(reply: Reply): Result<int, WriteError> {
    match reply
    case Refused(cause) => Err(WriteFailed(cause))
    case Uncounted(cause) => Err(CountFailed(cause))
    case Affected(rows) => Ok(rows)
  }

  /** A count is answered exactly when the database gave one, and any failure comes out with its cause. */
  lemma AffectedExactly(reply: Reply)
    ensures AffectedRows(reply).Ok? <==> reply.Affected?
    ensures match reply
            case Affected(rows) => AffectedRows(reply) == Ok(rows)
            case Refused(cause) => AffectedRows(reply) == Err(WriteFailed(cause))
            case Uncounted(cause) => AffectedRows(reply) == Err(CountFailed(cause))
  {
  }

  lemma SlotsAppend(fields: seq<Field>, f: Field)
    ensures Slots(fields + [f], QuestionMark) == Slots(fields, QuestionMark) + ["?"]
  {
    assert Slots(fields + [f], QuestionMark)[|fields|] == QuestionMark(f.value);
  }

  lemma TextsAppend(sets: seq<Change>, c: Change)
    ensures ChangeTexts(sets + [c], QuestionMark) == ChangeTexts(sets, QuestionMark) + [ChangeText(c, QuestionMark)]
  {
  }

  lemma UpdateText(table: string, sets: seq<Change>, id: string, version: Option<int>)
    ensures var query := "UPDATE " + table + " SET " + Join(ChangeTexts(sets, QuestionMark), ", ") + LIVE_ROW;
            Rendered(UpdateWhere(table, sets, id, version), QuestionMark) ==
            if version.Some? then query + " AND version = ?" else query
    ensures Arguments(UpdateWhere(table, sets, id, version)) ==
            if version.Some? then ChangeArgs(sets) + [Text(id)] + [Int(version.value)] else ChangeArgs(sets) + [Text(id)]
  {
    hide Join, ChangeTexts;
    var query := "UPDATE " + table + " SET " + Join(ChangeTexts(sets, QuestionMark), ", ");
    Reassociate(query, " WHERE id = ", "?", " AND is_deleted = 0");
    assert " WHERE id = " + "?" + " AND is_deleted = 0" == LIVE_ROW;
    if version.Some? {
      query := query + LIVE_ROW;
      assert query + " AND version = " + "?" == query + (" AND version = " + "?");
      assert " AND version = " + "?" == " AND version = ?";
    }
  }

  lemma Reassociate(a: string, b: string, c: string, d: string)
    ensures a + b + c + d == a + (b + c + d)
  {
  }

  lemma SingleChange(c: Change, slot: Slot)
    ensures Join(ChangeTexts([c], slot), ", ") == ChangeText(c, slot)
  {
    assert ChangeTexts([c], slot) == [ChangeText(c, slot)];
  }

  lemma ColumnCommand(table: string, column: string, value: Value, id: string)
    ensures CommandOf(UpdateWhere(table, [Assign(column, value)], id, None)) ==
            Command("UPDATE " + table + " SET " + column + " = ?" + LIVE_ROW, [value, Text(id)])
  {
    hide Rendered, Arguments, ChangeTexts, Join;
    var c := Assign(column, value);
    OneChange(c);
    SingleChange(c, QuestionMark);
    UpdateText(table, [c], id, None);
    Regroup("UPDATE " + table + " SET ", column, " = ", "?");
    assert " = " + "?" == " = ?";
    assert [value] + [Text(id)] == [value, Text(id)];
  }

  lemma DeleteCommand(table: string, id: string)
    ensures CommandOf(UpdateWhere(table, [Retire], id, None)) ==
            Command("UPDATE " + table + " SET is_deleted = 1" + LIVE_ROW, [Text(id)])
  {
    hide Rendered, Arguments, ChangeTexts, Join;
    OneChange(Retire);
    SingleChange(Retire, QuestionMark);
    UpdateText(table, [Retire], id, None);
    assert "UPDATE " + table + " SET " + "is_deleted = 1" == "UPDATE " + table + (" SET " + "is_deleted = 1");
    assert " SET " + "is_deleted = 1" == " SET is_deleted = 1";
    assert [] + [Text(id)] == [Text(id)];
  }

  lemma Regroup(a: string, b: string, c: string, d: string)
    ensures a + (b + c + d) == a + b + (c + d)
  {
  }

  lemma ArgsAppend(sets: seq<Change>, c: Change)
    ensures ChangeArgs(sets + [c]) == ChangeArgs(sets) + ChangeArgs([c])
  {
    if sets == [] {
      assert sets + [c] == [c];
    } else {
      assert (sets + [c])[1..] == sets[1..] + [c];
      ArgsAppend(sets[1..], c);
    }
  }

  lemma NoAssignments(fields: seq<Field>)
    requires fields == []
    ensures ChangeTexts(Assignments(fields), QuestionMark) == [] && ChangeArgs(Assignments(fields)) == []
  {
  }

  lemma NextAssignment(fields: seq<Field>, i: nat)
    requires i < |fields|
    ensures var before, after := Assignments(fields[..i]), Assignments(fields[..i + 1]);
            if Writable(fields[i]) then
              && ChangeTexts(after, QuestionMark) == ChangeTexts(before, QuestionMark) + [fields[i].column + " = ?"]
              && ChangeArgs(after) == ChangeArgs(before) + [fields[i].value]
            else after == before
  {
    assert fields[..i + 1][..i] == fields[..i];
    if Writable(fields[i]) {
      var c := Assign(fields[i].column, fields[i].value);
      TextsAppend(Assignments(fields[..i]), c);
      ArgsAppend(Assignments(fields[..i]), c);
      OneChange(c);
      assert fields[i].column + " = " + "?" == fields[i].column + " = ?";
    }
  }

  lemma WithBump(fields: seq<Field>, version: Option<int>)
    ensures var sets := UpdateSets(fields, version);
            && |sets| == |ChangeTexts(sets, QuestionMark)|
            && ChangeTexts(sets, QuestionMark) ==
               (if version.Some? then ChangeTexts(Assignments(fields), QuestionMark) + ["version = version + 1"]
                else ChangeTexts(Assignments(fields), QuestionMark))
            && ChangeArgs(sets) == ChangeArgs(Assignments(fields))
  {
    if version.Some? {
      TextsAppend(Assignments(fields), Bump);
      ArgsAppend(Assignments(fields), Bump);
      OneChange(Bump);
    } else {
      assert Assignments(fields) + [] == Assignments(fields);
    }
  }

  /** A connection or transaction; sent is what it was asked to execute. */
  class Connection {
    var sent: seq<Command>

    constructor ()
      ensures sent == []
    {
      sent := [];
    }

    method ExecContext(query: string, args: seq<Value>)
      modifies this
      ensures sent == old(sent) + [Command(query, args)]
    {
      sent := sent + [Command(query, args)];
    }

    /** ExecAffected */
    method ExecAffected(query: string, args: seq<Value>, reply: Reply) returns (affected: Result<int, WriteError>)
      modifies this
      ensures sent == old(sent) + [Command(query, args)] && affected == AffectedRows(reply)
    {
      ExecContext(query, args);
      match reply {
        case Refused(cause) => return Err(WriteFailed(cause));
        case Uncounted(cause) => return Err(CountFailed(cause));
        case Affected(rows) => return Ok(rows);
      }
    }

    method Insert(table: string, fields: seq<Field>, reply: Reply) returns (r: Result<(), WriteError>)
      modifies this
      ensures Kept(fields) == [] ==> sent == old(sent) && r == Err(NothingToInsert(table))
      ensures Kept(fields) != [] ==>
                && sent == old(sent) + [CommandOf(InsertInto(table, Kept(fields)))]
                && r == if reply.Refused? then Err(InsertFailed(table, reply.cause)) else Ok(())
    {
      var columns, marks, args := [], [], [];
      for i := 0 to |fields|
        invariant columns == Columns(Kept(fields[..i]))
        invariant marks == Slots(Kept(fields[..i]), QuestionMark)
        invariant args == Values(Kept(fields[..i]))
        invariant sent == old(sent)
      {
        assert fields[..i + 1][..i] == fields[..i];
        var item := fields[i];
        if item.value.Nil? {
          continue;
        }
        SlotsAppend(Kept(fields[..i]), item);
        columns := columns + [item.column];
        marks := marks + ["?"];
        args := args + [item.value];
      }
      assert fields[..|fields|] == fields;
      if |columns| == 0 {
        return Err(NothingToInsert(table));
      }
      var query := "INSERT INTO " + table + " (" + Join(columns, ", ") + ") VALUES (" + Join(marks, ", ") + ")";
      ExecContext(query, args);
      if reply.Refused? {
        return Err(InsertFailed(table, reply.cause));
      }
      return Ok(());
    }

    method Update(table: string, id: string, fields: seq<Field>, version: Option<int>, reply: Reply)
      returns (affected: Result<int, WriteError>)
      modifies this
      ensures UpdateSets(fields, version) == [] ==> sent == old(sent) && affected == Ok(0)
      ensures UpdateSets(fields, version) != [] ==>
                && sent == old(sent) + [CommandOf(UpdateWhere(table, UpdateSets(fields, version), id, version))]
                && affected == AffectedRows(reply)
    {
      hide Assignments, ChangeTexts, ChangeArgs, Join, Rendered;
      NoAssignments(fields[..0]);
      var sets, args := [], [];
      for i := 0 to |fields|
        invariant sets == ChangeTexts(Assignments(fields[..i]), QuestionMark)
        invariant args == ChangeArgs(Assignments(fields[..i]))
        invariant sent == old(sent)
      {
        NextAssignment(fields, i);
        var item := fields[i];
        if item.value.Nil? || item.column == "id" || item.column == "is_deleted" {
          continue;
        }
        sets := sets + [item.column + " = ?"];
        args := args + [item.value];
      }
      assert fields[..|fields|] == fields;
      WithBump(fields, version);
      if version.Some? {
        sets := sets + ["version = version + 1"];
      }
      if |sets| == 0 {
        return Ok(0);
      }
      UpdateText(table, UpdateSets(fields, version), id, version);
      var query := "UPDATE " + table + " SET " + Join(sets, ", ") + LIVE_ROW;
      args := args + [Text(id)];
      if version.Some? {
        query := query + " AND version = ?";
        args := args + [Int(version.value)];
      }
      affected := ExecAffected(query, args, reply);
    }

    method UpdateColumn(table: string, id: string, column: string, value: Value, reply: Reply)
      returns (affected: Result<int, WriteError>)
      modifies this
      ensures sent == old(sent) + [CommandOf(UpdateWhere(table, [Assign(column, value)], id, None))]
      ensures affected == AffectedRows(reply)
    {
      ColumnCommand(table, column, value, id);
      hide CommandOf;
      var query := "UPDATE " + table + " SET " + column + " = ?" + LIVE_ROW;
      affected := ExecAffected(query, [value, Text(id)], reply);
    }

    /** Deleting a row marks it. */
    method Delete(table: string, id: string, reply: Reply) returns (affected: Result<int, WriteError>)
      modifies this
      ensures sent == old(sent) + [CommandOf(UpdateWhere(table, [Retire], id, None))]
      ensures affected == AffectedRows(reply)
    {
      DeleteCommand(table, id);
      hide CommandOf;
      var query := "UPDATE " + table + " SET is_deleted = 1" + LIVE_ROW;
      affected := ExecAffected(query, [Text(id)], reply);
    }
  }
}
