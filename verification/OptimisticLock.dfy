/** What the write builder's statements do to rows, over any history of them (mysqlx/mysqlx.go:273-308). */
module OptimisticLock {
  import opened Results
  import opened WriteBuilder

  datatype Cell = Empty | Number(n: int) | Word(s: string)

  /** A row of a table; its columns are keyed by their lower-case names. */
  datatype Row = Row(table: string, cells: map<string, Cell>)

  const BLANKS: set<char> := {' ', '\t', '\n', '\r', '\U{0B}', '\U{0C}'}

  /** The last part of a column reference: qualifiers are separated by dots, parts may be quoted with
      backquotes (doubled inside), and blanks between parts do not count. */
  function LastPart(text: string, part: string, quoted: bool): string
    decreases |text|
  {
    if text == "" then part
    else if quoted then
      if text[0] != '`' then LastPart(text[1..], part + [text[0]], true)
      else if |text| > 1 && text[1] == '`' then LastPart(text[2..], part + "`", true)
      else LastPart(text[1..], part, false)
    else if text[0] == '`' then LastPart(text[1..], part, true)
    else if text[0] == '.' then LastPart(text[1..], "", false)
    else if text[0] in BLANKS then LastPart(text[1..], part, false)
    else LastPart(text[1..], part + [text[0]], false)
  }

  function LowerCase(text: string): string {
    seq(|text|, i requires 0 <= i < |text| => if 'A' <= text[i] <= 'Z' then text[i] - 'A' + 'a' else text[i])
  }

  /** The column that the database takes a reference for; names are compared without regard to case. */
  function Key(column: string): string {
    LowerCase(LastPart(column, "", false))
  }

  predicate BareName(text: string) {
    forall i :: 0 <= i < |text| ==> text[i] != '`' && text[i] != '.' && text[i] !in BLANKS
  }

  lemma {:induction false} BareNameStays(text: string, part: string)
    requires BareName(text)
    ensures LastPart(text, part, false) == part + text
    decreases |text|
  {
    if text == "" {
      assert part + text == part;
    } else {
      BareNameStays(text[1..], part + [text[0]]);
      assert part + [text[0]] + text[1..] == part + text;
    }
  }

  lemma {:induction false} QuotedNameStays(text: string, part: string)
    requires '`' !in text
    ensures LastPart(text + "`", part, true) == part + text
    decreases |text|
  {
    if text == "" {
      assert text + "`" == "`" && "`"[1..] == "" && part + text == part;
    } else {
      QuotedNameStays(text[1..], part + [text[0]]);
      assert (text + "`")[1..] == text[1..] + "`";
      assert part + [text[0]] + text[1..] == part + text;
    }
  }

  function Stored(v: Value): Cell {
    match v
    case Nil => Empty
    case Null => Empty
    case Int(n) => Number(n)
    case Text(s) => Word(s)
  }

  function Get(row: Row, key: string): Cell {
    if key in row.cells then row.cells[key] else Empty
  }

  function Set(row: Row, key: string, cell: Cell): Row {
    row.(cells := row.cells[key := cell])
  }

  /** The WHERE clause. */
  predicate Hits(row: Row, stmt: Statement) {
    && stmt.UpdateWhere?
    && row.table == stmt.table
    && Get(row, "id") == Word(stmt.id)
    && Get(row, "is_deleted") == Number(0)
    && (stmt.version.Some? ==> Get(row, "version") == Number(stmt.version.value))
  }

  function Changed(row: Row, c: Change): Row {
    match c
    case Assign(column, value) => Set(row, Key(column), Stored(value))
    case Bump => if Get(row, "version").Number? then Set(row, "version", Number(Get(row, "version").n + 1)) else row
    case Retire => Set(row, "is_deleted", Number(1))
  }

  /** A SET list is carried out from left to right. */
  function ChangedAll(row: Row, sets: seq<Change>): Row {
    if sets == [] then row else Changed(ChangedAll(row, sets[..|sets| - 1]), sets[|sets| - 1])
  }

  function Step(row: Row, stmt: Statement): Row {
    if Hits(row, stmt) then ChangedAll(row, stmt.sets) else row
  }

  /** The row after a history of statements. */
  function After(row: Row, history: seq<Statement>): Row {
    if history == [] then row else Step(After(row, history[..|history| - 1]), history[|history| - 1])
  }

  // ---- the statements of the write builder ----

  predicate NoBump(sets: seq<Change>) {
    forall i :: 0 <= i < |sets| ==> !sets[i].Bump?
  }

  /** Built by Update, UpdateColumn or Delete: the version is bumped once, last, exactly when one is expected. */
  predicate Built(stmt: Statement) {
    && stmt.UpdateWhere?
    && if stmt.version.None? then NoBump(stmt.sets)
       else stmt.sets != [] && stmt.sets[|stmt.sets| - 1] == Bump && NoBump(stmt.sets[..|stmt.sets| - 1])
  }

  lemma {:induction false} AssignmentsAssign(fields: seq<Field>)
    ensures forall i :: 0 <= i < |Assignments(fields)| ==> Assignments(fields)[i].Assign?
  {
    if fields != [] {
      AssignmentsAssign(fields[..|fields| - 1]);
    }
  }

  /** Every statement of Update, UpdateColumn and Delete is of this kind. */
  lemma UpdatesAreBuilt(table: string, id: string, fields: seq<Field>, version: Option<int>, column: string, value: Value)
    ensures Built(UpdateWhere(table, UpdateSets(fields, version), id, version))
    ensures Built(UpdateWhere(table, [Assign(column, value)], id, None))
    ensures Built(UpdateWhere(table, [Retire], id, None))
  {
    AssignmentsAssign(fields);
    var sets := UpdateSets(fields, version);
    if version.Some? {
      assert sets[..|sets| - 1] == Assignments(fields);
    } else {
      assert sets == Assignments(fields);
    }
  }

  /** Some assignment of the list goes to the column. */
  predicate Touches(sets: seq<Change>, key: string) {
    exists i :: 0 <= i < |sets| && sets[i].Assign? && Key(sets[i].column) == key
  }

  // ---- what a hit writes ----

  /** The last value assigned to the column. */
  function LastWritten(sets: seq<Change>, key: string): Option<Value> {
    if sets == [] then None
    else
      var last := sets[|sets| - 1];
      if last.Assign? && Key(last.column) == key then Some(last.value) else LastWritten(sets[..|sets| - 1], key)
  }

  function Overwritten(cell: Cell, written: Option<Value>): Cell {
    match written
    case None => cell
    case Some(v) => Stored(v)
  }

  lemma {:induction false} ColumnIsLastWritten(row: Row, sets: seq<Change>, key: string)
    requires key == "version" ==> NoBump(sets)
    requires key == "is_deleted" ==> Retire !in sets
    ensures Get(ChangedAll(row, sets), key) == Overwritten(Get(row, key), LastWritten(sets, key))
  {
    if sets != [] {
      ColumnIsLastWritten(row, sets[..|sets| - 1], key);
    }
  }

  /** The last writable field of a column. */
  function LastField(fields: seq<Field>, key: string): Option<Value> {
    if fields == [] then None
    else
      var last := fields[|fields| - 1];
      if Writable(last) && Key(last.column) == key then Some(last.value) else LastField(fields[..|fields| - 1], key)
  }

  lemma {:induction false} LastAssignment(fields: seq<Field>, key: string)
    ensures LastWritten(Assignments(fields), key) == LastField(fields, key)
  {
    if fields != [] {
      var front := fields[..|fields| - 1];
      LastAssignment(front, key);
      var sets := Assignments(fields);
      if Writable(fields[|fields| - 1]) {
        assert sets[..|sets| - 1] == Assignments(front);
      } else {
        assert sets == Assignments(front);
      }
    }
  }

  /** A hit writes every column a field names, with the last such field, and no other column but the version. */
  lemma UpdateWritesFields(row: Row, table: string, id: string, fields: seq<Field>, version: Option<int>, key: string)
    requires Hits(row, UpdateWhere(table, UpdateSets(fields, version), id, version)) && key != "version"
    ensures Get(Step(row, UpdateWhere(table, UpdateSets(fields, version), id, version)), key)
            == Overwritten(Get(row, key), LastField(fields, key))
  {
    var sets := UpdateSets(fields, version);
    AssignmentsAssign(fields);
    LastAssignment(fields, key);
    ColumnIsLastWritten(row, Assignments(fields), key);
    if version.Some? {
      assert sets[..|sets| - 1] == Assignments(fields);
    } else {
      assert sets == Assignments(fields);
    }
  }

  lemma AssignsToColumn(fields: seq<Field>, version: Option<int>, key: string)
    ensures Touches(UpdateSets(fields, version), key) <==>
            exists f :: f in fields && Writable(f) && Key(f.column) == key
  {
    var sets := UpdateSets(fields, version);
    if Touches(sets, key) {
      var i :| 0 <= i < |sets| && sets[i].Assign? && Key(sets[i].column) == key;
      assert sets[i] in Assignments(fields);
      AssignedExactly(fields, sets[i]);
      assert Field(sets[i].column, sets[i].value) in fields;
    }
    if f :| f in fields && Writable(f) && Key(f.column) == key {
      AssignedExactly(fields, Assign(f.column, f.value));
      assert Assign(f.column, f.value) in sets;
    }
  }

  /** Update lets the deletion flag or the id through exactly when a field spells it differently: with
      capitals, backquotes, a qualifier or blanks. */
  lemma ProtectedColumnsExactly(fields: seq<Field>, version: Option<int>, key: string)
    requires key == "id" || key == "is_deleted"
    ensures Touches(UpdateSets(fields, version), key) <==>
            exists f :: f in fields && !f.value.Nil? && Key(f.column) == key && f.column != key
  {
    AssignsToColumn(fields, version, key);
    KeyOfProtected();
    forall f | f in fields && !f.value.Nil? && Key(f.column) == key ensures Writable(f) <==> f.column != key {
    }
  }

  lemma KeyOfBare(name: string)
    requires BareName(name)
    ensures Key(name) == LowerCase(name)
  {
    BareNameStays(name, "");
    assert "" + name == name;
  }

  predicate LowerName(text: string) {
    forall i :: 0 <= i < |text| ==> 'a' <= text[i] <= 'z' || text[i] == '_'
  }

  lemma KeyOfLower(name: string)
    requires LowerName(name)
    ensures Key(name) == name && BareName(name) && '`' !in name
  {
    KeyOfBare(name);
    assert LowerCase(name) == name;
  }

  lemma KeyOfProtected()
    ensures Key("id") == "id" && Key("is_deleted") == "is_deleted" && Key("version") == "version"
  {
    hide Key;
    KeyOfLower("id");
    KeyOfLower("is_deleted");
    KeyOfLower("version");
  }

  /** A quoted name is the same column, to the database but not to Update. */
  lemma KeyOfQuoted(name: string)
    requires BareName(name) && '`' !in name
    ensures Key("`" + name + "`") == Key(name) && "`" + name + "`" != name
  {
    KeyOfBare(name);
    QuotedNameStays(name, "");
    assert ("`" + name + "`")[1..] == name + "`" && "" + name == name;
    assert |"`" + name + "`"| == |name| + 2;
  }

  /** So a field can delete a row through an ordinary update. */
  lemma QuotedFlagIsWritten(row: Row, table: string, id: string, version: Option<int>)
    requires var fields := [Field("`is_deleted`", Int(1))];
             Hits(row, UpdateWhere(table, UpdateSets(fields, version), id, version))
    ensures var fields := [Field("`is_deleted`", Int(1))];
            Get(Step(row, UpdateWhere(table, UpdateSets(fields, version), id, version)), "is_deleted") == Number(1)
  {
    hide Key, LastField, Step, Hits, UpdateSets;
    QuotedFlag();
    UpdateWritesFields(row, table, id, [Field("`is_deleted`", Int(1))], version, "is_deleted");
  }

  lemma QuotedFlag()
    ensures LastField([Field("`is_deleted`", Int(1))], "is_deleted") == Some(Int(1))
    ensures "is_deleted" != "version"
  {
    hide Key;
    KeyOfLower("is_deleted");
    KeyOfQuoted("is_deleted");
    assert "`" + "is_deleted" + "`" == "`is_deleted`";
    assert |"id"| == 2 && |"is_deleted"| == 10 && |"`is_deleted`"| == 12 && |"version"| == 7;
  }

  // ---- soft deletion ----

  /** A row that is not live never changes again, whatever the statements are. */
  lemma {:induction false} DeletedRowIsFrozen(row: Row, history: seq<Statement>)
    requires Get(row, "is_deleted") != Number(0)
    ensures After(row, history) == row
  {
    if history != [] {
      DeletedRowIsFrozen(row, history[..|history| - 1]);
    }
  }

  /** Delete is never undone. */
  lemma DeleteIsFinal(row: Row, table: string, id: string, history: seq<Statement>)
    requires Hits(row, UpdateWhere(table, [Retire], id, None))
    ensures var deleted := Step(row, UpdateWhere(table, [Retire], id, None));
            Get(deleted, "is_deleted") == Number(1) && After(deleted, history) == deleted
  {
    var deleted := Step(row, UpdateWhere(table, [Retire], id, None));
    assert ChangedAll(row, [Retire]) == Changed(ChangedAll(row, []), Retire);
    DeletedRowIsFrozen(deleted, history);
  }

  // ---- versions ----

  predicate Versioned(row: Row) {
    Get(row, "version").Number?
  }

  function VersionOf(row: Row): int
    requires Versioned(row)
  {
    Get(row, "version").n
  }

  predicate Wins(row: Row, stmt: Statement) {
    Hits(row, stmt) && stmt.version.Some?
  }

  /** The assignments before a bump. */
  function Body(stmt: Statement): seq<Change>
    requires Built(stmt)
  {
    if stmt.version.Some? then stmt.sets[..|stmt.sets| - 1] else stmt.sets
  }

  /** No field writes the version, or the last to do so writes the very version the statement expects. */
  predicate Counts(stmt: Statement)
    requires Built(stmt)
  {
    match LastWritten(Body(stmt), "version")
    case None => true
    case Some(v) => stmt.version.Some? && v == Int(stmt.version.value)
  }

  /** A hit moves the version by one if the statement expects one and not at all otherwise. */
  ghost predicate KeepsCount(stmt: Statement) {
    forall row: Row {:trigger Hits(row, stmt)} | Hits(row, stmt) && Versioned(row) ::
      Get(Step(row, stmt), "version") == Number(VersionOf(row) + if stmt.version.Some? then 1 else 0)
  }

  lemma AfterHit(row: Row, stmt: Statement)
    requires Built(stmt) && Hits(row, stmt)
    ensures var cell := Overwritten(Get(row, "version"), LastWritten(Body(stmt), "version"));
            Get(Step(row, stmt), "version") ==
            if stmt.version.Some? && cell.Number? then Number(cell.n + 1) else cell
  {
    ColumnIsLastWritten(row, Body(stmt), "version");
  }

  /** The version counts for every row exactly when no field disturbs it. */
  lemma CountsExactly(stmt: Statement)
    requires Built(stmt)
    ensures KeepsCount(stmt) <==> Counts(stmt)
  {
    forall row: Row | Counts(stmt) && Hits(row, stmt) && Versioned(row)
      ensures Get(Step(row, stmt), "version") == Number(VersionOf(row) + if stmt.version.Some? then 1 else 0)
    {
      AfterHit(row, stmt);
    }
    if !Counts(stmt) {
      var written := Stored(LastWritten(Body(stmt), "version").value);
      var before := if stmt.version.Some? then stmt.version.value else if written == Number(0) then 1 else 0;
      var row := Row(stmt.table, map["id" := Word(stmt.id), "is_deleted" := Number(0), "version" := Number(before)]);
      assert Hits(row, stmt) && Versioned(row) && VersionOf(row) == before;
      AfterHit(row, stmt);
    }
  }

  predicate Disciplined(history: seq<Statement>) {
    forall i :: 0 <= i < |history| ==> Built(history[i]) && Counts(history[i])
  }

  function WinsIn(row: Row, history: seq<Statement>): nat {
    if history == [] then 0
    else
      var front := history[..|history| - 1];
      WinsIn(row, front) + if Wins(After(row, front), history[|history| - 1]) then 1 else 0
  }

  /** The version of a row is its first version plus the number of versioned updates that hit it. */
  lemma {:induction false} VersionCountsWins(row: Row, history: seq<Statement>)
    requires Versioned(row) && Disciplined(history)
    ensures Versioned(After(row, history)) && VersionOf(After(row, history)) == VersionOf(row) + WinsIn(row, history)
  {
    if history != [] {
      var front, last := history[..|history| - 1], history[|history| - 1];
      VersionCountsWins(row, front);
      assert Built(last) && Counts(last);
      if Hits(After(row, front), last) {
        AfterHit(After(row, front), last);
      }
    }
  }

  /** The i-th statement hits the row with an expected version. */
  predicate WinsAt(row: Row, history: seq<Statement>, i: nat)
    requires i < |history|
  {
    Wins(After(row, history[..i]), history[i])
  }

  lemma {:induction false} WinsGrow(row: Row, history: seq<Statement>, i: nat, j: nat)
    requires i <= j <= |history|
    ensures WinsIn(row, history[..i]) <= WinsIn(row, history[..j])
    decreases j
  {
    hide After;
    if i < j {
      WinsGrow(row, history, i, j - 1);
      assert history[..j][..j - 1] == history[..j - 1] && history[..j][j - 1] == history[j - 1];
    }
  }

  lemma WinCounts(row: Row, history: seq<Statement>, i: nat, k: nat, j: nat)
    requires i <= k < j <= |history| && WinsAt(row, history, k)
    ensures WinsIn(row, history[..i]) < WinsIn(row, history[..j])
  {
    hide After;
    WinsGrow(row, history, i, k);
    WinsGrow(row, history, k + 1, j);
    assert history[..k + 1][..k] == history[..k] && history[..k + 1][k] == history[k];
  }

  lemma DisciplinedPrefix(history: seq<Statement>, i: nat)
    requires Disciplined(history) && i <= |history|
    ensures Disciplined(history[..i])
  {
  }

  /** Each expected version wins at most once on a row: later winners expect greater versions. */
  lemma LaterWinnersExpectMore(row: Row, history: seq<Statement>, i: nat, j: nat)
    requires Versioned(row) && Disciplined(history) && i < j < |history|
    requires WinsAt(row, history, i) && WinsAt(row, history, j)
    ensures history[i].version.value < history[j].version.value
  {
    DisciplinedPrefix(history, i);
    DisciplinedPrefix(history, j);
    VersionCountsWins(row, history[..i]);
    VersionCountsWins(row, history[..j]);
    WinCounts(row, history, i, i, j);
  }

  /** No lost update: if the row was read at some point and a later update expecting the version read hits
      it, no versioned update hit it in between. */
  lemma NoLostUpdate(row: Row, history: seq<Statement>, read: nat, write: nat, k: nat)
    requires Versioned(row) && Disciplined(history) && read <= k < write < |history|
    requires WinsAt(row, history, write)
    requires Get(After(row, history[..read]), "version") == Number(history[write].version.value)
    ensures !WinsAt(row, history, k)
  {
    DisciplinedPrefix(history, read);
    DisciplinedPrefix(history, write);
    VersionCountsWins(row, history[..read]);
    VersionCountsWins(row, history[..write]);
    if WinsAt(row, history, k) {
      WinCounts(row, history, read, k, write);
    }
  }

  /** The discipline is needed: an update that also writes the version through a field can win again with
      the same expected version. */
  lemma VersionWrittenWinsTwice(row: Row, table: string, id: string, v: int)
    requires Hits(row, UpdateWhere(table, [], id, Some(v)))
    ensures var update := UpdateWhere(table, UpdateSets([Field("version", Int(v - 1))], Some(v)), id, Some(v));
            WinsAt(row, [update, update], 0) && WinsAt(row, [update, update], 1)
  {
    var fields := [Field("version", Int(v - 1))];
    var sets := UpdateSets(fields, Some(v));
    var update := UpdateWhere(table, sets, id, Some(v));
    UpdatesAreBuilt(table, id, fields, Some(v), "", Nil);
    KeyOfProtected();
    assert |"version"| == 7 && |"id"| == 2 && |"is_deleted"| == 10;
    assert fields[..0] == [] && Assignments(fields) == [] + [Assign("version", Int(v - 1))];
    assert sets[..|sets| - 1] == Assignments(fields);
    assert Body(update) == [Assign("version", Int(v - 1))] && sets == Body(update) + [Bump];
    assert LastWritten(Body(update), "version") == Some(Int(v - 1));
    assert Key("version") != "id" && Key("version") != "is_deleted";
    assert LastField(fields, "id") == LastField(fields[..0], "id") == None;
    assert LastField(fields, "is_deleted") == LastField(fields[..0], "is_deleted") == None;
    AfterHit(row, update);
    UpdateWritesFields(row, table, id, fields, Some(v), "id");
    UpdateWritesFields(row, table, id, fields, Some(v), "is_deleted");
    var history := [update, update];
    assert history[..0] == [] && history[..1] == [update] && history[..1][..0] == [];
    StepKeepsTable(row, sets);
  }

  lemma {:induction false} StepKeepsTable(row: Row, sets: seq<Change>)
    ensures ChangedAll(row, sets).table == row.table
  {
    if sets != [] {
      StepKeepsTable(row, sets[..|sets| - 1]);
    }
  }

  // ---- affected rows ----

  /** The database counts the rows a statement changed. */
  function CountChanged(rows: seq<Row>, stmt: Statement): nat {
    if rows == [] then 0
    else CountChanged(rows[..|rows| - 1], stmt) + if Step(rows[|rows| - 1], stmt) != rows[|rows| - 1] then 1 else 0
  }

  predicate DistinctIds(rows: seq<Row>) {
    forall i, j :: 0 <= i < j < |rows| && rows[i].table == rows[j].table ==> Get(rows[i], "id") != Get(rows[j], "id")
  }

  lemma {:induction false} NoneChanged(rows: seq<Row>, stmt: Statement)
    requires forall i :: 0 <= i < |rows| ==> !Hits(rows[i], stmt)
    ensures CountChanged(rows, stmt) == 0
  {
    if rows != [] {
      NoneChanged(rows[..|rows| - 1], stmt);
    }
  }

  lemma {:induction false} OneChanged(rows: seq<Row>, stmt: Statement, i: nat)
    requires DistinctIds(rows) && i < |rows| && Hits(rows[i], stmt)
    ensures CountChanged(rows, stmt) == if Step(rows[i], stmt) != rows[i] then 1 else 0
  {
    var front := rows[..|rows| - 1];
    assert DistinctIds(front);
    if i == |rows| - 1 {
      NoneChanged(front, stmt);
    } else {
      OneChanged(front, stmt, i);
    }
  }

  /** With an expected version the count tells the caller the truth: it is 1 if the row with the id is live
      and at that version, and 0 otherwise. */
  lemma CountMeansWon(rows: seq<Row>, stmt: Statement)
    requires DistinctIds(rows) && Built(stmt) && Counts(stmt) && stmt.version.Some?
    ensures CountChanged(rows, stmt) == if exists i :: 0 <= i < |rows| && Wins(rows[i], stmt) then 1 else 0
  {
    if i :| 0 <= i < |rows| && Wins(rows[i], stmt) {
      OneChanged(rows, stmt, i);
      AfterHit(rows[i], stmt);
    } else {
      NoneChanged(rows, stmt);
    }
  }
}
