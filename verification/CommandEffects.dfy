/** What a sent command does, read from its text and arguments alone, without regard to how it was built:
    the commands of the write builder hit and change exactly the rows that OptimisticLock speaks of
    (mysqlx/mysqlx.go:246-308). */
module CommandEffects {
  import opened Results
  import opened WriteBuilder
  import opened StatementText
  import opened OptimisticLock

  // ---- words ----

  /** A character before the words of the rest of the text. */
  function Prefixed(c: char, words: seq<string>): seq<string>
    requires words != []
  {
    if c == ' ' then [""] + words else [[c] + words[0]] + words[1..]
  }

  /** The text between spaces. */
  function Words(text: string): (words: seq<string>)
    ensures words != []
  {
    if text == "" then [""] else Prefixed(text[0], Words(text[1..]))
  }

  lemma {:induction false} OneWord(text: string)
    requires ' ' !in text
    ensures Words(text) == [text]
  {
    if text != "" {
      OneWord(text[1..]);
      assert [text[0]] + text[1..] == text;
    }
  }

  lemma PrefixedBoth(c: char, a: seq<string>, b: seq<string>)
    requires a != []
    ensures Prefixed(c, a + b) == Prefixed(c, a) + b
  {
    assert (a + b)[1..] == a[1..] + b;
  }

  lemma SpacedTail(a: string, b: string)
    ensures a != "" ==> (a + " " + b)[0] == a[0] && (a + " " + b)[1..] == a[1..] + " " + b
    ensures a == "" ==> (a + " " + b)[0] == ' ' && (a + " " + b)[1..] == b
    ensures a + " " + b != ""
  {
  }

  lemma {:induction false} WordsInTurn(a: string, b: string)
    ensures Words(a + " " + b) == Words(a) + Words(b)
  {
    SpacedTail(a, b);
    var text := a + " " + b;
    assert Words(text) == Prefixed(text[0], Words(text[1..]));
    if a != "" {
      WordsInTurn(a[1..], b);
      PrefixedBoth(a[0], Words(a[1..]), Words(b));
      assert Words(a) == Prefixed(a[0], Words(a[1..]));
    }
  }

  lemma WordThen(word: string, more: string)
    requires ' ' !in word
    ensures Words(word + " " + more) == [word] + Words(more)
  {
    OneWord(word);
    WordsInTurn(word, more);
  }

  // ---- grammar ----

  datatype Term = Mark | Literal(n: nat) | Sum(column: string, n: nat)

  /** An entry of a SET list, or a condition. */
  datatype Equation = Equation(column: string, term: Term)

  predicate EndsWith(word: string, c: char) {
    word != "" && word[|word| - 1] == c
  }

  /** The word without its last character if that is c. */
  function Before(word: string, c: char): string {
    if EndsWith(word, c) then word[..|word| - 1] else word
  }

  function NumberOf(word: string): Option<nat> {
    if word == "" then None
    else
      var last := word[|word| - 1];
      if !('0' <= last <= '9') then None
      else
        var digit: nat := last as int - '0' as int;
        if |word| == 1 then Some(digit)
        else
          match NumberOf(word[..|word| - 1])
          case Some(n) => Some(10 * n + digit)
          case None => None
  }

  /** What was read, whether a comma follows it, and the words after it. */
  datatype Found<T> = Found(value: T, comma: bool, rest: seq<string>)

  function ReadTerm(words: seq<string>): (r: Option<Found<Term>>)
    ensures r.Some? ==> |r.value.rest| < |words|
  {
    if words == [] then None
    else if |words| >= 3 && !EndsWith(words[0], ',') && words[1] == "+" then
      match NumberOf(Before(words[2], ','))
      case Some(n) => Some(Found(Sum(words[0], n), EndsWith(words[2], ','), words[3..]))
      case None => None
    else if Before(words[0], ',') == "?" then Some(Found(Mark, EndsWith(words[0], ','), words[1..]))
    else
      match NumberOf(Before(words[0], ','))
      case Some(n) => Some(Found(Literal(n), EndsWith(words[0], ','), words[1..]))
      case None => None
  }

  function ReadEquation(words: seq<string>): (r: Option<Found<Equation>>)
    ensures r.Some? ==> |r.value.rest| < |words|
  {
    if |words| < 3 || words[1] != "=" then None
    else
      match ReadTerm(words[2..])
      case Some(Found(term, comma, rest)) => Some(Found(Equation(words[0], term), comma, rest))
      case None => None
  }

  /** Entries between commas. */
  function ReadSets(words: seq<string>): Option<Found<seq<Equation>>>
    decreases |words|
  {
    match ReadEquation(words)
    case None => None
    case Some(Found(e, comma, rest)) =>
      if !comma then Some(Found([e], false, rest))
      else
        match ReadSets(rest)
        case Some(more) => Some(more.(value := [e] + more.value))
        case None => None
  }

  /** Conditions between ANDs. */
  function ReadConditions(words: seq<string>): Option<seq<Equation>>
    decreases |words|
  {
    match ReadEquation(words)
    case None => None
    case Some(Found(e, comma, rest)) =>
      if comma then None
      else if rest == [] then Some([e])
      else if rest[0] != "AND" then None
      else
        match ReadConditions(rest[1..])
        case Some(es) => Some([e] + es)
        case None => None
  }

  datatype Reading = Reading(table: string, sets: seq<Equation>, conditions: seq<Equation>)

  function ReadUpdate(query: string): Option<Reading> {
    var words := Words(query);
    if |words| < 3 || words[0] != "UPDATE" || words[2] != "SET" then None
    else
      match ReadSets(words[3..])
      case None => None
      case Some(Found(sets, _, rest)) =>
        if rest == [] || rest[0] != "WHERE" then None
        else
          match ReadConditions(rest[1..])
          case Some(conditions) => Some(Reading(words[1], sets, conditions))
          case None => None
  }

  // ---- meaning: marks take the arguments from left to right ----

  /** The value of a term in a row. A sum with something that is no number is left alone. */
  function CellOf(row: Row, term: Term, args: seq<Value>): Option<Cell> {
    match term
    case Mark => if args != [] then Some(Stored(args[0])) else None
    case Literal(n) => Some(Number(n))
    case Sum(column, n) =>
      match Get(row, Key(column))
      case Number(m) => Some(Number(m + n))
      case _ => None
  }

  /** The arguments left after an equation. */
  function Left(e: Equation, args: seq<Value>): seq<Value> {
    if e.term.Mark? && args != [] then args[1..] else args
  }

  function ArgsAfter(es: seq<Equation>, args: seq<Value>): seq<Value> {
    if es == [] then args else ArgsAfter(es[1..], Left(es[0], args))
  }

  function Assigned(row: Row, e: Equation, args: seq<Value>): Row {
    match CellOf(row, e.term, args)
    case Some(cell) => Set(row, Key(e.column), cell)
    case None => row
  }

  /** The entries carried out from left to right. */
  function CarriedOut(row: Row, es: seq<Equation>, args: seq<Value>): Row
    decreases |es|
  {
    if es == [] then row else CarriedOut(Assigned(row, es[0], args), es[1..], Left(es[0], args))
  }

  /** NULL equals nothing. */
  predicate Holds(row: Row, e: Equation, args: seq<Value>) {
    var cell := CellOf(row, e.term, args);
    cell.Some? && cell.value != Empty && Get(row, Key(e.column)) == cell.value
  }

  predicate AllHold(row: Row, es: seq<Equation>, args: seq<Value>)
    decreases |es|
  {
    es == [] || (Holds(row, es[0], args) && AllHold(row, es[1..], Left(es[0], args)))
  }

  predicate Selects(cmd: Command, row: Row) {
    match ReadUpdate(cmd.query)
    case Some(r) => row.table == r.table && AllHold(row, r.conditions, ArgsAfter(r.sets, cmd.args))
    case None => false
  }

  function Executed(row: Row, cmd: Command): Row {
    if Selects(cmd, row) then CarriedOut(row, ReadUpdate(cmd.query).value.sets, cmd.args) else row
  }

  // ---- how the statements of the write builder read ----

  function EquationOf(c: Change): Equation {
    match c
    case Assign(column, _) => Equation(column, Mark)
    case Bump => Equation("version", Sum("version", 1))
    case Retire => Equation("is_deleted", Literal(1))
  }

  function Equations(sets: seq<Change>): seq<Equation> {
    if sets == [] then [] else [EquationOf(sets[0])] + Equations(sets[1..])
  }

  function Conditions(version: Option<int>): seq<Equation> {
    [Equation("id", Mark), Equation("is_deleted", Literal(0))] + if version.Some? then [Equation("version", Mark)] else []
  }

  function ChangeWords(c: Change, end: string): seq<string> {
    match c
    case Assign(column, _) => [column, "=", "?" + end]
    case Bump => ["version", "=", "version", "+", "1" + end]
    case Retire => ["is_deleted", "=", "1" + end]
  }

  lemma ThreeWords(a: string, b: string, c: string)
    requires ' ' !in a && ' ' !in b && ' ' !in c
    ensures Words(a + " " + (b + " " + c)) == [a, b, c]
  {
    WordThen(a, b + " " + c);
    WordThen(b, c);
    OneWord(c);
  }

  lemma ChangeInWords(c: Change, end: string)
    requires NamedChange(c) && ' ' !in end
    ensures Words(ChangeText(c, QuestionMark) + end) == ChangeWords(c, end)
  {
    hide Words;
    match c
    case Assign(column, value) =>
      Regrouped(column, "?", end);
      ThreeWords(column, "=", "?" + end);
    case Bump => BumpInWords(end);
    case Retire =>
      assert "is_deleted = 1" == "is_deleted" + " = " + "1";
      Regrouped("is_deleted", "1", end);
      ThreeWords("is_deleted", "=", "1" + end);
  }

  lemma Regrouped(a: string, b: string, end: string)
    ensures a + " = " + b + end == a + " " + ("=" + " " + (b + end))
  {
    assert " = " == " " + ("=" + " ");
  }

  lemma BumpInWords(end: string)
    requires ' ' !in end
    ensures Words("version = version + 1" + end) == ["version", "=", "version", "+", "1" + end]
  {
    hide Words;
    var sum := "version" + " " + ("+" + " " + ("1" + end));
    assert "version + 1" + end == sum;
    assert "version = version + 1" == "version" + " = " + "version + 1";
    Regrouped("version", "version + 1", end);
    ThreeWords("version", "+", "1" + end);
    WordThen("version", "=" + " " + sum);
    WordThen("=", sum);
  }

  lemma DigitsRead()
    ensures NumberOf("0") == Some(0) && NumberOf("1") == Some(1)
    ensures Before("1", ',') == "1" == Before("1,", ',') && Before("?", ',') == "?" == Before("?,", ',')
    ensures Before("0", ',') == "0"
  {
  }

  lemma ChangeReads(c: Change, end: string, more: seq<string>)
    requires NamedChange(c) && (end == "," || (end == "" && (more == [] || more[0] != "+")))
    ensures ReadEquation(ChangeWords(c, end) + more) == Some(Found(EquationOf(c), end == ",", more))
  {
    DigitsRead();
    hide NumberOf;
    var words := ChangeWords(c, end) + more;
    assert "?" + "" == "?" && "?" + "," == "?," && "1" + "" == "1" && "1" + "," == "1,";
    match c
    case Assign(column, _) => assert words[2..] == ["?" + end] + more && words[2..][1..] == more;
    case Bump =>
      assert words[2..] == ["version", "+", "1" + end] + more && words[2..][3..] == more;
      assert !EndsWith("version", ',');
    case Retire => assert words[2..] == ["1" + end] + more && words[2..][1..] == more;
  }

  lemma {:induction false} SetsRead(sets: seq<Change>, tail: string)
    requires sets != [] && (forall i :: 0 <= i < |sets| ==> NamedChange(sets[i]))
    requires Words(tail)[0] != "+"
    ensures ReadSets(Words(Join(ChangeTexts(sets, QuestionMark), ", ") + " " + tail))
            == Some(Found(Equations(sets), false, Words(tail)))
  {
    hide ChangeText, ChangeWords, Words, ReadEquation, ChangeTexts, Join;
    var text := ChangeText(sets[0], QuestionMark);
    ChangeTextsSplit(sets, QuestionMark);
    if |sets| == 1 {
      assert text + "" == text;
      ChangeInWords(sets[0], "");
      WordsInTurn(text, tail);
      ChangeReads(sets[0], "", Words(tail));
      assert Equations(sets) == [EquationOf(sets[0])] + Equations(sets[1..]) == [EquationOf(sets[0])];
    } else {
      var more := Join(ChangeTexts(sets[1..], QuestionMark), ", ") + " " + tail;
      assert text + ", " + Join(ChangeTexts(sets[1..], QuestionMark), ", ") + " " + tail == text + "," + " " + more;
      ChangeInWords(sets[0], ",");
      WordsInTurn(text + ",", more);
      ChangeReads(sets[0], ",", Words(more));
      SetsRead(sets[1..], tail);
    }
  }

  lemma AndWords(a: string, b: string)
    ensures Words(a + " " + ("AND" + " " + b)) == Words(a) + (["AND"] + Words(b))
  {
    WordThen("AND", b);
    WordsInTurn(a, "AND" + " " + b);
  }

  const IS_LIVE := "WHERE id = ? AND is_deleted = 0"

  lemma LiveText()
    ensures IS_LIVE == "WHERE" + " " + ("id" + " " + ("=" + " " + "?") + " " + ("AND" + " " + ("is_deleted" + " " + ("=" + " " + "0"))))
  {
    EqualityText("id", "?");
    EqualityText("is_deleted", "0");
    var ids, flags := "id" + " " + ("=" + " " + "?"), "is_deleted" + " " + ("=" + " " + "0");
    assert "WHERE " + ids == "WHERE" + " " + ids;
    assert IS_LIVE == "WHERE " + "id = ?" + " AND " + "is_deleted = 0";
    assert " AND " + flags == " " + ("AND" + " " + flags);
  }

  lemma LiveRow()
    ensures LIVE_ROW == " " + IS_LIVE
  {
  }

  lemma EqualityText(a: string, b: string)
    ensures a + " = " + b == a + " " + ("=" + " " + b)
  {
    Regrouped(a, b, "");
    assert a + " = " + b + "" == a + " = " + b && b + "" == b;
  }

  lemma VersionText()
    ensures " AND version = ?" == " " + ("AND" + " " + ("version" + " " + ("=" + " " + "?")))
  {
  }

  function ConditionText(version: Option<int>): string {
    if version.Some? then IS_LIVE + " " + ("AND" + " " + ("version" + " " + ("=" + " " + "?"))) else IS_LIVE
  }

  function ConditionWords(version: Option<int>): seq<string> {
    if version.Some? then ["id", "=", "?", "AND", "is_deleted", "=", "0", "AND", "version", "=", "?"]
    else ["id", "=", "?", "AND", "is_deleted", "=", "0"]
  }

  lemma TailText(version: Option<int>)
    ensures Tail(version) == " " + ConditionText(version)
  {
    LiveRow();
    VersionText();
    hide IS_LIVE, LIVE_ROW;
    var guard := "AND" + " " + ("version" + " " + ("=" + " " + "?"));
    if version.Some? {
      Reassociated(" ", IS_LIVE, " ", guard);
    }
  }

  lemma Reassociated(a: string, b: string, c: string, d: string)
    ensures a + b + (c + d) == a + (b + c + d)
  {
  }

  lemma ConditionsInWords(version: Option<int>)
    ensures Words(ConditionText(version)) == ["WHERE"] + ConditionWords(version)
  {
    LiveText();
    hide Words, IS_LIVE;
    var ids, flags, versions := "id" + " " + ("=" + " " + "?"), "is_deleted" + " " + ("=" + " " + "0"), "version" + " " + ("=" + " " + "?");
    ThreeWords("id", "=", "?");
    ThreeWords("is_deleted", "=", "0");
    ThreeWords("version", "=", "?");
    AndWords(ids, flags);
    WordThen("WHERE", ids + " " + ("AND" + " " + flags));
    AndWords(IS_LIVE, versions);
  }

  lemma MarkReads(column: string, more: seq<string>)
    requires more == [] || more[0] != "+"
    ensures ReadEquation([column, "=", "?"] + more) == Some(Found(Equation(column, Mark), false, more))
  {
    var words := [column, "=", "?"] + more;
    assert words[2..] == ["?"] + more && words[2..][1..] == more;
  }

  lemma ZeroReads(more: seq<string>)
    requires more == [] || more[0] != "+"
    ensures ReadEquation(["is_deleted", "=", "0"] + more) == Some(Found(Equation("is_deleted", Literal(0)), false, more))
  {
    DigitsRead();
    hide NumberOf;
    var words := ["is_deleted", "=", "0"] + more;
    assert words[2..] == ["0"] + more && words[2..][1..] == more;
  }

  lemma ConditionsRead(version: Option<int>)
    ensures ReadConditions(ConditionWords(version)) == Some(Conditions(version))
  {
    hide ReadEquation;
    var last := if version.Some? then ["AND", "version", "=", "?"] else [];
    var second := ["is_deleted", "=", "0"] + last;
    MarkReads("id", ["AND"] + second);
    ZeroReads(last);
    MarkReads("version", []);
    assert ConditionWords(version) == ["id", "=", "?"] + (["AND"] + second);
    assert (["AND"] + second)[1..] == second;
    var rest := Conditions(version)[1..];
    if version.Some? {
      assert rest == [Equation("is_deleted", Literal(0))] + [Equation("version", Mark)];
      assert last[1..] == ["version", "=", "?"] + [];
      assert ReadConditions(last[1..]) == Some([Equation("version", Mark)]);
      assert ReadConditions(second) == Some([Equation("is_deleted", Literal(0))] + [Equation("version", Mark)]);
    } else {
      assert rest == [Equation("is_deleted", Literal(0))];
      assert ReadConditions(second) == Some([Equation("is_deleted", Literal(0))]);
    }
    assert Conditions(version) == [Equation("id", Mark)] + rest;
  }

  lemma UpdateReads(table: string, sets: seq<Change>, id: string, version: Option<int>)
    requires Named(UpdateWhere(table, sets, id, version))
    ensures ReadUpdate(CommandOf(UpdateWhere(table, sets, id, version)).query)
            == Some(Reading(table, Equations(sets), Conditions(version)))
  {
    hide Words, Rendered, Join, ChangeTexts, ReadSets, ReadConditions, ConditionText, ConditionWords;
    var list, text := Join(ChangeTexts(sets, QuestionMark), ", "), ConditionText(version);
    UpdateParts(table, sets, id, version);
    TailText(version);
    ConditionsInWords(version);
    Spaced(table, list, text);
    WordThen("SET", list + " " + text);
    WordThen(table, "SET" + " " + (list + " " + text));
    WordThen("UPDATE", table + " " + ("SET" + " " + (list + " " + text)));
    SetsRead(sets, text);
    ConditionsRead(version);
    var words := ["UPDATE"] + ([table] + (["SET"] + Words(list + " " + text)));
    assert words[3..] == Words(list + " " + text);
    assert Words(text)[1..] == ConditionWords(version);
  }

  lemma Spaced(table: string, list: string, text: string)
    ensures "UPDATE " + (table + (" SET " + (list + (" " + text))))
            == "UPDATE" + " " + (table + " " + ("SET" + " " + (list + " " + text)))
  {
    assert list + (" " + text) == list + " " + text;
    assert " SET " + (list + " " + text) == " " + ("SET" + " " + (list + " " + text));
  }

  // ---- and what they do ----

  lemma ArgsTogether(first: seq<Value>, rest: seq<Value>, more: seq<Value>)
    ensures first + rest + more == first + (rest + more)
    ensures [] + rest == rest
  {
  }

  lemma FirstArgs(sets: seq<Change>, more: seq<Value>)
    requires sets != []
    ensures ChangeArgs(sets) + more ==
            if sets[0].Assign? then [sets[0].value] + (ChangeArgs(sets[1..]) + more) else ChangeArgs(sets[1..]) + more
  {
    var first, rest := if sets[0].Assign? then [sets[0].value] else [], ChangeArgs(sets[1..]);
    assert ChangeArgs(sets) == first + rest;
    ArgsTogether(first, rest, more);
  }

  lemma FirstEquation(sets: seq<Change>, more: seq<Value>)
    requires sets != []
    ensures Equations(sets) != []
    ensures Equations(sets)[0] == EquationOf(sets[0]) && Equations(sets)[1..] == Equations(sets[1..])
    ensures Left(EquationOf(sets[0]), ChangeArgs(sets) + more) == ChangeArgs(sets[1..]) + more
    ensures sets[0].Assign? ==> ChangeArgs(sets) + more != [] && (ChangeArgs(sets) + more)[0] == sets[0].value
  {
    FirstArgs(sets, more);
    hide ChangeArgs;
    if sets[0].Assign? {
      assert ([sets[0].value] + (ChangeArgs(sets[1..]) + more))[1..] == ChangeArgs(sets[1..]) + more;
    }
  }

  lemma {:induction false} ArgsOfSets(sets: seq<Change>, more: seq<Value>)
    ensures ArgsAfter(Equations(sets), ChangeArgs(sets) + more) == more
  {
    if sets == [] {
      assert ChangeArgs(sets) + more == more;
    } else {
      FirstEquation(sets, more);
      ArgsOfSets(sets[1..], more);
      hide Equations, ChangeArgs, Left;
    }
  }

  lemma FirstChanged(row: Row, sets: seq<Change>)
    requires sets != []
    ensures ChangedAll(row, sets) == ChangedAll(Changed(row, sets[0]), sets[1..])
  {
    if |sets| == 1 {
      assert sets[..0] == [] && sets[1..] == [];
    } else {
      FirstChanged(row, sets[..|sets| - 1]);
      assert sets[..|sets| - 1][1..] == sets[1..][..|sets| - 2];
    }
  }

  lemma AssignedIsChanged(row: Row, c: Change, args: seq<Value>)
    requires c.Assign? ==> args != [] && args[0] == c.value
    ensures Assigned(row, EquationOf(c), args) == Changed(row, c)
  {
    KeyOfProtected();
    hide Key;
  }

  lemma {:induction false} SetsCarriedOut(row: Row, sets: seq<Change>, more: seq<Value>)
    ensures CarriedOut(row, Equations(sets), ChangeArgs(sets) + more) == ChangedAll(row, sets)
    decreases |sets|
  {
    if sets != [] {
      FirstEquation(sets, more);
      AssignedIsChanged(row, sets[0], ChangeArgs(sets) + more);
      FirstChanged(row, sets);
      SetsCarriedOut(Changed(row, sets[0]), sets[1..], more);
      hide Equations, ChangeArgs, Left, Assigned, Changed, EquationOf, ChangedAll;
    }
  }

  lemma ConditionsHold(row: Row, id: string, version: Option<int>)
    ensures AllHold(row, Conditions(version), [Text(id)] + GuardArgs(version)) <==>
            && Get(row, "id") == Word(id)
            && Get(row, "is_deleted") == Number(0)
            && (version.Some? ==> Get(row, "version") == Number(version.value))
  {
    KeyOfProtected();
    hide Key;
    var es, args := Conditions(version), [Text(id)] + GuardArgs(version);
    assert args[1..] == GuardArgs(version);
    assert es[1..] == [Equation("is_deleted", Literal(0))] + es[2..];
    assert es[1..][1..] == es[2..];
    assert Left(es[0], args) == GuardArgs(version) == Left(es[1], GuardArgs(version));
    assert AllHold(row, es, args) <==>
           Get(row, "id") == Word(id) && Get(row, "is_deleted") == Number(0) && AllHold(row, es[2..], GuardArgs(version));
    if version.Some? {
      var guard := [Equation("version", Mark)];
      assert es[2..] == guard && guard[1..] == [];
      assert AllHold(row, guard, [Int(version.value)]) <==> Holds(row, guard[0], [Int(version.value)]);
    } else {
      assert es[2..] == [];
    }
  }

  /** Read from its text, the command of an update, of a one-column update or of a delete selects exactly
      the rows with the id that are live, at the expected version if there is one, and does to them what
      its SET list says. */
  lemma CommandDoesWhatItSays(row: Row, stmt: Statement)
    requires stmt.UpdateWhere? && Named(stmt)
    ensures Selects(CommandOf(stmt), row) <==> Hits(row, stmt)
    ensures Executed(row, CommandOf(stmt)) == Step(row, stmt)
  {
    hide Rendered, ReadUpdate, AllHold, CarriedOut, ChangedAll, Key;
    UpdateReads(stmt.table, stmt.sets, stmt.id, stmt.version);
    var more := [Text(stmt.id)] + GuardArgs(stmt.version);
    assert Arguments(stmt) == ChangeArgs(stmt.sets) + more;
    ArgsOfSets(stmt.sets, more);
    ConditionsHold(row, stmt.id, stmt.version);
    SetsCarriedOut(row, stmt.sets, more);
  }

  /** The row after a history of sent commands. */
  function ExecutedAll(row: Row, cmds: seq<Command>): Row {
    if cmds == [] then row else Executed(ExecutedAll(row, cmds[..|cmds| - 1]), cmds[|cmds| - 1])
  }

  predicate SentAs(cmds: seq<Command>, history: seq<Statement>) {
    |cmds| == |history|
    && forall i :: 0 <= i < |cmds| ==> history[i].UpdateWhere? && Named(history[i]) && cmds[i] == CommandOf(history[i])
  }

  /** So what holds over histories of statements holds over histories of the texts sent. */
  lemma {:induction false} SentHistory(row: Row, cmds: seq<Command>, history: seq<Statement>)
    requires SentAs(cmds, history)
    ensures ExecutedAll(row, cmds) == OptimisticLock.After(row, history)
  {
    hide Executed, Step, CommandOf, Named;
    if cmds != [] {
      SentHistory(row, cmds[..|cmds| - 1], history[..|history| - 1]);
      CommandDoesWhatItSays(OptimisticLock.After(row, history[..|history| - 1]), history[|history| - 1]);
    }
  }

  // ---- inserts ----

  /** Names between commas up to a closing parenthesis. */
  function ReadNames(words: seq<string>): Option<Found<seq<string>>>
    decreases |words|
  {
    if words == [] then None
    else if EndsWith(words[0], ')') then Some(Found([Before(words[0], ')')], false, words[1..]))
    else if !EndsWith(words[0], ',') then None
    else
      match ReadNames(words[1..])
      case Some(more) => Some(more.(value := [Before(words[0], ',')] + more.value))
      case None => None
  }

  /** A list in parentheses. */
  function ReadList(words: seq<string>): Option<Found<seq<string>>> {
    if words == [] || words[0] == "" || words[0][0] != '(' then None else ReadNames([words[0][1..]] + words[1..])
  }

  function FieldsOf(columns: seq<string>, args: seq<Value>): seq<Field>
    requires |columns| == |args|
  {
    seq(|columns|, i requires 0 <= i < |columns| => Field(columns[i], args[i]))
  }

  /** The fields an insert writes: each column with the argument its mark takes. */
  function ReadInsert(cmd: Command): Option<(string, seq<Field>)> {
    var words := Words(cmd.query);
    if |words| < 4 || words[0] != "INSERT" || words[1] != "INTO" then None
    else
      match ReadList(words[3..])
      case None => None
      case Some(Found(columns, _, rest)) =>
        if rest == [] || rest[0] != "VALUES" then None
        else
          match ReadList(rest[1..])
          case None => None
          case Some(Found(marks, _, end)) =>
            if end == [] && |columns| == |marks| == |cmd.args| && (forall i :: 0 <= i < |marks| ==> marks[i] == "?")
            then Some((words[2], FieldsOf(columns, cmd.args)))
            else None
  }

  predicate Item(part: string) {
    ' ' !in part && ',' !in part && ')' !in part
  }

  function Closing(more: Option<string>): string {
    if more.Some? then ")" + " " + more.value else ")"
  }

  function RestOf(more: Option<string>): seq<string> {
    if more.Some? then Words(more.value) else []
  }

  lemma LastItem(part: string, more: Option<string>)
    requires Item(part)
    ensures Words(part + Closing(more)) == [part + ")"] + RestOf(more)
    ensures ReadNames([part + ")"] + RestOf(more)) == Some(Found([part], false, RestOf(more)))
  {
    var word := part + ")";
    assert ' ' !in word && word[..|word| - 1] == part;
    if more.Some? {
      assert part + (")" + " " + more.value) == word + " " + more.value;
      WordThen(word, more.value);
    } else {
      OneWord(word);
    }
    assert ([word] + RestOf(more))[1..] == RestOf(more);
  }

  lemma NextItem(part: string, text: string)
    requires Item(part)
    ensures Words(part + ", " + text) == [part + ","] + Words(text)
    ensures ReadNames([part + ","] + Words(text)) ==
            match ReadNames(Words(text))
            case Some(more) => Some(more.(value := [part] + more.value))
            case None => None
  {
    var word := part + ",";
    assert ' ' !in word && word[..|word| - 1] == part;
    assert part + ", " + text == word + " " + text;
    WordThen(word, text);
    assert ([word] + Words(text))[1..] == Words(text);
  }

  lemma {:induction false} NamesRead(parts: seq<string>, more: Option<string>)
    requires parts != [] && forall i :: 0 <= i < |parts| ==> Item(parts[i])
    ensures ReadNames(Words(Join(parts, ", ") + Closing(more))) == Some(Found(parts, false, RestOf(more)))
  {
    hide Words, ReadNames, Closing;
    if |parts| == 1 {
      LastItem(parts[0], more);
      assert parts == [parts[0]];
    } else {
      NamesRead(parts[1..], more);
      var text := Join(parts[1..], ", ") + Closing(more);
      NextItem(parts[0], text);
      assert parts[0] + ", " + Join(parts[1..], ", ") + Closing(more) == parts[0] + ", " + text;
      assert parts == [parts[0]] + parts[1..];
    }
  }

  lemma ListReads(parts: seq<string>, more: Option<string>)
    requires parts != [] && forall i :: 0 <= i < |parts| ==> Item(parts[i])
    ensures ReadList(Words("(" + (Join(parts, ", ") + Closing(more)))) == Some(Found(parts, false, RestOf(more)))
  {
    hide ReadNames, Join, Closing;
    NamesRead(parts, more);
    OpenedList(Join(parts, ", ") + Closing(more));
  }

  lemma OpenedList(inner: string)
    ensures ReadList(Words("(" + inner)) == ReadNames(Words(inner))
  {
    hide ReadNames;
    assert ("(" + inner)[0] == '(' && ("(" + inner)[1..] == inner;
    var words := Words(inner);
    assert Words("(" + inner) == Prefixed('(', words);
    assert (['('] + words[0])[1..] == words[0] && [words[0]] + words[1..] == words;
  }

  lemma ValuesText(marks: string)
    ensures ") VALUES (" + marks + ")" == ")" + " " + ("VALUES" + " " + ("(" + (marks + ")")))
  {
    assert ") VALUES (" == ")" + " " + ("VALUES" + " " + "(");
  }

  lemma OpenText(rest: string)
    ensures " (" + rest == " " + ("(" + rest)
  {
  }

  lemma IntoText(rest: string)
    ensures "INSERT INTO " + rest == "INSERT" + " " + ("INTO" + " " + rest)
  {
    assert "INSERT INTO " == "INSERT" + " " + ("INTO" + " ");
  }

  /** What follows the table: the columns and the marks. */
  function ListsText(columns: string, marks: string): string {
    "(" + (columns + Closing(Some("VALUES" + " " + ("(" + (marks + Closing(None))))))
  }

  lemma InsertInWords(table: string, columns: string, marks: string)
    requires ' ' !in table
    ensures var query := "INSERT INTO " + (table + (" (" + (columns + (") VALUES (" + marks + ")"))));
            Words(query) == ["INSERT", "INTO", table] + Words(ListsText(columns, marks))
  {
    hide Words;
    var text := ListsText(columns, marks);
    ValuesText(marks);
    OpenText(columns + (") VALUES (" + marks + ")"));
    assert " (" + (columns + (") VALUES (" + marks + ")")) == " " + text;
    assert table + (" " + text) == table + " " + text;
    IntoText(table + " " + text);
    WordThen(table, text);
    WordThen("INTO", table + " " + text);
    WordThen("INSERT", "INTO" + " " + (table + " " + text));
  }

  lemma NamesAreItems(fields: seq<Field>)
    requires forall i :: 0 <= i < |fields| ==> Name(fields[i].column)
    ensures forall i :: 0 <= i < |fields| ==> Item(Columns(fields)[i]) && Item(Slots(fields, QuestionMark)[i])
  {
    hide STOPS;
    forall i | 0 <= i < |fields| ensures Item(Columns(fields)[i]) && Item(Slots(fields, QuestionMark)[i]) {
      NameIsItem(fields[i].column);
      assert Slots(fields, QuestionMark)[i] == QuestionMark(fields[i].value) == "?";
    }
  }

  lemma NameIsItem(name: string)
    requires Name(name)
    ensures Item(name)
  {
    assert ' ' in STOPS && ',' in STOPS && ')' in STOPS;
  }

  /** Read from its text, the command of an insert writes exactly the fields it was given, in order. */
  lemma InsertDoesWhatItSays(table: string, fields: seq<Field>)
    requires Named(InsertInto(table, fields))
    ensures ReadInsert(CommandOf(InsertInto(table, fields))) == Some((table, fields))
  {
    var columns, marks := Columns(fields), Slots(fields, QuestionMark);
    FieldsPaired(fields);
    NamesAreItems(fields);
    NameIsItem(table);
    InsertParts(table, fields, ") VALUES (" + Join(marks, ", ") + ")");
    hide Rendered, Columns, Slots, Name, QuestionMark;
    InsertReads(Command(CommandOf(InsertInto(table, fields)).query, Values(fields)), table, columns, marks);
  }

  lemma InsertReads(cmd: Command, table: string, columns: seq<string>, marks: seq<string>)
    requires Item(table) && |columns| == |marks| == |cmd.args| && columns != []
    requires (forall i :: 0 <= i < |columns| ==> Item(columns[i])) && (forall i :: 0 <= i < |marks| ==> Item(marks[i]))
    requires forall i :: 0 <= i < |marks| ==> marks[i] == "?"
    requires cmd.query == "INSERT INTO " + (table + (" (" + (Join(columns, ", ") + (") VALUES (" + Join(marks, ", ") + ")"))))
    ensures ReadInsert(cmd) == Some((table, FieldsOf(columns, cmd.args)))
  {
    InsertInWords(table, Join(columns, ", "), Join(marks, ", "));
    ListsRead(columns, marks);
    hide Words, Join, ReadList, Item, ListsText, FieldsOf;
    var text := ListsText(Join(columns, ", "), Join(marks, ", "));
    var words := ["INSERT", "INTO", table] + Words(text);
    assert words[3..] == Words(text) && |words| >= 4;
  }

  lemma FieldsPaired(fields: seq<Field>)
    ensures |Columns(fields)| == |Values(fields)| == |Slots(fields, QuestionMark)| == |fields|
    ensures FieldsOf(Columns(fields), Values(fields)) == fields
    ensures forall i :: 0 <= i < |fields| ==> Slots(fields, QuestionMark)[i] == "?"
  {
    assert forall i :: 0 <= i < |fields| ==> Slots(fields, QuestionMark)[i] == QuestionMark(fields[i].value) == "?";
  }

  lemma ListsRead(columns: seq<string>, marks: seq<string>)
    requires columns != [] && marks != []
    requires (forall i :: 0 <= i < |columns| ==> Item(columns[i])) && (forall i :: 0 <= i < |marks| ==> Item(marks[i]))
    ensures var r := ReadList(Words(ListsText(Join(columns, ", "), Join(marks, ", "))));
            && r.Some? && r.value.value == columns && r.value.rest != [] && r.value.rest[0] == "VALUES"
            && ReadList(r.value.rest[1..]) == Some(Found(marks, false, []))
  {
    hide Words, Join, ReadList, Item;
    var list := "(" + (Join(marks, ", ") + Closing(None));
    ListReads(marks, None);
    ListReads(columns, Some("VALUES" + " " + list));
    WordThen("VALUES", list);
    assert (["VALUES"] + Words(list))[1..] == Words(list);
  }

  // ---- the write builder's four commands ----

  /** A live row with the id. */
  predicate LiveAt(row: Row, table: string, id: string) {
    row.table == table && Get(row, "id") == Word(id) && Get(row, "is_deleted") == Number(0)
  }

  lemma NamedUpdate(table: string, id: string, fields: seq<Field>, version: Option<int>)
    requires Name(table) && forall f | f in fields :: Name(f.column)
    requires UpdateSets(fields, version) != []
    ensures Named(UpdateWhere(table, UpdateSets(fields, version), id, version))
  {
    hide Name, Writable;
    var sets := UpdateSets(fields, version);
    forall i | 0 <= i < |sets| ensures NamedChange(sets[i]) {
      if sets[i].Assign? {
        assert sets[i] in Assignments(fields);
        AssignedExactly(fields, sets[i]);
      }
    }
  }

  /** What Update sends changes the live row with the id, at the expected version if there is one: each
      column takes the last writable field that names it and keeps its value otherwise, the version apart. */
  lemma SentUpdate(row: Row, table: string, id: string, fields: seq<Field>, version: Option<int>, key: string)
    requires Name(table) && (forall f | f in fields :: Name(f.column)) && UpdateSets(fields, version) != []
    ensures var cmd := CommandOf(UpdateWhere(table, UpdateSets(fields, version), id, version));
            && (Selects(cmd, row) <==>
                LiveAt(row, table, id) && (version.Some? ==> Get(row, "version") == Number(version.value)))
            && (!Selects(cmd, row) ==> Executed(row, cmd) == row)
            && (Selects(cmd, row) && key != "version" ==>
                  Get(Executed(row, cmd), key) == Overwritten(Get(row, key), LastField(fields, key)))
  {
    hide Named, Executed, Selects, CommandOf, UpdateSets, LastField, Name;
    NamedUpdate(table, id, fields, version);
    var stmt := UpdateWhere(table, UpdateSets(fields, version), id, version);
    CommandDoesWhatItSays(row, stmt);
    if Hits(row, stmt) && key != "version" {
      UpdateWritesFields(row, table, id, fields, version, key);
    }
  }

  lemma OneStep(row: Row, table: string, c: Change, id: string)
    requires Name(table) && NamedChange(c)
    ensures Executed(row, CommandOf(UpdateWhere(table, [c], id, None))) == if LiveAt(row, table, id) then Changed(row, c) else row
  {
    hide Executed, CommandOf, Name, Changed;
    var stmt := UpdateWhere(table, [c], id, None);
    CommandDoesWhatItSays(row, stmt);
    assert [c][..0] == [] && ChangedAll(row, []) == row;
    assert ChangedAll(row, [c]) == Changed(ChangedAll(row, [c][..0]), c);
  }

  /** What UpdateColumn sends writes the one column of the live row with the id, nil included. */
  lemma SentUpdateColumn(row: Row, table: string, id: string, column: string, value: Value)
    requires Name(table) && Name(column)
    ensures Executed(row, CommandOf(UpdateWhere(table, [Assign(column, value)], id, None)))
            == if LiveAt(row, table, id) then Set(row, Key(column), Stored(value)) else row
  {
    hide Executed, CommandOf, Name, Key;
    OneStep(row, table, Assign(column, value), id);
  }

  /** What Delete sends marks the live row with the id as deleted and leaves everything else. */
  lemma SentDelete(row: Row, table: string, id: string)
    requires Name(table)
    ensures Executed(row, CommandOf(UpdateWhere(table, [Retire], id, None)))
            == if LiveAt(row, table, id) then Set(row, "is_deleted", Number(1)) else row
  {
    hide Executed, CommandOf, Name;
    OneStep(row, table, Retire, id);
  }

  lemma {:induction false} KeptNames(fields: seq<Field>)
    requires forall f | f in fields :: Name(f.column)
    ensures forall i :: 0 <= i < |Kept(fields)| ==> Name(Kept(fields)[i].column)
  {
    hide Name;
    forall i | 0 <= i < |Kept(fields)| ensures Name(Kept(fields)[i].column) {
      KeptExactly(fields, Kept(fields)[i]);
    }
  }

  /** What Insert sends writes exactly the fields with a value, in the given order. */
  lemma SentInsert(table: string, fields: seq<Field>)
    requires Name(table) && (forall f | f in fields :: Name(f.column)) && Kept(fields) != []
    ensures ReadInsert(CommandOf(InsertInto(table, Kept(fields)))) == Some((table, Kept(fields)))
  {
    hide ReadInsert, CommandOf, Name, Kept;
    KeptNames(fields);
    InsertDoesWhatItSays(table, Kept(fields));
  }
}
