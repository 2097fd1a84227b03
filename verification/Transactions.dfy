/** Transactions carried by the context (db/tx.go).

    A program is the body of a service function: statements, error handling, panics and nested calls of
    Within, all using the context they are given. The database driver answers each call from an oracle. */
module Transactions {
  import opened Results

  datatype Error =
    | Business(message: string)
    | Driver(message: string)
    | NilFunc
    | Uninitialized
    | BeginFailed(cause: Error)
    | CommitFailed(cause: Error)
    | Joined(first: Error, second: Error)

  datatype Outcome = Returned(err: Option<Error>) | Panicked(value: string)

  datatype Prog =
    | Skip
    | Exec(stmt: string)
    | Then(first: Prog, rest: Prog)
    | Fail(err: Error)
    | Panic(value: string)
      // an error of the body is dropped and the handler runs instead
    | OnError(body: Prog, handler: Prog)
      // a panic of the body is recovered and the handler runs instead
    | Recover(body: Prog, handler: Prog)
      // branches on InTransaction(ctx)
    | IfInTransaction(yes: Prog, no: Prog)
    | Within(body: Prog)
    | WithinNil

  // ---- the database ----

  datatype Call = BeginCall | ExecCall(stmt: string, inTx: bool) | CommitCall | RollbackCall

  /** A failed call may still have taken effect on the server. */
  datatype Reply = Fine | Failed(message: string, tookEffect: bool) | TxDone

  /** Answers the last call of the history. */
  type Driver = seq<Call> -> Reply

  /** committed is what other connections see; open is what the transaction has done so far. */
  datatype Db = Db(committed: seq<string>, open: Option<seq<string>>, calls: seq<Call>)

  function Called(db: Db, c: Call): Db {
    db.(calls := db.calls + [c])
  }

  function ReplyTo(driver: Driver, db: Db, c: Call): Reply {
    driver(db.calls + [c])
  }

  function ErrorOf(r: Reply): Error
    requires !r.Fine?
  {
    if r.Failed? then Error.Driver(r.message) else Error.Driver("sql: transaction has already been committed or rolled back")
  }

  function Took(r: Reply): bool {
    r.Fine? || (r.Failed? && r.tookEffect)
  }

  // ---- the meaning of a program ----

  function RunStmt(driver: Driver, ready: bool, stmt: string, inTx: bool, db: Db): (Outcome, Db) {
    if !inTx && !ready then (Returned(Some(Uninitialized)), db)
    else
      var c := ExecCall(stmt, inTx);
      var r := ReplyTo(driver, db, c);
      var after := Called(db, c);
      var effect := if Took(r) then [stmt] else [];
      (Returned(if r.Fine? then None else Some(ErrorOf(r))),
       if inTx && db.open.Some? then after.(open := Some(db.open.value + effect))
       else after.(committed := db.committed + effect))
  }

  function Begin(driver: Driver, db: Db): (Option<Error>, Db) {
    var r := ReplyTo(driver, db, BeginCall);
    if r.Fine? then (None, Called(db, BeginCall).(open := Some([])))
    else (Some(ErrorOf(r)), Called(db, BeginCall))
  }

  function Rollback(driver: Driver, db: Db): (Reply, Db) {
    (ReplyTo(driver, db, RollbackCall), Called(db, RollbackCall).(open := None))
  }

  function Commit(driver: Driver, db: Db): (Reply, Db) {
    var r := ReplyTo(driver, db, CommitCall);
    var committed := if Took(r) && db.open.Some? then db.committed + db.open.value else db.committed;
    (r, Called(db, CommitCall).(open := None, committed := committed))
  }

  /** The end of an outermost Within, after its body. */
  function Finish(driver: Driver, o: Outcome, db: Db): (Outcome, Db) {
    match o
    case Panicked(v) => (Panicked(v), Rollback(driver, db).1)
    case Returned(Some(e)) =>
      var (r, after) := Rollback(driver, db);
      (Returned(Some(if r.Failed? then Joined(e, ErrorOf(r)) else e)), after)
    case Returned(None) =>
      var (r, after) := Commit(driver, db);
      (Returned(if r.Fine? then None else Some(CommitFailed(ErrorOf(r)))), after)
  }

  /** ready says that the handle has a connection pool, inTx that the context carries a transaction. */
  function Eval(driver: Driver, ready: bool, p: Prog, inTx: bool, db: Db): (Outcome, Db) {
    match p
    case Skip => (Returned(None), db)
    case Exec(stmt) => RunStmt(driver, ready, stmt, inTx, db)
    case Then(first, rest) =>
      var (o, mid) := Eval(driver, ready, first, inTx, db);
      if o == Returned(None) then Eval(driver, ready, rest, inTx, mid) else (o, mid)
    case Fail(e) => (Returned(Some(e)), db)
    case Panic(v) => (Panicked(v), db)
    case OnError(body, handler) =>
      var (o, mid) := Eval(driver, ready, body, inTx, db);
      if o.Returned? && o.err.Some? then Eval(driver, ready, handler, inTx, mid) else (o, mid)
    case Recover(body, handler) =>
      var (o, mid) := Eval(driver, ready, body, inTx, db);
      if o.Panicked? then Eval(driver, ready, handler, inTx, mid) else (o, mid)
    case IfInTransaction(yes, no) => Eval(driver, ready, if inTx then yes else no, inTx, db)
    case Within(body) =>
      if inTx then Eval(driver, ready, body, inTx, db)
      else if !ready then (Returned(Some(BeginFailed(Uninitialized))), db)
      else
        var (failed, begun) := Begin(driver, db);
        if failed.Some? then (Returned(Some(BeginFailed(failed.value))), begun)
        else
          var (o, done) := Eval(driver, ready, body, true, begun);
          Finish(driver, o, done)
    case WithinNil => (Returned(Some(NilFunc)), db)
  }

  // ---- nesting is transparent ----

  /** The program with its calls of Within replaced by their bodies. */
  function Erase(p: Prog): Prog {
    match p
    case Then(a, b) => Then(Erase(a), Erase(b))
    case OnError(a, b) => OnError(Erase(a), Erase(b))
    case Recover(a, b) => Recover(Erase(a), Erase(b))
    case IfInTransaction(a, b) => IfInTransaction(Erase(a), Erase(b))
    case Within(body) => Erase(body)
    case _ => p
  }

  /** Inside a transaction a program gives the same result, panics included, and makes the same driver
      calls with the same effects as the program without its nested Within. */
  lemma {:induction false} NestedWithinIsTransparent(driver: Driver, ready: bool, p: Prog, db: Db)
    ensures Eval(driver, ready, p, true, db) == Eval(driver, ready, Erase(p), true, db)
  {
    match p
    case Then(a, b) =>
      NestedWithinIsTransparent(driver, ready, a, db);
      NestedWithinIsTransparent(driver, ready, b, Eval(driver, ready, a, true, db).1);
    case OnError(a, b) =>
      NestedWithinIsTransparent(driver, ready, a, db);
      NestedWithinIsTransparent(driver, ready, b, Eval(driver, ready, a, true, db).1);
    case Recover(a, b) =>
      NestedWithinIsTransparent(driver, ready, a, db);
      NestedWithinIsTransparent(driver, ready, b, Eval(driver, ready, a, true, db).1);
    case IfInTransaction(a, b) => NestedWithinIsTransparent(driver, ready, a, db);
    case Within(body) => NestedWithinIsTransparent(driver, ready, body, db);
    case _ =>
  }

  // ---- inside a transaction ----

  /** b continues a with statements of the open transaction only. */
  predicate Continues(a: Db, b: Db) {
    && a.open.Some? && b.open.Some?
    && b.committed == a.committed
    && a.open.value <= b.open.value
    && a.calls <= b.calls
    && forall i :: |a.calls| <= i < |b.calls| ==> b.calls[i].ExecCall? && b.calls[i].inTx
  }

  lemma ContinuesFurther(a: Db, b: Db, c: Db)
    requires Continues(a, b) && Continues(b, c)
    ensures Continues(a, c)
  {
  }

  lemma {:induction false} TransactionStaysOpen(driver: Driver, ready: bool, p: Prog, db: Db)
    requires db.open.Some?
    ensures Continues(db, Eval(driver, ready, p, true, db).1)
    decreases p, 1
  {
    match p
    case Then(a, b) => StaysOpenInTurn(driver, ready, p, a, b, db);
    case OnError(a, b) => StaysOpenInTurn(driver, ready, p, a, b, db);
    case Recover(a, b) => StaysOpenInTurn(driver, ready, p, a, b, db);
    case IfInTransaction(a, _) => TransactionStaysOpen(driver, ready, a, db);
    case Within(body) => TransactionStaysOpen(driver, ready, body, db);
    case _ =>
  }

  lemma {:induction false} StaysOpenInTurn(driver: Driver, ready: bool, p: Prog, a: Prog, b: Prog, db: Db)
    requires db.open.Some? && a < p && b < p
    ensures var mid := Eval(driver, ready, a, true, db).1;
            Continues(db, mid) && Continues(db, Eval(driver, ready, b, true, mid).1)
    decreases p, 0
  {
    var mid := Eval(driver, ready, a, true, db).1;
    TransactionStaysOpen(driver, ready, a, db);
    TransactionStaysOpen(driver, ready, b, mid);
    ContinuesFurther(db, mid, Eval(driver, ready, b, true, mid).1);
  }

  // ---- an outermost Within ----

  /** The body's own result and the effects of its statements, were it run alone in a transaction. */
  function Alone(driver: Driver, ready: bool, body: Prog, db: Db): (Outcome, Db) {
    Eval(driver, ready, Erase(body), true, Begin(driver, db).1)
  }

  /** The error is kept in what Within returns. */
  predicate Keeps(returned: Error, cause: Error) {
    returned == cause || (returned.Joined? && returned.first == cause)
  }

  /** One Begin, then the statements of the body, then one Commit exactly when the body returned nil and
      one Rollback otherwise. */
  lemma OneBeginOneEnd(driver: Driver, body: Prog, db: Db)
    requires db.open.None? && Begin(driver, db).0.None?
    ensures var (o, after) := Eval(driver, true, Within(body), false, db);
            var (own, done) := Alone(driver, true, body, db);
            && after.calls == done.calls + [if own == Returned(None) then CommitCall else RollbackCall]
            && db.calls + [BeginCall] <= done.calls
            && (forall i :: |db.calls| + 1 <= i < |done.calls| ==> done.calls[i].ExecCall? && done.calls[i].inTx)
            && after.open.None?
  {
    NestedWithinIsTransparent(driver, true, body, Begin(driver, db).1);
    TransactionStaysOpen(driver, true, Erase(body), Begin(driver, db).1);
  }

  /** All or nothing: a nil result makes every effect of the body visible; an error or a panic of the
      body leaves none, keeps the error and raises the same panic. */
  lemma WithinIsAtomic(driver: Driver, body: Prog, db: Db)
    requires db.open.None? && Begin(driver, db).0.None?
    ensures var (o, after) := Eval(driver, true, Within(body), false, db);
            var (own, done) := Alone(driver, true, body, db);
            && done.open.Some?
            && (o == Returned(None) ==> own == Returned(None) && after.committed == db.committed + done.open.value)
            && (own != Returned(None) ==> after.committed == db.committed)
            && (own.Panicked? <==> o.Panicked?)
            && (own.Panicked? ==> o == own)
            && (own.Returned? && own.err.Some? ==> o.err.Some? && Keeps(o.err.value, own.err.value))
            && (after.committed == db.committed || after.committed == db.committed + done.open.value)
  {
    NestedWithinIsTransparent(driver, true, body, Begin(driver, db).1);
    TransactionStaysOpen(driver, true, Erase(body), Begin(driver, db).1);
  }

  // ---- the driver protocol ----

  /** Whether the calls so far leave a transaction open; None when they break the protocol: no Begin
      inside a transaction, no end outside one, every statement on the connection it belongs to. */
  function Protocol(driver: Driver, calls: seq<Call>): Option<bool> {
    if calls == [] then Some(false)
    else
      match (Protocol(driver, calls[..|calls| - 1]), calls[|calls| - 1])
      case (Some(open), ExecCall(_, inTx)) => if open == inTx then Some(open) else None
      case (Some(open), BeginCall) => if open then None else Some(driver(calls).Fine?)
      case (Some(open), _) => if open then Some(false) else None
      case (None, _) => None
  }

  predicate Sane(driver: Driver, db: Db) {
    Protocol(driver, db.calls) == Some(db.open.Some?)
  }

  lemma OneMoreCall(driver: Driver, calls: seq<Call>, c: Call)
    ensures Protocol(driver, calls + [c]) ==
            match (Protocol(driver, calls), c)
            case (Some(open), ExecCall(_, inTx)) => (if open == inTx then Some(open) else None)
            case (Some(open), BeginCall) => (if open then None else Some(driver(calls + [c]).Fine?))
            case (Some(open), _) => (if open then Some(false) else None)
            case (None, _) => None
  {
    assert (calls + [c])[..|calls|] == calls;
  }

  lemma {:induction false} StaysSane(driver: Driver, ready: bool, p: Prog, db: Db)
    requires Sane(driver, db)
    ensures var after := Eval(driver, ready, p, db.open.Some?, db).1;
            Sane(driver, after) && after.open.Some? == db.open.Some?
  {
    var inTx := db.open.Some?;
    match p
    case Exec(stmt) => OneMoreCall(driver, db.calls, ExecCall(stmt, inTx));
    case Then(a, b) =>
      StaysSane(driver, ready, a, db);
      StaysSane(driver, ready, b, Eval(driver, ready, a, inTx, db).1);
    case OnError(a, b) =>
      StaysSane(driver, ready, a, db);
      StaysSane(driver, ready, b, Eval(driver, ready, a, inTx, db).1);
    case Recover(a, b) =>
      StaysSane(driver, ready, a, db);
      StaysSane(driver, ready, b, Eval(driver, ready, a, inTx, db).1);
    case IfInTransaction(a, b) => StaysSane(driver, ready, if inTx then a else b, db);
    case Within(body) =>
      if inTx {
        StaysSane(driver, ready, body, db);
      } else if ready {
        var (failed, begun) := Begin(driver, db);
        BeginSane(driver, db);
        if failed.None? {
          StaysSane(driver, ready, body, begun);
          var (o, done) := Eval(driver, ready, body, true, begun);
          EndSane(driver, ready, body, db, done);
        }
      }
    case _ =>
  }

  lemma BeginSane(driver: Driver, db: Db)
    requires Sane(driver, db) && db.open.None?
    ensures var (failed, begun) := Begin(driver, db);
            Sane(driver, begun) && (begun.open.Some? <==> failed.None?)
  {
    OneMoreCall(driver, db.calls, BeginCall);
  }

  lemma EndSane(driver: Driver, ready: bool, body: Prog, db: Db, done: Db)
    requires db.open.None? && ready && Begin(driver, db).0.None?
    requires done == Eval(driver, ready, body, true, Begin(driver, db).1).1
    requires Sane(driver, done) && done.open.Some?
    ensures var after := Eval(driver, ready, Within(body), false, db).1;
            Sane(driver, after) && after.open.None?
  {
    OneMoreCall(driver, done.calls, CommitCall);
    OneMoreCall(driver, done.calls, RollbackCall);
    hide Protocol;
  }

  /** Any program, however it nests, fails, panics and recovers, and whatever the driver answers: the
      calls obey the protocol and no transaction is left open. */
  lemma NoTransactionLeaks(driver: Driver, ready: bool, p: Prog, committed: seq<string>)
    ensures var after := Eval(driver, ready, p, false, Db(committed, None, [])).1;
            after.open.None? && Protocol(driver, after.calls) == Some(false)
  {
    StaysSane(driver, ready, p, Db(committed, None, []));
  }

  // ---- the handle ----

  /** A context.Context, with or without a transaction of the database. */
  datatype Ctx = Background | InTx(tx: Database)

  class Database {
    const driver: Driver
    var committed: seq<string>
    var open: Option<seq<string>>
    var calls: seq<Call>

    function State(): Db
      reads this
    {
      Db(committed, open, calls)
    }

    constructor (driver: Driver)
      ensures this.driver == driver && State() == Db([], None, [])
    {
      this.driver := driver;
      committed, open, calls := [], None, [];
    }

    method Ask(c: Call) returns (r: Reply)
      modifies this`calls
      ensures r == ReplyTo(driver, old(State()), c) && State() == Called(old(State()), c)
    {
      calls := calls + [c];
      r := driver(calls);
    }

    method ExecStmt(stmt: string, inTx: bool) returns (err: Option<Error>)
      modifies this
      ensures (Returned(err), State()) == RunStmt(driver, true, stmt, inTx, old(State()))
    {
      var r := Ask(ExecCall(stmt, inTx));
      if Took(r) {
        if inTx && open.Some? {
          open := Some(open.value + [stmt]);
        } else {
          committed := committed + [stmt];
        }
      } else {
        assert committed + [] == committed && (open.Some? ==> open.value + [] == open.value);
      }
      err := if r.Fine? then None else Some(ErrorOf(r));
    }

    method BeginTx() returns (err: Option<Error>)
      modifies this
      ensures (err, State()) == Begin(driver, old(State()))
    {
      var r := Ask(BeginCall);
      if r.Fine? {
        open := Some([]);
        return None;
      }
      return Some(ErrorOf(r));
    }

    method RollbackTx() returns (r: Reply)
      modifies this
      ensures (r, State()) == Rollback(driver, old(State()))
    {
      r := Ask(RollbackCall);
      open := None;
    }

    method CommitTx() returns (r: Reply)
      modifies this
      ensures (r, State()) == Commit(driver, old(State()))
    {
      r := Ask(CommitCall);
      if Took(r) && open.Some? {
        committed := committed + open.value;
      }
      open := None;
    }
  }

  /** Handle wraps a connection pool, or nothing. */
  class Handle {
    const raw: Database?

    constructor (raw: Database?)
      ensures this.raw == raw
    {
      this.raw := raw;
    }

    /** The context and the handle speak of the same database. */
    ghost predicate For(ctx: Ctx, db: Database) {
      (raw == null || raw == db) && (ctx.InTx? ==> ctx.tx == db)
    }

    method ExecContext(ctx: Ctx, stmt: string, ghost db: Database) returns (err: Option<Error>)
      requires For(ctx, db)
      modifies db
      ensures (Returned(err), db.State()) == RunStmt(db.driver, raw != null, stmt, ctx.InTx?, old(db.State()))
      ensures ctx.Background? && raw == null ==> err == Some(Uninitialized) && db.calls == old(db.calls)
      ensures ctx.InTx? || raw != null ==>
                && db.calls == old(db.calls) + [ExecCall(stmt, ctx.InTx?)]
                && (err.None? <==> db.driver(db.calls).Fine?)
    {
      if ctx.InTx? {
        err := ctx.tx.ExecStmt(stmt, true);
        return;
      }
      if raw == null {
        return Some(Uninitialized);
      }
      err := raw.ExecStmt(stmt, false);
    }

    /** The body of a service function, run with the context it is given. */
    method Run(ctx: Ctx, p: Prog, ghost db: Database) returns (o: Outcome)
      requires For(ctx, db)
      modifies db
      ensures (o, db.State()) == Eval(db.driver, raw != null, p, ctx.InTx?, old(db.State()))
      decreases p, 1
    {
      match p
      case Skip => o := Returned(None);
      case Exec(stmt) =>
        var err := ExecContext(ctx, stmt, db);
        o := Returned(err);
      case Then(first, rest) =>
        o := Run(ctx, first, db);
        if o == Returned(None) {
          o := Run(ctx, rest, db);
        }
      case Fail(e) => o := Returned(Some(e));
      case Panic(v) => o := Panicked(v);
      case OnError(body, handler) =>
        o := Run(ctx, body, db);
        if o.Returned? && o.err.Some? {
          o := Run(ctx, handler, db);
        }
      case Recover(body, handler) =>
        o := Run(ctx, body, db);
        if o.Panicked? {
          o := Run(ctx, handler, db);
        }
      case IfInTransaction(yes, no) =>
        if ctx.InTx? {
          o := Run(ctx, yes, db);
        } else {
          o := Run(ctx, no, db);
        }
      case Within(body) => o := CallWithin(ctx, Some(body), db);
      case WithinNil => o := CallWithin(ctx, None, db);
    }

    /** Within: fn is None for a nil function. */
    method CallWithin(ctx: Ctx, fn: Option<Prog>, ghost db: Database) returns (o: Outcome)
      requires For(ctx, db)
      modifies db
      ensures (o, db.State()) ==
              Eval(db.driver, raw != null, if fn.Some? then Within(fn.value) else WithinNil, ctx.InTx?, old(db.State()))
      decreases if fn.Some? then fn.value else WithinNil, if fn.Some? then 2 else 0
    {
      if fn.None? {
        return Returned(Some(NilFunc));
      }
      if ctx.InTx? {
        o := Run(ctx, fn.value, db);
        return;
      }
      if raw == null {
        return Returned(Some(BeginFailed(Uninitialized)));
      }
      var err := raw.BeginTx();
      if err.Some? {
        return Returned(Some(BeginFailed(err.value)));
      }
      o := Run(InTx(raw), fn.value, db);
      if o.Panicked? {
        var _ := raw.RollbackTx();
        return;
      }
      if o.err.Some? {
        var rolled := raw.RollbackTx();
        if rolled.Failed? {
          o := Returned(Some(Joined(o.err.value, ErrorOf(rolled))));
        }
        return;
      }
      var done := raw.CommitTx();
      if !done.Fine? {
        o := Returned(Some(CommitFailed(ErrorOf(done))));
      }
    }
  }
}
