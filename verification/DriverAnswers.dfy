/** What a program and its Within answer, in terms of the driver's replies (db/tx.go:53-155): nothing that
    went wrong is passed over in silence. */
module DriverAnswers {
  import opened Results
  import opened Transactions

  /** The reply to the i-th call. */
  function ReplyAt(driver: Driver, db: Db, i: nat): Reply
    requires i < |db.calls|
  {
    driver(db.calls[..i + 1])
  }

  predicate AllFine(driver: Driver, db: Db, from: nat) {
    forall i {:trigger db.calls[i]} :: from <= i < |db.calls| ==> ReplyAt(driver, db, i).Fine?
  }

  /** The error is the driver's own. */
  predicate IsError(e: Error, r: Reply) {
    match r
    case Fine => false
    case Failed(message, _) => e == Error.Driver(message)
    case TxDone => e == Error.Driver("sql: transaction has already been committed or rolled back")
  }

  /** A statement makes one call, to the connection its context says, and answers nil exactly when the reply
      to it is fine, and the driver's own error otherwise. A handle without a pool refuses it outside a
      transaction without a call. */
  lemma StatementAnswers(driver: Driver, ready: bool, stmt: string, inTx: bool, db: Db)
    ensures var (o, after) := Eval(driver, ready, Exec(stmt), inTx, db);
            if !inTx && !ready then o == Returned(Some(Uninitialized)) && after == db
            else
              && after.calls == db.calls + [ExecCall(stmt, inTx)]
              && o.Returned?
              && (o.err.None? <==> driver(after.calls).Fine?)
              && (o.err.Some? ==> IsError(o.err.value, driver(after.calls)))
  {
  }

  /** It takes effect where it was sent when the driver says so. */
  lemma StatementTakesEffect(driver: Driver, stmt: string, inTx: bool, db: Db)
    ensures var after := Eval(driver, true, Exec(stmt), inTx, db).1;
            var reply := driver(db.calls + [ExecCall(stmt, inTx)]);
            var effect := if reply.Fine? || (reply.Failed? && reply.tookEffect) then [stmt] else [];
            && (inTx && db.open.Some? ==> after.open == Some(db.open.value + effect) && after.committed == db.committed)
            && (!inTx || db.open.None? ==> after.committed == db.committed + effect && after.open == db.open)
  {
  }

  /** No error and no panic of the program is handled in it. */
  predicate Unhandled(p: Prog) {
    match p
    case Then(a, b) => Unhandled(a) && Unhandled(b)
    case OnError(_, _) => false
    case Recover(_, _) => false
    case IfInTransaction(a, b) => Unhandled(a) && Unhandled(b)
    case Within(body) => Unhandled(body)
    case _ => true
  }

  /** All calls since the given one were fine, but for a last one whose error is the outcome. */
  predicate StopsAtFailure(driver: Driver, from: nat, o: Outcome, after: Db) {
    && from <= |after.calls|
    && (forall i {:trigger after.calls[i]} :: from <= i < |after.calls| - 1 ==> ReplyAt(driver, after, i).Fine?)
    && (from < |after.calls| && !driver(after.calls).Fine? ==> o.Returned? && o.err.Some? && IsError(o.err.value, driver(after.calls)))
  }

  /** Inside a transaction, without handlers: the first failing statement is the last, and its error is
      what comes out. */
  lemma {:induction false} FirstFailureComesOut(driver: Driver, ready: bool, p: Prog, db: Db)
    requires Unhandled(p) && db.open.Some?
    ensures var (o, after) := Eval(driver, ready, p, true, db);
            && db.calls <= after.calls && after.open.Some?
            && StopsAtFailure(driver, |db.calls|, o, after)
    decreases p, 1
  {
    TransactionStaysOpen(driver, ready, p, db);
    match p
    case Exec(stmt) => assert (db.calls + [ExecCall(stmt, true)])[..|db.calls| + 1] == db.calls + [ExecCall(stmt, true)];
    case Then(a, b) => FailureInTurn(driver, ready, p, a, b, db);
    case IfInTransaction(a, _) => FirstFailureComesOut(driver, ready, a, db);
    case Within(body) => FirstFailureComesOut(driver, ready, body, db);
    case _ =>
  }

  lemma {:induction false} FailureInTurn(driver: Driver, ready: bool, p: Prog, a: Prog, b: Prog, db: Db)
    requires a < p && b < p && Unhandled(a) && Unhandled(b) && db.open.Some?
    ensures var (o, after) := Eval(driver, ready, Then(a, b), true, db);
            StopsAtFailure(driver, |db.calls|, o, after)
    decreases p, 0
  {
    var (o, mid) := Eval(driver, ready, a, true, db);
    FirstFailureComesOut(driver, ready, a, db);
    if o == Returned(None) {
      FirstFailureComesOut(driver, ready, b, mid);
      var after := Eval(driver, ready, b, true, mid).1;
      forall i | |db.calls| <= i < |after.calls| - 1 ensures ReplyAt(driver, after, i).Fine? {
        if i < |mid.calls| {
          assert after.calls[..i + 1] == mid.calls[..i + 1];
          assert mid.calls[..|mid.calls|] == mid.calls;
          assert i == |mid.calls| - 1 || (mid.calls[i] == mid.calls[i] && ReplyAt(driver, mid, i).Fine?);
        } else {
          assert after.calls[i] == after.calls[i];
        }
      }
      if |after.calls| == |mid.calls| {
        assert after.calls == mid.calls;
      }
    }
  }

  // ---- an outermost Within ----

  /** The last call. */
  function Last(db: Db): Call
    requires db.calls != []
  {
    db.calls[|db.calls| - 1]
  }

  /** Without a pool Within refuses before any call, and so it does when the driver cannot begin. */
  lemma CannotBegin(driver: Driver, ready: bool, body: Prog, db: Db)
    requires !ready || !driver(db.calls + [BeginCall]).Fine?
    ensures var (o, after) := Eval(driver, ready, Within(body), false, db);
            && o.Returned? && o.err.Some? && o.err.value.BeginFailed?
            && after.committed == db.committed
            && (!ready ==> after == db && o.err.value.cause == Uninitialized)
            && (ready ==> after.calls == db.calls + [BeginCall] && IsError(o.err.value.cause, driver(after.calls)))
  {
  }

  /** The result of an outermost Within, from its body's own and the driver's reply to the last call: the
      same panic; the body's error, joined with the rollback's if that failed; nil only for a fine commit,
      and else the commit's error. */
  predicate EndsAs(driver: Driver, own: Outcome, o: Outcome, after: Db) {
    && after.calls != []
    && var reply := driver(after.calls);
       match own
       case Panicked(value) => o == own && Last(after) == RollbackCall
       case Returned(Some(e)) =>
         && Last(after) == RollbackCall && o.Returned? && o.err.Some?
         && if reply.Failed? then o.err.value == Joined(e, Error.Driver(reply.message)) else o.err.value == e
       case Returned(None) =>
         && Last(after) == CommitCall && o.Returned?
         && (o.err.None? <==> reply.Fine?)
         && (o.err.Some? ==> o.err.value.CommitFailed? && IsError(o.err.value.cause, reply))
  }

  lemma WithinAnswers(driver: Driver, body: Prog, db: Db)
    requires db.open.None? && driver(db.calls + [BeginCall]).Fine?
    ensures var (o, after) := Eval(driver, true, Within(body), false, db);
            EndsAs(driver, Alone(driver, true, body, db).0, o, after)
  {
    NestedWithinIsTransparent(driver, true, body, Begin(driver, db).1);
    TransactionStaysOpen(driver, true, Erase(body), Begin(driver, db).1);
  }

  /** What becomes visible: all that the body did, when it returned nil and the commit took effect, even if the
      driver lost the answer to it; and otherwise nothing. */
  lemma WithinTakesEffect(driver: Driver, body: Prog, db: Db)
    requires db.open.None? && driver(db.calls + [BeginCall]).Fine?
    ensures var (own, done) := Alone(driver, true, body, db);
            var reply := driver(done.calls + [CommitCall]);
            var after := Eval(driver, true, Within(body), false, db).1;
            && done.open.Some?
            && after.committed == db.committed + if own == Returned(None) && (reply.Fine? || (reply.Failed? && reply.tookEffect))
                                                 then done.open.value else []
  {
    NestedWithinIsTransparent(driver, true, body, Begin(driver, db).1);
    TransactionStaysOpen(driver, true, Erase(body), Begin(driver, db).1);
    assert db.committed + [] == db.committed;
  }

  /** What a failing statement makes of an outermost Within without handlers: nothing is sent after it but
      the rollback, its error comes out, and nothing becomes visible. */
  predicate RolledBackFor(driver: Driver, before: Db, o: Outcome, after: Db, i: nat)
    requires i < |after.calls|
  {
    var reply := driver(after.calls);
    && i == |after.calls| - 2 && Last(after) == RollbackCall
    && after.committed == before.committed
    && o.Returned? && o.err.Some?
    && if reply.Failed? then
         o.err.value.Joined? && IsError(o.err.value.first, ReplyAt(driver, after, i)) && o.err.value.second == Error.Driver(reply.message)
       else IsError(o.err.value, ReplyAt(driver, after, i))
  }

  /** The calls of an outermost Within that begins: the begin, those of its body, and the end. */
  lemma CallsInTurn(driver: Driver, body: Prog, db: Db)
    requires db.open.None? && driver(db.calls + [BeginCall]).Fine?
    ensures var (own, done) := Alone(driver, true, body, db);
            var after := Eval(driver, true, Within(body), false, db).1;
            && (own, done) == Eval(driver, true, body, true, Begin(driver, db).1)
            && db.calls + [BeginCall] <= done.calls
            && after.calls == done.calls + [if own == Returned(None) then CommitCall else RollbackCall]
            && (own != Returned(None) ==> after.committed == db.committed)
  {
    NestedWithinIsTransparent(driver, true, body, Begin(driver, db).1);
    OneBeginOneEnd(driver, body, db);
    WithinIsAtomic(driver, body, db);
  }

  lemma EarlierReplies(driver: Driver, a: Db, b: Db)
    requires a.calls <= b.calls
    ensures forall i: nat {:trigger a.calls[i]} :: i < |a.calls| ==> b.calls[i] == a.calls[i] && ReplyAt(driver, b, i) == ReplyAt(driver, a, i)
    ensures b.calls != [] ==> ReplyAt(driver, b, |b.calls| - 1) == driver(b.calls)
  {
    forall i: nat {:trigger a.calls[i]} | i < |a.calls| ensures b.calls[i] == a.calls[i] && ReplyAt(driver, b, i) == ReplyAt(driver, a, i) {
      assert b.calls[..i + 1] == a.calls[..i + 1];
    }
    assert b.calls[..|b.calls|] == b.calls;
  }

  /** Every failing statement since the start ended in a rollback, and nil means that no call failed. */
  predicate NoneSilent(driver: Driver, before: Db, o: Outcome, after: Db) {
    && before.calls <= after.calls
    && (o == Returned(None) ==> AllFine(driver, after, |before.calls|))
    && (forall i: nat {:trigger after.calls[i]} ::
          |before.calls| <= i < |after.calls| && after.calls[i].ExecCall? && !ReplyAt(driver, after, i).Fine?
          ==> RolledBackFor(driver, before, o, after, i))
  }

  lemma StoppedIsNotSilent(driver: Driver, db: Db, own: Outcome, done: Db, o: Outcome, after: Db)
    requires db.calls + [BeginCall] <= done.calls && driver(db.calls + [BeginCall]).Fine?
    requires StopsAtFailure(driver, |db.calls| + 1, own, done)
    requires after.calls == done.calls + [if own == Returned(None) then CommitCall else RollbackCall]
    requires own != Returned(None) ==> after.committed == db.committed
    requires EndsAs(driver, own, o, after)
    ensures NoneSilent(driver, db, o, after)
  {
    var n := |db.calls|;
    EarlierReplies(driver, done, after);
    EarlierReplies(driver, done, done);
    assert done.calls[..n + 1] == db.calls + [BeginCall] && done.calls[n] == BeginCall;
    forall i: nat {:trigger after.calls[i]} |
      n <= i < |after.calls| && after.calls[i].ExecCall? && !ReplyAt(driver, after, i).Fine?
      ensures RolledBackFor(driver, db, o, after, i)
    {
      assert done.calls[i] == after.calls[i] && ReplyAt(driver, done, i) == ReplyAt(driver, after, i);
    }
    if o == Returned(None) {
      forall i | n <= i < |after.calls| ensures ReplyAt(driver, after, i).Fine? {
        assert i < |done.calls| ==> done.calls[i] == after.calls[i];
      }
    }
  }

  lemma BegunIsNotSilent(driver: Driver, body: Prog, db: Db)
    requires Unhandled(body) && db.open.None? && driver(db.calls + [BeginCall]).Fine?
    ensures var (o, after) := Eval(driver, true, Within(body), false, db);
            NoneSilent(driver, db, o, after)
  {
    var (o, after) := Eval(driver, true, Within(body), false, db);
    var (own, done) := Alone(driver, true, body, db);
    CallsInTurn(driver, body, db);
    WithinAnswers(driver, body, db);
    Begins(driver, db);
    FirstFailureComesOut(driver, true, body, Begin(driver, db).1);
    hide Eval, Alone, EndsAs, StopsAtFailure, NoneSilent, Begin, Unhandled, Erase;
    StoppedIsNotSilent(driver, db, own, done, o, after);
  }

  lemma Begins(driver: Driver, db: Db)
    requires driver(db.calls + [BeginCall]).Fine?
    ensures Begin(driver, db).1.open.Some? && |Begin(driver, db).1.calls| == |db.calls| + 1
  {
  }

  lemma NotBegunIsNotSilent(driver: Driver, body: Prog, db: Db)
    requires !driver(db.calls + [BeginCall]).Fine?
    ensures var (o, after) := Eval(driver, true, Within(body), false, db);
            NoneSilent(driver, db, o, after)
  {
    CannotBegin(driver, true, body, db);
    var (o, after) := Eval(driver, true, Within(body), false, db);
    hide Eval;
    EarlierReplies(driver, after, after);
    assert after.calls == db.calls + [BeginCall];
  }

  /** An outermost Within around a body without handlers returns nil only if every call it made was answered
      fine, and the first statement that was not ends it. */
  lemma NothingFailsInSilence(driver: Driver, body: Prog, db: Db)
    requires Unhandled(body) && db.open.None?
    ensures var (o, after) := Eval(driver, true, Within(body), false, db);
            NoneSilent(driver, db, o, after)
  {
    if driver(db.calls + [BeginCall]).Fine? {
      BegunIsNotSilent(driver, body, db);
    } else {
      NotBegunIsNotSilent(driver, body, db);
    }
  }
}
