/** Does an error of a nested Within roll the outer transaction back (db/tx.go:109-121)? Only if no handler
    in the outer body can turn it into success; which bodies those are can be read off their text. */
module NestedErrors {
  import opened Results
  import opened Transactions

  datatype Ending = Succeeds | Fails | Panics

  function EndingOf(o: Outcome): Ending {
    match o
    case Panicked(_) => Panics
    case Returned(Some(_)) => Fails
    case Returned(None) => Succeeds
  }

  /** During the program, run inside a transaction, some nested Within returns an error. */
  function InnerFails(driver: Driver, ready: bool, p: Prog, db: Db): bool {
    match p
    case Then(a, b) =>
      var (o, mid) := Eval(driver, ready, a, true, db);
      InnerFails(driver, ready, a, db) || (EndingOf(o).Succeeds? && InnerFails(driver, ready, b, mid))
    case OnError(a, b) =>
      var (o, mid) := Eval(driver, ready, a, true, db);
      InnerFails(driver, ready, a, db) || (EndingOf(o).Fails? && InnerFails(driver, ready, b, mid))
    case Recover(a, b) =>
      var (o, mid) := Eval(driver, ready, a, true, db);
      InnerFails(driver, ready, a, db) || (EndingOf(o).Panics? && InnerFails(driver, ready, b, mid))
    case IfInTransaction(a, _) => InnerFails(driver, ready, a, db)
    case Within(body) => InnerFails(driver, ready, body, db) || EndingOf(Eval(driver, ready, body, true, db).0).Fails?
    case WithinNil => true
    case _ => false
  }

  // ---- what a program text may do ----

  /** Inside p: a, then b if a ends as through. */
  predicate MayInTurn(p: Prog, a: Prog, b: Prog, through: Ending, e: Ending, inner: bool)
    requires a < p && b < p
    decreases p, 0
  {
    || (e != through && May(a, e, inner))
    || exists f: bool, g: bool :: May(a, through, f) && May(b, e, g) && inner == (f || g)
  }

  /** Some driver makes the program end in this way, with or without an error of a nested Within. */
  predicate May(p: Prog, e: Ending, inner: bool)
    decreases p, 1
  {
    match p
    case Skip => e.Succeeds? && !inner
    case Exec(_) => !e.Panics? && !inner
    case Then(a, b) => MayInTurn(p, a, b, Succeeds, e, inner)
    case Fail(_) => e.Fails? && !inner
    case Panic(_) => e.Panics? && !inner
    case OnError(a, b) => MayInTurn(p, a, b, Fails, e, inner)
    case Recover(a, b) => MayInTurn(p, a, b, Panics, e, inner)
    case IfInTransaction(a, _) => May(a, e, inner)
    case Within(body) => if e.Fails? then inner && (May(body, e, true) || May(body, e, false)) else May(body, e, inner)
    case WithinNil => e.Fails? && inner
  }

  lemma InTurn(p: Prog, a: Prog, b: Prog, through: Ending, e: Ending, f: bool, g: bool)
    requires a < p && b < p && May(a, through, f) && May(b, e, g)
    ensures MayInTurn(p, a, b, through, e, f || g)
  {
  }

  lemma InTurnOrEarly(p: Prog, a: Prog, b: Prog, through: Ending, first: Ending, f: bool, second: Ending, g: bool)
    requires a < p && b < p && May(a, first, f) && May(b, second, g)
    ensures if first == through then MayInTurn(p, a, b, through, second, f || g) else MayInTurn(p, a, b, through, first, f)
  {
    if first == through {
      InTurn(p, a, b, through, second, f, g);
    }
  }

  /** Whatever the driver does, the text allowed it. */
  lemma {:induction false} WhatHappensMay(driver: Driver, ready: bool, p: Prog, db: Db)
    ensures May(p, EndingOf(Eval(driver, ready, p, true, db).0), InnerFails(driver, ready, p, db))
    decreases p, 1
  {
    match p
    case Then(a, b) => WhatHappensInTurn(driver, ready, p, a, b, Succeeds, db);
    case OnError(a, b) => WhatHappensInTurn(driver, ready, p, a, b, Fails, db);
    case Recover(a, b) => WhatHappensInTurn(driver, ready, p, a, b, Panics, db);
    case IfInTransaction(a, _) => WhatHappensMay(driver, ready, a, db);
    case Within(body) => WhatHappensMay(driver, ready, body, db);
    case _ =>
  }

  lemma {:induction false} WhatHappensInTurn(driver: Driver, ready: bool, p: Prog, a: Prog, b: Prog, through: Ending, db: Db)
    requires a < p && b < p
    ensures var (o, mid) := Eval(driver, ready, a, true, db);
            var f, g := InnerFails(driver, ready, a, db), InnerFails(driver, ready, b, mid);
            var first, second := EndingOf(o), EndingOf(Eval(driver, ready, b, true, mid).0);
            if first == through then MayInTurn(p, a, b, through, second, f || g) else MayInTurn(p, a, b, through, first, f)
    decreases p, 0
  {
    var mid := Eval(driver, ready, a, true, db).1;
    WhatHappensMay(driver, ready, a, db);
    WhatHappensMay(driver, ready, b, mid);
    InTurnOrEarly(p, a, b, through, EndingOf(Eval(driver, ready, a, true, db).0), InnerFails(driver, ready, a, db),
                  EndingOf(Eval(driver, ready, b, true, mid).0), InnerFails(driver, ready, b, mid));
  }

  // ---- and what it allows some driver does ----

  /** The drivers answer alike the calls that come after from and not after to. */
  ghost predicate Alike(d: Driver, e: Driver, from: nat, to: nat) {
    forall calls: seq<Call> | from < |calls| <= to :: d(calls) == e(calls)
  }

  /** Only the answers to a program's own calls matter to it. */
  lemma {:induction false} OwnCallsOnly(d: Driver, e: Driver, ready: bool, p: Prog, db: Db)
    requires db.open.Some? && Alike(d, e, |db.calls|, |Eval(e, ready, p, true, db).1.calls|)
    ensures Eval(d, ready, p, true, db) == Eval(e, ready, p, true, db)
    ensures InnerFails(d, ready, p, db) == InnerFails(e, ready, p, db)
    decreases p, 1
  {
    match p
    case Exec(stmt) => assert d(db.calls + [ExecCall(stmt, true)]) == e(db.calls + [ExecCall(stmt, true)]);
    case Then(a, b) => OwnCallsInTurn(d, e, ready, p, a, b, Succeeds, db);
    case OnError(a, b) => OwnCallsInTurn(d, e, ready, p, a, b, Fails, db);
    case Recover(a, b) => OwnCallsInTurn(d, e, ready, p, a, b, Panics, db);
    case IfInTransaction(a, _) => OwnCallsOnly(d, e, ready, a, db);
    case Within(body) => OwnCallsOnly(d, e, ready, body, db);
    case _ =>
  }

  lemma {:induction false} OwnCallsInTurn(d: Driver, e: Driver, ready: bool, p: Prog, a: Prog, b: Prog, through: Ending, db: Db)
    requires db.open.Some? && a < p && b < p
    requires var (o, mid) := Eval(e, ready, a, true, db);
             Alike(d, e, |db.calls|, |(if EndingOf(o) == through then Eval(e, ready, b, true, mid).1 else mid).calls|)
    ensures Eval(d, ready, a, true, db) == Eval(e, ready, a, true, db)
    ensures InnerFails(d, ready, a, db) == InnerFails(e, ready, a, db)
    ensures var (o, mid) := Eval(e, ready, a, true, db);
            EndingOf(o) == through ==>
              && Eval(d, ready, b, true, mid) == Eval(e, ready, b, true, mid)
              && InnerFails(d, ready, b, mid) == InnerFails(e, ready, b, mid)
    decreases p, 0
  {
    var (o, mid) := Eval(e, ready, a, true, db);
    TransactionStaysOpen(e, ready, a, db);
    if EndingOf(o) == through {
      TransactionStaysOpen(e, ready, b, mid);
      OwnCallsOnly(d, e, ready, a, db);
      OwnCallsOnly(d, e, ready, b, mid);
    } else {
      OwnCallsOnly(d, e, ready, a, db);
    }
  }

  /** d up to the n-th call, then e. */
  function Spliced(d: Driver, n: nat, e: Driver): Driver {
    calls => if |calls| <= n then d(calls) else e(calls)
  }

  lemma {:induction false} SomeDriver(ready: bool, p: Prog, db: Db, e: Ending, inner: bool) returns (d: Driver)
    requires db.open.Some? && May(p, e, inner)
    ensures EndingOf(Eval(d, ready, p, true, db).0) == e && InnerFails(d, ready, p, db) == inner
    decreases p, 1
  {
    d := calls => Fine;
    match p
    case Exec(_) =>
      if e.Fails? {
        d := calls => TxDone;
      }
    case Then(a, b) => d := SomeDriverInTurn(ready, p, a, b, Succeeds, db, e, inner);
    case OnError(a, b) => d := SomeDriverInTurn(ready, p, a, b, Fails, db, e, inner);
    case Recover(a, b) => d := SomeDriverInTurn(ready, p, a, b, Panics, db, e, inner);
    case IfInTransaction(a, _) => d := SomeDriver(ready, a, db, e, inner);
    case Within(body) => d := SomeDriver(ready, body, db, e, if e.Fails? then May(body, e, true) else inner);
    case _ =>
  }

  lemma {:induction false} SomeDriverInTurn(ready: bool, p: Prog, a: Prog, b: Prog, through: Ending, db: Db, e: Ending, inner: bool)
    returns (d: Driver)
    requires db.open.Some? && a < p && b < p && MayInTurn(p, a, b, through, e, inner)
    ensures var (o, mid) := Eval(d, ready, a, true, db);
            if EndingOf(o) == through then
              && EndingOf(Eval(d, ready, b, true, mid).0) == e
              && (InnerFails(d, ready, a, db) || InnerFails(d, ready, b, mid)) == inner
            else EndingOf(o) == e && InnerFails(d, ready, a, db) == inner
    decreases p, 0
  {
    if e != through && May(a, e, inner) {
      d := SomeDriver(ready, a, db, e, inner);
    } else {
      var f: bool, g: bool :| May(a, through, f) && May(b, e, g) && inner == (f || g);
      var first := SomeDriver(ready, a, db, through, f);
      TransactionStaysOpen(first, ready, a, db);
      var mid := Eval(first, ready, a, true, db).1;
      var second := SomeDriver(ready, b, mid, e, g);
      d := Spliced(first, |mid.calls|, second);
      OwnCallsOnly(d, first, ready, a, db);
      OwnCallsOnly(d, second, ready, b, mid);
    }
  }

  // ---- the documented promise ----

  /** Whatever the driver answers: if a nested Within of the body returns an error, the outer transaction
      ends with a rollback and none of its effects is visible. */
  ghost predicate InnerErrorsRollBack(body: Prog) {
    forall driver: Driver, db: Db {:trigger InnerFails(driver, true, body, Begin(driver, db).1)} ::
      db.open.None? && Begin(driver, db).0.None? && InnerFails(driver, true, body, Begin(driver, db).1) ==>
        RolledBack(driver, body, db)
  }

  predicate RolledBack(driver: Driver, body: Prog, db: Db) {
    var after := Eval(driver, true, Within(body), false, db).1;
    after.calls != [] && after.calls[|after.calls| - 1] == RollbackCall && after.committed == db.committed
  }

  lemma RolledBackExactly(driver: Driver, body: Prog, db: Db)
    requires db.open.None? && Begin(driver, db).0.None?
    ensures RolledBack(driver, body, db) <==> !EndingOf(Eval(driver, true, body, true, Begin(driver, db).1).0).Succeeds?
  {
    NestedWithinIsTransparent(driver, true, body, Begin(driver, db).1);
    OneBeginOneEnd(driver, body, db);
    WithinIsAtomic(driver, body, db);
  }

  /** The promise holds exactly for the bodies whose text cannot turn an inner error into success. */
  lemma InnerErrorsRollBackExactly(body: Prog)
    ensures InnerErrorsRollBack(body) <==> !May(body, Succeeds, true)
  {
    if May(body, Succeeds, true) {
      var db := Db([], None, []);
      var begun := Db([], Some([]), [BeginCall]);
      var d := SomeDriver(true, body, begun, Succeeds, true);
      var driver := Spliced(calls => Fine, 1, d);
      assert db.calls + [BeginCall] == [BeginCall] && driver([BeginCall]) == Fine;
      assert Begin(driver, db) == (None, begun);
      OwnCallsOnly(driver, d, true, body, begun);
      RolledBackExactly(driver, body, db);
      assert InnerFails(driver, true, body, Begin(driver, db).1) && !RolledBack(driver, body, db);
    } else {
      forall driver: Driver, db: Db | db.open.None? && Begin(driver, db).0.None? && InnerFails(driver, true, body, Begin(driver, db).1)
        ensures RolledBack(driver, body, db)
      {
        WhatHappensMay(driver, true, body, Begin(driver, db).1);
        RolledBackExactly(driver, body, db);
      }
    }
  }

  /** It does not hold of a body that drops the error of a nested Within. */
  lemma DroppedInnerErrorIsCommitted(err: Error)
    ensures !InnerErrorsRollBack(OnError(Within(Fail(err)), Skip))
  {
    var body := OnError(Within(Fail(err)), Skip);
    assert May(Within(Fail(err)), Fails, true) && May(Skip, Succeeds, false);
    InTurn(body, Within(Fail(err)), Skip, Fails, Succeeds, true, false);
    InnerErrorsRollBackExactly(body);
  }

  /** No handler of errors encloses a nested Within. */
  predicate Unguarded(p: Prog) {
    match p
    case Then(a, b) => Unguarded(a) && Unguarded(b)
    case OnError(a, b) => WithinFree(a) && Unguarded(b)
    case Recover(a, b) => Unguarded(a) && Unguarded(b)
    case IfInTransaction(a, b) => Unguarded(a) && Unguarded(b)
    case Within(body) => Unguarded(body)
    case _ => true
  }

  predicate WithinFree(p: Prog) {
    match p
    case Then(a, b) => WithinFree(a) && WithinFree(b)
    case OnError(a, b) => WithinFree(a) && WithinFree(b)
    case Recover(a, b) => WithinFree(a) && WithinFree(b)
    case IfInTransaction(a, b) => WithinFree(a) && WithinFree(b)
    case Within(_) => false
    case WithinNil => false
    case _ => true
  }

  lemma {:induction false} NothingInner(p: Prog, e: Ending)
    requires WithinFree(p)
    ensures !May(p, e, true)
    decreases p, 1
  {
    match p
    case Then(a, b) => NothingInnerInTurn(p, a, b, e);
    case OnError(a, b) => NothingInnerInTurn(p, a, b, e);
    case Recover(a, b) => NothingInnerInTurn(p, a, b, e);
    case IfInTransaction(a, _) => NothingInner(a, e);
    case _ =>
  }

  lemma {:induction false} NothingInnerInTurn(p: Prog, a: Prog, b: Prog, e: Ending)
    requires a < p && b < p && WithinFree(a) && WithinFree(b)
    ensures forall through :: !MayInTurn(p, a, b, through, e, true)
    decreases p, 0
  {
    NothingInner(a, e);
    NothingInner(b, e);
    forall through ensures !May(a, through, true) {
      NothingInner(a, through);
    }
  }

  /** Where no handler encloses a nested Within, an inner error always comes out as an error. */
  lemma {:induction false} UnguardedErrorsComeOut(p: Prog, e: Ending)
    requires Unguarded(p) && !e.Fails?
    ensures !May(p, e, true)
  {
    match p
    case Then(a, b) =>
      UnguardedErrorsComeOut(a, e);
      UnguardedErrorsComeOut(a, Succeeds);
      UnguardedErrorsComeOut(b, e);
    case OnError(a, b) =>
      NothingInner(a, e);
      NothingInner(a, Fails);
      UnguardedErrorsComeOut(b, e);
    case Recover(a, b) =>
      UnguardedErrorsComeOut(a, e);
      UnguardedErrorsComeOut(a, Panics);
      UnguardedErrorsComeOut(b, e);
    case IfInTransaction(a, _) => UnguardedErrorsComeOut(a, e);
    case Within(body) => UnguardedErrorsComeOut(body, e);
    case _ =>
  }

  /** So for such bodies the promise holds. */
  lemma UnguardedBodiesRollBack(body: Prog)
    requires Unguarded(body)
    ensures InnerErrorsRollBack(body)
  {
    UnguardedErrorsComeOut(body, Succeeds);
    InnerErrorsRollBackExactly(body);
  }

  /** And a handler around a failing nested Within commits everything, the inner effects included, whenever
      it and what follows it succeed. */
  lemma HandledInnerErrorCommits(driver: Driver, inner: Prog, handler: Prog, rest: Prog, db: Db)
    requires db.open.None? && Begin(driver, db).0.None?
    requires var (o, mid) := Eval(driver, true, Within(inner), true, Begin(driver, db).1);
             var (p, handled) := Eval(driver, true, handler, true, mid);
             var (q, done) := Eval(driver, true, rest, true, handled);
             && EndingOf(o).Fails? && EndingOf(p).Succeeds? && EndingOf(q).Succeeds?
             && ReplyTo(driver, done, CommitCall).Fine?
    ensures var mid := Eval(driver, true, Within(inner), true, Begin(driver, db).1).1;
            var body := Then(OnError(Within(inner), handler), rest);
            var (o, after) := Eval(driver, true, Within(body), false, db);
            && o == Returned(None)
            && mid.open.Some? && db.committed + mid.open.value <= after.committed
            && InnerFails(driver, true, body, Begin(driver, db).1)
  {
    var begun := Begin(driver, db).1;
    var mid := Eval(driver, true, Within(inner), true, begun).1;
    var handled := Eval(driver, true, handler, true, mid).1;
    TransactionStaysOpen(driver, true, Within(inner), begun);
    TransactionStaysOpen(driver, true, handler, mid);
    TransactionStaysOpen(driver, true, rest, handled);
    var body := Then(OnError(Within(inner), handler), rest);
    HandledEval(driver, inner, handler, rest, begun);
    hide InnerFails;
    FineCommit(driver, body, db);
  }

  lemma HandledEval(driver: Driver, inner: Prog, handler: Prog, rest: Prog, db: Db)
    requires var (o, mid) := Eval(driver, true, Within(inner), true, db);
             EndingOf(o).Fails? && EndingOf(Eval(driver, true, handler, true, mid).0).Succeeds?
    ensures var handled := Eval(driver, true, handler, true, Eval(driver, true, Within(inner), true, db).1).1;
            var body := Then(OnError(Within(inner), handler), rest);
            Eval(driver, true, body, true, db) == Eval(driver, true, rest, true, handled) && InnerFails(driver, true, body, db)
  {
    var handled := Eval(driver, true, handler, true, Eval(driver, true, Within(inner), true, db).1).1;
    assert Eval(driver, true, OnError(Within(inner), handler), true, db) == (Returned(None), handled);
  }

  lemma FineCommit(driver: Driver, body: Prog, db: Db)
    requires db.open.None? && Begin(driver, db).0.None?
    requires var (o, done) := Eval(driver, true, body, true, Begin(driver, db).1);
             EndingOf(o).Succeeds? && ReplyTo(driver, done, CommitCall).Fine?
    ensures var done := Eval(driver, true, body, true, Begin(driver, db).1).1;
            var (o, after) := Eval(driver, true, Within(body), false, db);
            o == Returned(None) && done.open.Some? && after.committed == db.committed + done.open.value
  {
    TransactionStaysOpen(driver, true, body, Begin(driver, db).1);
  }
}
