/** Why the outbox is transactional: services enqueue events inside Within (db/tx.go), so the table receives
    the events of a whole transaction or none, and what the replayer drains is the committed business data's
    events (mongox/mongox.go:78-96). */
module TransactionalOutbox {
  import opened Results
  import T = Transactions
  import O = Outbox
  import D = OutboxDocuments

  /** The events that a statement writes to the outbox table; none for a statement on business tables. */
  type Reading = string -> seq<O.Event>

  function Enqueued(read: Reading, stmts: seq<string>): seq<O.Event> {
    if stmts == [] then [] else Enqueued(read, stmts[..|stmts| - 1]) + read(stmts[|stmts| - 1])
  }

  lemma {:induction false} EnqueuedBoth(read: Reading, a: seq<string>, b: seq<string>)
    ensures Enqueued(read, a + b) == Enqueued(read, a) + Enqueued(read, b)
  {
    if b == [] {
      assert a + b == a;
    } else {
      EnqueuedBoth(read, a, b[..|b| - 1]);
      assert (a + b)[..|a + b| - 1] == a + b[..|b| - 1];
    }
  }

  /** The commit of a body that returned nil takes effect; the driver may lose the answer. */
  predicate TakesEffect(driver: T.Driver, body: T.Prog, db: T.Db) {
    && T.Begin(driver, db).0.None?
    && var (own, done) := T.Alone(driver, true, body, db);
       own == T.Returned(None) && T.Took(T.ReplyTo(driver, done, T.CommitCall))
  }

  /** What a service function does to the outbox. */
  function StepOf(driver: T.Driver, read: Reading, body: T.Prog, db: T.Db): O.Step {
    var done := T.Alone(driver, true, body, db).1;
    if TakesEffect(driver, body, db) && done.open.Some? then O.Commit(Enqueued(read, done.open.value)) else O.Abort
  }

  lemma WithinCommits(driver: T.Driver, body: T.Prog, db: T.Db)
    requires db.open.None?
    ensures var (o, after) := T.Eval(driver, true, T.Within(body), false, db);
            var (own, done) := T.Alone(driver, true, body, db);
            && after.open.None?
            && (T.Begin(driver, db).0.None? ==> done.open.Some?)
            && after.committed ==
                 (if TakesEffect(driver, body, db) && done.open.Some? then db.committed + done.open.value else db.committed)
            && (o == T.Returned(None) ==> TakesEffect(driver, body, db))
  {
    T.NestedWithinIsTransparent(driver, true, body, T.Begin(driver, db).1);
    if T.Begin(driver, db).0.None? {
      T.TransactionStaysOpen(driver, true, T.Erase(body), T.Begin(driver, db).1);
    }
  }

  /** An outermost Within gives the outbox one commit of exactly the events its body enqueued, or nothing:
      the commit if it returned nil, nothing if its body failed or panicked or it did not begin. */
  lemma WithinCommitsOnceOrAborts(driver: T.Driver, read: Reading, body: T.Prog, db: T.Db, outbox: O.Sys)
    requires db.open.None? && outbox.events == Enqueued(read, db.committed)
    ensures var (o, after) := T.Eval(driver, true, T.Within(body), false, db);
            var step, own := StepOf(driver, read, body, db), T.Alone(driver, true, body, db);
            && after.open.None?
            && O.Next(outbox, step).events == Enqueued(read, after.committed)
            && (o == T.Returned(None) ==> own.1.open.Some? && step == O.Commit(Enqueued(read, own.1.open.value)))
            && (T.Begin(driver, db).0.Some? || own.0 != T.Returned(None) ==> step == O.Abort)
  {
    WithinCommits(driver, body, db);
    hide T.Eval, T.Alone, Enqueued;
    var done := T.Alone(driver, true, body, db).1;
    if done.open.Some? {
      EnqueuedBoth(read, db.committed, done.open.value);
    }
  }

  // ---- services and replayer together ----

  /** A service function runs in a Within of its own, or the replayer makes a step. */
  datatype Action = Serve(body: T.Prog) | Replay(step: O.Step)

  datatype System = System(db: T.Db, outbox: O.Sys)

  function OutboxStep(driver: T.Driver, read: Reading, s: System, action: Action): O.Step {
    match action
    case Serve(body) => StepOf(driver, read, body, s.db)
    case Replay(step) => step
  }

  /** The replayer commits no events. */
  predicate Possible(driver: T.Driver, read: Reading, s: System, action: Action) {
    O.Enabled(s.outbox, OutboxStep(driver, read, s, action)) && (action.Replay? ==> !action.step.Commit?)
  }

  function Act(driver: T.Driver, read: Reading, s: System, action: Action): System
    requires Possible(driver, read, s, action)
  {
    System(if action.Serve? then T.Eval(driver, true, T.Within(action.body), false, s.db).1 else s.db,
           O.Next(s.outbox, OutboxStep(driver, read, s, action)))
  }

  predicate Acts(driver: T.Driver, read: Reading, s: System, actions: seq<Action>)
    decreases |actions|
  {
    actions != [] ==>
      Possible(driver, read, s, actions[0]) && Acts(driver, read, Act(driver, read, s, actions[0]), actions[1..])
  }

  function AfterAll(driver: T.Driver, read: Reading, s: System, actions: seq<Action>): System
    requires Acts(driver, read, s, actions)
    decreases |actions|
  {
    if actions == [] then s else AfterAll(driver, read, Act(driver, read, s, actions[0]), actions[1..])
  }

  function OutboxSteps(driver: T.Driver, read: Reading, s: System, actions: seq<Action>): seq<O.Step>
    requires Acts(driver, read, s, actions)
    decreases |actions|
  {
    if actions == [] then []
    else
      [OutboxStep(driver, read, s, actions[0])] + OutboxSteps(driver, read, Act(driver, read, s, actions[0]), actions[1..])
  }

  function Start(base: O.Docs): System {
    System(T.Db([], None, []), O.Start(base))
  }

  /** No transaction is open between actions, and the outbox holds the events of the committed statements. */
  predicate InSync(read: Reading, s: System) {
    s.db.open.None? && s.outbox.events == Enqueued(read, s.db.committed)
  }

  lemma ActKeepsSync(driver: T.Driver, read: Reading, s: System, action: Action)
    requires InSync(read, s) && Possible(driver, read, s, action)
    ensures InSync(read, Act(driver, read, s, action))
  {
    hide T.Eval, StepOf, Enqueued;
    match action
    case Serve(body) => WithinCommitsOnceOrAborts(driver, read, body, s.db, s.outbox);
    case Replay(step) =>
  }

  /** Services and replayer together are a run of the outbox, with one commit or abort for each service
      function, and the committed events are those of the committed statements. */
  lemma {:induction false} ServingIsARun(driver: T.Driver, read: Reading, s: System, actions: seq<Action>)
    requires InSync(read, s) && Acts(driver, read, s, actions)
    ensures var steps, end := OutboxSteps(driver, read, s, actions), AfterAll(driver, read, s, actions);
            && O.Runs(s.outbox, steps) && O.After(s.outbox, steps) == end.outbox
            && InSync(read, end)
    decreases |actions|
  {
    hide Possible, Act, InSync, O.Next, O.Enabled;
    if actions != [] {
      var next := Act(driver, read, s, actions[0]);
      ActKeepsSync(driver, read, s, actions[0]);
      ServingIsARun(driver, read, next, actions[1..]);
      var rest := OutboxSteps(driver, read, next, actions[1..]);
      ActIsAStep(driver, read, s, actions[0]);
      var step, end := OutboxStep(driver, read, s, actions[0]), O.After(next.outbox, rest);
      var steps := O.Prepended(s.outbox, step, next.outbox, rest, end);
    }
  }

  lemma ActIsAStep(driver: T.Driver, read: Reading, s: System, action: Action)
    requires Possible(driver, read, s, action)
    ensures var step := OutboxStep(driver, read, s, action);
            O.Enabled(s.outbox, step) && O.Next(s.outbox, step) == Act(driver, read, s, action).outbox
  {
  }

  /** End to end: with applies that succeed, whatever programs the services run, whatever the driver answers
      and wherever the replayer crashes, once no row is pending the documents are what the events in the
      committed statements say, in commit order. */
  lemma DrainedDocsFollowTheCommits(driver: T.Driver, read: Reading, base: O.Docs, actions: seq<Action>)
    requires Acts(driver, read, Start(base), actions) && O.NoApplyFails(OutboxSteps(driver, read, Start(base), actions))
    requires O.NonePending(AfterAll(driver, read, Start(base), actions).outbox)
    ensures var end := AfterAll(driver, read, Start(base), actions);
            end.outbox.docs == O.Fold(base, Enqueued(read, end.db.committed))
  {
    ServingIsARun(driver, read, Start(base), actions);
    O.DrainedDocsAreTheFold(base, OutboxSteps(driver, read, Start(base), actions));
  }

  /** And with applies that may fail, document by document. */
  lemma DrainedDocFollowsTheCommits(driver: T.Driver, read: Reading, base: O.Docs, actions: seq<Action>, d: O.DocKey)
    requires Acts(driver, read, Start(base), actions)
    requires var steps := OutboxSteps(driver, read, Start(base), actions);
             O.Runs(O.Start(base), steps) ==> D.DisciplinedRun(O.Start(base), steps, d)
    requires D.NoneOpen(AfterAll(driver, read, Start(base), actions).outbox, d)
    ensures var end := AfterAll(driver, read, Start(base), actions);
            D.Lookup(end.outbox.docs, d) == D.FoldDoc(base, Enqueued(read, end.db.committed), d)
  {
    ServingIsARun(driver, read, Start(base), actions);
    var end := AfterAll(driver, read, Start(base), actions);
    D.DrainedDocIsTheFold(base, OutboxSteps(driver, read, Start(base), actions), d);
    D.FoldDocIsFold(base, end.outbox.events, d);
  }
}
