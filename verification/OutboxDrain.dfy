/** How long the replayer takes to empty the outbox (mongox/mongox.go:45-48, 152-183). */
module OutboxDrain {
  import opened Outbox
  import opened OutboxReplayer
  import Utf8

  /** No store call reports an error; applies may still fail. */
  ghost predicate Smooth(script: Script) {
    !script.selectFails && forall row :: script.marking(row).Marked?
  }

  function MarkedBy(m: Mark, outcome: ApplyOutcome): Mark {
    if outcome.Applied? then Marking(m, true, [])
    else Marking(m, false, Utf8.Shortened(outcome.message, DEFAULT_ERROR_LENGTH))
  }

  predicate Batch(marks: seq<Mark>, batch: seq<nat>) {
    && (forall i :: 0 <= i < |batch| ==> batch[i] < |marks| && Pending(marks[batch[i]]))
    && (forall i, j :: 0 <= i < j < |batch| ==> batch[i] < batch[j])
  }

  /** The marks after each row of the batch was tried once. */
  function Tried(marks: seq<Mark>, batch: seq<nat>, script: Script): seq<Mark>
    requires Batch(marks, batch)
    decreases |batch|
  {
    if batch == [] then marks
    else
      var row := batch[0];
      Tried(marks[row := MarkedBy(marks[row], script.applying(row))], batch[1..], script)
  }

  function NextMarks(marks: seq<Mark>, limit: nat, script: Script): seq<Mark> {
    Tried(marks, Selected(marks, 0, limit), script)
  }

  lemma {:induction false} FinishTries(s: Sys, script: Script, synced: nat)
    requires Accounted(s) && s.pc.AtApply? && Smooth(script)
    ensures Batch(s.marks, s.pc.batch[s.pc.i..])
    ensures var r := FinishSweep(s, script, synced);
            !r.failed && r.s.pc.Idle? && r.s.marks == Tried(s.marks, s.pc.batch[s.pc.i..], script)
    decreases |s.pc.batch| - s.pc.i
  {
    OneRow(s, script, synced);
    if s.pc.i < |s.pc.batch| {
      var row := s.pc.batch[s.pc.i];
      var applied := Next(s, Apply(script.applying(row)));
      var next := Next(applied, MarkRow(script.marking(row)));
      FinishTries(next, script, if applied.pc.ok then synced + 1 else synced);
      assert s.pc.batch[s.pc.i..][1..] == next.pc.batch[next.pc.i..];
    }
  }

  /** A sweep without store errors tries every selected row once. */
  lemma SweepTries(s: Sys, limit: nat, script: Script)
    requires Accounted(s) && s.pc.Idle? && Smooth(script)
    ensures var r := SweepAll(s, limit, script);
            !r.failed && r.s.pc.Idle? && Accounted(r.s) && r.s.marks == NextMarks(s.marks, limit, script)
  {
    StepAccounted(s, Select(limit));
    var selecting := Next(s, Select(limit));
    FinishTries(selecting, script, 0);
    assert selecting.pc.batch[0..] == selecting.pc.batch;
    var steps := FinishIsARun(selecting, script, 0);
    RunAccounted(selecting, steps);
  }

  // ---- measures ----

  function Remaining(m: Mark): nat {
    if Pending(m) then MAX_ATTEMPTS - m.attempts else 0
  }

  /** All tries the table still allows. */
  function Budget(marks: seq<Mark>): nat {
    if marks == [] then 0 else Budget(marks[..|marks| - 1]) + Remaining(marks[|marks| - 1])
  }

  /** How many rows are selectable. */
  function Waiting(marks: seq<Mark>): nat {
    if marks == [] then 0
    else Waiting(marks[..|marks| - 1]) + if Pending(marks[|marks| - 1]) then 1 else 0
  }

  lemma {:induction false} BudgetBound(marks: seq<Mark>)
    ensures Budget(marks) <= MAX_ATTEMPTS * Waiting(marks)
  {
    if marks != [] {
      BudgetBound(marks[..|marks| - 1]);
    }
  }

  lemma {:induction false} BudgetUpdate(marks: seq<Mark>, row: nat, m: Mark)
    requires row < |marks|
    ensures Budget(marks[row := m]) + Remaining(marks[row]) == Budget(marks) + Remaining(m)
  {
    var front := marks[..|marks| - 1];
    if row == |marks| - 1 {
      assert marks[row := m][..row] == front;
    } else {
      BudgetUpdate(front, row, m);
      assert marks[row := m][..|marks| - 1] == front[row := m];
    }
  }

  lemma {:induction false} TryingSpends(marks: seq<Mark>, batch: seq<nat>, script: Script)
    requires Batch(marks, batch)
    ensures Budget(Tried(marks, batch, script)) + |batch| <= Budget(marks)
    decreases |batch|
  {
    if batch != [] {
      var row := batch[0];
      var m := MarkedBy(marks[row], script.applying(row));
      BudgetUpdate(marks, row, m);
      TryingSpends(marks[row := m], batch[1..], script);
    }
  }

  lemma {:induction false} TriedAt(marks: seq<Mark>, batch: seq<nat>, script: Script, j: nat)
    requires Batch(marks, batch) && j < |marks|
    ensures |Tried(marks, batch, script)| == |marks|
    ensures Tried(marks, batch, script)[j] == if j in batch then MarkedBy(marks[j], script.applying(j)) else marks[j]
    decreases |batch|
  {
    if batch != [] {
      var row := batch[0];
      var next := marks[row := MarkedBy(marks[row], script.applying(row))];
      TriedAt(next, batch[1..], script, j);
      assert j in batch <==> j == row || j in batch[1..];
      assert row !in batch[1..];
    }
  }

  // ---- batches that are not full ----

  lemma {:induction false} SelectsAll(marks: seq<Mark>, from: nat, limit: nat, j: nat)
    requires from <= j < |marks| && Pending(marks[j]) && |Selected(marks, from, limit)| < limit
    ensures j in Selected(marks, from, limit)
    decreases |marks| - from
  {
    if from < j {
      SelectsAll(marks, from + 1, if Pending(marks[from]) then limit - 1 else limit, j);
    }
  }

  lemma {:induction false} SelectsNoMore(before: seq<Mark>, after: seq<Mark>, from: nat, limit: nat)
    requires |before| == |after| && from <= |before|
    requires forall j :: 0 <= j < |after| && Pending(after[j]) ==> Pending(before[j])
    ensures |Selected(after, from, limit)| <= |Selected(before, from, limit)|
    decreases |before| - from
  {
    if from < |before| && limit > 0 {
      SelectsNoMore(before, after, from + 1, limit);
      SelectsNoMore(before, after, from + 1, limit - 1);
      SelectsOneFewer(after, from + 1, limit);
    }
  }

  lemma {:induction false} SelectsOneFewer(marks: seq<Mark>, from: nat, limit: nat)
    requires from <= |marks| && limit > 0
    ensures |Selected(marks, from, limit)| <= |Selected(marks, from, limit - 1)| + 1
    decreases |marks| - from
  {
    if from < |marks| && limit > 1 {
      SelectsOneFewer(marks, from + 1, limit - 1);
      SelectsOneFewer(marks, from + 1, limit);
    }
  }

  predicate AtMostLeft(marks: seq<Mark>, m: nat) {
    forall j :: 0 <= j < |marks| ==> Remaining(marks[j]) <= m
  }

  /** A batch that is not full tries every selectable row. */
  lemma ShortBatchTriesAll(marks: seq<Mark>, limit: nat, script: Script, m: nat)
    requires |Selected(marks, 0, limit)| < limit && AtMostLeft(marks, m)
    ensures var after := NextMarks(marks, limit, script);
            && |Selected(after, 0, limit)| < limit
            && AtMostLeft(after, if m > 0 then m - 1 else 0)
  {
    var batch, after := Selected(marks, 0, limit), NextMarks(marks, limit, script);
    forall j | 0 <= j < |marks|
      ensures |after| == |marks|
      ensures Remaining(after[j]) <= if m > 0 then m - 1 else 0
      ensures Pending(after[j]) ==> Pending(marks[j])
    {
      TriedAt(marks, batch, script, j);
      if Pending(marks[j]) {
        SelectsAll(marks, 0, limit, j);
      }
    }
    if marks == [] {
      assert batch == [] && after == marks;
    }
    SelectsNoMore(marks, after, 0, limit);
  }

  // ---- the bound ----

  /** The marks after a number of sweeps, each with its own failures. */
  function MarksAfter(marks: seq<Mark>, limit: nat, scripts: seq<Script>): seq<Mark>
    decreases |scripts|
  {
    if scripts == [] then marks else MarksAfter(NextMarks(marks, limit, scripts[0]), limit, scripts[1..])
  }

  /** How many of the sweeps find something to do. */
  function NonEmptySweeps(marks: seq<Mark>, limit: nat, scripts: seq<Script>): nat
    decreases |scripts|
  {
    if scripts == [] then 0
    else
      (if Selected(marks, 0, limit) == [] then 0 else 1)
      + NonEmptySweeps(NextMarks(marks, limit, scripts[0]), limit, scripts[1..])
  }

  lemma {:induction false} ShortSweepsEnd(marks: seq<Mark>, limit: nat, scripts: seq<Script>, m: nat)
    requires |Selected(marks, 0, limit)| < limit && AtMostLeft(marks, m)
    ensures NonEmptySweeps(marks, limit, scripts) <= m
    decreases |scripts|
  {
    if scripts != [] {
      var batch := Selected(marks, 0, limit);
      if batch != [] {
        assert Remaining(marks[batch[0]]) <= m;
        ShortBatchTriesAll(marks, limit, scripts[0], m);
        ShortSweepsEnd(NextMarks(marks, limit, scripts[0]), limit, scripts[1..], m - 1);
      } else {
        ShortSweepsEnd(marks, limit, scripts[1..], m);
      }
    }
  }

  lemma MultiplesGrow(limit: nat, a: nat, b: nat)
    requires a <= b
    ensures limit * a <= limit * b
  {
    assert limit * b == limit * a + limit * (b - a);
  }

  lemma QuotientAtLeast(n: nat, limit: nat, k: nat)
    requires limit > 0 && limit * k <= n
    ensures k <= n / limit
  {
    if n / limit < k {
      MultiplesGrow(limit, n / limit + 1, k);
    }
  }

  lemma QuotientGrows(a: nat, b: nat, limit: nat)
    requires limit > 0 && a <= b
    ensures a / limit <= b / limit
  {
    QuotientAtLeast(b, limit, a / limit);
  }

  lemma OneBatchLess(budget: nat, spent: nat, limit: nat)
    requires limit > 0 && spent + limit <= budget
    ensures spent / limit + 1 <= budget / limit
  {
    assert limit * (spent / limit + 1) == limit * (spent / limit) + limit;
    QuotientAtLeast(budget, limit, spent / limit + 1);
  }

  lemma {:induction false} SweepsWithinBudget(marks: seq<Mark>, limit: nat, scripts: seq<Script>)
    requires limit > 0
    ensures NonEmptySweeps(marks, limit, scripts) <= Budget(marks) / limit + MAX_ATTEMPTS
    decreases |scripts|
  {
    if scripts != [] {
      var batch := Selected(marks, 0, limit);
      if |batch| < limit {
        ShortSweepsEnd(marks, limit, scripts, MAX_ATTEMPTS);
      } else {
        var next := NextMarks(marks, limit, scripts[0]);
        TryingSpends(marks, batch, scripts[0]);
        SweepsWithinBudget(next, limit, scripts[1..]);
        OneBatchLess(Budget(marks), Budget(next), limit);
      }
    }
  }

  /** With N selectable rows, batches of B and no store errors, at most 10 * N / B + 10 sweeps find work,
      whatever the applies do. */
  lemma DrainBound(marks: seq<Mark>, limit: nat, scripts: seq<Script>)
    requires limit > 0
    ensures NonEmptySweeps(marks, limit, scripts) <= MAX_ATTEMPTS * Waiting(marks) / limit + MAX_ATTEMPTS
  {
    SweepsWithinBudget(marks, limit, scripts);
    BudgetBound(marks);
    QuotientGrows(Budget(marks), MAX_ATTEMPTS * Waiting(marks), limit);
  }

  /** A sweep finds nothing exactly when every row is done or has used up its attempts. */
  lemma EmptySweepMeansSettled(s: Sys, limit: nat)
    requires Accounted(s) && limit > 0
    ensures Selected(s.marks, 0, limit) == [] <==>
            forall j :: 0 <= j < |s.marks| ==> (s.marks[j].done && j in s.applied) || s.marks[j].attempts == MAX_ATTEMPTS
  {
    var batch := Selected(s.marks, 0, limit);
    if batch == [] {
      forall j | 0 <= j < |s.marks| ensures !Pending(s.marks[j]) {
        if Pending(s.marks[j]) {
          SelectsAll(s.marks, 0, limit, j);
        }
      }
    } else {
      assert Pending(s.marks[batch[0]]);
    }
  }

  lemma {:induction false} BusyToTheEnd(marks: seq<Mark>, limit: nat, scripts: seq<Script>)
    requires Selected(MarksAfter(marks, limit, scripts), 0, limit) != []
    ensures NonEmptySweeps(marks, limit, scripts) == |scripts|
    decreases |scripts|
  {
    if scripts != [] {
      BusyToTheEnd(NextMarks(marks, limit, scripts[0]), limit, scripts[1..]);
      if Selected(marks, 0, limit) == [] {
        StaysEmpty(marks, limit, scripts);
      }
    }
  }

  lemma {:induction false} StaysEmpty(marks: seq<Mark>, limit: nat, scripts: seq<Script>)
    requires Selected(marks, 0, limit) == []
    ensures MarksAfter(marks, limit, scripts) == marks
    decreases |scripts|
  {
    if scripts != [] {
      StaysEmpty(marks, limit, scripts[1..]);
    }
  }

  ghost predicate AllSmooth(scripts: seq<Script>) {
    forall i :: 0 <= i < |scripts| ==> Smooth(scripts[i])
  }

  /** The system after a number of sweeps. */
  ghost function SweepMany(s: Sys, limit: nat, scripts: seq<Script>): (end: Sys)
    requires Accounted(s) && s.pc.Idle? && AllSmooth(scripts)
    ensures Accounted(end) && end.marks == MarksAfter(s.marks, limit, scripts)
    decreases |scripts|
  {
    if scripts == [] then s
    else
      SweepTries(s, limit, scripts[0]);
      SweepMany(SweepAll(s, limit, scripts[0]).s, limit, scripts[1..])
  }

  /** So after that many sweeps every row is done, having been applied, or has used up its attempts. */
  lemma SweepsDrain(s: Sys, limit: nat, scripts: seq<Script>)
    requires Accounted(s) && s.pc.Idle? && AllSmooth(scripts) && limit > 0
    requires |scripts| > MAX_ATTEMPTS * Waiting(s.marks) / limit + MAX_ATTEMPTS
    ensures var end := SweepMany(s, limit, scripts);
            forall j :: 0 <= j < |end.marks| ==>
              (end.marks[j].done && j in end.applied) || end.marks[j].attempts == MAX_ATTEMPTS
  {
    var end := SweepMany(s, limit, scripts);
    DrainBound(s.marks, limit, scripts);
    if Selected(end.marks, 0, limit) != [] {
      BusyToTheEnd(s.marks, limit, scripts);
    }
    EmptySweepMeansSettled(end, limit);
  }
}
