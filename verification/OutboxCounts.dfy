/** What a sweep reports and records, row by row (mongox/mongox.go:152-183). */
module OutboxCounts {
  import opened Utf8
  import opened Outbox
  import opened OutboxReplayer

  /** Every mark up to the i-th row of the batch, and its own, was acknowledged. */
  predicate Acknowledged(batch: seq<nat>, script: Script, from: nat, i: nat) {
    i < |batch| && forall j :: from <= j <= i ==> script.marking(batch[j]).Marked?
  }

  /** The rows of the batch whose apply succeeded and whose mark was acknowledged. */
  function SyncedRows(batch: seq<nat>, script: Script, from: nat): set<nat> {
    set i: nat | from <= i < |batch| && Acknowledged(batch, script, from, i) && script.applying(batch[i]).Applied?
  }

  /** A mark of the batch reports an error. */
  predicate MarkFails(batch: seq<nat>, script: Script, from: nat) {
    exists i :: from <= i < |batch| && script.marking(batch[i]).MarkLost?
  }

  lemma NextSynced(batch: seq<nat>, script: Script, from: nat)
    requires from < |batch|
    ensures SyncedRows(batch, script, from) ==
            if script.marking(batch[from]).MarkLost? then {}
            else (if script.applying(batch[from]).Applied? then {from} else {}) + SyncedRows(batch, script, from + 1)
    ensures from !in SyncedRows(batch, script, from + 1)
  {
    if script.marking(batch[from]).Marked? {
      forall i: nat | from < i < |batch|
        ensures Acknowledged(batch, script, from, i) <==> Acknowledged(batch, script, from + 1, i)
      {
      }
    } else {
      forall i: nat | from <= i < |batch| ensures !Acknowledged(batch, script, from, i) {
        assert script.marking(batch[from]).MarkLost?;
      }
    }
  }

  lemma {:induction false} FinishCounts(s: Sys, script: Script, synced: nat)
    requires Accounted(s) && s.pc.AtApply?
    ensures var r := FinishSweep(s, script, synced);
            && r.synced == synced + |SyncedRows(s.pc.batch, script, s.pc.i)|
            && (r.failed <==> MarkFails(s.pc.batch, script, s.pc.i))
    decreases |s.pc.batch| - s.pc.i
  {
    hide SyncedRows, FinishSweep, Accounted;
    OneRow(s, script, synced);
    var batch, i := s.pc.batch, s.pc.i;
    if i == |batch| {
      assert SyncedRows(batch, script, i) == {} by { NoneSynced(batch, script, i); }
    } else if i < |batch| {
      NextSynced(batch, script, i);
      var applied := Next(s, Apply(script.applying(batch[i])));
      var next := Next(applied, MarkRow(script.marking(batch[i])));
      if script.marking(batch[i]).Marked? {
        FinishCounts(next, script, if applied.pc.ok then synced + 1 else synced);
      }
    } else {
      BatchBound(s);
    }
  }

  lemma NoneSynced(batch: seq<nat>, script: Script, from: nat)
    requires from >= |batch|
    ensures SyncedRows(batch, script, from) == {}
  {
  }

  lemma BatchBound(s: Sys)
    requires Accounted(s) && s.pc.AtApply?
    ensures s.pc.i <= |s.pc.batch|
  {
  }

  /** A sweep counts exactly the rows that were applied and whose mark was acknowledged, and fails exactly when
      the select or a mark reports an error; the first such mark ends it. */
  lemma SweepCounts(s: Sys, limit: nat, script: Script)
    requires Accounted(s) && s.pc.Idle?
    ensures var r, batch := SweepAll(s, limit, script), Selected(s.marks, 0, limit);
            && r.synced == (if script.selectFails then 0 else |SyncedRows(batch, script, 0)|)
            && (r.failed <==> script.selectFails || MarkFails(batch, script, 0))
  {
    if !script.selectFails {
      StepAccounted(s, Select(limit));
      FinishCounts(Next(s, Select(limit)), script, 0);
    }
  }

  // ---- what is recorded ----

  /** A row after it was tried: done when applied, or else with the error, cut to the column's width; with one
      attempt more, if the mark reached the table. */
  function Recorded(m: Mark, outcome: ApplyOutcome, marking: MarkOutcome): Mark {
    if marking.MarkLost? && !marking.wrote then m
    else if outcome.Applied? then Mark(true, m.attempts + 1, m.lastError)
    else Mark(m.done, m.attempts + 1, Shortened(outcome.message, 1000))
  }

  /** The i-th row of the batch is tried: no mark before it failed. */
  predicate Reached(batch: seq<nat>, script: Script, from: nat, i: nat) {
    from <= i < |batch| && forall j :: from <= j < i ==> script.marking(batch[j]).Marked?
  }

  /** The row is none of those that are tried. */
  ghost predicate Untouched(batch: seq<nat>, script: Script, from: nat, row: nat) {
    forall i: nat {:trigger Reached(batch, script, from, i)} :: Reached(batch, script, from, i) ==> batch[i] != row
  }

  ghost predicate Records(batch: seq<nat>, script: Script, from: nat, before: seq<Mark>, after: seq<Mark>) {
    && |after| == |before|
    && (forall i: nat {:trigger Reached(batch, script, from, i)} ::
          Reached(batch, script, from, i) && batch[i] < |before| ==>
            after[batch[i]] == Recorded(before[batch[i]], script.applying(batch[i]), script.marking(batch[i])))
    && (forall row: nat {:trigger after[row]} ::
          row < |before| && Untouched(batch, script, from, row) ==> after[row] == before[row])
  }

  lemma OneRecorded(s: Sys, script: Script)
    requires Accounted(s) && s.pc.AtApply? && s.pc.i < |s.pc.batch|
    ensures var row := s.pc.batch[s.pc.i];
            && Enabled(s, Apply(script.applying(row)))
            && var applied := Next(s, Apply(script.applying(row)));
            && Enabled(applied, MarkRow(script.marking(row)))
            && var next := Next(applied, MarkRow(script.marking(row)));
               next.marks == s.marks[row := Recorded(s.marks[row], script.applying(row), script.marking(row))]
  {
    var row := s.pc.batch[s.pc.i];
    assert s.marks[row := s.marks[row]] == s.marks;
  }

  lemma {:induction false} FinishRecords(s: Sys, script: Script, synced: nat)
    requires Accounted(s) && s.pc.AtApply?
    ensures Records(s.pc.batch, script, s.pc.i, s.marks, FinishSweep(s, script, synced).s.marks)
    decreases |s.pc.batch| - s.pc.i
  {
    OneRow(s, script, synced);
    Ascending(s);
    hide FinishSweep, Recorded, Records;
    var batch, i := s.pc.batch, s.pc.i;
    if i < |batch| {
      OneRecorded(s, script);
      var applied := Next(s, Apply(script.applying(batch[i])));
      var next := Next(applied, MarkRow(script.marking(batch[i])));
      hide Accounted, Enabled, Next;
      if script.marking(batch[i]).Marked? {
        FinishRecords(next, script, if applied.pc.ok then synced + 1 else synced);
        RecordsFromNext(batch, script, i, s.marks, next.marks, FinishSweep(s, script, synced).s.marks);
      } else {
        RecordsOne(batch, script, i, s.marks, next.marks);
      }
    }
  }

  lemma Ascending(s: Sys)
    requires Accounted(s) && s.pc.AtApply?
    ensures forall j, k :: 0 <= j < k < |s.pc.batch| ==> s.pc.batch[j] < s.pc.batch[k]
    ensures forall j :: s.pc.i <= j < |s.pc.batch| ==> s.pc.batch[j] < |s.marks|
  {
  }

  lemma RecordsOne(batch: seq<nat>, script: Script, from: nat, before: seq<Mark>, after: seq<Mark>)
    requires from < |batch| && batch[from] < |before| && script.marking(batch[from]).MarkLost?
    requires after == before[batch[from] := Recorded(before[batch[from]], script.applying(batch[from]), script.marking(batch[from]))]
    ensures Records(batch, script, from, before, after)
  {
    hide Recorded;
    assert Reached(batch, script, from, from);
    forall i: nat | Reached(batch, script, from, i) ensures i == from {
    }
  }

  lemma RecordsFromNext(batch: seq<nat>, script: Script, from: nat, before: seq<Mark>, mid: seq<Mark>, after: seq<Mark>)
    requires from < |batch| && batch[from] < |before| && script.marking(batch[from]).Marked?
    requires forall j, k :: 0 <= j < k < |batch| ==> batch[j] < batch[k]
    requires mid == before[batch[from] := Recorded(before[batch[from]], script.applying(batch[from]), script.marking(batch[from]))]
    requires Records(batch, script, from + 1, mid, after)
    ensures Records(batch, script, from, before, after)
  {
    hide Recorded;
    forall i: nat ensures Reached(batch, script, from, i) <==> i == from || Reached(batch, script, from + 1, i) {
    }
    assert Untouched(batch, script, from + 1, batch[from]);
    forall i: nat {:trigger Reached(batch, script, from, i)} | Reached(batch, script, from, i) && batch[i] < |before|
      ensures after[batch[i]] == Recorded(before[batch[i]], script.applying(batch[i]), script.marking(batch[i]))
    {
      if i == from {
        assert after[batch[from]] == mid[batch[from]];
      } else {
        assert Reached(batch, script, from + 1, i) && mid[batch[i]] == before[batch[i]];
      }
    }
    forall row: nat {:trigger after[row]} | row < |before| && Untouched(batch, script, from, row) ensures after[row] == before[row] {
      assert Reached(batch, script, from, from) && row != batch[from];
      forall i: nat {:trigger Reached(batch, script, from + 1, i)} | Reached(batch, script, from + 1, i) ensures batch[i] != row {
        assert Reached(batch, script, from, i);
      }
      assert Untouched(batch, script, from + 1, row);
    }
  }

  /** A sweep records each row it reaches, and touches no other. */
  lemma SweepRecords(s: Sys, limit: nat, script: Script)
    requires Accounted(s) && s.pc.Idle? && !script.selectFails
    ensures Records(Selected(s.marks, 0, limit), script, 0, s.marks, SweepAll(s, limit, script).s.marks)
  {
    StepAccounted(s, Select(limit));
    FinishRecords(Next(s, Select(limit)), script, 0);
  }

  // ---- the limits ----

  /** Errors fit their column. */
  predicate ErrorsFit(s: Sys) {
    && (forall j :: 0 <= j < |s.marks| ==> |s.marks[j].lastError| <= 1000)
    && (s.pc.AtMark? ==> |s.pc.message| <= 1000)
  }

  lemma StepErrorsFit(s: Sys, step: Step)
    requires ErrorsFit(s) && Enabled(s, step)
    ensures ErrorsFit(Next(s, step))
  {
    if step.Apply? && step.outcome.ApplyFailed? {
      ShorteningAnyText(step.outcome.message, DEFAULT_ERROR_LENGTH);
    }
  }

  lemma {:induction false} RunErrorsFit(s: Sys, steps: seq<Step>)
    requires ErrorsFit(s) && Runs(s, steps)
    ensures ErrorsFit(After(s, steps))
    decreases |steps|
  {
    if steps != [] {
      StepErrorsFit(s, steps[0]);
      RunErrorsFit(Next(s, steps[0]), steps[1..]);
    }
  }

  /** In every run from the start no row is tried more than 10 times or holds an error longer than 1000 bytes. */
  lemma WithinLimits(base: Docs, steps: seq<Step>, j: nat)
    requires Runs(Outbox.Start(base), steps) && j < |After(Outbox.Start(base), steps).marks|
    ensures var m := After(Outbox.Start(base), steps).marks[j]; m.attempts <= 10 && |m.lastError| <= 1000
  {
    RunAccounted(Outbox.Start(base), steps);
    RunErrorsFit(Outbox.Start(base), steps);
  }
}
