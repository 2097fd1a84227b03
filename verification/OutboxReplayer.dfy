/** The replayer itself: one sweep over a batch, as a specification and as code (mongox/mongox.go:105-218). */
module OutboxReplayer {
  import opened Utf8
  import opened Outbox

  // ---- one sweep ----

  /** What goes wrong during a sweep, by row. */
  datatype Script = Script(selectFails: bool, applying: nat -> ApplyOutcome, marking: nat -> MarkOutcome)

  datatype SweepResult = SweepResult(s: Sys, synced: nat, failed: bool)

  /** The loop of Sweep from the current row on. A mark that reports an error ends the sweep. */
  function FinishSweep(s: Sys, script: Script, synced: nat): SweepResult
    requires Accounted(s) && s.pc.AtApply?
    decreases if s.pc.AtApply? then |s.pc.batch| - s.pc.i else 0
  {
    if s.pc.i == |s.pc.batch| then SweepResult(Next(s, EndSweep), synced, false)
    else
      var row := s.pc.batch[s.pc.i];
      var apply, mark := Apply(script.applying(row)), MarkRow(script.marking(row));
      StepAccounted(s, apply);
      var applied := Next(s, apply);
      StepAccounted(applied, mark);
      var next := Next(applied, mark);
      if script.marking(row).Marked? then FinishSweep(next, script, if applied.pc.ok then synced + 1 else synced)
      else SweepResult(next, synced, true)
  }

  function SweepAll(s: Sys, limit: nat, script: Script): SweepResult
    requires Accounted(s) && s.pc.Idle?
  {
    if script.selectFails then SweepResult(s, 0, true)
    else FinishSweep(Next(s, Select(limit)), script, 0)
  }

  lemma {:induction false} FinishIsARun(s: Sys, script: Script, synced: nat) returns (steps: seq<Step>)
    requires Accounted(s) && s.pc.AtApply?
    ensures Runs(s, steps) && After(s, steps) == FinishSweep(s, script, synced).s
    ensures forall i :: 0 <= i < |steps| ==> !steps[i].Commit?
    decreases |s.pc.batch| - s.pc.i
  {
    if s.pc.i == |s.pc.batch| {
      steps := Prepended(s, EndSweep, Next(s, EndSweep), [], Next(s, EndSweep));
    } else {
      var row := s.pc.batch[s.pc.i];
      var apply, mark := Apply(script.applying(row)), MarkRow(script.marking(row));
      StepAccounted(s, apply);
      var applied := Next(s, apply);
      StepAccounted(applied, mark);
      var next := Next(applied, mark);
      steps := [];
      if script.marking(row).Marked? {
        steps := FinishIsARun(next, script, if applied.pc.ok then synced + 1 else synced);
      }
      var end := FinishSweep(s, script, synced).s;
      steps := Prepended(applied, mark, next, steps, end);
      steps := Prepended(s, apply, applied, steps, end);
    }
  }

  /** A sweep is a run of small steps, so every property of runs holds of it. */
  lemma SweepIsARun(s: Sys, limit: nat, script: Script) returns (steps: seq<Step>)
    requires Accounted(s) && s.pc.Idle?
    ensures Runs(s, steps) && After(s, steps) == SweepAll(s, limit, script).s
    ensures forall i :: 0 <= i < |steps| ==> !steps[i].Commit?
  {
    if script.selectFails {
      steps := [];
    } else {
      steps := FinishIsARun(Next(s, Select(limit)), script, 0);
      steps := Prepended(s, Select(limit), Next(s, Select(limit)), steps, SweepAll(s, limit, script).s);
    }
  }

  lemma OneRow(s: Sys, script: Script, synced: nat)
    requires Accounted(s) && s.pc.AtApply?
    ensures s.pc.i == |s.pc.batch| ==> FinishSweep(s, script, synced) == SweepResult(s.(pc := Idle), synced, false)
    ensures s.pc.i < |s.pc.batch| ==>
              var row := s.pc.batch[s.pc.i];
              && Enabled(s, Apply(script.applying(row)))
              && var applied := Next(s, Apply(script.applying(row)));
              && Enabled(applied, MarkRow(script.marking(row)))
              && var next := Next(applied, MarkRow(script.marking(row)));
              && Accounted(next)
              && FinishSweep(s, script, synced) ==
                 if script.marking(row).MarkLost? then SweepResult(next, synced, true)
                 else FinishSweep(next, script, if applied.pc.ok then synced + 1 else synced)
  {
    if s.pc.i < |s.pc.batch| {
      var row := s.pc.batch[s.pc.i];
      StepAccounted(s, Apply(script.applying(row)));
      StepAccounted(Next(s, Apply(script.applying(row))), MarkRow(script.marking(row)));
    }
  }

  // ---- the replayer ----

  /** The outbox table and the document store, as the replayer reaches them. */
  class Stores {
    var events: seq<Event>
    var marks: seq<Mark>
    var docs: Docs
    ghost var applied: set<nat>

    constructor (docs: Docs)
      ensures events == [] && marks == [] && this.docs == docs && applied == {}
    {
      events, marks, this.docs := [], [], docs;
      applied := {};
    }

    /** SelectPendingOutbox */
    method SelectPending(limit: nat) returns (batch: seq<nat>)
      ensures batch == Selected(marks, 0, limit)
    {
      batch := [];
      var j := 0;
      while j < |marks| && |batch| < limit
        invariant 0 <= j <= |marks| && |batch| <= limit
        invariant Selected(marks, 0, limit) == batch + Selected(marks, j, limit - |batch|)
      {
        if Pending(marks[j]) {
          batch := batch + [j];
        }
        j := j + 1;
      }
    }

    /** Apply, with the outcome the environment chooses. */
    method ApplyTo(row: nat, outcome: ApplyOutcome)
      requires row < |events|
      modifies this`docs, this`applied
      ensures docs == if outcome.Applied? || outcome.wrote then ApplyEvent(old(docs), events[row]) else old(docs)
      ensures applied == if outcome.Applied? then old(applied) + {row} else old(applied)
    {
      if outcome.Applied? || outcome.wrote {
        docs := ApplyEvent(docs, events[row]);
      }
      if outcome.Applied? {
        applied := applied + {row};
      }
    }

    /** MarkOutboxSynced and MarkOutboxFailed */
    method Record(row: nat, ok: bool, message: seq<byte>, outcome: MarkOutcome)
      requires row < |marks|
      modifies this`marks
      ensures marks ==
              if outcome.Marked? || outcome.wrote then old(marks)[row := Marking(old(marks)[row], ok, message)] else old(marks)
    {
      if outcome.Marked? || outcome.wrote {
        marks := marks[row := Marking(marks[row], ok, message)];
      }
    }
  }

  class Replayer {
    const stores: Stores
    const batchSize: nat

    /** A batch size that is not positive becomes 50. */
    constructor (stores: Stores, batch: int)
      ensures this.stores == stores && (batch > 0 ==> batchSize == batch) && (batch <= 0 ==> batchSize == 50)
    {
      this.stores := stores;
      batchSize := if batch <= 0 then 50 else batch;
    }

    ghost function At(pc: Pc): Sys
      reads stores
    {
      Sys(stores.events, stores.marks, stores.docs, stores.applied, pc)
    }

    /** One event of the batch; failed stands for a mark that reported an error. */
    method Replay(ghost batch: seq<nat>, ghost i: nat, row: nat, script: Script) returns (ok: bool, failed: bool)
      requires Accounted(At(AtApply(batch, i))) && i < |batch| && row == batch[i]
      modifies stores
      ensures var s := old(At(AtApply(batch, i)));
              var applied := Next(s, Apply(script.applying(row)));
              && Enabled(applied, MarkRow(script.marking(row)))
              && At(if failed then Idle else AtApply(batch, i + 1)) == Next(applied, MarkRow(script.marking(row)))
              && failed == script.marking(row).MarkLost?
              && ok == applied.pc.ok
    {
      var outcome := script.applying(row);
      stores.ApplyTo(row, outcome);
      ok := outcome.Applied?;
      if !ok {
        var message := Truncate(outcome.message, DEFAULT_ERROR_LENGTH);
        stores.Record(row, false, message, script.marking(row));
      } else {
        stores.Record(row, true, [], script.marking(row));
      }
      failed := script.marking(row).MarkLost?;
    }

    /** One round of replaying; failed stands for the error Sweep returns. */
    method Sweep(script: Script) returns (synced: nat, failed: bool)
      requires Accounted(At(Idle))
      modifies stores
      ensures SweepResult(At(Idle), synced, failed) == SweepAll(old(At(Idle)), batchSize, script)
    {
      if script.selectFails {
        return 0, true;
      }
      var batch := stores.SelectPending(batchSize);
      synced, failed := 0, false;
      StepAccounted(At(Idle), Select(batchSize));
      hide Selected, Next, Enabled, FinishSweep, Accounted;
      var i := 0;
      while i < |batch|
        invariant 0 <= i <= |batch| && !failed
        invariant Accounted(At(AtApply(batch, i)))
        invariant FinishSweep(At(AtApply(batch, i)), script, synced) == SweepAll(old(At(Idle)), batchSize, script)
      {
        OneRow(At(AtApply(batch, i)), script, synced);
        var ok;
        ok, failed := Replay(batch, i, batch[i], script);
        if failed {
          return;
        }
        if ok {
          synced := synced + 1;
        }
        i := i + 1;
      }
      OneRow(At(AtApply(batch, i)), script, synced);
    }
  }
}
