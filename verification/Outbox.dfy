/** The transactional outbox and its replayer (mongox/mongox.go).

    Events are committed to a table together with the business data. A replayer takes batches of pending
    rows, applies each to the document store and marks the row. Anything may fail or crash in between, so
    a row can be applied again. Rows are known by their position in commit order. */
module Outbox {
  import opened Utf8

  const MAX_ATTEMPTS: nat := 10
  const DEFAULT_ERROR_LENGTH: nat := 1000

  datatype DocKey = DocKey(aggregateType: string, aggregateId: string)

  datatype Event = Save(doc: DocKey, payload: string) | Delete(doc: DocKey)

  type Docs = map<DocKey, string>

  /** What a DocApplier does when it succeeds. */
  function ApplyEvent(docs: Docs, e: Event): Docs {
    match e
    case Save(doc, payload) => docs[doc := payload]
    case Delete(doc) => docs - {doc}
  }

  /** The documents after the events, in order. */
  function Fold(base: Docs, events: seq<Event>): Docs {
    if events == [] then base else ApplyEvent(Fold(base, events[..|events| - 1]), events[|events| - 1])
  }

  datatype Mark = Mark(done: bool, attempts: nat, lastError: seq<byte>)

  const UNTRIED := Mark(false, 0, [])

  /** status = 0 AND attempts < max */
  predicate Pending(m: Mark) {
    !m.done && m.attempts < MAX_ATTEMPTS
  }

  /** The first rows, at most limit, that are pending, from the given position on. */
  function Selected(marks: seq<Mark>, from: nat, limit: nat): (batch: seq<nat>)
    requires from <= |marks|
    ensures |batch| <= limit
    ensures forall i :: 0 <= i < |batch| ==> from <= batch[i] < |marks| && Pending(marks[batch[i]])
    ensures forall i, j :: 0 <= i < j < |batch| ==> batch[i] < batch[j]
    decreases |marks| - from
  {
    if from == |marks| || limit == 0 then []
    else if Pending(marks[from]) then [from] + Selected(marks, from + 1, limit - 1)
    else Selected(marks, from + 1, limit)
  }

  /** Every pending row is selected, unless the batch is full of earlier ones. */
  lemma {:induction false} SelectedExactly(marks: seq<Mark>, from: nat, limit: nat, j: nat)
    requires from <= j < |marks|
    ensures var batch := Selected(marks, from, limit);
            j in batch <==> !marks[j].done && marks[j].attempts < 10 && (|batch| < limit || (limit > 0 && j <= batch[|batch| - 1]))
    decreases |marks| - from
  {
    if limit > 0 {
      var rest := Selected(marks, from + 1, if Pending(marks[from]) then limit - 1 else limit);
      if from < j {
        SelectedExactly(marks, from + 1, if Pending(marks[from]) then limit - 1 else limit, j);
      }
    }
  }

  // ---- the system as a machine of small steps ----

  /** Where the replayer is: between sweeps, before applying batch[i], or before marking it. */
  datatype Pc =
    | Idle
    | AtApply(batch: seq<nat>, i: nat)
    | AtMark(batch: seq<nat>, i: nat, ok: bool, message: seq<byte>)

  /** applied are the rows some Apply has succeeded for. */
  datatype Sys = Sys(events: seq<Event>, marks: seq<Mark>, docs: Docs, applied: set<nat>, pc: Pc)

  /** An Apply that reports an error may still have written the document. */
  datatype ApplyOutcome = Applied | ApplyFailed(message: seq<byte>, wrote: bool)

  /** A mark that reports an error may still have reached the table. */
  datatype MarkOutcome = Marked | MarkLost(wrote: bool)

  datatype Step =
    | Commit(events: seq<Event>)
    | Abort
    | Select(limit: nat)
    | SelectFails
    | Apply(outcome: ApplyOutcome)
    | MarkRow(recorded: MarkOutcome)
    | EndSweep
    | Crash

  predicate Enabled(s: Sys, step: Step) {
    match step
    case Select(_) => s.pc.Idle?
    case SelectFails => s.pc.Idle?
    case Apply(_) => s.pc.AtApply? && s.pc.i < |s.pc.batch| && s.pc.batch[s.pc.i] < |s.events|
    case MarkRow(_) => s.pc.AtMark? && s.pc.i < |s.pc.batch| && s.pc.batch[s.pc.i] < |s.marks|
    case EndSweep => s.pc.AtApply? && s.pc.i == |s.pc.batch|
    case _ => true
  }

  /** MarkOutboxSynced or MarkOutboxFailed */
  function Marking(m: Mark, ok: bool, message: seq<byte>): Mark {
    if ok then m.(done := true, attempts := m.attempts + 1)
    else m.(attempts := m.attempts + 1, lastError := message)
  }

  function Untried(n: nat): seq<Mark> {
    seq(n, _ => UNTRIED)
  }

  function Next(s: Sys, step: Step): Sys
    requires Enabled(s, step)
  {
    match step
    case Commit(events) => s.(events := s.events + events, marks := s.marks + Untried(|events|))
    case Abort => s
    case Select(limit) => s.(pc := AtApply(Selected(s.marks, 0, limit), 0))
    case SelectFails => s
    case Apply(outcome) =>
      var row := s.pc.batch[s.pc.i];
      var wrote := outcome.Applied? || outcome.wrote;
      s.(docs := if wrote then ApplyEvent(s.docs, s.events[row]) else s.docs,
         applied := if outcome.Applied? then s.applied + {row} else s.applied,
         pc := AtMark(s.pc.batch, s.pc.i, outcome.Applied?,
                      if outcome.Applied? then [] else Shortened(outcome.message, DEFAULT_ERROR_LENGTH)))
    case MarkRow(outcome) =>
      var row := s.pc.batch[s.pc.i];
      var wrote := outcome.Marked? || outcome.wrote;
      s.(marks := if wrote then s.marks[row := Marking(s.marks[row], s.pc.ok, s.pc.message)] else s.marks,
         pc := if outcome.Marked? then AtApply(s.pc.batch, s.pc.i + 1) else Idle)
    case EndSweep => s.(pc := Idle)
    case Crash => s.(pc := Idle)
  }

  predicate Runs(s: Sys, steps: seq<Step>)
    decreases |steps|
  {
    steps != [] ==> Enabled(s, steps[0]) && Runs(Next(s, steps[0]), steps[1..])
  }

  function After(s: Sys, steps: seq<Step>): Sys
    requires Runs(s, steps)
    decreases |steps|
  {
    if steps == [] then s else After(Next(s, steps[0]), steps[1..])
  }

  lemma Prepended(s: Sys, step: Step, next: Sys, rest: seq<Step>, end: Sys) returns (steps: seq<Step>)
    requires Enabled(s, step) && Next(s, step) == next && Runs(next, rest) && After(next, rest) == end
    ensures Runs(s, steps) && After(s, steps) == end && steps == [step] + rest
  {
    steps := [step] + rest;
    assert steps[1..] == rest;
  }

  lemma {:induction false} RunsInTurn(s: Sys, a: seq<Step>, b: seq<Step>)
    requires Runs(s, a) && Runs(After(s, a), b)
    ensures Runs(s, a + b) && After(s, a + b) == After(After(s, a), b)
    decreases |a|
  {
    if a == [] {
      assert a + b == b;
    } else {
      RunsInTurn(Next(s, a[0]), a[1..], b);
      assert (a + b)[1..] == a[1..] + b;
    }
  }

  function Start(docs: Docs): Sys {
    Sys([], [], docs, {}, Idle)
  }

  predicate NonePending(s: Sys) {
    forall j :: 0 <= j < |s.marks| ==> !Pending(s.marks[j])
  }

  // ---- what holds in every run ----

  /** No row is tried more than the maximum, done rows were applied, and the rows still ahead of the
      replayer are pending. */
  predicate Accounted(s: Sys) {
    && |s.events| == |s.marks|
    && (forall j :: 0 <= j < |s.marks| ==> s.marks[j].attempts <= MAX_ATTEMPTS && (s.marks[j].done ==> j in s.applied))
    && (!s.pc.Idle? ==>
          && s.pc.i <= |s.pc.batch|
          && (forall j :: s.pc.i <= j < |s.pc.batch| ==> s.pc.batch[j] < |s.marks| && Pending(s.marks[s.pc.batch[j]]))
          && (forall j, k :: 0 <= j < k < |s.pc.batch| ==> s.pc.batch[j] < s.pc.batch[k]))
    && (s.pc.AtMark? ==> s.pc.i < |s.pc.batch| && (s.pc.ok ==> s.pc.batch[s.pc.i] in s.applied))
  }

  lemma StepAccounted(s: Sys, step: Step)
    requires Accounted(s) && Enabled(s, step)
    ensures Accounted(Next(s, step))
  {
  }

  /** Attempts never exceed the maximum, and every done row was applied successfully at least once, in any
      run with any failures and crashes. */
  lemma {:induction false} RunAccounted(s: Sys, steps: seq<Step>)
    requires Accounted(s) && Runs(s, steps)
    ensures Accounted(After(s, steps))
    decreases |steps|
  {
    if steps != [] {
      StepAccounted(s, steps[0]);
      RunAccounted(Next(s, steps[0]), steps[1..]);
    }
  }

  // ---- applies that always succeed: the documents are the fold of the commits ----

  predicate NoApplyFails(steps: seq<Step>) {
    forall i :: 0 <= i < |steps| && steps[i].Apply? ==> steps[i].outcome.Applied?
  }

  /** Rows before k are done and rows from k on untried; the documents hold the first k events, and
      perhaps already the next one. */
  predicate InOrder(base: Docs, s: Sys, k: nat) {
    && k <= |s.events| == |s.marks|
    && DoneUpTo(s.marks, k)
    && (HoldsFirst(base, s, k) || (k < |s.events| && HoldsFirst(base, s, k + 1)))
    && (!s.pc.Idle? ==> s.pc.i <= |s.pc.batch| && Ahead(s.pc.batch, s.pc.i, k, |s.events|))
    && (s.pc.AtMark? ==> k < |s.events| && s.pc.i < |s.pc.batch| && s.pc.ok && HoldsFirst(base, s, k + 1))
  }

  predicate DoneUpTo(marks: seq<Mark>, k: nat) {
    && k <= |marks|
    && (forall j :: 0 <= j < k ==> marks[j].done)
    && (forall j :: k <= j < |marks| ==> marks[j] == UNTRIED)
  }

  predicate HoldsFirst(base: Docs, s: Sys, k: nat) {
    k <= |s.events| && s.docs == Fold(base, s.events[..k])
  }

  /** The rest of the batch is the rows from k on. */
  predicate Ahead(batch: seq<nat>, i: nat, k: nat, n: nat) {
    forall j :: i <= j < |batch| ==> batch[j] < n && batch[j] == k + (j - i)
  }

  lemma ApplyTwice(docs: Docs, e: Event)
    ensures ApplyEvent(ApplyEvent(docs, e), e) == ApplyEvent(docs, e)
  {
  }

  lemma {:induction false} SelectsFromFront(marks: seq<Mark>, from: nat, limit: nat)
    requires from <= |marks| && forall j :: from <= j < |marks| ==> marks[j] == UNTRIED
    ensures forall i :: 0 <= i < |Selected(marks, from, limit)| ==> Selected(marks, from, limit)[i] == from + i
    decreases |marks| - from
  {
    if from < |marks| && limit > 0 {
      SelectsFromFront(marks, from + 1, limit - 1);
    }
  }

  lemma {:induction false} SelectsPastDone(marks: seq<Mark>, from: nat, k: nat, limit: nat)
    requires from <= k <= |marks| && forall j :: from <= j < k ==> marks[j].done
    ensures Selected(marks, from, limit) == Selected(marks, k, limit)
    decreases k - from
  {
    if from < k {
      SelectsPastDone(marks, from + 1, k, limit);
      if limit == 0 {
        assert Selected(marks, from, limit) == [] == Selected(marks, k, limit);
      }
    }
  }

  lemma FoldNext(base: Docs, events: seq<Event>, k: nat)
    requires k < |events|
    ensures Fold(base, events[..k + 1]) == ApplyEvent(Fold(base, events[..k]), events[k])
    ensures ApplyEvent(Fold(base, events[..k + 1]), events[k]) == Fold(base, events[..k + 1])
  {
    assert events[..k + 1][..k] == events[..k];
    ApplyTwice(Fold(base, events[..k]), events[k]);
  }

  lemma CommitInOrder(base: Docs, s: Sys, k: nat, events: seq<Event>)
    requires InOrder(base, s, k)
    ensures InOrder(base, Next(s, Commit(events)), k)
  {
    hide Fold;
    var next := Next(s, Commit(events));
    assert next.events[..k] == s.events[..k];
    assert DoneUpTo(next.marks, k);
    if k < |s.events| {
      assert next.events[..k + 1] == s.events[..k + 1];
    }
    assert HoldsFirst(base, s, k) ==> HoldsFirst(base, next, k);
    assert !s.pc.Idle? ==> Ahead(s.pc.batch, s.pc.i, k, |next.events|);
  }

  lemma SelectInOrder(base: Docs, s: Sys, k: nat, limit: nat)
    requires InOrder(base, s, k) && s.pc.Idle?
    ensures InOrder(base, Next(s, Select(limit)), k)
  {
    hide HoldsFirst, Selected;
    SelectsPastDone(s.marks, 0, k, limit);
    SelectsFromFront(s.marks, k, limit);
    assert Ahead(Selected(s.marks, 0, limit), 0, k, |s.events|);
    Unmoved(base, s, Next(s, Select(limit)));
  }

  lemma ApplyInOrder(base: Docs, s: Sys, k: nat)
    requires InOrder(base, s, k) && Enabled(s, Apply(Applied))
    ensures InOrder(base, Next(s, Apply(Applied)), k)
  {
    hide Fold, ApplyEvent;
    assert s.pc.batch[s.pc.i] == k;
    FoldNext(base, s.events, k);
    assert HoldsFirst(base, Next(s, Apply(Applied)), k + 1);
  }

  lemma Unmoved(base: Docs, s: Sys, next: Sys)
    requires next.events == s.events && next.docs == s.docs
    ensures forall k: nat :: HoldsFirst(base, next, k) <==> HoldsFirst(base, s, k)
  {
  }

  lemma MarkInOrder(base: Docs, s: Sys, k: nat, outcome: MarkOutcome)
    requires InOrder(base, s, k) && Enabled(s, MarkRow(outcome))
    ensures InOrder(base, Next(s, MarkRow(outcome)), if outcome.Marked? || outcome.wrote then k + 1 else k)
  {
    hide HoldsFirst;
    var next := Next(s, MarkRow(outcome));
    Unmoved(base, s, next);
    assert s.pc.batch[s.pc.i] == k;
    if outcome.Marked? || outcome.wrote {
      assert DoneUpTo(next.marks, k + 1);
    }
    if outcome.Marked? {
      assert Ahead(s.pc.batch, s.pc.i + 1, k + 1, |s.events|);
    }
  }

  lemma StepInOrder(base: Docs, s: Sys, k: nat, step: Step) returns (k': nat)
    requires InOrder(base, s, k) && Enabled(s, step) && (step.Apply? ==> step.outcome.Applied?)
    ensures InOrder(base, Next(s, step), k')
  {
    k' := k;
    match step
    case Commit(events) => CommitInOrder(base, s, k, events);
    case Select(limit) => SelectInOrder(base, s, k, limit);
    case Apply(_) => ApplyInOrder(base, s, k);
    case MarkRow(outcome) =>
      MarkInOrder(base, s, k, outcome);
      k' := if outcome.Marked? || outcome.wrote then k + 1 else k;
    case _ => Unmoved(base, s, Next(s, step));
  }

  lemma {:induction false} RunInOrder(base: Docs, s: Sys, k: nat, steps: seq<Step>) returns (k': nat)
    requires InOrder(base, s, k) && Runs(s, steps) && NoApplyFails(steps)
    ensures InOrder(base, After(s, steps), k')
    decreases |steps|
  {
    k' := k;
    if steps != [] {
      assert steps[0].Apply? ==> steps[0].outcome.Applied?;
      var mid := StepInOrder(base, s, k, steps[0]);
      k' := RunInOrder(base, Next(s, steps[0]), mid, steps[1..]);
    }
  }

  lemma PendingRow(base: Docs, s: Sys, k: nat)
    requires InOrder(base, s, k)
    ensures k == |s.events| || !NonePending(s)
  {
    if k < |s.events| {
      assert Pending(s.marks[k]);
    }
  }

  /** One replayer, applies that succeed, and any mix of commits, aborts, failing selects, lost marks and
      crashes: once no row is pending, the documents are the committed events applied in commit order. */
  lemma DrainedDocsAreTheFold(base: Docs, steps: seq<Step>)
    requires Runs(Start(base), steps) && NoApplyFails(steps)
    requires NonePending(After(Start(base), steps))
    ensures After(Start(base), steps).docs == Fold(base, After(Start(base), steps).events)
  {
    var end := After(Start(base), steps);
    var k := RunInOrder(base, Start(base), 0, steps);
    PendingRow(base, end, k);
    assert end.events[..k] == end.events;
  }
}
