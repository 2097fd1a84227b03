/** The outbox when applies may fail: what holds document by document (mongox/mongox.go:156-183). */
module OutboxDocuments {
  import opened Results
  import opened Outbox

  function Lookup(docs: Docs, d: DocKey): Option<string> {
    if d in docs then Some(docs[d]) else None
  }

  /** What the events leave of one document: the work of the last event about it. */
  function FoldDoc(base: Docs, events: seq<Event>, d: DocKey): Option<string> {
    if events == [] then Lookup(base, d)
    else
      var last := events[|events| - 1];
      if last.doc != d then FoldDoc(base, events[..|events| - 1], d)
      else if last.Save? then Some(last.payload) else None
  }

  lemma {:induction false} FoldDocIsFold(base: Docs, events: seq<Event>, d: DocKey)
    ensures Lookup(Fold(base, events), d) == FoldDoc(base, events, d)
  {
    if events != [] {
      FoldDocIsFold(base, events[..|events| - 1], d);
    }
  }

  /** The row waits, or is exhausted, for the document. */
  predicate Open(s: Sys, d: DocKey, j: nat) {
    j < |s.events| && j < |s.marks| && s.events[j].doc == d && !s.marks[j].done
  }

  predicate NoneOpen(s: Sys, d: DocKey) {
    forall j :: 0 <= j < |s.events| ==> !Open(s, d, j)
  }

  predicate AtMostOnce(events: seq<Event>, d: DocKey) {
    forall i, j :: 0 <= i < j < |events| ==> events[i].doc != d || events[j].doc != d
  }

  /** A commit about the document comes alone and finds no row of the document open. */
  predicate Disciplined(s: Sys, step: Step, d: DocKey) {
    step.Commit? && (exists i :: 0 <= i < |step.events| && step.events[i].doc == d) ==>
      NoneOpen(s, d) && AtMostOnce(step.events, d)
  }

  predicate DisciplinedRun(s: Sys, steps: seq<Step>, d: DocKey)
    requires Runs(s, steps)
    decreases |steps|
  {
    steps != [] ==> Disciplined(s, steps[0], d) && DisciplinedRun(Next(s, steps[0]), steps[1..], d)
  }

  /** Only the last event about the document may be open; the document holds the work of the events
      before an open one, and perhaps that of the open one too. */
  predicate DocInOrder(base: Docs, s: Sys, d: DocKey) {
    && Accounted(s)
    && (forall j, k :: 0 <= j < k < |s.events| && Open(s, d, j) ==> s.events[k].doc != d)
    && (NoneOpen(s, d) ==> Lookup(s.docs, d) == FoldDoc(base, s.events, d))
    && (forall j {:trigger Open(s, d, j)} | 0 <= j < |s.events| && Open(s, d, j) ::
          Lookup(s.docs, d) == FoldDoc(base, s.events[..j], d) || Lookup(s.docs, d) == FoldDoc(base, s.events, d))
    && (s.pc.AtMark? && s.pc.ok && s.events[s.pc.batch[s.pc.i]].doc == d ==>
          Lookup(s.docs, d) == FoldDoc(base, s.events, d))
  }

  /** Events about other documents do not matter. */
  lemma {:induction false} FoldDocSkips(base: Docs, events: seq<Event>, from: nat, d: DocKey)
    requires from <= |events| && forall k :: from <= k < |events| ==> events[k].doc != d
    ensures FoldDoc(base, events, d) == FoldDoc(base, events[..from], d)
    decreases |events|
  {
    if from < |events| {
      FoldDocSkips(base, events[..|events| - 1], from, d);
      assert events[..|events| - 1][..from] == events[..from];
    } else {
      assert events[..from] == events;
    }
  }

  function Effect(e: Event): Option<string> {
    if e.Save? then Some(e.payload) else None
  }

  lemma LastEventDecides(base: Docs, events: seq<Event>, j: nat, d: DocKey)
    requires j < |events| && events[j].doc == d && forall k :: j < k < |events| ==> events[k].doc != d
    ensures FoldDoc(base, events, d) == Effect(events[j])
  {
    FoldDocSkips(base, events, j + 1, d);
  }

  lemma SameOpenRows(s: Sys, next: Sys, d: DocKey)
    requires |s.events| == |s.marks| && |next.events| == |next.marks| && |s.events| <= |next.events|
    requires forall j :: 0 <= j < |s.events| ==> (Open(next, d, j) <==> Open(s, d, j))
    requires NoneOpen(next, d)
    ensures NoneOpen(s, d)
  {
    forall j | 0 <= j < |s.events| ensures !Open(s, d, j) {
      assert !Open(next, d, j);
    }
  }

  lemma CommitAppends(s: Sys, events: seq<Event>, d: DocKey)
    requires Accounted(s)
    ensures var next := Next(s, Commit(events));
            && next.events[..|s.events|] == s.events
            && (forall j :: 0 <= j < |s.events| ==>
                  (Open(next, d, j) <==> Open(s, d, j)) && next.events[..j] == s.events[..j])
            && (forall j :: |s.events| <= j < |next.events| ==> next.events[j] == events[j - |s.events|])
  {
  }

  lemma CommitAboutOthers(base: Docs, s: Sys, events: seq<Event>, d: DocKey)
    requires DocInOrder(base, s, d) && forall i :: 0 <= i < |events| ==> events[i].doc != d
    ensures DocInOrder(base, Next(s, Commit(events)), d)
  {
    var next := Next(s, Commit(events));
    StepAccounted(s, Commit(events));
    hide Accounted;
    CommitAppends(s, events, d);
    FoldDocSkips(base, next.events, |s.events|, d);
    if NoneOpen(next, d) {
      SameOpenRows(s, next, d);
    }
  }

  /** A state in which row p is the only open one about the document, and not yet applied. */
  lemma OneOpenRow(base: Docs, s: Sys, d: DocKey, p: nat)
    requires Accounted(s) && p < |s.events| && Open(s, d, p)
    requires forall k :: 0 <= k < |s.events| && Open(s, d, k) ==> k == p
    requires forall k :: p < k < |s.events| ==> s.events[k].doc != d
    requires Lookup(s.docs, d) == FoldDoc(base, s.events[..p], d)
    requires s.pc.AtMark? ==> s.events[s.pc.batch[s.pc.i]].doc != d
    ensures DocInOrder(base, s, d)
  {
  }

  lemma BatchIsOpen(s: Sys, d: DocKey)
    requires Accounted(s) && NoneOpen(s, d) && s.pc.AtMark?
    ensures s.pc.batch[s.pc.i] < |s.events| && s.events[s.pc.batch[s.pc.i]].doc != d
  {
    assert !Open(s, d, s.pc.batch[s.pc.i]);
  }

  lemma OnlyNewRowIsOpen(s: Sys, events: seq<Event>, d: DocKey, i: nat)
    requires Accounted(s) && NoneOpen(s, d) && i < |events| && events[i].doc == d && AtMostOnce(events, d)
    ensures var next, p := Next(s, Commit(events)), |s.events| + i;
            && Open(next, d, p)
            && (forall k :: |s.events| <= k < |next.events| && k != p ==> next.events[k].doc != d)
            && (forall k :: 0 <= k < |next.events| && Open(next, d, k) ==> k == p)
  {
    var next, n := Next(s, Commit(events)), |s.events|;
    CommitAppends(s, events, d);
    forall k | n <= k < |next.events| && k != n + i ensures next.events[k].doc != d {
      assert next.events[k] == events[k - n];
    }
  }

  lemma FoldBeforeNew(base: Docs, committed: seq<Event>, events: seq<Event>, d: DocKey, i: nat)
    requires i <= |events| && forall k :: 0 <= k < i ==> events[k].doc != d
    ensures FoldDoc(base, (committed + events)[..|committed| + i], d) == FoldDoc(base, committed, d)
  {
    var front := (committed + events)[..|committed| + i];
    FoldDocSkips(base, front, |committed|, d);
    assert front[..|committed|] == committed;
  }

  lemma CommitAboutDoc(base: Docs, s: Sys, events: seq<Event>, d: DocKey, i: nat)
    requires DocInOrder(base, s, d) && NoneOpen(s, d)
    requires i < |events| && events[i].doc == d && AtMostOnce(events, d)
    ensures DocInOrder(base, Next(s, Commit(events)), d)
  {
    StepAccounted(s, Commit(events));
    if s.pc.AtMark? {
      BatchIsOpen(s, d);
    }
    OnlyNewRowIsOpen(s, events, d, i);
    FoldBeforeNew(base, s.events, events, d, i);
    OneOpenRow(base, Next(s, Commit(events)), d, |s.events| + i);
  }

  lemma CommitDocInOrder(base: Docs, s: Sys, events: seq<Event>, d: DocKey)
    requires DocInOrder(base, s, d) && Disciplined(s, Commit(events), d)
    ensures DocInOrder(base, Next(s, Commit(events)), d)
  {
    if i :| 0 <= i < |events| && events[i].doc == d {
      CommitAboutDoc(base, s, events, d, i);
    } else {
      CommitAboutOthers(base, s, events, d);
    }
  }

  lemma ApplyDocInOrder(base: Docs, s: Sys, outcome: ApplyOutcome, d: DocKey)
    requires DocInOrder(base, s, d) && Enabled(s, Apply(outcome))
    ensures DocInOrder(base, Next(s, Apply(outcome)), d)
  {
    var next, row := Next(s, Apply(outcome)), s.pc.batch[s.pc.i];
    StepAccounted(s, Apply(outcome));
    assert forall j :: 0 <= j < |s.events| ==> (Open(next, d, j) <==> Open(s, d, j));
    if s.events[row].doc == d {
      assert Open(s, d, row);
      LastEventDecides(base, s.events, row, d);
      assert !NoneOpen(next, d);
    } else {
      assert Lookup(next.docs, d) == Lookup(s.docs, d);
      if NoneOpen(next, d) {
        SameOpenRows(s, next, d);
      }
    }
  }

  lemma MarkDocInOrder(base: Docs, s: Sys, outcome: MarkOutcome, d: DocKey)
    requires DocInOrder(base, s, d) && Enabled(s, MarkRow(outcome))
    ensures DocInOrder(base, Next(s, MarkRow(outcome)), d)
  {
    var next, row := Next(s, MarkRow(outcome)), s.pc.batch[s.pc.i];
    StepAccounted(s, MarkRow(outcome));
    assert forall j :: 0 <= j < |s.events| && j != row ==> (Open(next, d, j) <==> Open(s, d, j));
    assert Open(next, d, row) ==> Open(s, d, row);
    if NoneOpen(next, d) && !(s.pc.ok && s.events[row].doc == d) {
      forall j | 0 <= j < |s.events| ensures !Open(s, d, j) {
        assert !Open(next, d, j);
      }
    }
  }

  lemma StepDocInOrder(base: Docs, s: Sys, step: Step, d: DocKey)
    requires DocInOrder(base, s, d) && Enabled(s, step) && Disciplined(s, step, d)
    ensures DocInOrder(base, Next(s, step), d)
  {
    StepAccounted(s, step);
    match step
    case Commit(events) => CommitDocInOrder(base, s, events, d);
    case Apply(outcome) => ApplyDocInOrder(base, s, outcome, d);
    case MarkRow(outcome) => MarkDocInOrder(base, s, outcome, d);
    case _ =>
      var next := Next(s, step);
      assert forall j :: 0 <= j < |s.events| ==> (Open(next, d, j) <==> Open(s, d, j));
      if NoneOpen(next, d) {
        SameOpenRows(s, next, d);
      }
  }

  lemma {:induction false} RunDocInOrder(base: Docs, s: Sys, steps: seq<Step>, d: DocKey)
    requires DocInOrder(base, s, d) && Runs(s, steps) && DisciplinedRun(s, steps, d)
    ensures DocInOrder(base, After(s, steps), d)
    decreases |steps|
  {
    if steps != [] {
      StepDocInOrder(base, s, steps[0], d);
      RunDocInOrder(base, Next(s, steps[0]), steps[1..], d);
    }
  }

  /** Applies may fail, with or without having written; marks may be lost; the replayer may crash. A
      document that never has two open rows still ends as the fold of its committed events, once none of
      its rows is pending or exhausted. */
  lemma DrainedDocIsTheFold(base: Docs, steps: seq<Step>, d: DocKey)
    requires Runs(Start(base), steps) && DisciplinedRun(Start(base), steps, d)
    requires NoneOpen(After(Start(base), steps), d)
    ensures var end := After(Start(base), steps);
            Lookup(end.docs, d) == Lookup(Fold(base, end.events), d)
  {
    var end := After(Start(base), steps);
    RunDocInOrder(base, Start(base), steps, d);
    FoldDocIsFold(base, end.events, d);
  }
}
