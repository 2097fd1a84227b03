/** Why commits about a document must wait for its open rows (mongox/mongox.go:156-183): of two open rows
    either can be made the last one applied. */
module OutboxOvertaking {
  import opened Results
  import opened Outbox
  import opened OutboxDocuments
  import opened OutboxReplayer
  import opened OutboxDrain

  lemma {:induction false} SelectedFits(marks: seq<Mark>, from: nat, limit: nat)
    requires from <= |marks|
    ensures |Selected(marks, from, limit)| <= |marks| - from
    decreases |marks| - from
  {
    if from < |marks| && limit > 0 {
      SelectedFits(marks, from + 1, limit);
      SelectedFits(marks, from + 1, limit - 1);
    }
  }

  lemma {:induction false} OnlyOneSelected(marks: seq<Mark>, m: nat, from: nat, limit: nat)
    requires from <= |marks| && m < |marks| && Pending(marks[m]) && limit > 0
    requires forall j :: 0 <= j < |marks| && j != m ==> !Pending(marks[j])
    ensures Selected(marks, from, limit) == if from <= m then [m] else []
    decreases |marks| - from
  {
    if from < |marks| {
      OnlyOneSelected(marks, m, from + 1, limit);
      if from == m {
        NoneSelected(marks, from + 1, limit - 1);
      }
    }
  }

  lemma {:induction false} NoneSelected(marks: seq<Mark>, from: nat, limit: nat)
    requires from <= |marks| && forall j :: from <= j < |marks| ==> !Pending(marks[j])
    ensures Selected(marks, from, limit) == []
    decreases |marks| - from
  {
    if from < |marks| {
      NoneSelected(marks, from + 1, limit);
    }
  }

  lemma {:induction false} EventsStay(s: Sys, steps: seq<Step>)
    requires Runs(s, steps) && forall i :: 0 <= i < |steps| ==> !steps[i].Commit?
    ensures After(s, steps).events == s.events
    decreases |steps|
  {
    if steps != [] {
      assert !steps[0].Commit?;
      EventsStay(Next(s, steps[0]), steps[1..]);
    }
  }

  /** One apply fails, all others succeed. */
  function FailingOnly(m: nat): Script {
    Script(false, row => if row == m then ApplyFailed([], false) else Applied, row => Marked)
  }

  function AllApply(): Script {
    Script(false, row => Applied, row => Marked)
  }

  /** After a sweep in which only the m-th row fails, only that row is pending. */
  lemma SweepAllBut(s: Sys, m: nat)
    requires Accounted(s) && s.pc.Idle? && m < |s.marks| && Pending(s.marks[m]) && s.marks[m].attempts + 2 <= MAX_ATTEMPTS
    ensures var r := SweepAll(s, |s.marks| + 1, FailingOnly(m)).s;
            && Accounted(r) && r.pc.Idle? && |r.marks| == |s.marks|
            && Pending(r.marks[m])
            && (forall j :: 0 <= j < |r.marks| && j != m ==> !Pending(r.marks[j]))
  {
    var limit, script := |s.marks| + 1, FailingOnly(m);
    var batch := Selected(s.marks, 0, limit);
    SelectedFits(s.marks, 0, limit);
    SweepTries(s, limit, script);
    var r := SweepAll(s, limit, script).s;
    TriedAt(s.marks, batch, script, m);
    forall j | 0 <= j < |s.marks|
      ensures |r.marks| == |s.marks|
      ensures if j == m then Pending(r.marks[j]) else !Pending(r.marks[j])
    {
      TriedAt(s.marks, batch, script, j);
      if Pending(s.marks[j]) {
        SelectsAll(s.marks, 0, limit, j);
      }
    }
  }

  /** A sweep over a single pending row applies and settles it. */
  lemma SweepOne(s: Sys, m: nat)
    requires Accounted(s) && s.pc.Idle? && m < |s.marks| && Pending(s.marks[m])
    requires forall j :: 0 <= j < |s.marks| && j != m ==> !Pending(s.marks[j])
    ensures var r := SweepAll(s, 1, AllApply()).s;
            && Accounted(r) && r.pc.Idle? && NonePending(r)
            && r.docs == ApplyEvent(s.docs, s.events[m])
  {
    OnlyOneSelected(s.marks, m, 0, 1);
    StepAccounted(s, Select(1));
    var selecting := Next(s, Select(1));
    OneRow(selecting, AllApply(), 0);
    var applied := Next(selecting, Apply(Applied));
    var marked := Next(applied, MarkRow(Marked));
    OneRow(marked, AllApply(), 1);
  }

  /** Any pending row with two attempts left can be the last one to reach its document: some continuation
      without commits settles every row and ends with the work of this one. */
  lemma RetriedLastWins(s: Sys, m: nat) returns (steps: seq<Step>)
    requires Accounted(s) && s.pc.Idle? && m < |s.marks| && Pending(s.marks[m]) && s.marks[m].attempts + 2 <= MAX_ATTEMPTS
    ensures Runs(s, steps)
    ensures var end := After(s, steps);
            && end.events == s.events && NonePending(end)
            && Lookup(end.docs, s.events[m].doc) == Effect(s.events[m])
  {
    SweepAllBut(s, m);
    var first := SweepIsARun(s, |s.marks| + 1, FailingOnly(m));
    EventsStay(s, first);
    var mid := After(s, first);
    SweepOne(mid, m);
    var second := SweepIsARun(mid, 1, AllApply());
    EventsStay(mid, second);
    RunsInTurn(s, first, second);
    steps := first + second;
  }

  /** So without the discipline nothing is promised: from any state in which two pending rows of a document
      have different effects and two attempts left, some continuation settles every row and leaves the
      document different from the fold of the committed events. */
  lemma UndisciplinedCanEndWrong(base: Docs, s: Sys, j: nat, k: nat, d: DocKey)
    requires Accounted(s) && s.pc.Idle? && j < |s.marks| && k < |s.marks|
    requires Pending(s.marks[j]) && s.marks[j].attempts + 2 <= MAX_ATTEMPTS && s.events[j].doc == d
    requires Pending(s.marks[k]) && s.marks[k].attempts + 2 <= MAX_ATTEMPTS && s.events[k].doc == d
    requires Effect(s.events[j]) != Effect(s.events[k])
    ensures exists steps ::
              && Runs(s, steps) && NonePending(After(s, steps)) && After(s, steps).events == s.events
              && Lookup(After(s, steps).docs, d) != Lookup(Fold(base, s.events), d)
  {
    FoldDocIsFold(base, s.events, d);
    var m := if Effect(s.events[j]) != FoldDoc(base, s.events, d) then j else k;
    var steps := RetriedLastWins(s, m);
  }

  /** For example after one commit of two events about a document: the older can fail first and then
      overwrite the newer. */
  lemma OvertakenEventWins(base: Docs, d: DocKey, older: string, newer: string)
    requires older != newer
    ensures exists steps ::
              && Runs(Start(base), steps)
              && NonePending(After(Start(base), steps))
              && Lookup(After(Start(base), steps).docs, d) == Some(older)
              && Lookup(Fold(base, After(Start(base), steps).events), d) == Some(newer)
  {
    var events := [Save(d, older), Save(d, newer)];
    var s := Next(Start(base), Commit(events));
    assert s.events == events;
    var rest := RetriedLastWins(s, 0);
    var steps := Prepended(Start(base), Commit(events), s, rest, After(s, rest));
    FoldDocIsFold(base, events, d);
  }
}
