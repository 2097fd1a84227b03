/** What saving an unreadable session does: SaveSession stores data that its decoder rejects, and the account
    is locked until the stored session expires or is saved over. */
module LoginLockout {
  import opened Results
  import opened Text
  import opened MemoryStores
  import opened Sessions
  import opened SessionCodec
  import opened CodecRoundTrip
  import opened TokenIndex
  import opened LoginSpec
  import opened LoginInvariant
  import opened LoginCrash
  import opened LoginTidy
  import opened LoginTorn
  import opened LoginRuns
  import opened LoginFinality
  import opened LoginEffects
  import opened LoginIsolation

  /** After a save the session can be loaded exactly when the decoder accepts its data map. */
  lemma SavedLoadsExactly(cfg: Config, st: State, s: Session, newId: string)
    ensures var id, after := LoginIDOf(cfg, s), PerformAll(cfg, st, SavePlan(cfg, s, newId).writes);
            && after == st.(sessions := st.sessions[id := Dated(Reload(Completed(cfg, s, newId)), DueDate(cfg, st.now))])
            && Load(after, id) == if ReadableData(DataOf(s)) then Ok(Reloaded(Completed(cfg, s, newId))) else Err(BadSession)
  {
    var full := Completed(cfg, s, newId);
    assert DataOf(full) == DataOf(s) && LoginIDOf(cfg, full) == LoginIDOf(cfg, s);
    ReloadComputes(full);
    assert [Save(cfg, full)][..0] == [];
  }

  /** The state without the account's session. */
  function Masked(st: State, id: string): State {
    st.(sessions := st.sessions - {id})
  }

  /** The account's session cannot be read until d; everything else is in order. */
  predicate Locked(cfg: Config, w: World, id: string, d: Deadline) {
    && id in w.st.sessions && w.st.sessions[id] == Dated(Err(BadSession), d) && Alive(d, w.st.now)
    && Tame(cfg, Masked(w.st, id), w.issued)
  }

  /** The step saves a session of the account. */
  predicate Saves(cfg: Config, step: Step, id: string) {
    && (step.Complete? || (step.Cut? && step.writes > 0))
    && step.op.SaveSession? && LoginIDOf(cfg, step.op.session) == id
  }

  lemma MaskedIsTame(cfg: Config, st: State, issued: set<string>, id: string)
    requires Tame(cfg, st, issued)
    ensures Tame(cfg, Masked(st, id), issued)
  {
    hide Tidy, Sound;
    var ws := [DelSession(id)];
    assert LocalWrites(cfg, st, ws, id, {});
    LocalPrefix(cfg, st, issued, ws, id, {}, 1);
    assert ws[..1] == ws && ws[..0] == [];
  }

  lemma UnreadableSaveLocks(cfg: Config, w: World, s: Session, newId: string)
    requires ValidConfig(cfg) && Tame(cfg, w.st, w.issued) && !ReadableData(DataOf(s))
    ensures var after := PerformAll(cfg, w.st, SavePlan(cfg, s, newId).writes);
            Locked(cfg, w.(st := after), LoginIDOf(cfg, s), DueDate(cfg, w.st.now))
  {
    hide Tame;
    var id := LoginIDOf(cfg, s);
    SavedLoadsExactly(cfg, w.st, s, newId);
    MaskedIsTame(cfg, w.st, w.issued, id);
    var after := PerformAll(cfg, w.st, SavePlan(cfg, s, newId).writes);
    assert Masked(after, id) == Masked(w.st, id);
    assert Load(after, id) == Err(BadSession);
    if cfg.timeout > 0 {
      NanosInRange(cfg.timeout);
    }
  }

  // ---- one step of a locked account ----

  lemma LockedLogin(cfg: Config, st: State, id: string, op: Op)
    requires Load(st, id) == Err(BadSession) && op.Login? && op.id == id
    ensures WritesOf(cfg, st, op) == []
    ensures !Blank(id) ==> LoginPlan(cfg, st, id, op.minted, op.newId).result.Err?
    ensures !Blank(id) && op.minted.Ok? ==> LoginPlan(cfg, st, id, op.minted, op.newId).result == Err(BadSession)
  {
    NothingPerformed(cfg, st);
  }

  lemma LockedLogout(cfg: Config, st: State, id: string, token: string)
    requires Load(st, id) == Err(BadSession)
    ensures LogoutPlan(cfg, st, token).writes == LogoutPlan(cfg, Masked(st, id), token).writes
    ensures CheckPlan(cfg, st, token).writes == CheckPlan(cfg, Masked(st, id), token).writes
  {
  }

  /** Logging out a token of the account deletes the token all the same, and reports the session. */
  lemma LockedLogoutAnswers(cfg: Config, st: State, id: string, token: string)
    requires Load(st, id) == Err(BadSession) && token != "" && token in st.tokens && st.tokens[token].value == id && !Blank(id)
    ensures LogoutPlan(cfg, st, token).result == Err(BadSession)
    ensures PerformAll(cfg, st, LogoutPlan(cfg, st, token).writes) ==
            State(st.now, st.tokens - {token}, st.sessions, st.stamps - {token})
  {
    DeletesLeave(cfg, st, token);
    assert LogoutPlan(cfg, st, token).writes == LogoutDeletes(token);
  }

  /** Operations do not depend on another account's session being there. */
  lemma MaskedDoesTheSame(cfg: Config, st: State, issued: set<string>, op: Op, id: string)
    requires Load(st, id) == Err(BadSession) && Allowed(cfg, st, issued, op)
    ensures Allowed(cfg, Masked(st, id), issued, op)
    ensures !(op.Login? && op.id == id) ==> WritesOf(cfg, Masked(st, id), op) == WritesOf(cfg, st, op)
  {
    hide Savable;
    match op
    case Login(account, _, _) =>
      if account != id {
        SamePlans(cfg, st, Masked(st, id), op, account);
      }
    case Logout(token) => LockedLogout(cfg, st, id, token);
    case CheckLogin(token) => LockedLogout(cfg, st, id, token);
    case SaveSession(_, _) =>
  }

  predicate SparesSession(ws: seq<Write>, id: string) {
    forall i {:trigger ws[i]} :: 0 <= i < |ws| ==> !((ws[i].PutSession? || ws[i].DelSession?) && ws[i].id == id)
  }

  lemma SparedByWrite(cfg: Config, st: State, w: Write, id: string)
    requires !((w.PutSession? || w.DelSession?) && w.id == id)
    ensures EntryOf(Perform(cfg, st, w).sessions, id) == EntryOf(st.sessions, id)
    ensures Perform(cfg, Masked(st, id), w) == Masked(Perform(cfg, st, w), id)
  {
    hide Reload, DueDate, PrintInt;
    assert Perform(cfg, Masked(st, id), w).sessions == Masked(Perform(cfg, st, w), id).sessions;
  }

  lemma {:induction false} SparedSession(cfg: Config, st: State, ws: seq<Write>, id: string)
    requires SparesSession(ws, id)
    ensures EntryOf(PerformAll(cfg, st, ws).sessions, id) == EntryOf(st.sessions, id)
    ensures PerformAll(cfg, Masked(st, id), ws) == Masked(PerformAll(cfg, st, ws), id)
  {
    hide Perform, EntryOf, Masked;
    if ws != [] {
      SparedSession(cfg, st, ws[..|ws| - 1], id);
      SparedByWrite(cfg, PerformAll(cfg, st, ws[..|ws| - 1]), ws[|ws| - 1], id);
    }
  }

  lemma OthersSpareTheSession(cfg: Config, st: State, issued: set<string>, op: Op, id: string)
    requires Tame(cfg, Masked(st, id), issued)
    requires !(op.Login? && op.id == id) && !(op.SaveSession? && LoginIDOf(cfg, op.session) == id)
    ensures SparesSession(WritesOf(cfg, Masked(st, id), op), id)
  {
    hide Sound, Tidy, LoginPlan;
    var masked := Masked(st, id);
    OpReach(cfg, masked, issued, op);
    TameTokens(cfg, masked, issued);
    if op.Logout? || op.CheckLogin? {
      LogoutWrites(cfg, masked, op.token);
    }
  }

  lemma LockedCut(cfg: Config, w: World, op: Op, k: nat, id: string, d: Deadline)
    requires Locked(cfg, w, id, d) && Allowed(cfg, w.st, w.issued, op) && k <= |WritesOf(cfg, w.st, op)|
    requires !Saves(cfg, Cut(op, k), id)
    ensures Locked(cfg, CutAfter(cfg, w, op, k), id, d)
  {
    hide Tame, Allowed, TornAfter, Reload;
    var masked := Masked(w.st, id);
    MaskedDoesTheSame(cfg, w.st, w.issued, op, id);
    if op.Login? && op.id == id {
      LockedLogin(cfg, w.st, id, op);
    } else if op.SaveSession? && LoginIDOf(cfg, op.session) == id {
      assert k == 0;
    } else {
      OthersSpareTheSession(cfg, w.st, w.issued, op, id);
    }
    hide WritesOf;
    var ws := WritesOf(cfg, w.st, op)[..k];
    EveryPrefixIsTame(cfg, masked, w.issued, op, k);
    assert ws == WritesOf(cfg, masked, op)[..k];
    SparedSession(cfg, w.st, ws, id);
    PerformKeepsNow(cfg, w.st, ws);
  }

  lemma SaveUnlocks(cfg: Config, w: World, op: Op, id: string, d: Deadline)
    requires Locked(cfg, w, id, d) && Allowed(cfg, w.st, w.issued, op)
    requires op.SaveSession? && LoginIDOf(cfg, op.session) == id
    ensures |WritesOf(cfg, w.st, op)| == 1
    ensures Tame(cfg, CutAfter(cfg, w, op, 1).st, w.issued)
  {
    hide Tame, Allowed, TornAfter, Reload;
    var masked := Masked(w.st, id);
    MaskedDoesTheSame(cfg, w.st, w.issued, op, id);
    EveryPrefixIsTame(cfg, masked, w.issued, op, 1);
    var ws := WritesOf(cfg, w.st, op);
    assert ws[..1] == ws && ws[..0] == [];
    assert PerformAll(cfg, masked, ws).sessions == PerformAll(cfg, w.st, ws).sessions;
  }

  lemma LockedWait(cfg: Config, w: World, elapsed: nat, id: string, d: Deadline)
    requires Locked(cfg, w, id, d)
    ensures var after := w.(st := Later(w.st, elapsed));
            if Alive(d, after.st.now) then Locked(cfg, after, id, d) else Tame(cfg, after.st, after.issued)
  {
    hide Tame;
    LaterIsTame(cfg, Masked(w.st, id), w.issued, elapsed);
    var after := Later(w.st, elapsed);
    assert Masked(after, id) == Later(Masked(w.st, id), elapsed);
    assert !Alive(d, after.now) ==> Masked(after, id) == after;
  }

  lemma LockedOp(cfg: Config, w: World, op: Op, k: nat, id: string, d: Deadline)
    requires Locked(cfg, w, id, d) && Allowed(cfg, w.st, w.issued, op) && k <= |WritesOf(cfg, w.st, op)|
    ensures if Saves(cfg, Cut(op, k), id) then Tame(cfg, CutAfter(cfg, w, op, k).st, w.issued)
            else Locked(cfg, CutAfter(cfg, w, op, k), id, d)
  {
    hide Locked, Tame, Allowed, CutAfter;
    if Saves(cfg, Cut(op, k), id) {
      SaveUnlocks(cfg, w, op, id, d);
    } else {
      LockedCut(cfg, w, op, k, id, d);
    }
  }

  lemma LockedStep(cfg: Config, w: World, step: Step, id: string, d: Deadline)
    requires Locked(cfg, w, id, d) && Possible(cfg, w, step)
    ensures var next := Next(cfg, w, step);
            if Alive(d, next.st.now) && !Saves(cfg, step, id) then Locked(cfg, next, id, d)
            else Tame(cfg, next.st, next.issued)
  {
    hide Tame, Allowed, TornAfter;
    match step
    case Wait(elapsed) => LockedWait(cfg, w, elapsed, id, d);
    case Cut(op, k) =>
      LockedOp(cfg, w, op, k, id, d);
      PerformKeepsNow(cfg, w.st, WritesOf(cfg, w.st, op)[..k]);
    case Complete(op) =>
      LockedOp(cfg, w, op, |WritesOf(cfg, w.st, op)|, id, d);
      PerformKeepsNow(cfg, w.st, WritesOf(cfg, w.st, op)[..|WritesOf(cfg, w.st, op)|]);
  }

  // ---- runs ----

  lemma {:induction false} RunIsTame(cfg: Config, w: World, steps: seq<Step>)
    requires Tame(cfg, w.st, w.issued) && Runs(cfg, w, steps)
    ensures Tame(cfg, After(cfg, w, steps).st, After(cfg, w, steps).issued)
    decreases |steps|
  {
    hide Tame;
    if steps != [] {
      StepIsTame(cfg, w, steps[0]);
      RunIsTame(cfg, Next(cfg, w, steps[0]), steps[1..]);
    }
  }

  lemma {:induction false} ClockGrows(cfg: Config, w: World, steps: seq<Step>)
    requires Runs(cfg, w, steps)
    ensures w.st.now <= After(cfg, w, steps).st.now
    decreases |steps|
  {
    hide WritesOf, Allowed, TornAfter;
    if steps != [] {
      var step := steps[0];
      if !step.Wait? {
        var ws := WritesOf(cfg, w.st, step.op);
        PerformKeepsNow(cfg, w.st, ws[..if step.Cut? then step.writes else |ws|]);
      }
      ClockGrows(cfg, Next(cfg, w, step), steps[1..]);
    }
  }

  predicate SavedIn(cfg: Config, steps: seq<Step>, id: string) {
    exists i {:trigger steps[i]} :: 0 <= i < |steps| && Saves(cfg, steps[i], id)
  }

  lemma SavedInRest(cfg: Config, steps: seq<Step>, id: string)
    requires steps != []
    ensures SavedIn(cfg, steps, id) <==> Saves(cfg, steps[0], id) || SavedIn(cfg, steps[1..], id)
  {
    hide Saves;
    if SavedIn(cfg, steps, id) {
      var i :| 0 <= i < |steps| && Saves(cfg, steps[i], id);
      assert i > 0 ==> steps[1..][i - 1] == steps[i];
    }
    if SavedIn(cfg, steps[1..], id) {
      var i :| 0 <= i < |steps| - 1 && Saves(cfg, steps[1..][i], id);
      assert steps[i + 1] == steps[1..][i];
    }
  }

  lemma {:induction false} LockedRun(cfg: Config, w: World, steps: seq<Step>, id: string, d: Deadline)
    requires Locked(cfg, w, id, d) && Runs(cfg, w, steps)
    ensures var end := After(cfg, w, steps);
            if Alive(d, end.st.now) && !SavedIn(cfg, steps, id) then Locked(cfg, end, id, d)
            else Tame(cfg, end.st, end.issued)
    decreases |steps|
  {
    hide Tame, Possible, Next, Saves, SavedIn;
    if steps == [] {
      assert !SavedIn(cfg, [], id) by { NeverSaved(cfg, id); }
    } else {
      var next := Next(cfg, w, steps[0]);
      LockedStep(cfg, w, steps[0], id, d);
      SavedInRest(cfg, steps, id);
      ClockGrows(cfg, next, steps[1..]);
      if Alive(d, next.st.now) && !Saves(cfg, steps[0], id) {
        LockedRun(cfg, next, steps[1..], id, d);
      } else {
        RunIsTame(cfg, next, steps[1..]);
      }
    }
  }

  lemma NeverSaved(cfg: Config, id: string)
    ensures !SavedIn(cfg, [], id)
  {
  }

  lemma TameLoginSucceeds(cfg: Config, st: State, issued: set<string>, op: Op)
    requires Tame(cfg, st, issued) && op.Login? && !Blank(op.id) && op.minted.Ok?
    ensures LoginPlan(cfg, st, op.id, op.minted, op.newId).result.Ok?
  {
    hide Tame, LocalWrites;
    LoginIsLocal(cfg, st, issued, op);
  }

  /** The code stores a data map that its decoder rejects. From then on, in every run, with crashes or
      without, each login of the account fails, exactly as long as the stored session has not expired and
      no session of the account was saved: with timeout -1 until such a save, whatever time passes. */
  lemma UnreadableDataLocksAccount(cfg: Config, w: World, s: Session, newId: string, steps: seq<Step>, op: Op)
    requires ValidConfig(cfg) && Tame(cfg, w.st, w.issued) && !ReadableData(DataOf(s))
    requires Runs(cfg, w.(st := PerformAll(cfg, w.st, SavePlan(cfg, s, newId).writes)), steps)
    requires op.Login? && op.id == LoginIDOf(cfg, s) && !Blank(op.id) && op.minted.Ok?
    ensures var end := After(cfg, w.(st := PerformAll(cfg, w.st, SavePlan(cfg, s, newId).writes)), steps);
            var locked := Alive(DueDate(cfg, w.st.now), end.st.now) && !SavedIn(cfg, steps, op.id);
            var answer := LoginPlan(cfg, end.st, op.id, op.minted, op.newId).result;
            (answer == Err(BadSession) <==> locked) && (answer.Ok? <==> !locked)
  {
    hide Tame, Runs, After, LoginPlan, SavedIn, ReadableData;
    UnreadableSaveLocks(cfg, w, s, newId);
    var start, d := w.(st := PerformAll(cfg, w.st, SavePlan(cfg, s, newId).writes)), DueDate(cfg, w.st.now);
    LockedRun(cfg, start, steps, op.id, d);
    var end := After(cfg, start, steps);
    if Alive(d, end.st.now) && !SavedIn(cfg, steps, op.id) {
      LockedLogin(cfg, end.st, op.id, op);
    } else {
      TameLoginSucceeds(cfg, end.st, end.issued, op);
    }
  }
}
