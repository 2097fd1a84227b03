/** The exceptions of the login logic are real: runs that begin with an empty store reach them. */
module LoginWitness {
  import opened Results
  import opened Text
  import opened MemoryStores
  import opened Sessions
  import opened SessionCodec
  import opened CodecRoundTrip
  import opened TokenIndex
  import opened LoginSpec
  import opened LoginInvariant
  import opened LoginCrash
  import opened LoginTorn
  import opened LoginRuns
  import opened LoginFinality
  import opened LoginEffects

  lemma {:induction false} SameFirstToken(a: seq<TerminalInfo>, b: seq<TerminalInfo>)
    requires |a| == |b| && forall i :: 0 <= i < |a| ==> b[i].tokenValue == a[i].tokenValue
    ensures FirstToken(b) == FirstToken(a)
  {
    if a != [] {
      SameFirstToken(a[1..], b[1..]);
    }
  }

  lemma FirstTokenReloaded(s: Session)
    requires ReadableData(DataOf(s))
    ensures Reload(s).Ok? && FirstToken(Reload(s).value.terminals) == FirstToken(s.terminals)
  {
    ReloadComputes(s);
    SameFirstToken(s.terminals, Reloaded(s).terminals);
  }

  predicate SharedWithTimeout(cfg: Config) {
    cfg.isConcurrent && cfg.isShare && 0 < cfg.timeout <= MAX_TIMEOUT
  }

  /** The account's session lists the token first and is due at the given time. */
  predicate ListsFirst(st: State, id: string, token: string, due: int) {
    && id in st.sessions && st.sessions[id].deadline == At(due)
    && CurrentToken(st, id) == Ok(token)
  }

  predicate MapsUntil(st: State, id: string, token: string, due: int) {
    token in st.tokens && st.tokens[token] == Dated(id, At(due))
  }

  function Due(cfg: Config, now: int): int {
    now + cfg.timeout * SECOND
  }

  lemma DueIsDueDate(cfg: Config, now: int)
    requires 0 < cfg.timeout <= MAX_TIMEOUT
    ensures DueDate(cfg, now) == At(Due(cfg, now)) && Due(cfg, now) > now + 1
  {
    NanosInRange(cfg.timeout);
  }

  /** A first login leaves the account with the token, both due at the same time. */
  lemma FirstLogin(cfg: Config, now: int, op: Op)
    requires SharedWithTimeout(cfg) && op.Login? && !Blank(op.id) && op.minted.Ok? && op.minted.value != ""
    ensures Possible(cfg, Start(now), Complete(op))
    ensures var w := Next(cfg, Start(now), Complete(op));
            && WellKept(cfg, w) && w.st.now == now
            && ListsFirst(w.st, op.id, op.minted.value, Due(cfg, now))
            && MapsUntil(w.st, op.id, op.minted.value, Due(cfg, now))
  {
    var st, token := Start(now).st, op.minted.value;
    FirstLoginWrites(cfg, now, op);
    FreshWrites(cfg, st, op.id, token, op.newId);
    CompletePerformsAll(cfg, Start(now), op);
    StartIsWellKept(cfg, now);
    StepIsWellKept(cfg, Start(now), Complete(op));
    var s := SignedIn(cfg, st, NewSession(op.newId), op.id, token);
    PutsLeave(cfg, st, op.id, token, s);
    DueIsDueDate(cfg, now);
    FirstTokenReloaded(s);
    assert s.terminals[0].tokenValue == token;
  }

  lemma StartIsWellKept(cfg: Config, now: int)
    ensures WellKept(cfg, Start(now))
  {
  }

  /** The first login, and a moment later. */
  lemma Beginning(cfg: Config, now: int, op: Op) returns (steps: seq<Step>, w: World)
    requires SharedWithTimeout(cfg) && op.Login? && !Blank(op.id) && op.minted.Ok? && op.minted.value != ""
    ensures Runs(cfg, Start(now), steps) && After(cfg, Start(now), steps) == w
    ensures WellKept(cfg, w) && w.st.now == now + 1
    ensures ListsFirst(w.st, op.id, op.minted.value, Due(cfg, now))
    ensures MapsUntil(w.st, op.id, op.minted.value, Due(cfg, now))
  {
    FirstLogin(cfg, now, op);
    hide Next, Runs, After, WellKept;
    var first := Next(cfg, Start(now), Complete(op));
    w := Next(cfg, first, Wait(1));
    Waiting(cfg, first, 1);
    StepIsWellKept(cfg, first, Wait(1));
    DueIsDueDate(cfg, now);
    NoSteps(cfg, w);
    Prepended(cfg, first, Wait(1), []);
    Prepended(cfg, Start(now), Complete(op), [Wait(1)] + []);
    steps := [Complete(op)] + ([Wait(1)] + []);
  }

  lemma Waiting(cfg: Config, w: World, elapsed: nat)
    ensures Possible(cfg, w, Wait(elapsed)) && Next(cfg, w, Wait(elapsed)).st == Later(w.st, elapsed)
  {
  }

  lemma {:induction false} RunsInTurn(cfg: Config, w: World, a: seq<Step>, b: seq<Step>)
    requires Runs(cfg, w, a) && Runs(cfg, After(cfg, w, a), b)
    ensures Runs(cfg, w, a + b) && After(cfg, w, a + b) == After(cfg, After(cfg, w, a), b)
    decreases |a|
  {
    hide Possible, Next;
    if a == [] {
      assert a + b == b;
    } else {
      RunsInTurn(cfg, Next(cfg, w, a[0]), a[1..], b);
      assert (a + b)[1..] == a[1..] + b;
    }
  }

  /** A run from the empty store that strands a token: log in, crash inside the renewal of a second login,
      and wait for the session to expire. */
  lemma TornRunExists(cfg: Config, now: int, op: Op)
    requires SharedWithTimeout(cfg) && op.Login? && !Blank(op.id) && op.minted.Ok? && op.minted.value != ""
    ensures exists steps :: Runs(cfg, Start(now), steps)
                            && op.minted.value in After(cfg, Start(now), steps).st.tokens
                            && Load(After(cfg, Start(now), steps).st, op.id) == Err(NotFound)
  {
    hide WellKept, PerformAll, Later, WritesOf, Runs, After, TornAfter;
    var again := op.(minted := Err(TokenSource));
    var steps, w := Beginning(cfg, now, op);
    var token := op.minted.value;
    DueIsDueDate(cfg, now);
    DueIsDueDate(cfg, now + 1);
    assert Renews(cfg, w.st, again) && Torn(cfg, w.st, op.id);
    TornCutStrandsToken(cfg, w.st, again);
    TornCutMapsOne(cfg, w.st, again, {});
    var elapsed: nat :|
      var cut := Later(PerformAll(cfg, w.st, WritesOf(cfg, w.st, again)[..1]), elapsed);
      CurrentToken(w.st, op.id).value in cut.tokens && Load(cut, op.id) == Err(NotFound);
    assert Possible(cfg, w, Cut(again, 1));
    CutThenWait(cfg, w, again, 1, elapsed);
    RunsInTurn(cfg, Start(now), steps, [Cut(again, 1), Wait(elapsed)]);
  }

  lemma CutThenWait(cfg: Config, w: World, op: Op, k: nat, elapsed: nat)
    requires Allowed(cfg, w.st, w.issued, op)
    ensures k <= |WritesOf(cfg, w.st, op)| ==>
              var steps := [Cut(op, k), Wait(elapsed)];
              && Runs(cfg, w, steps)
              && After(cfg, w, steps).st == Later(PerformAll(cfg, w.st, WritesOf(cfg, w.st, op)[..k]), elapsed)
  {
    if k > |WritesOf(cfg, w.st, op)| {
      return;
    }
    var cut := Next(cfg, w, Cut(op, k));
    hide Next, Runs, After, WritesOf, PerformAll, TornAfter;
    Waiting(cfg, cut, elapsed);
    NoSteps(cfg, Next(cfg, cut, Wait(elapsed)));
    Prepended(cfg, cut, Wait(elapsed), []);
    Prepended(cfg, w, Cut(op, k), [Wait(elapsed)] + []);
    assert [Cut(op, k)] + ([Wait(elapsed)] + []) == [Cut(op, k), Wait(elapsed)];
  }

  /** Saving the current snapshot renews the session but not the token. */
  lemma SavingRenewsSession(cfg: Config, w: World, id: string, token: string, due: int, newId: string)
    requires SharedWithTimeout(cfg) && WellKept(cfg, w) && ListsFirst(w.st, id, token, due)
    requires MapsUntil(w.st, id, token, due)
    ensures Load(w.st, id).Ok?
    ensures var step := Complete(SaveSession(Load(w.st, id).value, newId));
            && Possible(cfg, w, step)
            && var after := Next(cfg, w, step);
               && WellKept(cfg, after) && after.st.now == w.st.now
               && ListsFirst(after.st, id, token, Due(cfg, w.st.now)) && MapsUntil(after.st, id, token, due)
  {
    SnapshotIsUpToDate(cfg, w, id);
    hide WellKept, UpToDate, TornAfter, Readable, PerformAll, WritesOf;
    var s := Load(w.st, id).value;
    var op := SaveSession(s, newId);
    CompletePerformsAll(cfg, w, op);
    StepIsWellKept(cfg, w, Complete(op));
    SaveEffects(cfg, w.st, s, id, token, newId);
    assert WritesOf(cfg, w.st, op) == SavePlan(cfg, s, newId).writes by { SavingWrites(cfg, w.st, s, newId); }
  }

  lemma SavingWrites(cfg: Config, st: State, s: Session, newId: string)
    ensures WritesOf(cfg, st, SaveSession(s, newId)) == SavePlan(cfg, s, newId).writes
  {
  }

  lemma OnePerformed(cfg: Config, st: State, w: Write)
    ensures PerformAll(cfg, st, [w]) == Perform(cfg, st, w)
  {
    assert [w][..0] == [];
  }

  lemma SaveEffects(cfg: Config, st: State, s: Session, id: string, token: string, newId: string)
    requires 0 < cfg.timeout <= MAX_TIMEOUT && LoginIDOf(cfg, s) == id && ReadableData(DataOf(s))
    requires FirstToken(s.terminals) == Ok(token)
    ensures var after := PerformAll(cfg, st, SavePlan(cfg, s, newId).writes);
            after.now == st.now && after.tokens == st.tokens && ListsFirst(after, id, token, Due(cfg, st.now))
  {
    hide Perform, PerformAll, Reload, ReadableData, FirstToken, DueDate;
    var full := Completed(cfg, s, newId);
    OnePerformed(cfg, st, Save(cfg, full));
    PutEffects(cfg, st, Save(cfg, full));
    FirstTokenReloaded(full);
    DueIsDueDate(cfg, st.now);
  }

  lemma SnapshotIsUpToDate(cfg: Config, w: World, id: string)
    requires WellKept(cfg, w) && CurrentToken(w.st, id).Ok?
    ensures Load(w.st, id).Ok?
    ensures var s := Load(w.st, id).value;
            UpToDate(cfg, w.st, s) && LoginIDOf(cfg, s) == id && ReadableData(DataOf(s))
  {
    hide Consistent, Tidy;
    LoadedIsListed(cfg, w.st, id);
  }

  /** A world in which the token has expired and is still listed first. */
  lemma ExpiredButListed(cfg: Config, now: int, op: Op) returns (steps: seq<Step>, w: World)
    requires SharedWithTimeout(cfg) && op.Login? && !Blank(op.id) && op.minted.Ok? && op.minted.value != ""
    ensures Runs(cfg, Start(now), steps) && After(cfg, Start(now), steps) == w && WellKept(cfg, w)
    ensures CurrentToken(w.st, op.id) == op.minted && op.minted.value !in w.st.tokens
  {
    var begun, w1 := Beginning(cfg, now, op);
    var token, elapsed := op.minted.value, cfg.timeout * SECOND;
    SavingRenewsSession(cfg, w1, op.id, token, Due(cfg, now), op.newId);
    var save := Complete(SaveSession(Load(w1.st, op.id).value, op.newId));
    hide Next, Runs, After, WellKept, Possible;
    var w2 := Next(cfg, w1, save);
    Waiting(cfg, w2, elapsed);
    StepIsWellKept(cfg, w2, Wait(elapsed));
    w := Next(cfg, w2, Wait(elapsed));
    NoSteps(cfg, w);
    Prepended(cfg, w2, Wait(elapsed), []);
    Prepended(cfg, w1, save, [Wait(elapsed)] + []);
    RunsInTurn(cfg, Start(now), begun, [save] + ([Wait(elapsed)] + []));
    steps := begun + ([save] + ([Wait(elapsed)] + []));
  }

  /** A run from the empty store that logs a token out and then makes it live again: log in, save the
      session a moment later, and wait until the token has expired and the session has not. */
  lemma RevivedRunExists(cfg: Config, now: int, op: Op)
    requires SharedWithTimeout(cfg) && op.Login? && !Blank(op.id) && op.minted.Ok? && op.minted.value != ""
    ensures var token, again := op.minted.value, op.(minted := Err(TokenSource));
            exists before :: var steps := before + [Complete(Logout(token)), Complete(again)];
                             && Runs(cfg, Start(now), before) && token !in After(cfg, Start(now), before).st.tokens
                             && Runs(cfg, Start(now), steps) && token in After(cfg, Start(now), steps).st.tokens
  {
    var token, again := op.minted.value, op.(minted := Err(TokenSource));
    var before, w := ExpiredButListed(cfg, now, op);
    ExpiredTokenIsRevived(cfg, w, again, token);
    var out := Next(cfg, w, Complete(Logout(token)));
    CompletePerformsAll(cfg, out, again);
    hide Next, Runs, After, WellKept, WritesOf, PerformAll;
    var end := Next(cfg, out, Complete(again));
    NoSteps(cfg, end);
    Prepended(cfg, out, Complete(again), []);
    Prepended(cfg, w, Complete(Logout(token)), [Complete(again)] + []);
    assert [Complete(Logout(token))] + ([Complete(again)] + []) == [Complete(Logout(token)), Complete(again)];
    RunsInTurn(cfg, Start(now), before, [Complete(Logout(token)), Complete(again)]);
  }
}
