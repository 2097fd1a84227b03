/** What holds over every run of the login logic: completed operations, operations cut short by a crash
    anywhere, and the passing of time, in any order. */
module LoginRuns {
  import opened Results
  import opened Text
  import opened MemoryStores
  import opened Sessions
  import opened SessionCodec
  import opened TokenIndex
  import opened LoginSpec
  import opened LoginInvariant
  import opened LoginCrash
  import opened LoginTidy
  import opened LoginTorn

  /** torn are the tokens whose last mapping was the torn cut of a renewal. */
  datatype World = World(st: State, issued: set<string>, torn: set<string>)

  datatype Step = Complete(op: Op) | Cut(op: Op, writes: nat) | Wait(elapsed: nat)

  function Start(now: int): World {
    World(State(now, map[], map[], map[]), {}, {})
  }

  predicate Possible(cfg: Config, w: World, step: Step) {
    match step
    case Complete(op) => Allowed(cfg, w.st, w.issued, op)
    case Cut(op, k) => Allowed(cfg, w.st, w.issued, op) && k <= |WritesOf(cfg, w.st, op)|
    case Wait(_) => true
  }

  /** The world after the first k writes of the operation. */
  function CutAfter(cfg: Config, w: World, op: Op, k: nat): World
    requires k <= |WritesOf(cfg, w.st, op)|
  {
    World(PerformAll(cfg, w.st, WritesOf(cfg, w.st, op)[..k]), Issue(w.issued, op), TornAfter(cfg, w.st, w.torn, op, k))
  }

  function Next(cfg: Config, w: World, step: Step): World
    requires Possible(cfg, w, step)
  {
    match step
    case Complete(op) => CutAfter(cfg, w, op, |WritesOf(cfg, w.st, op)|)
    case Cut(op, k) => CutAfter(cfg, w, op, k)
    case Wait(elapsed) => w.(st := Later(w.st, elapsed))
  }

  lemma CompletePerformsAll(cfg: Config, w: World, op: Op)
    requires Possible(cfg, w, Complete(op))
    ensures Next(cfg, w, Complete(op)).st == PerformAll(cfg, w.st, WritesOf(cfg, w.st, op))
    ensures Next(cfg, w, Complete(op)).issued == Issue(w.issued, op)
  {
    var ws := WritesOf(cfg, w.st, op);
    assert ws[..|ws|] == ws;
  }

  predicate Runs(cfg: Config, w: World, steps: seq<Step>)
    decreases |steps|
  {
    steps != [] ==> Possible(cfg, w, steps[0]) && Runs(cfg, Next(cfg, w, steps[0]), steps[1..])
  }

  function After(cfg: Config, w: World, steps: seq<Step>): World
    requires Runs(cfg, w, steps)
    decreases |steps|
  {
    if steps == [] then w else After(cfg, Next(cfg, w, steps[0]), steps[1..])
  }

  lemma Prepended(cfg: Config, w: World, step: Step, rest: seq<Step>)
    requires Possible(cfg, w, step) && Runs(cfg, Next(cfg, w, step), rest)
    ensures Runs(cfg, w, [step] + rest) && After(cfg, w, [step] + rest) == After(cfg, Next(cfg, w, step), rest)
  {
    hide Possible, Next;
    assert ([step] + rest)[1..] == rest;
  }

  lemma NoSteps(cfg: Config, w: World)
    ensures Runs(cfg, w, []) && After(cfg, w, []) == w
  {
  }

  lemma PutEffects(cfg: Config, st: State, w: Write)
    requires w.PutSession? || w.PutToken? || w.PutStamp?
    ensures var after, due := Perform(cfg, st, w), DueDate(cfg, st.now);
            && after.now == st.now
            && after.sessions == (if w.PutSession? then st.sessions[w.id := Dated(Reload(w.session), due)] else st.sessions)
            && after.tokens == (if w.PutToken? then st.tokens[w.token := Dated(w.loginId, due)] else st.tokens)
            && after.stamps == if w.PutStamp? then st.stamps[w.token := Dated(PrintInt(w.millis), due)] else st.stamps
  {
  }

  lemma NothingPerformed(cfg: Config, st: State)
    ensures PerformAll(cfg, st, []) == st
  {
  }

  /** With nothing in the store a login writes what a fresh sign-in does. */
  lemma FirstLoginWrites(cfg: Config, now: int, op: Op)
    requires op.Login? && !Blank(op.id)
    ensures var st := Start(now).st;
            && WritesOf(cfg, st, op) == FreshPlan(cfg, st, op.id, op.minted, op.newId).writes
            && LoginPlan(cfg, st, op.id, op.minted, op.newId).result == FreshPlan(cfg, st, op.id, op.minted, op.newId).result
  {
    var st := Start(now).st;
    NothingPerformed(cfg, st);
    var writes := FreshPlan(cfg, st, op.id, op.minted, op.newId).writes;
    assert [] + writes == writes;
  }

  /** Tokens stay with their accounts, all but the torn ones agree with their sessions, and none is torn
      unless logins may be concurrent. */
  predicate WellKept(cfg: Config, w: World) {
    && Tame(cfg, w.st, w.issued)
    && Consistent(cfg, Hidden(w.st, w.torn), w.issued)
    && (cfg.isConcurrent || w.torn == {})
  }

  // ---- agreement in every reachable state ----

  lemma LaterAdvances(cfg: Config, st: State, elapsed: nat)
    ensures IndexOf(cfg, Later(st, elapsed)) ==
            Advance(IndexOf(cfg, st), DueDate(cfg, st.now + elapsed), st.now + elapsed)
  {
    hide Sound;
  }

  lemma LaterSound(cfg: Config, st: State, elapsed: nat)
    ensures Sound(cfg, st) ==> Sound(cfg, Later(st, elapsed))
  {
    hide Savable;
    if Sound(cfg, st) {
      StaysSound(cfg, st, Later(st, elapsed), "", "");
    }
  }

  lemma DueDateGrows(cfg: Config, now: int, later: int)
    requires now <= later
    ensures NoLater(DueDate(cfg, now), DueDate(cfg, later))
    ensures DueDate(cfg, later).Forever? ==> DueDate(cfg, now).Forever?
  {
  }

  lemma LaterIsConsistent(cfg: Config, st: State, issued: set<string>, elapsed: nat)
    requires Consistent(cfg, st, issued)
    ensures Consistent(cfg, Later(st, elapsed), issued)
  {
    LaterAdvances(cfg, st, elapsed);
    LaterSound(cfg, st, elapsed);
    DueDateGrows(cfg, st.now, st.now + elapsed);
    AgreesLater(cfg, st, Later(st, elapsed), issued, st.now + elapsed);
  }

  lemma AgreesLater(cfg: Config, st: State, later: State, issued: set<string>, now: int)
    requires Consistent(cfg, st, issued) && Sound(cfg, later)
    requires IndexOf(cfg, later) == Advance(IndexOf(cfg, st), DueDate(cfg, now), now)
    requires NoLater(DueDate(cfg, st.now), DueDate(cfg, now)) && (DueDate(cfg, now).Forever? ==> DueDate(cfg, st.now).Forever?)
    ensures Consistent(cfg, later, issued)
  {
    LaterAgrees(IndexOf(cfg, st), IndexOf(cfg, later), issued, !cfg.isConcurrent, now);
  }

  lemma LaterAgrees(x: Index, y: Index, issued: set<string>, single: bool, now: int)
    requires y == Advance(x, y.due, now) && NoLater(x.due, y.due) && (y.due.Forever? ==> x.due.Forever?)
    requires Agree(x, issued, single)
    ensures Agree(y, issued, single)
  {
    TimeKeepsAgreement(x, issued, single, y.due, now);
  }

  lemma LaterIsTame(cfg: Config, st: State, issued: set<string>, elapsed: nat)
    requires Tame(cfg, st, issued)
    ensures Tame(cfg, Later(st, elapsed), issued)
  {
    hide Sound, Tidy;
    LaterAdvances(cfg, st, elapsed);
    LaterSound(cfg, st, elapsed);
    DueDateGrows(cfg, st.now, st.now + elapsed);
    TimeKeepsTidy(IndexOf(cfg, st), issued, DueDate(cfg, st.now + elapsed), st.now + elapsed);
  }

  lemma CutIsWellKept(cfg: Config, w: World, op: Op, k: nat)
    requires WellKept(cfg, w) && Allowed(cfg, w.st, w.issued, op)
    ensures k <= |WritesOf(cfg, w.st, op)| ==> WellKept(cfg, CutAfter(cfg, w, op, k))
  {
    hide Tame, Consistent;
    if k <= |WritesOf(cfg, w.st, op)| {
      EveryPrefixIsTame(cfg, w.st, w.issued, op, k);
      EveryPrefixAgreesButForTorn(cfg, w.st, w.issued, w.torn, op, k);
    }
  }

  lemma StepIsWellKept(cfg: Config, w: World, step: Step)
    requires WellKept(cfg, w) && Possible(cfg, w, step)
    ensures WellKept(cfg, Next(cfg, w, step))
  {
    hide Tame, Consistent;
    match step
    case Complete(op) => CutIsWellKept(cfg, w, op, |WritesOf(cfg, w.st, op)|);
    case Cut(op, k) => CutIsWellKept(cfg, w, op, k);
    case Wait(elapsed) =>
      LaterIsTame(cfg, w.st, w.issued, elapsed);
      LaterIsConsistent(cfg, Hidden(w.st, w.torn), w.issued, elapsed);
      assert Hidden(Later(w.st, elapsed), w.torn) == Later(Hidden(w.st, w.torn), elapsed);
  }

  lemma {:induction false} RunIsWellKept(cfg: Config, w: World, steps: seq<Step>)
    requires WellKept(cfg, w) && Runs(cfg, w, steps)
    ensures WellKept(cfg, After(cfg, w, steps))
    decreases |steps|
  {
    if steps != [] {
      StepIsWellKept(cfg, w, steps[0]);
      RunIsWellKept(cfg, Next(cfg, w, steps[0]), steps[1..]);
    }
  }

  /** A method call that was cancelled on the way made some first writes of its plan: it is a cut. */
  lemma InterruptedCallIsACut(cfg: Config, w: World, op: Op, made: seq<Write>)
    requires WellKept(cfg, w) && Allowed(cfg, w.st, w.issued, op)
    ensures made <= WritesOf(cfg, w.st, op) ==>
              && Possible(cfg, w, Cut(op, |made|))
              && Next(cfg, w, Cut(op, |made|)).st == PerformAll(cfg, w.st, made)
              && WellKept(cfg, Next(cfg, w, Cut(op, |made|)))
  {
    if made <= WritesOf(cfg, w.st, op) {
      assert WritesOf(cfg, w.st, op)[..|made|] == made;
      StepIsWellKept(cfg, w, Cut(op, |made|));
    }
  }

  /** The agreement, spelled out: a token that maps to an account belongs to a live session that names
      the account, lists the token and does not expire before it. */
  predicate Anchored(cfg: Config, st: State, token: string)
    requires token in st.tokens
  {
    var id := st.tokens[token].value;
    && Load(st, id).Ok?
    && LoginIDOf(cfg, Load(st, id).value) == id
    && Lists(Load(st, id).value.terminals, token)
    && NoLater(st.tokens[token].deadline, st.sessions[id].deadline)
  }

  lemma ConsistentAnchors(cfg: Config, st: State, issued: set<string>, token: string)
    requires Consistent(cfg, st, issued) && token in st.tokens
    ensures Anchored(cfg, st, token)
  {
    LiveToken(cfg, st, issued, token);
    var terminals := Load(st, st.tokens[token].value).value.terminals;
    var i :| 0 <= i < |terminals| && terminals[i].tokenValue == token;
  }

  /** In every reachable state every live token is anchored, except those whose last mapping was torn. */
  lemma EveryTokenIsAnchored(cfg: Config, now: int, steps: seq<Step>, token: string)
    requires Runs(cfg, Start(now), steps)
    requires var end := After(cfg, Start(now), steps); token in end.st.tokens && token !in end.torn
    ensures Anchored(cfg, After(cfg, Start(now), steps).st, token)
  {
    RunIsWellKept(cfg, Start(now), steps);
    var end := After(cfg, Start(now), steps);
    ConsistentAnchors(cfg, Hidden(end.st, end.torn), end.issued, token);
  }

  lemma StepTearsNothing(cfg: Config, w: World, step: Step)
    requires cfg.timeout == NEVER_EXPIRE && WellKept(cfg, w) && w.torn == {} && Possible(cfg, w, step)
    ensures Next(cfg, w, step).torn == {}
  {
    if step.Complete? || step.Cut? {
      if step.op.Login? {
        NeverTorn(cfg, Hidden(w.st, {}), w.issued, step.op.id);
      }
    }
  }

  lemma {:induction false} RunTearsNothing(cfg: Config, w: World, steps: seq<Step>)
    requires cfg.timeout == NEVER_EXPIRE && WellKept(cfg, w) && w.torn == {} && Runs(cfg, w, steps)
    ensures After(cfg, w, steps).torn == {}
    decreases |steps|
  {
    if steps != [] {
      StepIsWellKept(cfg, w, steps[0]);
      StepTearsNothing(cfg, w, steps[0]);
      RunTearsNothing(cfg, Next(cfg, w, steps[0]), steps[1..]);
    }
  }

  /** With timeout -1, or without concurrent logins, no token is ever torn: crashes at any point of any
      run leave the whole state in agreement. */
  lemma CrashesNeverTear(cfg: Config, now: int, steps: seq<Step>)
    requires cfg.timeout == NEVER_EXPIRE || !cfg.isConcurrent
    requires Runs(cfg, Start(now), steps)
    ensures var end := After(cfg, Start(now), steps);
            end.torn == {} && Consistent(cfg, end.st, end.issued)
  {
    RunIsWellKept(cfg, Start(now), steps);
    if cfg.timeout == NEVER_EXPIRE {
      RunTearsNothing(cfg, Start(now), steps);
    }
    var end := After(cfg, Start(now), steps);
    assert Hidden(end.st, {}) == end.st;
  }

  /** What a torn cut leads to: once the old session expires, the renewed token is live with no session
      behind it. */
  lemma TornCutStrandsToken(cfg: Config, st: State, op: Op)
    requires Renews(cfg, st, op) && Torn(cfg, st, op.id) && Alive(st.sessions[op.id].deadline, st.now)
    ensures exists elapsed: nat ::
              var cut := Later(PerformAll(cfg, st, WritesOf(cfg, st, op)[..1]), elapsed);
              CurrentToken(st, op.id).value in cut.tokens && Load(cut, op.id) == Err(NotFound)
  {
    var token := CurrentToken(st, op.id).value;
    TornCutMapsOne(cfg, st, op, {});
    assert [PutToken(token, op.id)][..0] == [];
    var elapsed: nat := st.sessions[op.id].deadline.t + 1 - st.now;
    var cut := Later(PerformAll(cfg, st, [PutToken(token, op.id)]), elapsed);
    assert token in cut.tokens && op.id !in cut.sessions;
  }

  // ---- at most one live token ----

  /** Without concurrent logins an account never has two live tokens. */
  lemma AtMostOneToken(cfg: Config, now: int, steps: seq<Step>, t: string, u: string)
    requires !cfg.isConcurrent && Runs(cfg, Start(now), steps)
    requires var st := After(cfg, Start(now), steps).st;
             t in st.tokens && u in st.tokens && st.tokens[t].value == st.tokens[u].value
    ensures t == u
  {
    CrashesNeverTear(cfg, now, steps);
    var end := After(cfg, Start(now), steps);
    assert !Rivals(IndexOf(cfg, end.st), t, u);
  }

  /** A completed login answers a token that is live for the account, and without concurrent logins it
      is the account's only one, whether or not tokens are shared. */
  lemma LoginIssuesTheLiveToken(cfg: Config, w: World, op: Op)
    requires WellKept(cfg, w) && op.Login? && Allowed(cfg, w.st, w.issued, op)
    ensures var r := LoginPlan(cfg, w.st, op.id, op.minted, op.newId).result;
            var after := Next(cfg, w, Complete(op)).st;
            r.Ok? ==>
              && r.value in after.tokens
              && after.tokens[r.value].value == op.id
              && (!cfg.isConcurrent ==> r == op.minted && Owned(IndexOf(cfg, after), op.id) == {r.value})
  {
    hide Tame;
    var plan := LoginPlan(cfg, w.st, op.id, op.minted, op.newId);
    if plan.result.Ok? {
      CompletePerformsAll(cfg, w, op);
      LoginMaps(cfg, w.st, op);
      MappedOnce(cfg, w.st, plan.writes, plan.result.value, op.id);
      LoginIsLocal(cfg, w.st, w.issued, op);
      if !cfg.isConcurrent {
        StepIsWellKept(cfg, w, Complete(op));
        OnlyOneOwned(cfg, Next(cfg, w, Complete(op)), plan.result.value, op.id);
      }
    }
  }

  lemma OnlyOneOwned(cfg: Config, w: World, token: string, id: string)
    requires WellKept(cfg, w) && !cfg.isConcurrent && token in w.st.tokens && w.st.tokens[token].value == id
    ensures Owned(IndexOf(cfg, w.st), id) == {token}
  {
    assert Hidden(w.st, {}) == w.st;
    var x := IndexOf(cfg, w.st);
    forall u | u in Owned(x, id) ensures u == token {
      assert !Rivals(x, u, token);
    }
  }

  /** The writes map the token to the account and never unmap it afterwards. */
  predicate Maps(ws: seq<Write>, token: string, id: string) {
    exists i :: 0 <= i < |ws| && ws[i] == PutToken(token, id) && forall j :: i < j < |ws| ==> ws[j].PutSession? || ws[j].PutStamp?
  }

  lemma RenewMaps(cfg: Config, st: State, token: string, id: string)
    requires Load(st, id).Ok?
    ensures Maps(RenewPlan(cfg, st, token, id).writes, token, id)
  {
    assert RenewPlan(cfg, st, token, id).writes[0] == PutToken(token, id);
  }

  lemma FreshMaps(cfg: Config, st: State, id: string, token: string, newId: string)
    requires FreshPlan(cfg, st, id, Ok(token), newId).result.Ok?
    ensures Maps(FreshPlan(cfg, st, id, Ok(token), newId).writes, token, id)
  {
    assert FreshPlan(cfg, st, id, Ok(token), newId).writes[1] == PutToken(token, id);
  }

  lemma SignInMaps(cfg: Config, st: State, id: string, minted: Result<string, Error>, newId: string)
    requires SignInPlan(cfg, st, id, minted, newId).result.Ok?
    ensures Maps(SignInPlan(cfg, st, id, minted, newId).writes, SignInPlan(cfg, st, id, minted, newId).result.value, id)
  {
    if cfg.isShare && CurrentToken(st, id).Ok? {
      RenewMaps(cfg, st, CurrentToken(st, id).value, id);
    } else {
      FreshMaps(cfg, st, id, minted.value, newId);
    }
  }

  lemma MapsAfter(before: seq<Write>, ws: seq<Write>, token: string, id: string)
    requires Maps(ws, token, id)
    ensures Maps(before + ws, token, id)
  {
    var i :| 0 <= i < |ws| && ws[i] == PutToken(token, id) && forall j :: i < j < |ws| ==> ws[j].PutSession? || ws[j].PutStamp?;
    var all := before + ws;
    assert all[|before| + i] == ws[i];
    forall j | |before| + i < j < |all| ensures all[j].PutSession? || all[j].PutStamp? {
      assert all[j] == ws[j - |before|];
    }
  }

  lemma LoginMaps(cfg: Config, st: State, op: Op)
    requires op.Login? && LoginPlan(cfg, st, op.id, op.minted, op.newId).result.Ok?
    ensures var plan := LoginPlan(cfg, st, op.id, op.minted, op.newId);
            Maps(plan.writes, plan.result.value, op.id)
  {
    var evict := if cfg.isConcurrent then Plan([], Ok(())) else ReplacedPlan(cfg, st, op.id);
    var mid := PerformAll(cfg, st, evict.writes);
    var rest := SignInPlan(cfg, mid, op.id, op.minted, op.newId);
    SignInMaps(cfg, mid, op.id, op.minted, op.newId);
    MapsAfter(evict.writes, rest.writes, rest.result.value, op.id);
  }

  lemma {:induction false} MappedOnce(cfg: Config, st: State, ws: seq<Write>, token: string, id: string)
    requires Maps(ws, token, id)
    ensures var after := PerformAll(cfg, st, ws);
            token in after.tokens && after.tokens[token].value == id
  {
    var i :| 0 <= i < |ws| && ws[i] == PutToken(token, id) && forall j :: i < j < |ws| ==> ws[j].PutSession? || ws[j].PutStamp?;
    if i < |ws| - 1 {
      var front := ws[..|ws| - 1];
      assert front[i] == PutToken(token, id);
      MappedOnce(cfg, st, front, token, id);
    }
  }
}
