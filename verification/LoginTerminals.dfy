/** The terminals of the login sessions: numbered in the order of signing in, with distinct tokens, however
    often the sessions are saved and read back. */
module LoginTerminals {
  import opened Results
  import opened Sessions
  import opened SessionCodec
  import opened CodecRoundTrip
  import opened LoginSpec
  import opened LoginCrash
  import opened LoginRuns

  predicate Numbered(s: Session, n: int) {
    Ordered(s) && s.historyTerminalCount <= n
  }

  predicate NumberedAt(st: State, id: string, n: int)
    requires id in st.sessions
  {
    st.sessions[id].value.Ok? ==> Numbered(st.sessions[id].value.value, n)
  }

  predicate AllNumbered(st: State, n: int) {
    forall id {:trigger NumberedAt(st, id, n)} | id in st.sessions :: NumberedAt(st, id, n)
  }

  // ---- saving and reading back ----

  lemma {:induction false} ListedWithinCount(terminals: seq<TerminalInfo>)
    requires InOrder(terminals) && forall i :: 0 <= i < |terminals| ==> 1 <= terminals[i].index
    ensures terminals != [] ==> |terminals| <= terminals[|terminals| - 1].index
  {
    if |terminals| > 1 {
      ListedWithinCount(terminals[..|terminals| - 1]);
      assert Precedes(terminals[|terminals| - 2], terminals[|terminals| - 1]);
    }
  }

  /** Up to 2^53 the numbers survive the trip through float64, and the order with them. */
  lemma ReloadStaysNumbered(s: Session, n: int)
    requires Numbered(s, n) && n <= TWO_53
    ensures Reload(s).Ok? ==> Numbered(Reload(s).value, n)
  {
    ReloadComputes(s);
    hide Reload, Float64;
    if ReadableData(DataOf(s)) {
      var r := Reloaded(s);
      ListedWithinCount(s.terminals);
      forall i | 0 <= i < |s.terminals|
        ensures r.terminals[i].index == s.terminals[i].index && r.terminals[i].tokenValue == s.terminals[i].tokenValue
      {
        SmallIntegersAreExact(s.terminals[i].index);
      }
      assert forall i, j :: 0 <= i < j < |s.terminals| ==> Precedes(s.terminals[i], s.terminals[j]);
      assert r.historyTerminalCount == s.historyTerminalCount;
    }
  }

  lemma FirstRoundedInteger()
    ensures Float64(TWO_53 + 1) == TWO_53
  {
    assert Ulp(TWO_53 + 1) == 2 * Ulp((TWO_53 + 1) / 2) == 2;
  }

  lemma ReadBackCollides(ts: seq<TerminalInfo>)
    requires |ts| >= 2 && ts[|ts| - 2].index == TWO_53 && ts[|ts| - 1].index == TWO_53 + 1
    ensures !InOrder(ReadBackAll(ts))
  {
    SmallIntegersAreExact(TWO_53);
    FirstRoundedInteger();
    hide Float64;
    assert !Precedes(ReadBackAll(ts)[|ts| - 2], ReadBackAll(ts)[|ts| - 1]);
  }

  /** Past 2^53 they do not: the next terminal reads back with the number of the one before it. */
  lemma NumbersCollidePast53Bits(s: Session, info: TerminalInfo)
    requires Ordered(s) && ReadableData(DataOf(s)) && !Lists(s.terminals, info.tokenValue)
    requires s.terminals != [] && s.terminals[|s.terminals| - 1].index == TWO_53 == s.historyTerminalCount
    ensures Reload(WithTerminal(s, info)).Ok? && !Ordered(Reload(WithTerminal(s, info)).value)
  {
    var t := WithTerminal(s, info);
    ReloadComputes(t);
    hide Float64, Reload, InOrder, ReadBackAll, WrapValue;
    assert Reload(t) == Ok(Reloaded(t));
    ReadBackCollides(t.terminals);
  }

  // ---- writes ----

  predicate NumberedWrites(ws: seq<Write>, n: int) {
    forall i {:trigger ws[i]} :: 0 <= i < |ws| && ws[i].PutSession? ==> Numbered(ws[i].session, n)
  }

  lemma WriteKeepsNumbers(cfg: Config, st: State, w: Write, n: int)
    requires AllNumbered(st, n) && n <= TWO_53 && (w.PutSession? ==> Numbered(w.session, n))
    ensures AllNumbered(Perform(cfg, st, w), n)
  {
    hide Numbered, Reload;
    var after := Perform(cfg, st, w);
    if w.PutSession? {
      ReloadStaysNumbered(w.session, n);
    }
    forall id | id in after.sessions ensures NumberedAt(after, id, n) {
      assert id in st.sessions ==> NumberedAt(st, id, n);
    }
  }

  lemma {:induction false} WritesKeepNumbers(cfg: Config, st: State, ws: seq<Write>, n: int)
    requires AllNumbered(st, n) && n <= TWO_53 && NumberedWrites(ws, n)
    ensures AllNumbered(PerformAll(cfg, st, ws), n)
  {
    hide AllNumbered, Numbered, Perform;
    if ws != [] {
      WritesKeepNumbers(cfg, st, ws[..|ws| - 1], n);
      WriteKeepsNumbers(cfg, PerformAll(cfg, st, ws[..|ws| - 1]), ws[|ws| - 1], n);
    }
  }

  // ---- operations ----

  /** A saved session keeps the stored count of terminals. */
  predicate Unedited(cfg: Config, st: State, op: Op) {
    op.SaveSession? ==>
      var stored := Load(st, LoginIDOf(cfg, op.session));
      op.session.historyTerminalCount == if stored.Ok? then stored.value.historyTerminalCount else 0
  }

  lemma AddedIsNumbered(s: Session, info: TerminalInfo, n: int)
    requires Numbered(s, n) && info.tokenValue != ""
    ensures Numbered(WithTerminal(s, info), n + 1)
  {
    var ops := [Add(info)];
    assert ops[..0] == [];
    TerminalListInvariant(s, ops);
    assert ApplyAll(s, ops) == WithTerminal(s, info);
  }

  lemma {:induction false} EvictionIsNumbered(terminals: seq<TerminalInfo>, n: int)
    ensures NumberedWrites(EvictTerminals(terminals), n)
  {
    hide Numbered;
    if terminals != [] {
      EvictionIsNumbered(terminals[..|terminals| - 1], n);
    }
  }

  lemma LoadedIsNumbered(st: State, id: string, n: int)
    requires AllNumbered(st, n)
    ensures Load(st, id).Ok? ==> Numbered(Load(st, id).value, n)
  {
    assert id in st.sessions ==> NumberedAt(st, id, n);
  }

  lemma ReplacedIsNumbered(cfg: Config, st: State, id: string, n: int)
    requires AllNumbered(st, n)
    ensures NumberedWrites(ReplacedPlan(cfg, st, id).writes, n)
  {
    LoadedIsNumbered(st, id, n);
    if Load(st, id).Ok? {
      EvictionIsNumbered(Load(st, id).value.terminals, n);
    }
  }

  lemma SignInIsNumbered(cfg: Config, st: State, op: Op, n: int)
    requires AllNumbered(st, n) && 0 <= n && op.Login? && (op.minted.Ok? ==> op.minted.value != "")
    ensures NumberedWrites(SignInPlan(cfg, st, op.id, op.minted, op.newId).writes, n + 1)
  {
    LoadedIsNumbered(st, op.id, n);
    var found := OpenSession(st, op.id, op.newId);
    if op.minted.Ok? && found.Ok? {
      AddedIsNumbered(found.value.(kind := SESSION_TYPE_ACCOUNT, loginType := cfg.loginType, loginId := VStr(op.id)),
                      TerminalInfo(0, op.minted.value, "", "", map[], Millis(st.now)), n);
    }
  }

  lemma OpIsNumbered(cfg: Config, st: State, issued: set<string>, op: Op, n: int)
    requires AllNumbered(st, n) && 0 <= n < TWO_53 && Allowed(cfg, st, issued, op) && Unedited(cfg, st, op)
    ensures NumberedWrites(WritesOf(cfg, st, op), n + 1)
  {
    hide AllNumbered;
    match op
    case Login(id, _, _) => LoginIsNumbered(cfg, st, op, n);
    case Logout(token) => LogoutIsNumbered(cfg, st, token, n);
    case CheckLogin(token) => LogoutIsNumbered(cfg, st, token, n);
    case SaveSession(s, _) => LoadedIsNumbered(st, LoginIDOf(cfg, s), n);
  }

  lemma LoginIsNumbered(cfg: Config, st: State, op: Op, n: int)
    requires AllNumbered(st, n) && 0 <= n < TWO_53 && op.Login? && (op.minted.Ok? ==> op.minted.value != "")
    ensures NumberedWrites(WritesOf(cfg, st, op), n + 1)
  {
    hide AllNumbered, Ordered, SignInPlan, ReplacedPlan;
    var evict := if cfg.isConcurrent then [] else ReplacedPlan(cfg, st, op.id).writes;
    ReplacedIsNumbered(cfg, st, op.id, n);
    WritesKeepNumbers(cfg, st, evict, n);
    SignInIsNumbered(cfg, PerformAll(cfg, st, evict), op, n);
  }

  lemma LogoutIsNumbered(cfg: Config, st: State, token: string, n: int)
    requires AllNumbered(st, n)
    ensures NumberedWrites(LogoutPlan(cfg, st, token).writes, n)
  {
    var owner := TokenOwner(st, token);
    if owner.Ok? {
      LoadedIsNumbered(st, owner.value, n);
      if Load(st, owner.value).Ok? {
        WithoutOrdered(Load(st, owner.value).value, token);
      }
    }
  }

  // ---- runs ----

  predicate UneditedRun(cfg: Config, w: World, steps: seq<Step>)
    requires Runs(cfg, w, steps)
    decreases |steps|
  {
    steps != [] ==>
      && (steps[0].Wait? || Unedited(cfg, w.st, steps[0].op))
      && UneditedRun(cfg, Next(cfg, w, steps[0]), steps[1..])
  }

  lemma CutStaysNumbered(cfg: Config, w: World, op: Op, k: nat, n: int)
    requires AllNumbered(w.st, n) && 0 <= n < TWO_53 && Allowed(cfg, w.st, w.issued, op) && Unedited(cfg, w.st, op)
    requires k <= |WritesOf(cfg, w.st, op)|
    ensures AllNumbered(CutAfter(cfg, w, op, k).st, n + 1)
  {
    OpIsNumbered(cfg, w.st, w.issued, op, n);
    forall id | id in w.st.sessions ensures NumberedAt(w.st, id, n + 1) {
      assert NumberedAt(w.st, id, n);
    }
    hide WritesOf, Allowed, Numbered;
    WritesKeepNumbers(cfg, w.st, WritesOf(cfg, w.st, op)[..k], n + 1);
  }

  lemma StepStaysNumbered(cfg: Config, w: World, step: Step, n: int)
    requires AllNumbered(w.st, n) && 0 <= n < TWO_53
    requires Possible(cfg, w, step) && (step.Wait? || Unedited(cfg, w.st, step.op))
    ensures AllNumbered(Next(cfg, w, step).st, n + 1)
  {
    hide Allowed, Unedited, Numbered, CutAfter;
    match step
    case Complete(op) => CutStaysNumbered(cfg, w, op, |WritesOf(cfg, w.st, op)|, n);
    case Cut(op, k) => CutStaysNumbered(cfg, w, op, k, n);
    case Wait(elapsed) => LaterStaysNumbered(w.st, elapsed, n);
  }

  lemma LaterStaysNumbered(st: State, elapsed: nat, n: int)
    requires AllNumbered(st, n)
    ensures AllNumbered(Later(st, elapsed), n + 1)
  {
    forall id | id in Later(st, elapsed).sessions ensures NumberedAt(Later(st, elapsed), id, n + 1) {
      assert NumberedAt(st, id, n);
    }
  }

  lemma {:induction false} RunStaysNumbered(cfg: Config, w: World, steps: seq<Step>, n: int)
    requires AllNumbered(w.st, n) && 0 <= n && n + |steps| <= TWO_53 && Runs(cfg, w, steps) && UneditedRun(cfg, w, steps)
    ensures AllNumbered(After(cfg, w, steps).st, n + |steps|)
    decreases |steps|
  {
    hide AllNumbered, Possible, Next, Unedited;
    if steps != [] {
      StepStaysNumbered(cfg, w, steps[0], n);
      RunStaysNumbered(cfg, Next(cfg, w, steps[0]), steps[1..], n + 1);
    }
  }

  /** In every run of at most 2^53 steps, crashes included, the terminals of every account have distinct
      non-empty tokens and increasing numbers up to the session's count, though each save goes through JSON. */
  lemma TerminalsStayOrdered(cfg: Config, now: int, steps: seq<Step>, id: string)
    requires Runs(cfg, Start(now), steps) && UneditedRun(cfg, Start(now), steps) && |steps| <= TWO_53
    ensures var stored := Load(After(cfg, Start(now), steps).st, id);
            stored.Ok? ==> Ordered(stored.value) && stored.value.historyTerminalCount <= |steps|
  {
    hide Ordered;
    RunStaysNumbered(cfg, Start(now), steps, 0);
    LoadedIsNumbered(After(cfg, Start(now), steps).st, id, |steps|);
  }
}
