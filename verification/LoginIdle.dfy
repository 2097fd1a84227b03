/** The idle timeout: a login check succeeds exactly when the token was used recently enough, unless a crash
    left the token without a lasting stamp. */
module LoginIdle {
  import opened Results
  import opened Text
  import opened MemoryStores
  import opened Sessions
  import opened TokenIndex
  import opened LoginSpec
  import opened LoginInvariant
  import opened LoginCrash
  import opened LoginTidy
  import opened LoginTorn
  import opened LoginRuns
  import opened LoginFinality
  import opened LoginEffects

  /** When each token was last returned by a login or accepted by a check, in milliseconds. */
  function Used(cfg: Config, st: State, op: Op, used: map<string, int>): map<string, int> {
    match op
    case Login(id, minted, newId) =>
      var r := LoginPlan(cfg, st, id, minted, newId).result;
      if r.Ok? then used[r.value := Millis(st.now)] else used
    case CheckLogin(token) =>
      if CheckPlan(cfg, st, token).result.Ok? then used[token := Millis(st.now)] else used
    case _ => used
  }

  /** The token's stamp stays as long as a mapping made now. */
  predicate StampLasts(cfg: Config, st: State, token: string) {
    token in st.stamps && NoLater(DueDate(cfg, st.now), st.stamps[token].deadline)
  }

  /** The operation is cut between mapping a token and stamping it: a new token, or a renewed one whose
      old stamp is missing or due earlier. */
  predicate Unstamps(cfg: Config, st: State, op: Op, k: nat) {
    && op.Login? && !Blank(op.id)
    && if Renews(cfg, st, op) then (k == 1 || k == 2) && !StampLasts(cfg, st, CurrentToken(st, op.id).value)
       else op.minted.Ok? && k == |WritesOf(cfg, st, op)| - 1
  }

  /** The tokens the writes stamp. */
  function Stamping(ws: seq<Write>): set<string> {
    if ws == [] then {}
    else Stamping(ws[..|ws| - 1]) + if ws[|ws| - 1].PutStamp? then {ws[|ws| - 1].token} else {}
  }

  /** bare are the tokens whose last mapping was cut before their stamp. */
  datatype Observed = Observed(w: World, used: map<string, int>, bare: set<string>)

  function BareAfter(cfg: Config, st: State, bare: set<string>, op: Op, k: nat): set<string>
    requires k <= |WritesOf(cfg, st, op)|
  {
    var ws := WritesOf(cfg, st, op)[..k];
    if Unstamps(cfg, st, op, k) then bare + {SignedInToken(cfg, st, op).value} else bare - Mapped(ws) - Stamping(ws)
  }

  function ObserveCut(cfg: Config, o: Observed, op: Op, k: nat): Observed
    requires k <= |WritesOf(cfg, o.w.st, op)|
  {
    Observed(CutAfter(cfg, o.w, op, k),
             if k == |WritesOf(cfg, o.w.st, op)| then Used(cfg, o.w.st, op, o.used) else o.used,
             BareAfter(cfg, o.w.st, o.bare, op, k))
  }

  function Observe(cfg: Config, o: Observed, step: Step): Observed
    requires Possible(cfg, o.w, step)
  {
    match step
    case Complete(op) => ObserveCut(cfg, o, op, |WritesOf(cfg, o.w.st, op)|)
    case Cut(op, k) => ObserveCut(cfg, o, op, k)
    case Wait(_) => o.(w := Next(cfg, o.w, step))
  }

  /** Any run, by a clock whose milliseconds fit an int64. */
  predicate ObservedRun(cfg: Config, o: Observed, steps: seq<Step>)
    decreases |steps|
  {
    steps != [] ==>
      && Possible(cfg, o.w, steps[0]) && InInt64(Millis(o.w.st.now))
      && ObservedRun(cfg, Observe(cfg, o, steps[0]), steps[1..])
  }

  function ObserveAll(cfg: Config, o: Observed, steps: seq<Step>): Observed
    requires ObservedRun(cfg, o, steps)
    decreases |steps|
  {
    if steps == [] then o else ObserveAll(cfg, Observe(cfg, o, steps[0]), steps[1..])
  }

  // ---- stamps record uses ----

  /** The token has a stamp that lives as long as it. */
  predicate Covered(st: State, t: string)
    requires t in st.tokens
  {
    t in st.stamps && NoLater(st.tokens[t].deadline, st.stamps[t].deadline)
  }

  predicate AllCovered(st: State, bare: set<string>) {
    forall t {:trigger Covered(st, t)} | t in st.tokens && t !in bare :: Covered(st, t)
  }

  /** Every stamp is the printed time of the last use. */
  predicate StampsAreUses(st: State, used: map<string, int>) {
    forall t | t in st.stamps :: t in used && InInt64(used[t]) && st.stamps[t].value == PrintInt(used[t])
  }

  predicate WellStamped(st: State, issued: set<string>, used: map<string, int>, bare: set<string>) {
    StampsAreUses(st, used) && used.Keys <= issued && AllCovered(st, bare)
  }

  // ---- writes that only take away ----

  /** No write maps or stamps, and a stamp is deleted right after its token. */
  predicate Paired(ws: seq<Write>) {
    ws != [] ==>
      var front, last := ws[..|ws| - 1], ws[|ws| - 1];
      && Paired(front)
      && !last.PutToken? && !last.PutStamp?
      && (last.DelStamp? ==> front != [] && front[|front| - 1] == DelToken(last.token))
  }

  lemma {:induction false} PairedPrefix(ws: seq<Write>, k: nat)
    requires Paired(ws) && k <= |ws|
    ensures Paired(ws[..k])
  {
    if k < |ws| {
      PairedPrefix(ws[..|ws| - 1], k);
      assert ws[..|ws| - 1][..k] == ws[..k];
    } else {
      assert ws[..k] == ws;
    }
  }

  lemma PairedAnd(ws: seq<Write>, w: Write)
    requires Paired(ws) && !w.PutToken? && !w.PutStamp?
    requires w.DelStamp? ==> ws != [] && ws[|ws| - 1] == DelToken(w.token)
    ensures Paired(ws + [w])
  {
    assert (ws + [w])[..|ws|] == ws;
  }

  /** b is a after some tokens and their stamps were dropped together. */
  predicate Shrunk(a: State, b: State) {
    && b.now == a.now
    && (forall t | t in b.tokens :: t in a.tokens && b.tokens[t] == a.tokens[t])
    && (forall t | t in b.stamps :: t in a.stamps && b.stamps[t] == a.stamps[t])
    && (forall t | t in b.tokens && t in a.stamps :: t in b.stamps)
  }

  lemma {:induction false} PairedShrinks(cfg: Config, st: State, ws: seq<Write>)
    requires Paired(ws)
    ensures Shrunk(st, PerformAll(cfg, st, ws))
  {
    if ws != [] {
      var front, last := ws[..|ws| - 1], ws[|ws| - 1];
      PairedShrinks(cfg, st, front);
      if last.DelStamp? {
        assert last.token !in PerformAll(cfg, st, front).tokens;
      }
    }
  }

  lemma ShrunkKeepsStamps(a: State, b: State, issued: set<string>, used: map<string, int>, bare: set<string>)
    requires Shrunk(a, b) && WellStamped(a, issued, used, bare)
    ensures WellStamped(b, issued, used, bare)
  {
    forall t | t in b.tokens && t !in bare ensures Covered(b, t) {
      assert Covered(a, t);
    }
  }

  lemma {:induction false} PairedAdds(ws: seq<Write>)
    requires Paired(ws)
    ensures Mapped(ws) == {} == Stamping(ws)
  {
    if ws != [] {
      PairedAdds(ws[..|ws| - 1]);
    }
  }

  lemma {:induction false} EvictionIsPaired(terminals: seq<TerminalInfo>)
    ensures Paired(EvictTerminals(terminals))
  {
    if terminals != [] {
      var before, t := EvictTerminals(terminals[..|terminals| - 1]), terminals[|terminals| - 1].tokenValue;
      EvictionIsPaired(terminals[..|terminals| - 1]);
      if t == "" {
        assert EvictTerminals(terminals) == before;
      } else {
        PairedAnd(before, DelToken(t));
        PairedAnd(before + [DelToken(t)], DelStamp(t));
        assert EvictTerminals(terminals) == before + [DelToken(t)] + [DelStamp(t)];
      }
    }
  }

  lemma ReplacedIsPaired(cfg: Config, st: State, id: string)
    ensures Paired(ReplacedPlan(cfg, st, id).writes)
  {
    if Load(st, id).Ok? {
      var s := Load(st, id).value;
      EvictionIsPaired(s.terminals);
      PairedAnd(EvictTerminals(s.terminals), Save(cfg, s.(terminals := [])));
    }
  }

  lemma LogoutIsPaired(cfg: Config, st: State, token: string)
    ensures Paired(LogoutPlan(cfg, st, token).writes)
  {
    assert Paired([]);
    hide Paired;
    PairedAnd([], DelToken(token));
    PairedAnd([DelToken(token)], DelStamp(token));
    PairedAnd([DelToken(token), DelStamp(token)], DelTokenSession(token));
    var ws := LogoutPlan(cfg, st, token).writes;
    assert [] + [DelToken(token)] == [DelToken(token)];
    assert [DelToken(token)] + [DelStamp(token)] == [DelToken(token), DelStamp(token)];
    assert [DelToken(token), DelStamp(token)] + [DelTokenSession(token)] == LogoutDeletes(token);
    if ws != LogoutDeletes(token) {
      assert ws == LogoutDeletes(token) + [ws[3]];
      PairedAnd(LogoutDeletes(token), ws[3]);
    }
  }

  // ---- signing in ----

  /** What a sign-in writes: the mapping and the session in either order, then the stamp. */
  predicate SignsIn(cfg: Config, st: State, ws: seq<Write>, token: string, id: string, renewed: bool) {
    && |ws| == 3
    && ws[2] == PutStamp(token, Millis(st.now))
    && (if renewed then ws[0] == PutToken(token, id) && ws[1].PutSession? else ws[0].PutSession? && ws[1] == PutToken(token, id))
  }

  /** The writes of a login that signs in, after its eviction. */
  lemma LoginShape(cfg: Config, st: State, issued: set<string>, op: Op) returns (evict: seq<Write>)
    requires Tame(cfg, st, issued) && cfg.activeTimeout > 0 && op.Login?
    ensures Paired(evict) && evict <= WritesOf(cfg, st, op)
    ensures Renews(cfg, st, op) ==> evict == []
    ensures var rest := WritesOf(cfg, st, op)[|evict|..];
            && (rest == [] <==> LoginPlan(cfg, st, op.id, op.minted, op.newId).result.Err?)
            && (rest != [] ==>
                  && !Blank(op.id)
                  && SignedInToken(cfg, st, op).Ok?
                  && LoginPlan(cfg, st, op.id, op.minted, op.newId).result == SignedInToken(cfg, st, op)
                  && SignsIn(cfg, st, rest, SignedInToken(cfg, st, op).value, op.id, Renews(cfg, st, op)))
  {
    hide Tidy, Sound, Near, Savable;
    evict := [];
    if Blank(op.id) {
      assert WritesOf(cfg, st, op) == [];
    } else {
      LoginIsLocal(cfg, st, issued, op);
      if cfg.isConcurrent {
        SignInShape(cfg, st, op);
        assert WritesOf(cfg, st, op) == [] + SignInPlan(cfg, st, op.id, op.minted, op.newId).writes;
      } else {
        ReplacedIsPaired(cfg, st, op.id);
        ReplacedIsLocal(cfg, st, op.id);
        ReplacedEmpties(cfg, st, issued, op.id);
        evict := ReplacedPlan(cfg, st, op.id).writes;
        var mid := PerformAll(cfg, st, evict);
        SignInShape(cfg, mid, op);
        PerformKeepsNow(cfg, st, evict);
        var rest := SignInPlan(cfg, mid, op.id, op.minted, op.newId).writes;
        assert WritesOf(cfg, st, op) == evict + rest && (evict + rest)[|evict|..] == rest;
      }
    }
  }

  lemma SignInShape(cfg: Config, st: State, op: Op)
    requires Sound(cfg, st) && cfg.activeTimeout > 0 && op.Login? && !Blank(op.id)
    ensures var plan := SignInPlan(cfg, st, op.id, op.minted, op.newId);
            var renewed := cfg.isShare && CurrentToken(st, op.id).Ok?;
            if renewed then SignsIn(cfg, st, plan.writes, CurrentToken(st, op.id).value, op.id, true)
            else if op.minted.Ok? then SignsIn(cfg, st, plan.writes, op.minted.value, op.id, false)
            else plan.writes == []
  {
    hide Savable;
    LoadedIsListed(cfg, st, op.id);
    FirstTokenFails(st, op.id);
    if op.minted.Ok? {
      FreshWrites(cfg, st, op.id, op.minted.value, op.newId);
    }
  }

  /** The first j writes of a sign-in, in terms of tokens and stamps. */
  lemma {:induction false} SignInPrefix(cfg: Config, st: State, ws: seq<Write>, token: string, id: string, renewed: bool, j: nat)
    requires SignsIn(cfg, st, ws, token, id, renewed) && j <= 3
    ensures var after := PerformAll(cfg, st, ws[..j]);
            var mapped := if renewed then j >= 1 else j >= 2;
            && after.now == st.now
            && after.tokens == (if mapped then st.tokens[token := Dated(id, DueDate(cfg, st.now))] else st.tokens)
            && after.stamps ==
               if j == 3 then st.stamps[token := Dated(PrintInt(Millis(st.now)), DueDate(cfg, st.now))] else st.stamps
  {
    hide PrintInt, DueDate, Millis, Perform;
    if j > 0 {
      PutEffects(cfg, PerformAll(cfg, st, ws[..j - 1]), ws[j - 1]);
      SignInPrefix(cfg, st, ws, token, id, renewed, j - 1);
      assert ws[..j][..j - 1] == ws[..j - 1] && ws[..j][j - 1] == ws[j - 1];
    }
  }

  lemma {:induction false} SignInMarks(cfg: Config, st: State, ws: seq<Write>, token: string, id: string, renewed: bool, j: nat)
    requires SignsIn(cfg, st, ws, token, id, renewed) && j <= 3
    ensures Mapped(ws[..j]) == if (if renewed then j >= 1 else j >= 2) then {token} else {}
    ensures Stamping(ws[..j]) == if j == 3 then {token} else {}
  {
    if j > 0 {
      SignInMarks(cfg, st, ws, token, id, renewed, j - 1);
      assert ws[..j][..j - 1] == ws[..j - 1] && ws[..j][j - 1] == ws[j - 1];
    }
  }

  /** The first j writes of a sign-in leave all tokens covered but those in left, if left holds the token
      when it is mapped, not stamped and not under a stamp that lasts. */
  lemma SignInStamps(cfg: Config, st: State, issued: set<string>, used: map<string, int>, bare: set<string>,
                     ws: seq<Write>, token: string, id: string, renewed: bool, j: nat, left: set<string>)
    requires WellStamped(st, issued, used, bare) && InInt64(Millis(st.now)) && token in issued
    requires SignsIn(cfg, st, ws, token, id, renewed) && 1 <= j <= 3
    requires bare - {token} <= left
    requires token !in left ==> if renewed || j >= 2 then j == 3 || StampLasts(cfg, st, token) else token !in bare
    ensures WellStamped(PerformAll(cfg, st, ws[..j]), issued, if j == 3 then used[token := Millis(st.now)] else used, left)
  {
    SignInPrefix(cfg, st, ws, token, id, renewed, j);
    var after := PerformAll(cfg, st, ws[..j]);
    forall t | t in after.tokens && t !in left ensures Covered(after, t) {
      assert t in st.tokens && t !in bare ==> Covered(st, t);
    }
  }

  // ---- one cut ----

  /** A cut operation leaves the stamps of all tokens that are not bare in order. */
  lemma CutIsWellStamped(cfg: Config, o: Observed, op: Op, k: nat)
    requires cfg.activeTimeout > 0 && Tame(cfg, o.w.st, o.w.issued) && InInt64(Millis(o.w.st.now))
    requires Allowed(cfg, o.w.st, o.w.issued, op) && k <= |WritesOf(cfg, o.w.st, op)|
    requires WellStamped(o.w.st, o.w.issued, o.used, o.bare)
    ensures var after := ObserveCut(cfg, o, op, k);
            WellStamped(after.w.st, after.w.issued, after.used, after.bare)
  {
    hide Tame, Allowed;
    match op
    case Login(_, _, _) => LoginCutIsWellStamped(cfg, o, op, k);
    case CheckLogin(token) => CheckCutIsWellStamped(cfg, o, token, k);
    case Logout(token) =>
      LogoutIsPaired(cfg, o.w.st, token);
      PairedPrefix(WritesOf(cfg, o.w.st, op), k);
      PairedCut(cfg, o, op, k);
    case SaveSession(_, _) =>
      PairedPrefix(WritesOf(cfg, o.w.st, op), k);
      PairedCut(cfg, o, op, k);
  }

  lemma PairedCut(cfg: Config, o: Observed, op: Op, k: nat)
    requires k <= |WritesOf(cfg, o.w.st, op)| && Paired(WritesOf(cfg, o.w.st, op)[..k])
    requires WellStamped(o.w.st, o.w.issued, o.used, o.bare)
    ensures WellStamped(PerformAll(cfg, o.w.st, WritesOf(cfg, o.w.st, op)[..k]), Issue(o.w.issued, op), o.used, o.bare)
    ensures Mapped(WritesOf(cfg, o.w.st, op)[..k]) == {} == Stamping(WritesOf(cfg, o.w.st, op)[..k])
  {
    var ws := WritesOf(cfg, o.w.st, op)[..k];
    PairedAdds(ws);
    PairedShrinks(cfg, o.w.st, ws);
    ShrunkKeepsStamps(o.w.st, PerformAll(cfg, o.w.st, ws), Issue(o.w.issued, op), o.used, o.bare);
  }

  lemma CheckShape(cfg: Config, st: State, token: string)
    requires cfg.activeTimeout > 0
    ensures var plan := CheckPlan(cfg, st, token);
            if plan.result.Ok? then plan.writes == [PutStamp(token, Millis(st.now))] && token in st.tokens
            else Paired(plan.writes)
  {
    LogoutIsPaired(cfg, st, token);
  }

  lemma OneStamp(w: Write)
    requires w.PutStamp?
    ensures Mapped([w]) == {} && Stamping([w]) == {w.token}
  {
    assert [w][..0] == [];
  }

  lemma CheckCutIsWellStamped(cfg: Config, o: Observed, token: string, k: nat)
    requires cfg.activeTimeout > 0 && Tame(cfg, o.w.st, o.w.issued) && InInt64(Millis(o.w.st.now))
    requires k <= |WritesOf(cfg, o.w.st, CheckLogin(token))|
    requires WellStamped(o.w.st, o.w.issued, o.used, o.bare)
    ensures var after := ObserveCut(cfg, o, CheckLogin(token), k);
            WellStamped(after.w.st, after.w.issued, after.used, after.bare)
  {
    hide Tidy, Sound;
    var st, op := o.w.st, CheckLogin(token);
    var ws := WritesOf(cfg, st, op);
    CheckShape(cfg, st, token);
    if CheckPlan(cfg, st, token).result.Ok? && k == 1 {
      assert ws[..1] == ws && ws[..0] == [];
      TameTokens(cfg, st, o.w.issued);
      RestampIsWellStamped(cfg, o, token);
      assert PerformAll(cfg, st, ws) == Perform(cfg, st, ws[0]);
      OneStamp(ws[0]);
    } else if CheckPlan(cfg, st, token).result.Ok? {
      assert ws[..k] == [];
      PairedCut(cfg, o, op, k);
    } else {
      PairedPrefix(ws, k);
      PairedCut(cfg, o, op, k);
    }
  }

  lemma RestampIsWellStamped(cfg: Config, o: Observed, token: string)
    requires Tame(cfg, o.w.st, o.w.issued) && InInt64(Millis(o.w.st.now)) && token in o.w.st.tokens
    requires WellStamped(o.w.st, o.w.issued, o.used, o.bare)
    ensures WellStamped(Perform(cfg, o.w.st, PutStamp(token, Millis(o.w.st.now))), o.w.issued,
                        o.used[token := Millis(o.w.st.now)], o.bare - {token})
  {
    var st := o.w.st;
    var after := Perform(cfg, st, PutStamp(token, Millis(st.now)));
    assert AtHome(IndexOf(cfg, st), token);
    forall t | t in after.tokens && t !in o.bare - {token} ensures Covered(after, t) {
      assert t != token ==> Covered(st, t);
    }
  }

  /** The state and what is observed after a cut of a login that got past its eviction. */
  lemma LoginCutIsWellStamped(cfg: Config, o: Observed, op: Op, k: nat)
    requires cfg.activeTimeout > 0 && Tame(cfg, o.w.st, o.w.issued) && InInt64(Millis(o.w.st.now))
    requires op.Login? && Allowed(cfg, o.w.st, o.w.issued, op) && k <= |WritesOf(cfg, o.w.st, op)|
    requires WellStamped(o.w.st, o.w.issued, o.used, o.bare)
    ensures var after := ObserveCut(cfg, o, op, k);
            WellStamped(after.w.st, after.w.issued, after.used, after.bare)
  {
    hide Tidy, Sound, LoginPlan, Allowed;
    var ws := WritesOf(cfg, o.w.st, op);
    var evict := LoginShape(cfg, o.w.st, o.w.issued, op);
    var rest := ws[|evict|..];
    if k <= |evict| {
      assert ws[..k] == evict[..k];
      PairedPrefix(evict, k);
      PairedCut(cfg, o, op, k);
    } else {
      assert ws == evict + rest;
      SignInCut(cfg, o, op, evict, rest, k - |evict|);
    }
  }

  lemma SignInCut(cfg: Config, o: Observed, op: Op, evict: seq<Write>, rest: seq<Write>, j: nat)
    requires cfg.activeTimeout > 0 && Tame(cfg, o.w.st, o.w.issued) && InInt64(Millis(o.w.st.now))
    requires op.Login? && Allowed(cfg, o.w.st, o.w.issued, op) && 1 <= j <= 3
    requires WellStamped(o.w.st, o.w.issued, o.used, o.bare)
    requires WritesOf(cfg, o.w.st, op) == evict + rest && Paired(evict) && (Renews(cfg, o.w.st, op) ==> evict == [])
    requires !Blank(op.id) && SignedInToken(cfg, o.w.st, op).Ok?
    requires LoginPlan(cfg, o.w.st, op.id, op.minted, op.newId).result == SignedInToken(cfg, o.w.st, op)
    requires SignsIn(cfg, o.w.st, rest, SignedInToken(cfg, o.w.st, op).value, op.id, Renews(cfg, o.w.st, op))
    ensures var after := ObserveCut(cfg, o, op, |evict| + j);
            WellStamped(after.w.st, after.w.issued, after.used, after.bare)
  {
    hide Tame, LoginPlan, Renews, SignsIn, WellStamped, Paired, BareAfter, StampLasts, WritesOf, PerformAll, Allowed, Unstamps,
         Shrunk, ObserveCut, TornAfter, SignedInToken;
    var st, token, renewed := o.w.st, SignedInToken(cfg, o.w.st, op).value, Renews(cfg, o.w.st, op);
    var mid := PerformAll(cfg, st, evict);
    AfterEviction(cfg, o, op, evict);
    SignsInLater(cfg, st, mid, rest, token, op.id, renewed);
    var left := BareAfter(cfg, st, o.bare, op, |evict| + j);
    SignedInIsIssued(cfg, st, o.w.issued, op);
    BareAfterSignIn(cfg, o, op, evict, rest, j);
    SignInStamps(cfg, mid, Issue(o.w.issued, op), o.used, o.bare, rest, token, op.id, renewed, j, left);
    ObservedSignIn(cfg, o, op, evict, rest, j);
  }

  lemma AfterEviction(cfg: Config, o: Observed, op: Op, evict: seq<Write>)
    requires Paired(evict) && WellStamped(o.w.st, o.w.issued, o.used, o.bare)
    ensures var mid := PerformAll(cfg, o.w.st, evict);
            mid.now == o.w.st.now && WellStamped(mid, Issue(o.w.issued, op), o.used, o.bare)
  {
    PairedShrinks(cfg, o.w.st, evict);
    ShrunkKeepsStamps(o.w.st, PerformAll(cfg, o.w.st, evict), Issue(o.w.issued, op), o.used, o.bare);
  }

  lemma ObservedSignIn(cfg: Config, o: Observed, op: Op, evict: seq<Write>, rest: seq<Write>, j: nat)
    requires op.Login? && j <= |rest| && WritesOf(cfg, o.w.st, op) == evict + rest && SignedInToken(cfg, o.w.st, op).Ok?
    requires LoginPlan(cfg, o.w.st, op.id, op.minted, op.newId).result == SignedInToken(cfg, o.w.st, op)
    ensures var after, token := ObserveCut(cfg, o, op, |evict| + j), SignedInToken(cfg, o.w.st, op).value;
            && after.w.st == PerformAll(cfg, PerformAll(cfg, o.w.st, evict), rest[..j])
            && after.w.issued == Issue(o.w.issued, op)
            && after.bare == BareAfter(cfg, o.w.st, o.bare, op, |evict| + j)
            && after.used == if j == |rest| then o.used[token := Millis(o.w.st.now)] else o.used
  {
    hide LoginPlan, WritesOf, BareAfter, TornAfter, PerformAll;
    assert (evict + rest)[..|evict| + j] == evict + rest[..j];
    PerformAppend(cfg, o.w.st, evict, rest[..j]);
  }

  lemma BareAfterSignIn(cfg: Config, o: Observed, op: Op, evict: seq<Write>, rest: seq<Write>, j: nat)
    requires op.Login? && Allowed(cfg, o.w.st, o.w.issued, op) && 1 <= j <= 3 && !Blank(op.id)
    requires WellStamped(o.w.st, o.w.issued, o.used, o.bare) && Paired(evict)
    requires WritesOf(cfg, o.w.st, op) == evict + rest && (Renews(cfg, o.w.st, op) ==> evict == [])
    requires SignedInToken(cfg, o.w.st, op).Ok?
    requires SignsIn(cfg, o.w.st, rest, SignedInToken(cfg, o.w.st, op).value, op.id, Renews(cfg, o.w.st, op))
    ensures var left, token := BareAfter(cfg, o.w.st, o.bare, op, |evict| + j), SignedInToken(cfg, o.w.st, op).value;
            var mapped := Renews(cfg, o.w.st, op) || j >= 2;
            && o.bare - {token} <= left
            && (token in left <==>
                if mapped then j < 3 && !StampLasts(cfg, PerformAll(cfg, o.w.st, evict), token) else token in o.bare)
            && (mapped && token in left <==> Unstamps(cfg, o.w.st, op, |evict| + j))
  {
    hide LoginPlan, Renews, AllCovered, StampsAreUses, Paired, WritesOf, PerformAll, Allowed, SignedInToken, Unstamps, StampLasts, Mapped, Stamping;
    var st, token, renewed := o.w.st, SignedInToken(cfg, o.w.st, op).value, Renews(cfg, o.w.st, op);
    var mid := PerformAll(cfg, st, evict);
    PairedShrinks(cfg, st, evict);
    PairedAdds(evict);
    SignInMarks(cfg, st, rest, token, op.id, renewed, j);
    SignsInLater(cfg, st, st, rest, token, op.id, renewed);
    hide SignsIn;
    MappedBoth(evict, rest[..j]);
    assert (evict + rest)[..|evict| + j] == evict + rest[..j];
    NothingPerformed(cfg, st);
    WhenUnstamped(cfg, o, op, mid, |evict|, j);
  }

  /** The cut is one that unstamps exactly when the token is mapped and neither stamped nor under a stamp that lasts. */
  lemma WhenUnstamped(cfg: Config, o: Observed, op: Op, mid: State, e: nat, j: nat)
    requires op.Login? && Allowed(cfg, o.w.st, o.w.issued, op) && 1 <= j <= 3 && !Blank(op.id)
    requires SignedInToken(cfg, o.w.st, op).Ok? && |WritesOf(cfg, o.w.st, op)| == e + 3
    requires WellStamped(o.w.st, o.w.issued, o.used, o.bare) && Shrunk(o.w.st, mid)
    requires Renews(cfg, o.w.st, op) ==> e == 0 && mid == o.w.st
    ensures var mapped := Renews(cfg, o.w.st, op) || j >= 2;
            Unstamps(cfg, o.w.st, op, e + j) <==>
            mapped && j < 3 && !StampLasts(cfg, mid, SignedInToken(cfg, o.w.st, op).value)
  {
    hide LoginPlan;
    var token := SignedInToken(cfg, o.w.st, op).value;
    if !Renews(cfg, o.w.st, op) {
      assert token in mid.stamps ==> token in o.w.st.stamps && token in o.used;
    }
  }

  lemma SignedInIsIssued(cfg: Config, st: State, issued: set<string>, op: Op)
    requires Tame(cfg, st, issued) && op.Login? && !Blank(op.id) && SignedInToken(cfg, st, op).Ok?
    ensures SignedInToken(cfg, st, op).value in Issue(issued, op)
  {
    if Renews(cfg, st, op) {
      RenewIsLocal(cfg, st, CurrentToken(st, op.id).value, op.id);
    }
  }

  lemma SignsInLater(cfg: Config, st: State, mid: State, ws: seq<Write>, token: string, id: string, renewed: bool)
    requires SignsIn(cfg, st, ws, token, id, renewed) && mid.now == st.now
    ensures SignsIn(cfg, mid, ws, token, id, renewed) && |ws| == 3
  {
  }

  lemma {:induction false} MappedBoth(a: seq<Write>, b: seq<Write>)
    ensures Mapped(a + b) == Mapped(a) + Mapped(b) && Stamping(a + b) == Stamping(a) + Stamping(b)
  {
    if b == [] {
      assert a + b == a;
    } else {
      MappedBoth(a, b[..|b| - 1]);
      assert (a + b)[..|a + b| - 1] == a + b[..|b| - 1];
    }
  }

  // ---- the exact cuts ----

  /** Cut any operation after any number of its writes: every live token has a lasting stamp, except after a
      cut between mapping a token and stamping it, of a new token or of one whose old stamp does not last. */
  lemma EveryPrefixStamps(cfg: Config, o: Observed, op: Op, k: nat)
    requires cfg.activeTimeout > 0 && Tame(cfg, o.w.st, o.w.issued) && InInt64(Millis(o.w.st.now))
    requires Allowed(cfg, o.w.st, o.w.issued, op) && k <= |WritesOf(cfg, o.w.st, op)|
    requires WellStamped(o.w.st, o.w.issued, o.used, {})
    ensures AllCovered(PerformAll(cfg, o.w.st, WritesOf(cfg, o.w.st, op)[..k]), {}) <==> !Unstamps(cfg, o.w.st, op, k)
  {
    hide Tame, Allowed;
    var seen := o.(bare := {});
    CutIsWellStamped(cfg, seen, op, k);
    if Unstamps(cfg, o.w.st, op, k) {
      UnstampedIsBare(cfg, o, op, k);
    } else {
      assert ObserveCut(cfg, seen, op, k).bare == {};
    }
  }

  /** After such a cut the token is live without a lasting stamp. */
  lemma UnstampedIsBare(cfg: Config, o: Observed, op: Op, k: nat)
    requires cfg.activeTimeout > 0 && Tame(cfg, o.w.st, o.w.issued) && Allowed(cfg, o.w.st, o.w.issued, op)
    requires WellStamped(o.w.st, o.w.issued, o.used, o.bare) && Unstamps(cfg, o.w.st, op, k) && k <= |WritesOf(cfg, o.w.st, op)|
    ensures var after, token := PerformAll(cfg, o.w.st, WritesOf(cfg, o.w.st, op)[..k]), SignedInToken(cfg, o.w.st, op);
            token.Ok? && token.value in after.tokens && !Covered(after, token.value)
  {
    hide Tidy, Sound, SignsIn, LoginPlan, Paired, PerformAll, WellStamped;
    var st, ws := o.w.st, WritesOf(cfg, o.w.st, op);
    LoginIsLocal(cfg, st, o.w.issued, op);
    var evict := LoginShape(cfg, st, o.w.issued, op);
    var rest, token, renewed := ws[|evict|..], SignedInToken(cfg, st, op).value, Renews(cfg, st, op);
    assert ws == evict + rest && rest != [];
    SignsInLater(cfg, st, st, rest, token, op.id, renewed);
    var j, mid := k - |evict|, PerformAll(cfg, st, evict);
    AfterEviction(cfg, o, op, evict);
    PairedShrinks(cfg, st, evict);
    NothingPerformed(cfg, st);
    WhenUnstamped(cfg, o, op, mid, |evict|, j);
    SignsInLater(cfg, st, mid, rest, token, op.id, renewed);
    assert (evict + rest)[..k] == evict + rest[..j];
    PerformAppend(cfg, st, evict, rest[..j]);
    SignInPrefix(cfg, mid, rest, token, op.id, renewed, j);
  }

  // ---- runs ----

  lemma WaitIsWellStamped(st: State, issued: set<string>, used: map<string, int>, bare: set<string>, elapsed: nat)
    requires WellStamped(st, issued, used, bare)
    ensures WellStamped(Later(st, elapsed), issued, used, bare)
  {
    var after := Later(st, elapsed);
    forall t | t in after.tokens && t !in bare ensures Covered(after, t) {
      assert Covered(st, t);
    }
  }

  lemma StepIsWellStamped(cfg: Config, o: Observed, step: Step)
    requires cfg.activeTimeout > 0 && Tame(cfg, o.w.st, o.w.issued) && InInt64(Millis(o.w.st.now))
    requires WellStamped(o.w.st, o.w.issued, o.used, o.bare) && Possible(cfg, o.w, step)
    ensures var after := Observe(cfg, o, step);
            WellStamped(after.w.st, after.w.issued, after.used, after.bare)
  {
    hide Tame, WellStamped, Allowed;
    match step
    case Complete(op) => CutIsWellStamped(cfg, o, op, |WritesOf(cfg, o.w.st, op)|);
    case Cut(op, k) => CutIsWellStamped(cfg, o, op, k);
    case Wait(elapsed) => WaitIsWellStamped(o.w.st, o.w.issued, o.used, o.bare, elapsed);
  }

  /** In every run each live token that is not bare has a live stamp that prints its last use. */
  lemma {:induction false} RunStamps(cfg: Config, o: Observed, steps: seq<Step>)
    requires cfg.activeTimeout > 0 && Tame(cfg, o.w.st, o.w.issued) && WellStamped(o.w.st, o.w.issued, o.used, o.bare)
    requires ObservedRun(cfg, o, steps)
    ensures var end := ObserveAll(cfg, o, steps);
            Tame(cfg, end.w.st, end.w.issued) && WellStamped(end.w.st, end.w.issued, end.used, end.bare)
    decreases |steps|
  {
    hide Tame, WellStamped;
    if steps != [] {
      ObservingIsRunning(cfg, o, steps[0]);
      StepIsTame(cfg, o.w, steps[0]);
      StepIsWellStamped(cfg, o, steps[0]);
      RunStamps(cfg, Observe(cfg, o, steps[0]), steps[1..]);
    }
  }

  lemma ObservingIsRunning(cfg: Config, o: Observed, step: Step)
    requires Possible(cfg, o.w, step)
    ensures Observe(cfg, o, step).w == Next(cfg, o.w, step)
  {
  }

  predicate RecentlyUsed(cfg: Config, o: Observed, token: string) {
    token in o.used && Millis(o.w.st.now) - o.used[token] <= cfg.activeTimeout * 1000
  }

  lemma StampedCheck(cfg: Config, o: Observed, token: string)
    requires cfg.activeTimeout > 0 && Tame(cfg, o.w.st, o.w.issued) && WellStamped(o.w.st, o.w.issued, o.used, o.bare)
    ensures CheckPlan(cfg, o.w.st, token).result.Ok? <==>
            token in o.w.st.tokens && (token in o.w.st.stamps ==> RecentlyUsed(cfg, o, token))
    ensures token in o.w.st.tokens && token !in o.bare ==> token in o.w.st.stamps
    ensures token in o.w.st.stamps ==> token in o.used && ParseInt64(o.w.st.stamps[token].value) == Some(o.used[token])
  {
    TameTokens(cfg, o.w.st, o.w.issued);
    if token in o.w.st.stamps {
      ParsePrintRoundTrip(o.used[token]);
    }
    if token in o.w.st.tokens {
      assert NamesAccount(o.w.st, token);
      assert token !in o.bare ==> Covered(o.w.st, token);
    }
  }

  /** After any run of completed, cut and waiting steps, a check accepts a token exactly when the token is
      live and was last returned by a login or accepted by a check at most the idle timeout ago. The one
      exception is a bare token: without a stamp it is accepted however long it was idle. */
  lemma CheckSucceedsExactlyWhenRecentlyUsed(cfg: Config, now: int, steps: seq<Step>, token: string)
    requires cfg.activeTimeout > 0 && ObservedRun(cfg, Observed(Start(now), map[], {}), steps)
    ensures var end := ObserveAll(cfg, Observed(Start(now), map[], {}), steps);
            CheckPlan(cfg, end.w.st, token).result.Ok? <==>
            && token in end.w.st.tokens
            && (RecentlyUsed(cfg, end, token) || (token in end.bare && token !in end.w.st.stamps))
  {
    StartIsTame(cfg, now);
    RunStamps(cfg, Observed(Start(now), map[], {}), steps);
    StampedCheck(cfg, ObserveAll(cfg, Observed(Start(now), map[], {}), steps), token);
  }

  /** The idle timeout in terms of the clock: a use at most that many seconds ago is recent, and one a
      millisecond or more beyond that is not. */
  lemma RecentInSeconds(cfg: Config, o: Observed, token: string, at: int)
    requires token in o.used && o.used[token] == Millis(at)
    ensures o.w.st.now - at <= cfg.activeTimeout * SECOND ==> RecentlyUsed(cfg, o, token)
    ensures o.w.st.now - at >= cfg.activeTimeout * SECOND + 1_000_000 ==> !RecentlyUsed(cfg, o, token)
  {
  }

  /** The world has a live, stamped token that was last used longer ago than the idle timeout. */
  predicate Overdue(cfg: Config, o: Observed, token: string) {
    token in o.w.st.tokens && token in o.w.st.stamps && !RecentlyUsed(cfg, o, token)
  }

  lemma OverdueIsIdle(cfg: Config, o: Observed, token: string)
    requires cfg.activeTimeout > 0 && Tame(cfg, o.w.st, o.w.issued) && WellStamped(o.w.st, o.w.issued, o.used, o.bare)
    ensures token in o.w.st.tokens ==> (Overdue(cfg, o, token) <==> Idle(cfg, o.w.st, token))
  {
    if token in o.w.st.stamps {
      ParsePrintRoundTrip(o.used[token]);
    }
  }

  /** After any run, a completed check of such a token logs it out: it is neither live, listed nor stamped any
      more, and it is not live again in any later run, whatever crashes. */
  lemma IdleTokensAreLoggedOut(cfg: Config, now: int, steps: seq<Step>, token: string, later: seq<Step>)
    requires cfg.activeTimeout > 0 && ObservedRun(cfg, Observed(Start(now), map[], {}), steps)
    requires Overdue(cfg, ObserveAll(cfg, Observed(Start(now), map[], {}), steps), token)
    requires var w := ObserveAll(cfg, Observed(Start(now), map[], {}), steps).w;
             Runs(cfg, Next(cfg, w, Complete(CheckLogin(token))), later)
    ensures var w := ObserveAll(cfg, Observed(Start(now), map[], {}), steps).w;
            var next := Next(cfg, w, Complete(CheckLogin(token)));
            && Gone(IndexOf(cfg, next.st), token) && token !in next.st.stamps
            && Gone(IndexOf(cfg, After(cfg, next, later).st), token)
  {
    var o := Observed(Start(now), map[], {});
    StartIsTame(cfg, now);
    RunStamps(cfg, o, steps);
    var end := ObserveAll(cfg, o, steps);
    hide Tame, ObserveAll, ObservedRun, Runs, After, WellStamped, Idle, Overdue, Unlisted, CheckPlan, PerformAll, Gone;
    OverdueIsIdle(cfg, end, token);
    OverdueIsLive(cfg, end, token);
    CheckLeaves(cfg, end.w.st, end.w.issued, token);
    CompletePerformsAll(cfg, end.w, CheckLogin(token));
    KilledIsGone(cfg, end.w.st, end.w.issued, CheckLogin(token), token);
    TameTokens(cfg, end.w.st, end.w.issued);
    StepIsTame(cfg, end.w, Complete(CheckLogin(token)));
    GoneForGood(cfg, Next(cfg, end.w, Complete(CheckLogin(token))), token, later);
  }

  lemma OverdueIsLive(cfg: Config, o: Observed, token: string)
    requires Overdue(cfg, o, token)
    ensures token in o.w.st.tokens && token in o.w.st.stamps
  {
  }

  /** Every other check, those that accept among them, leaves tokens and sessions as they were and stamps a live
      token with the time. */
  lemma OtherChecksOnlyStamp(cfg: Config, now: int, steps: seq<Step>, token: string)
    requires cfg.activeTimeout > 0 && ObservedRun(cfg, Observed(Start(now), map[], {}), steps)
    requires !Overdue(cfg, ObserveAll(cfg, Observed(Start(now), map[], {}), steps), token)
    ensures var w := ObserveAll(cfg, Observed(Start(now), map[], {}), steps).w;
            Next(cfg, w, Complete(CheckLogin(token))).st ==
            if token !in w.st.tokens then w.st
            else w.st.(stamps := w.st.stamps[token := Dated(Stamp(w.st.now), DueDate(cfg, w.st.now))])
  {
    var o := Observed(Start(now), map[], {});
    StartIsTame(cfg, now);
    RunStamps(cfg, o, steps);
    var end := ObserveAll(cfg, o, steps);
    hide Tame, ObserveAll, ObservedRun, WellStamped, Idle, Overdue, Unlisted, CheckPlan, PerformAll;
    OverdueIsIdle(cfg, end, token);
    CheckLeaves(cfg, end.w.st, end.w.issued, token);
    CompletePerformsAll(cfg, end.w, CheckLogin(token));
  }

  lemma StartIsTame(cfg: Config, now: int)
    ensures Tame(cfg, Start(now).st, Start(now).issued)
  {
  }

  /** The exception is real: a first login that crashes before its last write leaves a token that no idle
      time ends. The first check after any wait accepts it exactly until the token's own deadline: with
      timeout -1 for ever. */
  lemma CutLoginNeverIdles(cfg: Config, now: int, id: string, token: string, newId: string, elapsed: nat)
    requires cfg.activeTimeout > 0 && !Blank(id) && token != ""
    ensures var steps := [Cut(Login(id, Ok(token), newId), 2), Wait(elapsed)];
            && Runs(cfg, Start(now), steps)
            && CheckPlan(cfg, After(cfg, Start(now), steps).st, token).result ==
               if Alive(DueDate(cfg, now), now + elapsed) then Ok(id) else Err(NotFound)
  {
    var w, op := Start(now), Login(id, Ok(token), newId);
    FirstLoginCut(cfg, now, op);
    hide PerformAll, WritesOf, TornAfter, CheckPlan, Runs, After;
    var cut := Next(cfg, w, Cut(op, 2));
    var end := Next(cfg, cut, Wait(elapsed));
    PerformKeepsNow(cfg, w.st, WritesOf(cfg, w.st, op)[..2]);
    TwoSteps(cfg, w, Cut(op, 2), Wait(elapsed));
    UnstampedIsAccepted(cfg, end.st, token);
  }

  lemma TwoSteps(cfg: Config, w: World, first: Step, second: Step)
    requires Possible(cfg, w, first) && Possible(cfg, Next(cfg, w, first), second)
    ensures Runs(cfg, w, [first, second])
    ensures After(cfg, w, [first, second]) == Next(cfg, Next(cfg, w, first), second)
  {
    hide Possible, Next, Runs, After;
    var cut := Next(cfg, w, first);
    NoSteps(cfg, Next(cfg, cut, second));
    Prepended(cfg, cut, second, []);
    Prepended(cfg, w, first, [second] + []);
    assert [first] + ([second] + []) == [first, second];
  }

  lemma UnstampedIsAccepted(cfg: Config, st: State, token: string)
    requires token != "" && (token in st.tokens ==> !Blank(st.tokens[token].value)) && token !in st.stamps
    ensures CheckPlan(cfg, st, token).result == if token in st.tokens then Ok(st.tokens[token].value) else Err(NotFound)
  {
  }

  lemma FirstLoginCut(cfg: Config, now: int, op: Op)
    requires cfg.activeTimeout > 0 && op.Login? && !Blank(op.id) && op.minted.Ok?
    ensures |WritesOf(cfg, Start(now).st, op)| == 3
    ensures var cut := PerformAll(cfg, Start(now).st, WritesOf(cfg, Start(now).st, op)[..2]);
            cut.tokens == map[op.minted.value := Dated(op.id, DueDate(cfg, now))] && cut.stamps == map[]
  {
    var st, token := Start(now).st, op.minted.value;
    FirstLoginWrites(cfg, now, op);
    FreshWrites(cfg, st, op.id, token, op.newId);
    var writes := FreshPlan(cfg, st, op.id, Ok(token), op.newId).writes;
    SignInPrefix(cfg, st, writes, token, op.id, false, 2);
  }
}
