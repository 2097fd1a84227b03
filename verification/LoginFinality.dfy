/** Tokens that are gone stay gone, over every run and every crash. */
module LoginFinality {
  import opened Results
  import opened Text
  import opened MemoryStores
  import opened Sessions
  import opened TokenIndex
  import opened LoginSpec
  import opened LoginInvariant
  import opened LoginCrash
  import opened LoginTidy
  import opened LoginTorn
  import opened LoginRuns

  lemma StepIsTame(cfg: Config, w: World, step: Step)
    requires Tame(cfg, w.st, w.issued) && Possible(cfg, w, step)
    ensures Tame(cfg, Next(cfg, w, step).st, Next(cfg, w, step).issued)
  {
    hide Tame;
    match step
    case Complete(op) => EveryPrefixIsTame(cfg, w.st, w.issued, op, |WritesOf(cfg, w.st, op)|);
    case Cut(op, k) => EveryPrefixIsTame(cfg, w.st, w.issued, op, k);
    case Wait(elapsed) => LaterIsTame(cfg, w.st, w.issued, elapsed);
  }

  /** A token is nowhere exactly when the state is tame without it among the issued ones. */
  lemma GoneMeansNeverIssued(cfg: Config, st: State, issued: set<string>, token: string)
    requires Tame(cfg, st, issued)
    ensures Gone(IndexOf(cfg, st), token) <==> Tame(cfg, st, issued - {token})
  {
    GoneIsUnissued(IndexOf(cfg, st), issued, token);
  }

  lemma StepIgnoresGone(cfg: Config, w: World, token: string, step: Step)
    requires Possible(cfg, w, step) && token in w.issued
    ensures Possible(cfg, w.(issued := w.issued - {token}), step)
    ensures Next(cfg, w.(issued := w.issued - {token}), step) ==
            Next(cfg, w, step).(issued := Next(cfg, w, step).issued - {token})
    ensures token in Next(cfg, w, step).issued
  {
    hide WritesOf, TornAfter, UpToDate, PerformAll, Later;
  }

  /** A token that is neither live nor listed is never live or listed again, nor accepted: not by
      renewals in share mode, and not through crashes, torn renewals included. */
  lemma {:induction false} GoneForGood(cfg: Config, w: World, token: string, steps: seq<Step>)
    requires Tame(cfg, w.st, w.issued) && token in w.issued && Gone(IndexOf(cfg, w.st), token)
    requires Runs(cfg, w, steps)
    ensures var st := After(cfg, w, steps).st;
            Gone(IndexOf(cfg, st), token) && CheckPlan(cfg, st, token) == Plan([], Err(NotFound))
    decreases |steps|
  {
    hide Tame;
    if steps != [] {
      var without := w.(issued := w.issued - {token});
      var next := Next(cfg, w, steps[0]);
      GoneMeansNeverIssued(cfg, w.st, w.issued, token);
      StepIgnoresGone(cfg, w, token, steps[0]);
      StepIsTame(cfg, without, steps[0]);
      StepIsTame(cfg, w, steps[0]);
      GoneMeansNeverIssued(cfg, next.st, next.issued, token);
      GoneForGood(cfg, next, token, steps[1..]);
    }
  }

  // ---- what makes a live token go ----

  predicate Spares(ws: seq<Write>, token: string) {
    forall i :: 0 <= i < |ws| ==> ws[i] != DelToken(token)
  }

  lemma {:induction false} SparedStays(cfg: Config, st: State, ws: seq<Write>, token: string)
    requires Spares(ws, token) && token in st.tokens
    ensures token in PerformAll(cfg, st, ws).tokens
  {
    if ws != [] {
      SparedStays(cfg, st, ws[..|ws| - 1], token);
    }
  }

  lemma SpareBoth(a: seq<Write>, b: seq<Write>, token: string)
    requires Spares(a, token) && Spares(b, token)
    ensures Spares(a + b, token)
  {
  }

  lemma SignInSpares(cfg: Config, st: State, id: string, minted: Result<string, Error>, newId: string, token: string)
    ensures Spares(SignInPlan(cfg, st, id, minted, newId).writes, token)
  {
  }

  lemma {:induction false} EvictionSpares(terminals: seq<TerminalInfo>, token: string)
    requires token !in TokensOf(terminals)
    ensures Spares(EvictTerminals(terminals), token)
  {
    if terminals != [] {
      TokensOfLast(terminals);
      EvictionSpares(terminals[..|terminals| - 1], token);
    }
  }

  lemma ReplacedSpares(cfg: Config, st: State, id: string, token: string)
    requires Sound(cfg, st) && token !in ListOf(IndexOf(cfg, st), id)
    ensures Spares(ReplacedPlan(cfg, st, id).writes, token)
  {
    LoadedIsListed(cfg, st, id);
    if Load(st, id).Ok? {
      EvictionSpares(Load(st, id).value.terminals, token);
    }
  }

  predicate Evicts(cfg: Config, st: State, op: Op, token: string) {
    op.Login? && !Blank(op.id) && !cfg.isConcurrent && token in ListOf(IndexOf(cfg, st), op.id)
  }

  lemma LoginSpares(cfg: Config, st: State, op: Op, token: string)
    requires Sound(cfg, st) && op.Login? && token in st.tokens && !Evicts(cfg, st, op, token)
    ensures token in PerformAll(cfg, st, WritesOf(cfg, st, op)).tokens
  {
    if Blank(op.id) {
      assert WritesOf(cfg, st, op) == [];
    } else {
      var evict := if cfg.isConcurrent then Plan([], Ok(())) else ReplacedPlan(cfg, st, op.id);
      if !cfg.isConcurrent {
        ReplacedSpares(cfg, st, op.id, token);
        ReplacedIsLocal(cfg, st, op.id);
      }
      var rest := SignInPlan(cfg, PerformAll(cfg, st, evict.writes), op.id, op.minted, op.newId).writes;
      SignInSpares(cfg, PerformAll(cfg, st, evict.writes), op.id, op.minted, op.newId, token);
      SpareBoth(evict.writes, rest, token);
      SparedStays(cfg, st, evict.writes + rest, token);
    }
  }

  lemma EvictedIsGone(cfg: Config, st: State, issued: set<string>, id: string, token: string)
    requires Tame(cfg, st, issued) && token in ListOf(IndexOf(cfg, st), id)
    ensures var mid := PerformAll(cfg, st, ReplacedPlan(cfg, st, id).writes);
            Gone(IndexOf(cfg, mid), token) && token in issued
  {
    var x := IndexOf(cfg, st);
    var mid := PerformAll(cfg, st, ReplacedPlan(cfg, st, id).writes);
    ReplacedEmpties(cfg, st, issued, id);
    forall other | other in IndexOf(cfg, mid).lists ensures token !in IndexOf(cfg, mid).lists[other].value {
      assert other != id ==> Apart(x, id, other);
    }
  }

  /** A login that evicts the token, and whatever it signs in afterwards. */
  lemma EvictionKillsForGood(cfg: Config, st: State, issued: set<string>, op: Op, token: string)
    requires Tame(cfg, st, issued) && Evicts(cfg, st, op, token) && Allowed(cfg, st, issued, op)
    ensures Gone(IndexOf(cfg, PerformAll(cfg, st, WritesOf(cfg, st, op))), token)
  {
    hide Tidy, Near, Sound, LocalWrites;
    var evict := ReplacedPlan(cfg, st, op.id).writes;
    var mid := PerformAll(cfg, st, evict);
    var rest := SignInPlan(cfg, mid, op.id, op.minted, op.newId).writes;
    EvictedIsGone(cfg, st, issued, op.id, token);
    ReplacedEmpties(cfg, st, issued, op.id);
    ReplacedIsLocal(cfg, st, op.id);
    SignInWithoutCurrent(cfg, mid, op);
    SignInWithout(cfg, mid, issued, op, token);
    PerformAppend(cfg, st, evict, rest);
  }

  lemma SignInWithout(cfg: Config, st: State, issued: set<string>, op: Op, token: string)
    requires Tame(cfg, st, issued) && op.Login? && Allowed(cfg, st, issued, op)
    requires token in issued && Gone(IndexOf(cfg, st), token)
    requires LocalWrites(cfg, st, SignInPlan(cfg, st, op.id, op.minted, op.newId).writes, op.id,
                         if op.minted.Ok? then {op.minted.value} else {})
    ensures Gone(IndexOf(cfg, PerformAll(cfg, st, SignInPlan(cfg, st, op.id, op.minted, op.newId).writes)), token)
  {
    hide Tidy, Sound, LocalWrites, Near;
    var writes := SignInPlan(cfg, st, op.id, op.minted, op.newId).writes;
    var tokens := if op.minted.Ok? then {op.minted.value} else {};
    var without := Issue(issued, op) - {token};
    GoneMeansNeverIssued(cfg, st, issued, token);
    MoreIssuedIsTidy(IndexOf(cfg, st), issued - {token}, without);
    if op.minted.Ok? {
      GoneIsUnissued(IndexOf(cfg, st), issued, op.minted.value);
    }
    LocalPrefix(cfg, st, without, writes, op.id, tokens, |writes|);
    assert writes[..|writes|] == writes;
    GoneIsUnissued(IndexOf(cfg, PerformAll(cfg, st, writes)), without, token);
  }

  // ---- logging out ----

  lemma DeletesShift(cfg: Config, st: State, token: string)
    ensures var x, y := IndexOf(cfg, st), IndexOf(cfg, PerformAll(cfg, st, LogoutDeletes(token)));
            y == x.(owners := x.owners - {token})
  {
    LogoutDrops(cfg, token);
    PerformShifts(cfg, st, LogoutDeletes(token));
    UnmapAllIsSafe(IndexOf(cfg, st), ChangesOf(LogoutDeletes(token)), {}, false);
  }

  lemma UnlistedIsGone(x: Index, issued: set<string>, token: string, c: Change)
    requires Tidy(x, issued) && token in x.owners
    requires var id := x.owners[token].value; c == DropList(id) || (c.SetList? && c.id == id && token !in c.tokens)
    ensures Gone(Shift(x.(owners := x.owners - {token}), c), token)
  {
    assert AtHome(x, token);
  }

  lemma UnlistAfterDeletes(cfg: Config, st: State, token: string, unlist: Write)
    requires SoundWrite(cfg, unlist)
    ensures IndexOf(cfg, PerformAll(cfg, st, LogoutDeletes(token) + [unlist])) ==
            Shift(IndexOf(cfg, PerformAll(cfg, st, LogoutDeletes(token))), ChangeOf(unlist))
  {
    var all := LogoutDeletes(token) + [unlist];
    assert all[..|all| - 1] == LogoutDeletes(token);
    WriteChangesIndex(cfg, PerformAll(cfg, st, LogoutDeletes(token)), unlist);
  }

  lemma LogoutOfLiveToken(cfg: Config, st: State, issued: set<string>, token: string)
    requires Tame(cfg, st, issued) && token in st.tokens
    ensures Gone(IndexOf(cfg, PerformAll(cfg, st, LogoutPlan(cfg, st, token).writes)), token)
  {
    hide Savable;
    var x, id := IndexOf(cfg, st), st.tokens[token].value;
    TameTokens(cfg, st, issued);
    LogoutWrites(cfg, st, token);
    DeletesShift(cfg, st, token);
    LoadedIsListed(cfg, st, id);
    if Load(st, id).Ok? {
      var unlist := Unlisting(id, Load(st, id).value, token);
      WithoutTokens(Load(st, id).value.terminals, token);
      UnlistedIsGone(x, issued, token, ChangeOf(unlist));
      UnlistAfterDeletes(cfg, st, token, unlist);
    } else {
      assert AtHome(x, token);
    }
  }

  /** A completed logout removes the token for good exactly when it was live, or nowhere to begin with. A
      token that had expired but is still listed stays listed. */
  lemma LogoutFinalExactly(cfg: Config, st: State, issued: set<string>, token: string)
    requires Tame(cfg, st, issued)
    ensures Gone(IndexOf(cfg, PerformAll(cfg, st, LogoutPlan(cfg, st, token).writes)), token) <==>
            token in st.tokens || Gone(IndexOf(cfg, st), token)
  {
    if token in st.tokens {
      LogoutOfLiveToken(cfg, st, issued, token);
    } else {
      TameTokens(cfg, st, issued);
      LogoutWrites(cfg, st, token);
      DeletesShift(cfg, st, token);
    }
  }

  lemma LogoutSpares(cfg: Config, st: State, token: string, other: string)
    requires other in st.tokens && other != token
    ensures other in PerformAll(cfg, st, LogoutPlan(cfg, st, token).writes).tokens
  {
    var writes := LogoutPlan(cfg, st, token).writes;
    assert forall i :: 0 <= i < |writes| && writes[i].DelToken? ==> i == 0;
    SparedStays(cfg, st, writes, other);
  }

  // ---- the theorem ----

  lemma CheckIsLogoutOrStamp(cfg: Config, st: State, token: string, other: string)
    requires other in st.tokens
    ensures var writes := CheckPlan(cfg, st, token).writes;
            writes == LogoutPlan(cfg, st, token).writes || other in PerformAll(cfg, st, writes).tokens
  {
    SparedStays(cfg, st, [], other);
    SparedStays(cfg, st, StampNow(cfg, st, token), other);
  }

  lemma LogoutKills(cfg: Config, st: State, issued: set<string>, token: string, other: string)
    requires Tame(cfg, st, issued) && other in st.tokens
    requires other !in PerformAll(cfg, st, LogoutPlan(cfg, st, token).writes).tokens
    ensures Gone(IndexOf(cfg, PerformAll(cfg, st, LogoutPlan(cfg, st, token).writes)), other)
  {
    if other == token {
      LogoutOfLiveToken(cfg, st, issued, token);
    } else {
      LogoutSpares(cfg, st, token, other);
    }
  }

  /** Only the passing of time lets a live token go without removing it for good. */
  lemma KilledIsGone(cfg: Config, st: State, issued: set<string>, op: Op, token: string)
    requires Tame(cfg, st, issued) && Allowed(cfg, st, issued, op)
    requires token in st.tokens && token !in PerformAll(cfg, st, WritesOf(cfg, st, op)).tokens
    ensures Gone(IndexOf(cfg, PerformAll(cfg, st, WritesOf(cfg, st, op))), token)
  {
    match op
    case Login(_, _, _) =>
      if Evicts(cfg, st, op, token) {
        EvictionKillsForGood(cfg, st, issued, op, token);
      } else {
        LoginSpares(cfg, st, op, token);
      }
    case Logout(t) => LogoutKills(cfg, st, issued, t, token);
    case CheckLogin(t) =>
      CheckIsLogoutOrStamp(cfg, st, t, token);
      LogoutKills(cfg, st, issued, t, token);
    case SaveSession(s, newId) =>
      SparedStays(cfg, st, WritesOf(cfg, st, op), token);
  }

  /** A live token that a completed operation ends, by logout, by eviction or for idleness, is never live,
      listed or accepted again in any later run, whatever crashes the runs hold. */
  lemma EndedTokensStayEnded(cfg: Config, w: World, op: Op, token: string, steps: seq<Step>)
    requires Tame(cfg, w.st, w.issued) && Allowed(cfg, w.st, w.issued, op)
    requires token in w.st.tokens && token !in Next(cfg, w, Complete(op)).st.tokens
    requires Runs(cfg, Next(cfg, w, Complete(op)), steps)
    ensures var st := After(cfg, Next(cfg, w, Complete(op)), steps).st;
            Gone(IndexOf(cfg, st), token) && CheckPlan(cfg, st, token) == Plan([], Err(NotFound))
  {
    hide Tame;
    CompletePerformsAll(cfg, w, op);
    KilledIsGone(cfg, w.st, w.issued, op, token);
    StepIsTame(cfg, w, Complete(op));
    TameTokens(cfg, w.st, w.issued);
    GoneForGood(cfg, Next(cfg, w, Complete(op)), token, steps);
  }

  /** What the exception in LogoutFinalExactly costs in share mode: a login after the logout of an expired
      token that is still listed first answers the very same token, live again. */
  lemma ExpiredTokenIsRevived(cfg: Config, w: World, op: Op, token: string)
    requires Tame(cfg, w.st, w.issued) && Renews(cfg, w.st, op) && Allowed(cfg, w.st, w.issued, op)
    requires CurrentToken(w.st, op.id) == Ok(token) && token !in w.st.tokens
    ensures var out := Next(cfg, w, Complete(Logout(token)));
            && LoginPlan(cfg, out.st, op.id, op.minted, op.newId).result == Ok(token)
            && token in PerformAll(cfg, out.st, WritesOf(cfg, out.st, op)).tokens
  {
    hide Tame;
    var out := Next(cfg, w, Complete(Logout(token)));
    TameTokens(cfg, w.st, w.issued);
    LogoutOfDeadToken(cfg, w, token);
    StepIsTame(cfg, w, Complete(Logout(token)));
    LoginIsLocal(cfg, out.st, out.issued, op);
    LoginMaps(cfg, out.st, op);
    MappedOnce(cfg, out.st, WritesOf(cfg, out.st, op), token, op.id);
  }

  lemma LogoutOfDeadToken(cfg: Config, w: World, token: string)
    requires token !in w.st.tokens
    ensures Next(cfg, w, Complete(Logout(token))).st.sessions == w.st.sessions
  {
    CompletePerformsAll(cfg, w, Logout(token));
    assert WritesOf(cfg, w.st, Logout(token)) == LogoutDeletes(token);
    DeletesKeepSessions(cfg, w.st, token);
  }

  lemma DeletesKeepSessions(cfg: Config, st: State, token: string)
    ensures PerformAll(cfg, st, LogoutDeletes(token)).sessions == st.sessions
  {
    var ws := LogoutDeletes(token);
    var two, one := [DelToken(token), DelStamp(token)], [DelToken(token)];
    assert ws[..2] == two && two[..1] == one && one[..0] == [];
    assert PerformAll(cfg, st, one).sessions == st.sessions;
    assert PerformAll(cfg, st, two).sessions == st.sessions;
  }
}
