/** Cutting any operation after any number of its store writes leaves the indexes in agreement, with one
    exception, which is stated exactly. */
module LoginCrash {
  import opened Results
  import opened Text
  import opened MemoryStores
  import opened Sessions
  import opened TokenIndex
  import opened LoginSpec
  import opened LoginInvariant

  // ---- signing in ----

  lemma WithTerminalTokens(s: Session, info: TerminalInfo)
    ensures TokensOf(WithTerminal(s, info).terminals) == TokensOf(s.terminals) + {info.tokenValue}
  {
    var after := WithTerminal(s, info).terminals;
    if after != s.terminals {
      TokensOfLast(after);
      assert after[..|after| - 1] == s.terminals;
    } else {
      var i :| 0 <= i < |s.terminals| && s.terminals[i].tokenValue == info.tokenValue;
      assert s.terminals[i] in s.terminals;
    }
  }

  lemma SignedInTokens(cfg: Config, st: State, s: Session, id: string, token: string)
    ensures TokensOf(SignedIn(cfg, st, s, id, token).terminals) == TokensOf(s.terminals) + {token}
  {
    WithTerminalTokens(s.(kind := SESSION_TYPE_ACCOUNT, loginType := cfg.loginType, loginId := VStr(id)),
                       TerminalInfo(0, token, "", "", map[], Millis(st.now)));
  }

  lemma SignedInSavable(cfg: Config, st: State, id: string, token: string, newId: string)
    requires Sound(cfg, st)
    ensures OpenSession(st, id, newId).Ok?
    ensures Savable(cfg, SignedIn(cfg, st, OpenSession(st, id, newId).value, id, token), id)
  {
    assert id in st.sessions ==> SessionSound(cfg, st, id);
  }

  lemma FreshWrites(cfg: Config, st: State, id: string, token: string, newId: string)
    requires Sound(cfg, st) && !Blank(id)
    ensures var plan := FreshPlan(cfg, st, id, Ok(token), newId);
            && plan.result == Ok(token)
            && OpenSession(st, id, newId).Ok?
            && plan.writes ==
                 [PutSession(id, SignedIn(cfg, st, OpenSession(st, id, newId).value, id, token)), PutToken(token, id)]
                 + StampNow(cfg, st, token)
            && SoundWrites(cfg, plan.writes)
  {
    hide Savable;
    SignedInSavable(cfg, st, id, token, newId);
    assert id in st.sessions ==> SessionSound(cfg, st, id);
  }

  lemma FreshIsSafe(cfg: Config, st: State, issued: set<string>, id: string, token: string, newId: string)
    requires Consistent(cfg, st, issued) && token in issued && !Blank(id)
    requires Gone(IndexOf(cfg, st), token)
    requires cfg.isConcurrent || Owned(IndexOf(cfg, st), id) == {}
    ensures FreshPlan(cfg, st, id, Ok(token), newId).result == Ok(token)
    ensures SafePlan(cfg, st, FreshPlan(cfg, st, id, Ok(token), newId).writes, issued)
  {
    FreshWrites(cfg, st, id, token, newId);
    var x, s := IndexOf(cfg, st), OpenSession(st, id, newId).value;
    var save, put := PutSession(id, SignedIn(cfg, st, s, id, token)), PutToken(token, id);
    SignedInTokens(cfg, st, s, id, token);
    assert TokensOf(s.terminals) == ListOf(x, id);
    TwoChanges(save, put);
    ListThenMapIsSafe(x, id, token, issued, !cfg.isConcurrent);
    var stamps := StampNow(cfg, st, token);
    ChangesAppend([save, put], stamps);
    StampIsSafe(cfg, PerformAll(cfg, st, [save, put]), st, token, issued);
    SafePlanAppend(cfg, st, [save, put], stamps, issued);
  }

  /** A renewal maps the token first and renews the session after. Between the two the token may outlive
      the session that lists it. */
  predicate Torn(cfg: Config, st: State, id: string) {
    id in st.sessions && !NoLater(DueDate(cfg, st.now), st.sessions[id].deadline)
  }

  lemma SaveAgainIsSafe(cfg: Config, st: State, issued: set<string>, id: string, s: Session)
    requires Consistent(cfg, st, issued) && Savable(cfg, s, id)
    requires TokensOf(s.terminals) == ListOf(IndexOf(cfg, st), id)
    ensures SafePlan(cfg, st, [PutSession(id, s)], issued)
    ensures Consistent(cfg, Perform(cfg, st, PutSession(id, s)), issued)
  {
    RelistIsSafe(IndexOf(cfg, st), id, issued, !cfg.isConcurrent);
    OneSafeWrite(cfg, st, PutSession(id, s), issued);
    WriteKeepsConsistency(cfg, st, PutSession(id, s), issued);
  }

  lemma RenewedIsConsistent(cfg: Config, st: State, issued: set<string>, token: string, id: string, s: Session)
    requires Consistent(cfg, st, issued) && cfg.isConcurrent && !Blank(id)
    requires Load(st, id) == Ok(s) && token in TokensOf(s.terminals)
    ensures Consistent(cfg, PerformAll(cfg, st, [PutToken(token, id), PutSession(id, s)]), issued)
  {
    hide Savable;
    var writes := [PutToken(token, id), PutSession(id, s)];
    LoadedIsListed(cfg, st, id);
    TwoChanges(writes[0], writes[1]);
    PerformShifts(cfg, st, writes);
    MapThenRelistAgrees(IndexOf(cfg, st), id, token, issued);
  }

  lemma MapFirstIsSafeUnlessTorn(cfg: Config, st: State, issued: set<string>, token: string, id: string, s: Session)
    requires Consistent(cfg, st, issued) && cfg.isConcurrent && !Blank(id)
    requires Load(st, id) == Ok(s) && token in TokensOf(s.terminals)
    ensures Consistent(cfg, Perform(cfg, st, PutToken(token, id)), issued) <==> !Torn(cfg, st, id)
  {
    LoadedIsListed(cfg, st, id);
    WriteKeepsConsistency(cfg, st, PutToken(token, id), issued);
  }

  lemma RenewSecondHalf(cfg: Config, st: State, issued: set<string>, token: string, id: string, s: Session, j: nat)
    requires Consistent(cfg, st, issued) && cfg.isConcurrent && !Blank(id)
    requires Load(st, id) == Ok(s) && token in TokensOf(s.terminals)
    requires j <= |StampNow(cfg, st, token)|
    ensures Consistent(cfg, PerformAll(cfg, st, [PutToken(token, id), PutSession(id, s)] + StampNow(cfg, st, token)[..j]), issued)
  {
    var puts, stamps := [PutToken(token, id), PutSession(id, s)], StampNow(cfg, st, token);
    RenewedIsConsistent(cfg, st, issued, token, id, s);
    StampIsSafe(cfg, PerformAll(cfg, st, puts), st, token, issued);
    SafePlanPrefix(cfg, PerformAll(cfg, st, puts), stamps, issued, j);
    PerformAppend(cfg, st, puts, stamps[..j]);
  }

  lemma RenewPrefixes(cfg: Config, st: State, issued: set<string>, token: string, id: string, s: Session, k: nat)
    requires Consistent(cfg, st, issued) && cfg.isConcurrent && !Blank(id)
    requires Load(st, id) == Ok(s) && token in TokensOf(s.terminals)
    requires k <= |RenewPlan(cfg, st, token, id).writes|
    ensures Consistent(cfg, PerformAll(cfg, st, RenewPlan(cfg, st, token, id).writes[..k]), issued) <==>
            !(k == 1 && Torn(cfg, st, id))
  {
    LoadedIsListed(cfg, st, id);
    var puts, stamps := [PutToken(token, id), PutSession(id, s)], StampNow(cfg, st, token);
    var writes := RenewPlan(cfg, st, token, id).writes;
    assert writes == puts + stamps;
    if k == 0 {
      assert writes[..k] == [];
    } else if k == 1 {
      assert writes[..k] == [PutToken(token, id)];
      assert writes[..k][..0] == [];
      MapFirstIsSafeUnlessTorn(cfg, st, issued, token, id, s);
    } else {
      RenewSecondHalf(cfg, st, issued, token, id, s, k - 2);
      assert writes[..k] == puts + stamps[..k - 2];
    }
  }

  // ---- signing out ----

  lemma {:induction false} WithoutTokens(terminals: seq<TerminalInfo>, token: string)
    ensures TokensOf(Without(terminals, token)) == TokensOf(terminals) - {token}
  {
    if terminals != [] {
      var front, last := terminals[..|terminals| - 1], terminals[|terminals| - 1];
      WithoutTokens(front, token);
      TokensOfLast(terminals);
      var kept := Without(front, token);
      if last.tokenValue != token {
        TokensOfLast(kept + [last]);
        assert (kept + [last])[..|kept|] == kept;
      } else {
        assert Without(terminals, token) == kept;
      }
    }
  }

  function LogoutDeletes(token: string): seq<Write> {
    [DelToken(token), DelStamp(token), DelTokenSession(token)]
  }

  lemma LogoutDrops(cfg: Config, token: string)
    ensures SoundWrites(cfg, LogoutDeletes(token))
    ensures OnlyDrops(ChangesOf(LogoutDeletes(token))) && Dropped(ChangesOf(LogoutDeletes(token))) == {token}
  {
    TwoChanges(DelToken(token), DelStamp(token));
    ChangesAppend([DelToken(token), DelStamp(token)], [DelTokenSession(token)]);
    TwoChanges(DelTokenSession(token), DelStamp(token));
    assert LogoutDeletes(token) == [DelToken(token), DelStamp(token)] + [DelTokenSession(token)];
    var cs := ChangesOf(LogoutDeletes(token));
    assert cs == [DropOwner(token), Unrelated, Unrelated];
    DroppedOneMore([], token);
    assert cs[..|cs| - 1] == [] + [DropOwner(token), Unrelated];
  }

  /** The write that takes the terminal off the account's session. */
  function Unlisting(id: string, s: Session, token: string): Write {
    var left := WithoutTerminal(s, token);
    if left.terminals == [] then DelSession(id) else PutSession(id, left)
  }

  lemma UnlistingSound(cfg: Config, id: string, s: Session, token: string)
    requires Savable(cfg, s, id)
    ensures SoundWrite(cfg, Unlisting(id, s, token))
    ensures LoginIDOf(cfg, WithoutTerminal(s, token)) == id
  {
  }

  lemma LogoutWrites(cfg: Config, st: State, token: string)
    requires Sound(cfg, st) && "" !in st.tokens
    ensures var plan := LogoutPlan(cfg, st, token);
            && plan.result.Ok?
            && (token !in st.tokens ==> plan.writes == LogoutDeletes(token))
            && (token in st.tokens ==>
                  var id := st.tokens[token].value;
                  && (Load(st, id) == Err(NotFound) ==> plan.writes == LogoutDeletes(token))
                  && (Load(st, id) != Err(NotFound) ==>
                        && Load(st, id).Ok?
                        && SoundWrite(cfg, Unlisting(id, Load(st, id).value, token))
                        && plan.writes == LogoutDeletes(token) + [Unlisting(id, Load(st, id).value, token)]))
  {
    hide Savable;
    if token in st.tokens {
      var id := st.tokens[token].value;
      assert NamesAccount(st, token);
      LoadedIsListed(cfg, st, id);
      if Load(st, id).Ok? {
        UnlistingSound(cfg, id, Load(st, id).value, token);
      }
    }
  }

  lemma NoEmptyToken(cfg: Config, st: State, issued: set<string>)
    requires Consistent(cfg, st, issued)
    ensures "" !in st.tokens
  {
    if "" in st.tokens {
      LiveToken(cfg, st, issued, "");
    }
  }

  lemma UnlistingShifts(x: Index, issued: set<string>, single: bool, id: string, s: Session, token: string, drops: seq<Change>)
    requires Agree(x, issued, single) && id in x.lists && x.lists[id].value == TokensOf(s.terminals)
    requires OnlyDrops(drops) && Dropped(drops) == {token}
    ensures AllSafe(x, drops + [ChangeOf(Unlisting(id, s, token))], issued, single)
  {
    WithoutTokens(s.terminals, token);
    UnmapThenShrinkIsSafe(x, drops, id, TokensOf(s.terminals) - {token}, issued, single);
  }

  lemma DeletesThen(cfg: Config, token: string, last: Write)
    requires SoundWrite(cfg, last)
    ensures SoundWrites(cfg, LogoutDeletes(token) + [last])
    ensures ChangesOf(LogoutDeletes(token) + [last]) == ChangesOf(LogoutDeletes(token)) + [ChangeOf(last)]
  {
    LogoutDrops(cfg, token);
    ChangesAppend(LogoutDeletes(token), [last]);
    TwoChanges(last, last);
  }

  lemma LogoutIsSafe(cfg: Config, st: State, issued: set<string>, token: string)
    requires Consistent(cfg, st, issued)
    ensures SafePlan(cfg, st, LogoutPlan(cfg, st, token).writes, issued)
  {
    var x := IndexOf(cfg, st);
    NoEmptyToken(cfg, st, issued);
    LogoutWrites(cfg, st, token);
    LogoutDrops(cfg, token);
    if token in st.tokens {
      var id := st.tokens[token].value;
      LiveToken(cfg, st, issued, token);
      LoadedIsListed(cfg, st, id);
      var s := Load(st, id).value;
      DeletesThen(cfg, token, Unlisting(id, s, token));
      UnlistingShifts(x, issued, !cfg.isConcurrent, id, s, token, ChangesOf(LogoutDeletes(token)));
    } else {
      UnmapAllIsSafe(x, ChangesOf(LogoutDeletes(token)), issued, !cfg.isConcurrent);
    }
  }

  // ---- the operations of the login logic ----

  datatype Op =
    | Login(id: string, minted: Result<string, Error>, newId: string)
    | Logout(token: string)
    | CheckLogin(token: string)
    | SaveSession(session: Session, newId: string)

  function WritesOf(cfg: Config, st: State, op: Op): seq<Write> {
    match op
    case Login(id, minted, newId) => LoginPlan(cfg, st, id, minted, newId).writes
    case Logout(token) => LogoutPlan(cfg, st, token).writes
    case CheckLogin(token) => CheckPlan(cfg, st, token).writes
    case SaveSession(s, newId) => SavePlan(cfg, s, newId).writes
  }

  function Issue(issued: set<string>, op: Op): set<string> {
    if op.Login? && op.minted.Ok? then issued + {op.minted.value} else issued
  }

  /** The session is a current snapshot whose terminals were not edited, and it can be stored. */
  predicate UpToDate(cfg: Config, st: State, s: Session) {
    var id := LoginIDOf(cfg, s);
    && Savable(cfg, s, id)
    && s.terminals == if Load(st, id).Ok? then Load(st, id).value.terminals else []
  }

  /** New token values are fresh, and sessions are saved from current snapshots. */
  predicate Allowed(cfg: Config, st: State, issued: set<string>, op: Op) {
    match op
    case Login(_, minted, _) => minted.Ok? ==> minted.value != "" && minted.value !in issued
    case SaveSession(s, _) => UpToDate(cfg, st, s)
    case _ => true
  }

  predicate Renews(cfg: Config, st: State, op: Op) {
    op.Login? && !Blank(op.id) && cfg.isConcurrent && cfg.isShare && CurrentToken(st, op.id).Ok?
  }

  lemma IssueMore(cfg: Config, st: State, issued: set<string>, token: string)
    requires Consistent(cfg, st, issued) && token != ""
    ensures Consistent(cfg, st, issued + {token})
    ensures token !in issued ==> Gone(IndexOf(cfg, st), token)
  {
    IssuingMore(IndexOf(cfg, st), issued, !cfg.isConcurrent, token);
    GoneExactly(IndexOf(cfg, st), issued, !cfg.isConcurrent, token);
  }

  lemma SignInIsSafe(cfg: Config, st: State, issued: set<string>, op: Op)
    requires op.Login? && !Blank(op.id) && Allowed(cfg, st, issued, op)
    requires Consistent(cfg, st, issued)
    requires cfg.isConcurrent || Owned(IndexOf(cfg, st), op.id) == {}
    requires !cfg.isShare || CurrentToken(st, op.id) == Err(NotFound)
    ensures var plan := SignInPlan(cfg, st, op.id, op.minted, op.newId);
            SafePlan(cfg, st, plan.writes, Issue(issued, op)) && plan.result == op.minted
  {
    LoadedIsListed(cfg, st, op.id);
    if op.minted.Ok? {
      IssueMore(cfg, st, issued, op.minted.value);
      FreshIsSafe(cfg, st, Issue(issued, op), op.id, op.minted.value, op.newId);
    }
  }

  lemma IssueKeeps(cfg: Config, st: State, issued: set<string>, op: Op)
    requires Consistent(cfg, st, issued) && Allowed(cfg, st, issued, op)
    ensures Consistent(cfg, st, Issue(issued, op))
  {
    if op.Login? && op.minted.Ok? {
      IssueMore(cfg, st, issued, op.minted.value);
    }
  }

  lemma LoginIsSafe(cfg: Config, st: State, issued: set<string>, op: Op)
    requires op.Login? && Allowed(cfg, st, issued, op) && !Renews(cfg, st, op)
    requires Consistent(cfg, st, issued)
    ensures SafePlan(cfg, st, WritesOf(cfg, st, op), Issue(issued, op))
    ensures !Blank(op.id) ==> LoginPlan(cfg, st, op.id, op.minted, op.newId).result == op.minted
  {
    if Blank(op.id) {
    } else if cfg.isConcurrent {
      LoadedIsListed(cfg, st, op.id);
      FirstTokenFails(st, op.id);
      SignInIsSafe(cfg, st, issued, op);
      var plan := SignInPlan(cfg, st, op.id, op.minted, op.newId);
      assert [] + plan.writes == plan.writes;
    } else {
      var evict := ReplacedPlan(cfg, st, op.id).writes;
      ReplacedIsSafe(cfg, st, issued, op.id);
      IssueKeeps(cfg, st, issued, op);
      ReplacedIsSafe(cfg, st, Issue(issued, op), op.id);
      PlanKeeps(cfg, st, evict, issued);
      var mid := PerformAll(cfg, st, evict);
      SignInIsSafe(cfg, mid, issued, op);
      SafePlanAppend(cfg, st, evict, SignInPlan(cfg, mid, op.id, op.minted, op.newId).writes, Issue(issued, op));
    }
  }

  lemma {:induction false} FirstTokenError(terminals: seq<TerminalInfo>)
    ensures FirstToken(terminals).Err? ==> FirstToken(terminals) == Err(NotFound)
    ensures FirstToken(terminals).Ok? ==> FirstToken(terminals).value in TokensOf(terminals)
  {
    if terminals != [] {
      FirstTokenError(terminals[1..]);
    }
  }

  lemma FirstTokenFails(st: State, id: string)
    requires Load(st, id).Ok? || Load(st, id) == Err(NotFound)
    ensures CurrentToken(st, id).Ok? || CurrentToken(st, id) == Err(NotFound)
    ensures CurrentToken(st, id).Ok? ==>
              Load(st, id).Ok? && CurrentToken(st, id).value in TokensOf(Load(st, id).value.terminals)
  {
    if Load(st, id).Ok? {
      FirstTokenError(Load(st, id).value.terminals);
    }
  }

  lemma SaveIsSafe(cfg: Config, st: State, issued: set<string>, s: Session, newId: string)
    requires Consistent(cfg, st, issued) && UpToDate(cfg, st, s)
    ensures SafePlan(cfg, st, SavePlan(cfg, s, newId).writes, issued)
  {
    var full, id := Completed(cfg, s, newId), LoginIDOf(cfg, s);
    LoadedIsListed(cfg, st, id);
    SaveAgainIsSafe(cfg, st, issued, id, full);
  }

  lemma CheckIsSafe(cfg: Config, st: State, issued: set<string>, token: string)
    requires Consistent(cfg, st, issued)
    ensures SafePlan(cfg, st, CheckPlan(cfg, st, token).writes, issued)
  {
    LogoutIsSafe(cfg, st, issued, token);
    StampIsSafe(cfg, st, st, token, issued);
  }

  /** Cut any operation after any number of its writes: the indexes agree, except after the first write of
      a renewal whose session is due earlier than the token just mapped. */
  lemma EveryPrefix(cfg: Config, st: State, issued: set<string>, op: Op, k: nat)
    requires Consistent(cfg, st, issued) && Allowed(cfg, st, issued, op)
    requires k <= |WritesOf(cfg, st, op)|
    ensures Consistent(cfg, PerformAll(cfg, st, WritesOf(cfg, st, op)[..k]), Issue(issued, op)) <==>
            !(Renews(cfg, st, op) && k == 1 && Torn(cfg, st, op.id))
  {
    IssueKeeps(cfg, st, issued, op);
    if Renews(cfg, st, op) {
      LoadedIsListed(cfg, st, op.id);
      FirstTokenFails(st, op.id);
      var token := CurrentToken(st, op.id).value;
      var plan := RenewPlan(cfg, st, token, op.id);
      assert WritesOf(cfg, st, op) == [] + plan.writes == plan.writes;
      RenewPrefixes(cfg, st, Issue(issued, op), token, op.id, Load(st, op.id).value, k);
    } else {
      match op {
        case Login(_, _, _) => LoginIsSafe(cfg, st, issued, op);
        case Logout(token) => LogoutIsSafe(cfg, st, issued, token);
        case CheckLogin(token) => CheckIsSafe(cfg, st, issued, token);
        case SaveSession(s, newId) => SaveIsSafe(cfg, st, issued, s, newId);
      }
      SafePlanPrefix(cfg, st, WritesOf(cfg, st, op), Issue(issued, op), k);
    }
  }

  /** With timeout -1 nothing expires, so no cut at all is an exception. */
  lemma NeverTorn(cfg: Config, st: State, issued: set<string>, id: string)
    requires Consistent(cfg, st, issued) && cfg.timeout == NEVER_EXPIRE
    ensures !Torn(cfg, st, id)
  {
    if id in st.sessions {
      LoadedIsListed(cfg, st, id);
      assert SessionSound(cfg, st, id);
      assert ListSound(IndexOf(cfg, st), issued, id);
    }
  }
}
