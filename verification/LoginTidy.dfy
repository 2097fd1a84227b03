/** What every cut of every operation keeps, the torn renewal included: tokens stay with their account. */
module LoginTidy {
  import opened Results
  import opened Text
  import opened MemoryStores
  import opened Sessions
  import opened TokenIndex
  import opened LoginSpec
  import opened LoginInvariant
  import opened LoginCrash

  /** Consistency without the promise that every live token has a session. */
  predicate Tame(cfg: Config, st: State, issued: set<string>) {
    "" !in issued && Sound(cfg, st) && Tidy(IndexOf(cfg, st), issued)
  }

  predicate LocalWrite(cfg: Config, st: State, w: Write, id: string, tokens: set<string>) {
    SoundWrite(cfg, w) && Local(IndexOf(cfg, st), ChangeOf(w), id, tokens)
  }

  predicate LocalWrites(cfg: Config, st: State, ws: seq<Write>, id: string, tokens: set<string>) {
    forall i {:trigger ws[i]} :: 0 <= i < |ws| ==> LocalWrite(cfg, st, ws[i], id, tokens)
  }

  lemma {:induction false} ChangeAt(ws: seq<Write>, i: nat)
    requires i < |ws|
    ensures ChangesOf(ws)[i] == ChangeOf(ws[i])
  {
    if i < |ws| - 1 {
      ChangeAt(ws[..|ws| - 1], i);
    }
  }

  lemma LocalWritesStayNear(cfg: Config, st: State, ws: seq<Write>, id: string, tokens: set<string>)
    requires LocalWrites(cfg, st, ws, id, tokens)
    ensures Near(IndexOf(cfg, st), IndexOf(cfg, PerformAll(cfg, st, ws)), id, tokens)
    ensures Sound(cfg, st) ==> Sound(cfg, PerformAll(cfg, st, ws))
  {
    hide Near, Sound, SoundWrite, ChangesOf;
    assert SoundWrites(cfg, ws) by {
      assert forall i :: 0 <= i < |ws| ==> LocalWrite(cfg, st, ws[i], id, tokens);
    }
    PerformShifts(cfg, st, ws);
    forall i | 0 <= i < |ws| ensures Local(IndexOf(cfg, st), ChangesOf(ws)[i], id, tokens) {
      ChangeAt(ws, i);
      assert LocalWrite(cfg, st, ws[i], id, tokens);
    }
    LocalChangesStayNear(IndexOf(cfg, st), ChangesOf(ws), id, tokens);
  }

  lemma LocalPrefix(cfg: Config, st: State, issued: set<string>, ws: seq<Write>, id: string, tokens: set<string>, k: nat)
    requires Tame(cfg, st, issued) && LocalWrites(cfg, st, ws, id, tokens) && k <= |ws|
    requires FreeFor(IndexOf(cfg, st), id, tokens, issued)
    ensures Tame(cfg, PerformAll(cfg, st, ws[..k]), issued)
    ensures Near(IndexOf(cfg, st), IndexOf(cfg, PerformAll(cfg, st, ws[..k])), id, tokens)
  {
    hide LocalWrite, Sound, Tidy;
    LocalWritesStayNear(cfg, st, ws[..k], id, tokens);
    NearIsTidy(IndexOf(cfg, st), IndexOf(cfg, PerformAll(cfg, st, ws[..k])), id, tokens, issued);
  }

  lemma LocalBoth(cfg: Config, st: State, a: seq<Write>, b: seq<Write>, id: string, tokens: set<string>)
    requires LocalWrites(cfg, st, a, id, tokens) && LocalWrites(cfg, st, b, id, tokens)
    ensures LocalWrites(cfg, st, a + b, id, tokens)
  {
    hide LocalWrite;
  }

  /** What is local to a state on the way is local to the state the way began in. */
  lemma LocalFromBefore(cfg: Config, st: State, mid: State, ws: seq<Write>, id: string, tokens: set<string>)
    requires LocalWrites(cfg, mid, ws, id, tokens)
    requires ListOf(IndexOf(cfg, mid), id) <= ListOf(IndexOf(cfg, st), id)
    ensures LocalWrites(cfg, st, ws, id, tokens)
  {
    forall i | 0 <= i < |ws| ensures LocalWrite(cfg, st, ws[i], id, tokens) {
      assert LocalWrite(cfg, mid, ws[i], id, tokens);
    }
  }

  // ---- the operations ----

  lemma {:induction false} EvictionIsLocal(cfg: Config, st: State, terminals: seq<TerminalInfo>, id: string)
    ensures LocalWrites(cfg, st, EvictTerminals(terminals), id, {})
  {
    if terminals != [] {
      EvictionIsLocal(cfg, st, terminals[..|terminals| - 1], id);
    }
  }

  lemma ReplacedIsLocal(cfg: Config, st: State, id: string)
    requires Sound(cfg, st)
    ensures ReplacedPlan(cfg, st, id).result.Ok?
    ensures LocalWrites(cfg, st, ReplacedPlan(cfg, st, id).writes, id, {})
  {
    LoadedIsListed(cfg, st, id);
    if Load(st, id).Ok? {
      var s := Load(st, id).value;
      var evict, save := EvictTerminals(s.terminals), Save(cfg, s.(terminals := []));
      EvictionIsLocal(cfg, st, s.terminals, id);
      assert LocalWrite(cfg, st, save, id, {});
      LocalBoth(cfg, st, evict, [save], id, {});
    }
  }

  lemma EvictionUnmaps(cfg: Config, st: State, terminals: seq<TerminalInfo>)
    ensures PerformAll(cfg, st, EvictTerminals(terminals)).tokens == st.tokens - (TokensOf(terminals) - {""})
  {
    var evict := EvictTerminals(terminals);
    EvictionSound(cfg, terminals);
    EvictionChanges(terminals);
    NamedTokens(terminals);
    PerformShifts(cfg, st, evict);
    UnmapAllIsSafe(IndexOf(cfg, st), ChangesOf(evict), {}, false);
  }

  /** Whatever its state, an evicted account lists nothing, and what it listed is not live. */
  lemma ReplacedEmpties(cfg: Config, st: State, issued: set<string>, id: string)
    requires Tame(cfg, st, issued)
    ensures var mid := PerformAll(cfg, st, ReplacedPlan(cfg, st, id).writes);
            && Tame(cfg, mid, issued)
            && Near(IndexOf(cfg, st), IndexOf(cfg, mid), id, {})
            && ListOf(IndexOf(cfg, mid), id) == {}
            && CurrentToken(mid, id) == Err(NotFound)
            && (forall t | t in ListOf(IndexOf(cfg, st), id) :: t !in mid.tokens)
  {
    hide Near, Tidy;
    var plan := ReplacedPlan(cfg, st, id);
    ReplacedIsLocal(cfg, st, id);
    LocalPrefix(cfg, st, issued, plan.writes, id, {}, |plan.writes|);
    assert plan.writes[..|plan.writes|] == plan.writes;
    LoadedIsListed(cfg, st, id);
    var mid := PerformAll(cfg, st, plan.writes);
    if Load(st, id).Ok? {
      EvictedListIsEmpty(cfg, st, issued, id, Load(st, id).value);
    }
    EmptyListHasNoCurrentToken(cfg, mid, id);
  }

  lemma EvictedListIsEmpty(cfg: Config, st: State, issued: set<string>, id: string, s: Session)
    requires Tame(cfg, st, issued) && Load(st, id) == Ok(s)
    ensures var mid := PerformAll(cfg, st, EvictTerminals(s.terminals) + [Save(cfg, s.(terminals := []))]);
            && ListOf(IndexOf(cfg, mid), id) == {}
            && (forall t | t in TokensOf(s.terminals) :: t !in mid.tokens)
  {
    var evict, save := EvictTerminals(s.terminals), Save(cfg, s.(terminals := []));
    var mid, gone := PerformAll(cfg, st, evict + [save]), PerformAll(cfg, st, evict);
    LoadedIsListed(cfg, st, id);
    hide Savable, EvictTerminals, Tidy, Sound;
    assert (evict + [save])[..|evict|] == evict;
    WriteChangesIndex(cfg, gone, save);
    EvictionUnmaps(cfg, st, s.terminals);
    assert TokensOf(s.terminals) <= issued;
  }

  /** The token a sign-in maps, if it gets that far. */
  function SignedInToken(cfg: Config, st: State, op: Op): Result<string, Error>
    requires op.Login?
  {
    if Renews(cfg, st, op) then CurrentToken(st, op.id) else op.minted
  }

  function Scope(cfg: Config, st: State, op: Op): set<string> {
    if op.Login? && SignedInToken(cfg, st, op).Ok? then {SignedInToken(cfg, st, op).value} else {}
  }

  /** The account an operation is about. */
  function Subject(cfg: Config, st: State, op: Op): string {
    match op
    case Login(id, _, _) => id
    case SaveSession(s, _) => LoginIDOf(cfg, s)
    case _ => if op.token in st.tokens then st.tokens[op.token].value else ""
  }

  lemma FreshIsLocal(cfg: Config, st: State, id: string, minted: Result<string, Error>, newId: string)
    requires Sound(cfg, st) && !Blank(id)
    ensures FreshPlan(cfg, st, id, minted, newId).result == minted
    ensures LocalWrites(cfg, st, FreshPlan(cfg, st, id, minted, newId).writes, id, if minted.Ok? then {minted.value} else {})
  {
    hide Sound, Savable;
    if minted.Ok? {
      FreshWrites(cfg, st, id, minted.value, newId);
      LoadedIsListed(cfg, st, id);
      SignedInTokens(cfg, st, OpenSession(st, id, newId).value, id, minted.value);
    }
  }

  lemma RenewIsLocal(cfg: Config, st: State, token: string, id: string)
    requires Sound(cfg, st) && !Blank(id) && CurrentToken(st, id) == Ok(token)
    ensures RenewPlan(cfg, st, token, id).result.Ok?
    ensures LocalWrites(cfg, st, RenewPlan(cfg, st, token, id).writes, id, {token})
    ensures token in ListOf(IndexOf(cfg, st), id)
  {
    LoadedIsListed(cfg, st, id);
    FirstTokenFails(st, id);
  }

  lemma SignInWithoutCurrent(cfg: Config, st: State, op: Op)
    requires Sound(cfg, st) && op.Login? && !Blank(op.id)
    requires !cfg.isShare || CurrentToken(st, op.id) == Err(NotFound)
    ensures var plan := SignInPlan(cfg, st, op.id, op.minted, op.newId);
            && plan == FreshPlan(cfg, st, op.id, op.minted, op.newId)
            && plan.result == op.minted
            && LocalWrites(cfg, st, plan.writes, op.id, if op.minted.Ok? then {op.minted.value} else {})
  {
    hide LocalWrites, FreshPlan, Sound;
    FreshIsLocal(cfg, st, op.id, op.minted, op.newId);
  }

  lemma LoginIsLocal(cfg: Config, st: State, issued: set<string>, op: Op)
    requires Tame(cfg, st, issued) && op.Login? && !Blank(op.id)
    ensures LoginPlan(cfg, st, op.id, op.minted, op.newId).result == SignedInToken(cfg, st, op)
    ensures LocalWrites(cfg, st, WritesOf(cfg, st, op), op.id, Scope(cfg, st, op))
  {
    hide LocalWrites, Sound, Tidy, Near;
    if cfg.isConcurrent {
      LoadedIsListed(cfg, st, op.id);
      FirstTokenFails(st, op.id);
      if Renews(cfg, st, op) {
        RenewIsLocal(cfg, st, CurrentToken(st, op.id).value, op.id);
      } else {
        SignInWithoutCurrent(cfg, st, op);
      }
      var plan := SignInPlan(cfg, st, op.id, op.minted, op.newId);
      assert [] + plan.writes == plan.writes;
    } else {
      var evict := ReplacedPlan(cfg, st, op.id).writes;
      var mid := PerformAll(cfg, st, evict);
      ReplacedIsLocal(cfg, st, op.id);
      ReplacedEmpties(cfg, st, issued, op.id);
      SignInWithoutCurrent(cfg, mid, op);
      var rest := SignInPlan(cfg, mid, op.id, op.minted, op.newId).writes;
      LocalFromBefore(cfg, st, mid, rest, op.id, Scope(cfg, st, op));
      MoreTokensMayBeLocal(cfg, st, evict, op.id, Scope(cfg, st, op));
      LocalBoth(cfg, st, evict, rest, op.id, Scope(cfg, st, op));
    }
  }

  lemma MoreTokensMayBeLocal(cfg: Config, st: State, ws: seq<Write>, id: string, tokens: set<string>)
    requires LocalWrites(cfg, st, ws, id, {})
    ensures LocalWrites(cfg, st, ws, id, tokens)
  {
    forall i | 0 <= i < |ws| ensures LocalWrite(cfg, st, ws[i], id, tokens) {
      assert LocalWrite(cfg, st, ws[i], id, {});
    }
  }

  lemma LogoutIsLocal(cfg: Config, st: State, issued: set<string>, token: string)
    requires Tame(cfg, st, issued)
    ensures LocalWrites(cfg, st, LogoutPlan(cfg, st, token).writes, Subject(cfg, st, Logout(token)), {})
  {
    hide LocalWrites, Sound, Tidy, Savable;
    TameTokens(cfg, st, issued);
    LogoutWrites(cfg, st, token);
    var id := Subject(cfg, st, Logout(token));
    DeletesAreLocal(cfg, st, token, id);
    if token in st.tokens && Load(st, id).Ok? {
      UnlistingIsLocal(cfg, st, id, token);
      LocalBoth(cfg, st, LogoutDeletes(token), [Unlisting(id, Load(st, id).value, token)], id, {});
    }
  }

  lemma TameTokens(cfg: Config, st: State, issued: set<string>)
    requires Tame(cfg, st, issued)
    ensures st.tokens.Keys <= issued && "" !in st.tokens
  {
    forall t | t in st.tokens ensures t in issued {
      assert AtHome(IndexOf(cfg, st), t);
    }
  }

  lemma DeletesAreLocal(cfg: Config, st: State, token: string, id: string)
    ensures LocalWrites(cfg, st, LogoutDeletes(token), id, {})
  {
  }

  lemma UnlistingIsLocal(cfg: Config, st: State, id: string, token: string)
    requires Sound(cfg, st) && Load(st, id).Ok?
    ensures LocalWrites(cfg, st, [Unlisting(id, Load(st, id).value, token)], id, {})
  {
    hide Sound, Savable;
    var s := Load(st, id).value;
    LoadedIsListed(cfg, st, id);
    UnlistingSound(cfg, id, s, token);
    WithoutTokens(s.terminals, token);
  }

  lemma SaveIsLocal(cfg: Config, st: State, s: Session, newId: string)
    requires Sound(cfg, st) && UpToDate(cfg, st, s)
    ensures LocalWrites(cfg, st, SavePlan(cfg, s, newId).writes, LoginIDOf(cfg, s), {})
  {
    LoadedIsListed(cfg, st, LoginIDOf(cfg, s));
  }

  lemma OpIsLocal(cfg: Config, st: State, issued: set<string>, op: Op)
    requires Tame(cfg, st, issued) && Allowed(cfg, st, issued, op)
    ensures LocalWrites(cfg, st, WritesOf(cfg, st, op), Subject(cfg, st, op), Scope(cfg, st, op))
  {
    hide LocalWrites, Sound, Tidy;
    match op
    case Login(id, _, _) =>
      if Blank(id) {
        assert WritesOf(cfg, st, op) == [];
        NothingIsLocal(cfg, st, id, Scope(cfg, st, op));
      } else {
        LoginIsLocal(cfg, st, issued, op);
      }
    case Logout(token) => LogoutIsLocal(cfg, st, issued, token);
    case CheckLogin(token) =>
      LogoutIsLocal(cfg, st, issued, token);
      StampsAreLocal(cfg, st, token, Subject(cfg, st, op));
      NothingIsLocal(cfg, st, Subject(cfg, st, op), {});
    case SaveSession(s, newId) => SaveIsLocal(cfg, st, s, newId);
  }

  lemma NothingIsLocal(cfg: Config, st: State, id: string, tokens: set<string>)
    ensures LocalWrites(cfg, st, [], id, tokens)
  {
  }

  lemma StampsAreLocal(cfg: Config, st: State, token: string, id: string)
    ensures LocalWrites(cfg, st, StampNow(cfg, st, token), id, {})
  {
  }

  lemma ScopeIsFree(cfg: Config, st: State, issued: set<string>, op: Op)
    requires Tame(cfg, st, issued) && Allowed(cfg, st, issued, op)
    ensures FreeFor(IndexOf(cfg, st), Subject(cfg, st, op), Scope(cfg, st, op), Issue(issued, op))
  {
    var x := IndexOf(cfg, st);
    if op.Login? && Renews(cfg, st, op) {
      var token := CurrentToken(st, op.id).value;
      RenewIsLocal(cfg, st, token, op.id);
      assert token in x.owners ==> AtHome(x, token);
      forall other | other in x.lists && token in x.lists[other].value ensures other == op.id {
        assert Apart(x, op.id, other);
      }
    } else if op.Login? && op.minted.Ok? {
      GoneIsUnissued(x, issued, op.minted.value);
    }
  }

  /** Any operation cut after any number of its writes, the torn renewal included, leaves every token with
      its own account only. */
  lemma EveryPrefixIsTame(cfg: Config, st: State, issued: set<string>, op: Op, k: nat)
    requires Tame(cfg, st, issued) && Allowed(cfg, st, issued, op) && k <= |WritesOf(cfg, st, op)|
    ensures var after := PerformAll(cfg, st, WritesOf(cfg, st, op)[..k]);
            && Tame(cfg, after, Issue(issued, op))
            && Near(IndexOf(cfg, st), IndexOf(cfg, after), Subject(cfg, st, op), Scope(cfg, st, op))
  {
    hide LocalWrites, Sound, Near, FreeFor;
    OpIsLocal(cfg, st, issued, op);
    ScopeIsFree(cfg, st, issued, op);
    MoreIssuedIsTidy(IndexOf(cfg, st), issued, Issue(issued, op));
    LocalPrefix(cfg, st, Issue(issued, op), WritesOf(cfg, st, op), Subject(cfg, st, op), Scope(cfg, st, op), k);
  }

  lemma MoreIssuedIsTidy(x: Index, issued: set<string>, more: set<string>)
    requires Tidy(x, issued) && issued <= more
    ensures Tidy(x, more)
  {
    forall t | t in x.owners ensures t in more && AtHome(x, t) && NoLater(x.owners[t].deadline, x.due) {
      assert AtHome(x, t);
    }
  }
}
