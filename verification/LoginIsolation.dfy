/** Accounts do not interfere: what the store holds of an account depends on the account's own operations
    and on time, whatever the others do and wherever they crash. */
module LoginIsolation {
  import opened Results
  import opened Text
  import opened MemoryStores
  import opened Sessions
  import opened TokenIndex
  import opened LoginSpec
  import opened LoginInvariant
  import opened LoginCrash
  import opened LoginTidy
  import opened LoginTorn
  import opened LoginRuns

  function MappedTo(st: State, account: string): set<string> {
    set t | t in st.tokens && st.tokens[t].value == account
  }

  /** The tokens that map to the account or that its session lists. */
  function Belonging(cfg: Config, st: State, account: string): set<string> {
    MappedTo(st, account) + ListOf(IndexOf(cfg, st), account)
  }

  datatype Holdings = Holdings(
    session: Option<Dated<Result<Session, Error>>>,
    tokens: map<string, Dated<string>>,
    stamps: map<string, Dated<string>>)

  /** All that the store holds of an account: its session, the tokens that map to it, and the stamps of
      the tokens that belong to it, each with its deadline. */
  function HoldingsOf(cfg: Config, st: State, account: string): Holdings {
    Holdings(if account in st.sessions then Some(st.sessions[account]) else None,
             map t | t in MappedTo(st, account) :: st.tokens[t],
             map t | t in st.stamps && t in Belonging(cfg, st, account) :: st.stamps[t])
  }

  /** The operation is about the account. */
  predicate Concerns(cfg: Config, st: State, op: Op, account: string) {
    match op
    case Login(id, _, _) => id == account
    case SaveSession(s, _) => LoginIDOf(cfg, s) == account
    case _ => op.token in Belonging(cfg, st, account)
  }

  // ---- what an operation reaches ----

  predicate Within(w: Write, accounts: set<string>, reach: set<string>) {
    match w
    case PutToken(t, id) => id in accounts && t in reach
    case PutSession(id, _) => id in accounts
    case DelSession(id) => id in accounts
    case DelTokenSession(_) => true
    case _ => w.token in reach
  }

  predicate AllWithin(ws: seq<Write>, accounts: set<string>, reach: set<string>) {
    forall i {:trigger ws[i]} :: 0 <= i < |ws| ==> Within(ws[i], accounts, reach)
  }

  /** The accounts whose mappings and sessions the operation may write. */
  function Accounts(cfg: Config, st: State, op: Op): set<string> {
    match op
    case Login(id, _, _) => {id}
    case SaveSession(s, _) => {LoginIDOf(cfg, s)}
    case _ => if op.token in st.tokens then {st.tokens[op.token].value} else {}
  }

  /** The tokens whose mappings and stamps it may write. */
  function Reach(cfg: Config, st: State, op: Op): set<string> {
    match op
    case Login(id, _, _) => ListOf(IndexOf(cfg, st), id) + Scope(cfg, st, op)
    case SaveSession(_, _) => {}
    case _ => {op.token}
  }

  lemma NothingReached(accounts: set<string>, reach: set<string>)
    ensures AllWithin([], accounts, reach)
  {
  }

  lemma BothWithin(a: seq<Write>, b: seq<Write>, accounts: set<string>, reach: set<string>)
    requires AllWithin(a, accounts, reach) && AllWithin(b, accounts, reach)
    ensures AllWithin(a + b, accounts, reach)
  {
    hide Within;
  }

  lemma {:induction false} EvictionReach(terminals: seq<TerminalInfo>, accounts: set<string>)
    ensures AllWithin(EvictTerminals(terminals), accounts, TokensOf(terminals))
  {
    if terminals != [] {
      TokensOfLast(terminals);
      EvictionReach(terminals[..|terminals| - 1], accounts);
    }
  }

  lemma ReplacedReach(cfg: Config, st: State, op: Op)
    requires Sound(cfg, st) && op.Login?
    ensures AllWithin(ReplacedPlan(cfg, st, op.id).writes, {op.id}, Reach(cfg, st, op))
  {
    LoadedIsListed(cfg, st, op.id);
    if Load(st, op.id).Ok? {
      EvictionReach(Load(st, op.id).value.terminals, {op.id});
    }
  }

  /** Signing in at mid, on the way of a login that began in st. */
  lemma SignInReach(cfg: Config, st: State, mid: State, op: Op)
    requires Sound(cfg, mid) && op.Login? && !Blank(op.id)
    requires if cfg.isConcurrent then mid == st else CurrentToken(mid, op.id) == Err(NotFound)
    ensures AllWithin(SignInPlan(cfg, mid, op.id, op.minted, op.newId).writes, {op.id}, Reach(cfg, st, op))
  {
    hide Sound, Savable;
    LoadedIsListed(cfg, mid, op.id);
    FirstTokenFails(mid, op.id);
    if op.minted.Ok? {
      FreshWrites(cfg, mid, op.id, op.minted.value, op.newId);
    }
  }

  lemma LoginReach(cfg: Config, st: State, issued: set<string>, op: Op)
    requires Tame(cfg, st, issued) && op.Login?
    ensures AllWithin(WritesOf(cfg, st, op), {op.id}, Reach(cfg, st, op))
  {
    hide Sound, Tidy, Near, AllWithin, Within, Reach;
    if Blank(op.id) {
      assert WritesOf(cfg, st, op) == [];
      NothingReached({op.id}, Reach(cfg, st, op));
    } else if cfg.isConcurrent {
      SignInReach(cfg, st, st, op);
      var rest := SignInPlan(cfg, st, op.id, op.minted, op.newId).writes;
      assert [] + rest == rest;
    } else {
      var evict := ReplacedPlan(cfg, st, op.id).writes;
      var mid := PerformAll(cfg, st, evict);
      ReplacedIsLocal(cfg, st, op.id);
      ReplacedEmpties(cfg, st, issued, op.id);
      ReplacedReach(cfg, st, op);
      SignInReach(cfg, st, mid, op);
      BothWithin(evict, SignInPlan(cfg, mid, op.id, op.minted, op.newId).writes, {op.id}, Reach(cfg, st, op));
    }
  }

  lemma LogoutReach(cfg: Config, st: State, issued: set<string>, op: Op)
    requires Tame(cfg, st, issued) && (op.Logout? || op.CheckLogin?)
    ensures AllWithin(LogoutPlan(cfg, st, op.token).writes, Accounts(cfg, st, op), Reach(cfg, st, op))
  {
    hide Sound, Tidy;
    TameTokens(cfg, st, issued);
    LogoutWrites(cfg, st, op.token);
  }

  lemma OpReach(cfg: Config, st: State, issued: set<string>, op: Op)
    requires Tame(cfg, st, issued)
    ensures AllWithin(WritesOf(cfg, st, op), Accounts(cfg, st, op), Reach(cfg, st, op))
  {
    hide Tame;
    match op
    case Login(_, _, _) => LoginReach(cfg, st, issued, op);
    case Logout(_) => LogoutReach(cfg, st, issued, op);
    case CheckLogin(_) => LogoutReach(cfg, st, issued, op);
    case SaveSession(_, _) =>
  }

  // ---- two states that hold the same of an account ----

  function EntryOf<V>(m: map<string, Dated<V>>, key: string): Option<Dated<V>> {
    if key in m then Some(m[key]) else None
  }

  function MappingOf(st: State, t: string, account: string): Option<Dated<string>> {
    if t in st.tokens && st.tokens[t].value == account then Some(st.tokens[t]) else None
  }

  predicate AlikeToken(a: State, b: State, account: string, t: string) {
    MappingOf(a, t, account) == MappingOf(b, t, account) && EntryOf(a.stamps, t) == EntryOf(b.stamps, t)
  }

  /** The states agree on the account's session, and on the given tokens as far as the account goes. */
  predicate Alike(a: State, b: State, account: string, tokens: set<string>) {
    && a.now == b.now
    && EntryOf(a.sessions, account) == EntryOf(b.sessions, account)
    && forall t {:trigger AlikeToken(a, b, account, t)} | t in tokens :: AlikeToken(a, b, account, t)
  }

  lemma PerformAlike(cfg: Config, a: State, b: State, w: Write, account: string, tokens: set<string>)
    requires Alike(a, b, account, tokens)
    ensures Alike(Perform(cfg, a, w), Perform(cfg, b, w), account, tokens)
  {
    hide DueDate, PrintInt;
    forall t | t in tokens ensures AlikeToken(Perform(cfg, a, w), Perform(cfg, b, w), account, t) {
      assert AlikeToken(a, b, account, t);
    }
  }

  lemma {:induction false} PerformAllAlike(cfg: Config, a: State, b: State, ws: seq<Write>,
                                          account: string, tokens: set<string>)
    requires Alike(a, b, account, tokens)
    ensures Alike(PerformAll(cfg, a, ws), PerformAll(cfg, b, ws), account, tokens)
  {
    hide Alike, Perform;
    if ws != [] {
      var front := ws[..|ws| - 1];
      PerformAllAlike(cfg, a, b, front, account, tokens);
      PerformAlike(cfg, PerformAll(cfg, a, front), PerformAll(cfg, b, front), ws[|ws| - 1], account, tokens);
    }
  }

  lemma LaterAlike(a: State, b: State, elapsed: nat, account: string, tokens: set<string>)
    requires Alike(a, b, account, tokens)
    ensures Alike(Later(a, elapsed), Later(b, elapsed), account, tokens)
  {
    forall t | t in tokens ensures AlikeToken(Later(a, elapsed), Later(b, elapsed), account, t) {
      assert AlikeToken(a, b, account, t);
    }
  }

  lemma SameSessionSameList(cfg: Config, a: State, b: State, account: string)
    requires EntryOf(a.sessions, account) == EntryOf(b.sessions, account)
    ensures ListOf(IndexOf(cfg, a), account) == ListOf(IndexOf(cfg, b), account)
  {
  }

  lemma AlikeBelonging(cfg: Config, a: State, b: State, account: string, tokens: set<string>)
    requires Alike(a, b, account, tokens)
    requires MappedTo(a, account) <= tokens && MappedTo(b, account) <= tokens
    ensures Belonging(cfg, a, account) == Belonging(cfg, b, account)
    ensures HoldingsOf(cfg, a, account).tokens == HoldingsOf(cfg, b, account).tokens
  {
    SameSessionSameList(cfg, a, b, account);
    hide IndexOf;
    forall t | t in tokens ensures MappingOf(a, t, account) == MappingOf(b, t, account) {
      assert AlikeToken(a, b, account, t);
    }
    assert MappedTo(a, account) == MappedTo(b, account);
  }

  lemma SameStamps(a: map<string, Dated<string>>, b: map<string, Dated<string>>, tokens: set<string>)
    requires forall t {:trigger t in tokens} | t in tokens :: EntryOf(a, t) == EntryOf(b, t)
    ensures (map t | t in a && t in tokens :: a[t]) == (map t | t in b && t in tokens :: b[t])
  {
    forall t | t in tokens ensures t in a <==> t in b {
      assert EntryOf(a, t) == EntryOf(b, t);
    }
  }

  lemma AlikeHoldTheSame(cfg: Config, a: State, b: State, account: string, tokens: set<string>)
    requires Alike(a, b, account, tokens)
    requires Belonging(cfg, a, account) <= tokens && Belonging(cfg, b, account) <= tokens
    ensures HoldingsOf(cfg, a, account) == HoldingsOf(cfg, b, account)
  {
    AlikeBelonging(cfg, a, b, account, tokens);
    hide Belonging, MappedTo, IndexOf, ListOf, MappingOf;
    forall t | t in Belonging(cfg, a, account) ensures EntryOf(a.stamps, t) == EntryOf(b.stamps, t) {
      assert AlikeToken(a, b, account, t);
    }
    SameStamps(a.stamps, b.stamps, Belonging(cfg, a, account));
  }

  // ---- what it does not reach stays ----

  lemma WriteLeaves(cfg: Config, st: State, w: Write, accounts: set<string>, reach: set<string>,
                    account: string, tokens: set<string>)
    requires Within(w, accounts, reach) && account !in accounts && tokens !! reach
    ensures Alike(st, Perform(cfg, st, w), account, tokens)
    ensures MappedTo(Perform(cfg, st, w), account) <= MappedTo(st, account)
  {
    hide DueDate, PrintInt;
  }

  lemma {:induction false} WritesLeave(cfg: Config, st: State, ws: seq<Write>, accounts: set<string>, reach: set<string>,
                                       account: string, tokens: set<string>)
    requires AllWithin(ws, accounts, reach) && account !in accounts && tokens !! reach
    ensures Alike(st, PerformAll(cfg, st, ws), account, tokens)
    ensures MappedTo(PerformAll(cfg, st, ws), account) <= MappedTo(st, account)
  {
    hide Within, Perform, MappedTo, AlikeToken;
    if ws != [] {
      var front := ws[..|ws| - 1];
      var mid := PerformAll(cfg, st, front);
      WritesLeave(cfg, st, front, accounts, reach, account, tokens);
      WriteLeaves(cfg, mid, ws[|ws| - 1], accounts, reach, account, tokens);
      AlikeAcross(st, mid, Perform(cfg, mid, ws[|ws| - 1]), account, tokens);
    } else {
      AlikeItself(st, account, tokens);
    }
  }

  lemma AlikeItself(a: State, account: string, tokens: set<string>)
    ensures Alike(a, a, account, tokens)
  {
  }

  lemma AlikeAcross(a: State, b: State, c: State, account: string, tokens: set<string>)
    requires Alike(a, b, account, tokens) && Alike(b, c, account, tokens)
    ensures Alike(a, c, account, tokens)
  {
    forall t | t in tokens ensures AlikeToken(a, c, account, t) {
      assert AlikeToken(a, b, account, t) && AlikeToken(b, c, account, t);
    }
  }

  /** An operation reaches no token of an account that it is not about. */
  lemma ReachIsForeign(cfg: Config, st: State, issued: set<string>, op: Op, account: string)
    requires Tame(cfg, st, issued) && Allowed(cfg, st, issued, op) && !Concerns(cfg, st, op, account)
    ensures account !in Accounts(cfg, st, op) && Belonging(cfg, st, account) !! Reach(cfg, st, op)
  {
    hide Sound, Allowed, Scope;
    var x := IndexOf(cfg, st);
    if op.Login? {
      ScopeIsFree(cfg, st, issued, op);
      forall t | t in Belonging(cfg, st, account) ensures t !in Reach(cfg, st, op) {
        assert t in x.owners ==> AtHome(x, t);
        assert op.id in x.lists && account in x.lists ==> Apart(x, op.id, account);
      }
    }
  }

  lemma BelongingShrinks(cfg: Config, st: State, after: State, account: string)
    requires EntryOf(st.sessions, account) == EntryOf(after.sessions, account)
    requires MappedTo(after, account) <= MappedTo(st, account)
    ensures Belonging(cfg, after, account) <= Belonging(cfg, st, account)
  {
    SameSessionSameList(cfg, st, after, account);
  }

  /** Cut any operation anywhere: of every account it is not about the store holds what it held before,
      the same session, the same tokens and stamps, with the same deadlines. */
  lemma EveryPrefixLeavesOthersAlone(cfg: Config, st: State, issued: set<string>, op: Op, k: nat, account: string)
    requires Tame(cfg, st, issued) && Allowed(cfg, st, issued, op) && k <= |WritesOf(cfg, st, op)|
    requires !Concerns(cfg, st, op, account)
    ensures HoldingsOf(cfg, PerformAll(cfg, st, WritesOf(cfg, st, op)[..k]), account) == HoldingsOf(cfg, st, account)
  {
    hide Tame, Allowed, Within, Concerns, HoldingsOf, Belonging, Reach, Accounts;
    OpReach(cfg, st, issued, op);
    ReachIsForeign(cfg, st, issued, op, account);
    var after, tokens := PerformAll(cfg, st, WritesOf(cfg, st, op)[..k]), Belonging(cfg, st, account);
    WritesLeave(cfg, st, WritesOf(cfg, st, op)[..k], Accounts(cfg, st, op), Reach(cfg, st, op), account, tokens);
    BelongingShrinks(cfg, st, after, account);
    AlikeHoldTheSame(cfg, st, after, account, tokens);
  }

  // ---- stamps belong to issued tokens ----

  predicate Kept(cfg: Config, w: World) {
    Tame(cfg, w.st, w.issued) && w.st.stamps.Keys <= w.issued
  }

  lemma {:induction false} StampsStayIssued(cfg: Config, st: State, ws: seq<Write>, issued: set<string>)
    requires st.stamps.Keys <= issued
    requires forall i :: 0 <= i < |ws| && ws[i].PutStamp? ==> ws[i].token in issued
    ensures PerformAll(cfg, st, ws).stamps.Keys <= issued
  {
    if ws != [] {
      StampsStayIssued(cfg, st, ws[..|ws| - 1], issued);
    }
  }

  lemma StampsAreIssued(cfg: Config, st: State, issued: set<string>, op: Op, i: nat)
    requires Tame(cfg, st, issued) && Allowed(cfg, st, issued, op)
    requires i < |WritesOf(cfg, st, op)| && WritesOf(cfg, st, op)[i].PutStamp?
    ensures WritesOf(cfg, st, op)[i].token in Issue(issued, op)
  {
    hide Sound, LoginPlan, Allowed, Scope;
    OpReach(cfg, st, issued, op);
    ScopeIsFree(cfg, st, issued, op);
    if op.CheckLogin? {
      TameTokens(cfg, st, issued);
    }
  }

  lemma CutIsKept(cfg: Config, w: World, op: Op, k: nat)
    requires Kept(cfg, w) && Allowed(cfg, w.st, w.issued, op) && k <= |WritesOf(cfg, w.st, op)|
    ensures Kept(cfg, CutAfter(cfg, w, op, k))
  {
    hide Tame, Allowed, WritesOf, TornAfter;
    EveryPrefixIsTame(cfg, w.st, w.issued, op, k);
    var ws := WritesOf(cfg, w.st, op);
    forall i | 0 <= i < |ws| && ws[i].PutStamp? ensures ws[i].token in Issue(w.issued, op) {
      StampsAreIssued(cfg, w.st, w.issued, op, i);
    }
    StampsStayIssued(cfg, w.st, ws[..k], Issue(w.issued, op));
  }

  lemma StepIsKept(cfg: Config, w: World, step: Step)
    requires Kept(cfg, w) && Possible(cfg, w, step)
    ensures Kept(cfg, Next(cfg, w, step))
  {
    hide Tame, Allowed, CutAfter;
    match step
    case Complete(op) => CutIsKept(cfg, w, op, |WritesOf(cfg, w.st, op)|);
    case Cut(op, k) => CutIsKept(cfg, w, op, k);
    case Wait(elapsed) => LaterIsTame(cfg, w.st, w.issued, elapsed);
  }

  // ---- the account's own operations ----

  lemma SameHoldingsAreAlike(cfg: Config, a: State, b: State, account: string, more: set<string>)
    requires a.now == b.now && HoldingsOf(cfg, a, account) == HoldingsOf(cfg, b, account)
    requires forall t | t in more :: t !in a.tokens && t !in b.tokens && t !in a.stamps && t !in b.stamps
    ensures Belonging(cfg, a, account) == Belonging(cfg, b, account)
    ensures Alike(a, b, account, Belonging(cfg, a, account) + more)
  {
    var ha, hb := HoldingsOf(cfg, a, account), HoldingsOf(cfg, b, account);
    assert EntryOf(a.sessions, account) == ha.session && EntryOf(b.sessions, account) == hb.session;
    SameSessionSameList(cfg, a, b, account);
    hide IndexOf, ListOf;
    assert ha.tokens.Keys == MappedTo(a, account) && hb.tokens.Keys == MappedTo(b, account);
    forall t | t in Belonging(cfg, a, account) + more ensures AlikeToken(a, b, account, t) {
      assert MappingOf(a, t, account) == (if t in ha.tokens then Some(ha.tokens[t]) else None);
      assert MappingOf(b, t, account) == (if t in hb.tokens then Some(hb.tokens[t]) else None);
      if t !in more {
        assert EntryOf(a.stamps, t) == (if t in ha.stamps then Some(ha.stamps[t]) else None);
        assert EntryOf(b.stamps, t) == (if t in hb.stamps then Some(hb.stamps[t]) else None);
      }
    }
  }

  /** A token that belongs to an account and is live maps to that account. */
  lemma BelongingMaps(cfg: Config, st: State, issued: set<string>, account: string, token: string)
    requires Tame(cfg, st, issued) && token in Belonging(cfg, st, account)
    ensures token in st.tokens <==> MappingOf(st, token, account).Some?
  {
    assert token in st.tokens ==> AtHome(IndexOf(cfg, st), token);
  }

  /** Logins and checks answer a string, the others only whether they failed. */
  datatype Answer = Answer(text: Result<string, Error>) | Done(status: Result<(), Error>)

  function AnswerOf(cfg: Config, st: State, op: Op): Answer {
    match op
    case Login(id, minted, newId) => Answer(LoginPlan(cfg, st, id, minted, newId).result)
    case Logout(token) => Done(LogoutPlan(cfg, st, token).result)
    case CheckLogin(token) => Answer(CheckPlan(cfg, st, token).result)
    case SaveSession(s, newId) => Done(SavePlan(cfg, s, newId).result)
  }

  /** What an operation of the account writes and answers depends on what the store holds of the account. */
  lemma SamePlans(cfg: Config, a: State, b: State, op: Op, account: string)
    requires a.now == b.now && EntryOf(a.sessions, account) == EntryOf(b.sessions, account)
    requires op.Login? ==> op.id == account
    requires op.Logout? || op.CheckLogin? ==>
               && (op.token in a.tokens <==> MappingOf(a, op.token, account).Some?)
               && (op.token in b.tokens <==> MappingOf(b, op.token, account).Some?)
               && AlikeToken(a, b, account, op.token)
    ensures WritesOf(cfg, a, op) == WritesOf(cfg, b, op) && AnswerOf(cfg, a, op) == AnswerOf(cfg, b, op)
  {
    assert Load(a, account) == Load(b, account);
    if op.Login? {
      var evict := ReplacedPlan(cfg, a, account).writes;
      SameSignIn(cfg, a, b, op);
      PerformAllAlike(cfg, a, b, evict, account, {});
      SameSignIn(cfg, PerformAll(cfg, a, evict), PerformAll(cfg, b, evict), op);
      hide SignInPlan, PerformAll;
      NothingPerformed(cfg, a);
      NothingPerformed(cfg, b);
    }
  }

  lemma SameSignIn(cfg: Config, a: State, b: State, op: Op)
    requires op.Login? && a.now == b.now && EntryOf(a.sessions, op.id) == EntryOf(b.sessions, op.id)
    ensures SignInPlan(cfg, a, op.id, op.minted, op.newId) == SignInPlan(cfg, b, op.id, op.minted, op.newId)
  {
    assert Load(a, op.id) == Load(b, op.id);
  }

  /** The worlds hold the same of the account; v may have issued fewer tokens. */
  predicate Matches(cfg: Config, w: World, v: World, account: string) {
    && v.st.now == w.st.now
    && HoldingsOf(cfg, v.st, account) == HoldingsOf(cfg, w.st, account)
    && v.issued <= w.issued
  }

  function MintedBy(op: Op): set<string> {
    if op.Login? && op.minted.Ok? then {op.minted.value} else {}
  }

  lemma MatchingAreAlike(cfg: Config, w: World, v: World, op: Op, account: string)
    requires Kept(cfg, w) && Kept(cfg, v) && Matches(cfg, w, v, account) && Allowed(cfg, w.st, w.issued, op)
    ensures Belonging(cfg, v.st, account) == Belonging(cfg, w.st, account)
    ensures Alike(w.st, v.st, account, Belonging(cfg, w.st, account) + MintedBy(op))
  {
    hide Sound, Tidy, HoldingsOf, UpToDate;
    TameTokens(cfg, w.st, w.issued);
    TameTokens(cfg, v.st, v.issued);
    SameHoldingsAreAlike(cfg, w.st, v.st, account, MintedBy(op));
  }

  /** An operation about the account is allowed, and does and answers the same, where the store holds the
      same of the account. */
  lemma MatchingAnswers(cfg: Config, w: World, v: World, op: Op, account: string)
    requires Kept(cfg, w) && Kept(cfg, v) && Matches(cfg, w, v, account)
    requires Allowed(cfg, w.st, w.issued, op) && Concerns(cfg, w.st, op, account)
    ensures Allowed(cfg, v.st, v.issued, op) && Concerns(cfg, v.st, op, account)
    ensures WritesOf(cfg, v.st, op) == WritesOf(cfg, w.st, op) && AnswerOf(cfg, v.st, op) == AnswerOf(cfg, w.st, op)
  {
    hide Tame, HoldingsOf, Belonging;
    MatchingAreAlike(cfg, w, v, op, account);
    if op.Logout? || op.CheckLogin? {
      BelongingMaps(cfg, w.st, w.issued, account, op.token);
      BelongingMaps(cfg, v.st, v.issued, account, op.token);
      assert AlikeToken(w.st, v.st, account, op.token);
    }
    SamePlans(cfg, w.st, v.st, op, account);
  }

  lemma BelongingGrows(cfg: Config, st: State, issued: set<string>, op: Op, k: nat, account: string)
    requires Tame(cfg, st, issued) && Allowed(cfg, st, issued, op) && k <= |WritesOf(cfg, st, op)|
    requires Concerns(cfg, st, op, account)
    ensures var after := PerformAll(cfg, st, WritesOf(cfg, st, op)[..k]);
            Belonging(cfg, after, account) <= Belonging(cfg, st, account) + MintedBy(op)
  {
    hide Sound, Tidy, Allowed, WritesOf;
    EveryPrefixIsTame(cfg, st, issued, op, k);
    LoadedIsListed(cfg, st, account);
    FirstTokenFails(st, account);
  }

  lemma OwnCutMatches(cfg: Config, w: World, v: World, op: Op, k: nat, account: string)
    requires Kept(cfg, w) && Kept(cfg, v) && Matches(cfg, w, v, account)
    requires Allowed(cfg, w.st, w.issued, op) && Concerns(cfg, w.st, op, account) && k <= |WritesOf(cfg, w.st, op)|
    ensures Allowed(cfg, v.st, v.issued, op) && WritesOf(cfg, v.st, op) == WritesOf(cfg, w.st, op)
    ensures Matches(cfg, CutAfter(cfg, w, op, k), CutAfter(cfg, v, op, k), account)
  {
    hide Tame, Allowed, Concerns, HoldingsOf, Belonging, WritesOf, TornAfter;
    MatchingAnswers(cfg, w, v, op, account);
    MatchingAreAlike(cfg, w, v, op, account);
    BelongingGrows(cfg, w.st, w.issued, op, k, account);
    BelongingGrows(cfg, v.st, v.issued, op, k, account);
    var ws, tokens := WritesOf(cfg, w.st, op)[..k], Belonging(cfg, w.st, account) + MintedBy(op);
    PerformAllAlike(cfg, w.st, v.st, ws, account, tokens);
    AlikeHoldTheSame(cfg, PerformAll(cfg, w.st, ws), PerformAll(cfg, v.st, ws), account, tokens);
  }

  // ---- runs without the others ----

  /** The steps of the run that are about the account, and the waiting. */
  function OwnSteps(cfg: Config, w: World, steps: seq<Step>, account: string): seq<Step>
    requires Runs(cfg, w, steps)
    decreases |steps|
  {
    if steps == [] then []
    else
      var rest := OwnSteps(cfg, Next(cfg, w, steps[0]), steps[1..], account);
      if steps[0].Wait? || Concerns(cfg, w.st, steps[0].op, account) then [steps[0]] + rest else rest
  }

  lemma WaitMatches(cfg: Config, w: World, v: World, elapsed: nat, account: string)
    requires Matches(cfg, w, v, account)
    ensures Matches(cfg, Next(cfg, w, Wait(elapsed)), Next(cfg, v, Wait(elapsed)), account)
  {
    hide HoldingsOf, Belonging, Later;
    SameHoldingsAreAlike(cfg, w.st, v.st, account, {});
    LaterAlike(w.st, v.st, elapsed, account, Belonging(cfg, w.st, account) + {});
    BelongingLater(cfg, w.st, elapsed, account);
    BelongingLater(cfg, v.st, elapsed, account);
    AlikeHoldTheSame(cfg, Later(w.st, elapsed), Later(v.st, elapsed), account, Belonging(cfg, w.st, account) + {});
  }

  lemma BelongingLater(cfg: Config, st: State, elapsed: nat, account: string)
    ensures Belonging(cfg, Later(st, elapsed), account) <= Belonging(cfg, st, account)
  {
  }

  lemma OwnStepMatches(cfg: Config, w: World, v: World, step: Step, account: string)
    requires Kept(cfg, w) && Kept(cfg, v) && Matches(cfg, w, v, account) && Possible(cfg, w, step)
    requires step.Wait? || Concerns(cfg, w.st, step.op, account)
    ensures Possible(cfg, v, step) && Matches(cfg, Next(cfg, w, step), Next(cfg, v, step), account)
  {
    hide Kept, Allowed, Concerns, WritesOf, CutAfter, Matches;
    match step
    case Complete(op) => OwnCutMatches(cfg, w, v, op, |WritesOf(cfg, w.st, op)|, account);
    case Cut(op, k) => OwnCutMatches(cfg, w, v, op, k, account);
    case Wait(elapsed) => WaitMatches(cfg, w, v, elapsed, account);
  }

  lemma ForeignStepMatches(cfg: Config, w: World, v: World, step: Step, account: string)
    requires Kept(cfg, w) && Matches(cfg, w, v, account) && Possible(cfg, w, step)
    requires !step.Wait? && !Concerns(cfg, w.st, step.op, account)
    ensures Matches(cfg, Next(cfg, w, step), v, account)
  {
    hide Tame, Allowed, Concerns, WritesOf, HoldingsOf, TornAfter;
    var k := if step.Cut? then step.writes else |WritesOf(cfg, w.st, step.op)|;
    EveryPrefixLeavesOthersAlone(cfg, w.st, w.issued, step.op, k, account);
    PerformKeepsNow(cfg, w.st, WritesOf(cfg, w.st, step.op)[..k]);
  }

  lemma {:induction false} OwnRunMatches(cfg: Config, w: World, v: World, steps: seq<Step>, account: string)
    requires Kept(cfg, w) && Kept(cfg, v) && Matches(cfg, w, v, account) && Runs(cfg, w, steps)
    ensures var own := OwnSteps(cfg, w, steps, account);
            && Runs(cfg, v, own)
            && Kept(cfg, After(cfg, w, steps)) && Kept(cfg, After(cfg, v, own))
            && Matches(cfg, After(cfg, w, steps), After(cfg, v, own), account)
    decreases |steps|
  {
    hide Kept, Matches, Concerns, Possible, Next;
    if steps != [] {
      var step, next := steps[0], Next(cfg, w, steps[0]);
      var rest := OwnSteps(cfg, next, steps[1..], account);
      StepIsKept(cfg, w, step);
      if step.Wait? || Concerns(cfg, w.st, step.op, account) {
        OwnStepMatches(cfg, w, v, step, account);
        StepIsKept(cfg, v, step);
        OwnRunMatches(cfg, next, Next(cfg, v, step), steps[1..], account);
        Prepended(cfg, v, step, rest);
      } else {
        ForeignStepMatches(cfg, w, v, step, account);
        OwnRunMatches(cfg, next, v, steps[1..], account);
      }
    }
  }

  /** Take all operations of the others out of a run, completed ones and crashed ones: the run is still
      possible, at its end the store holds the same of the account, and every operation about the account
      then does and answers the same. */
  lemma OthersDoNotInterfere(cfg: Config, now: int, steps: seq<Step>, account: string)
    requires Runs(cfg, Start(now), steps)
    ensures var own := OwnSteps(cfg, Start(now), steps, account);
            && Runs(cfg, Start(now), own)
            && var w, v := After(cfg, Start(now), steps), After(cfg, Start(now), own);
               && Matches(cfg, w, v, account)
               && forall op | Allowed(cfg, w.st, w.issued, op) && Concerns(cfg, w.st, op, account) ::
                    && Allowed(cfg, v.st, v.issued, op)
                    && WritesOf(cfg, v.st, op) == WritesOf(cfg, w.st, op)
                    && AnswerOf(cfg, v.st, op) == AnswerOf(cfg, w.st, op)
  {
    StartIsKept(cfg, now);
    MatchesItself(cfg, Start(now), account);
    OwnRunMatches(cfg, Start(now), Start(now), steps, account);
    hide Kept, Matches, Allowed, Concerns, WritesOf, AnswerOf;
    var w, v := After(cfg, Start(now), steps), After(cfg, Start(now), OwnSteps(cfg, Start(now), steps, account));
    forall op | Allowed(cfg, w.st, w.issued, op) && Concerns(cfg, w.st, op, account)
      ensures Allowed(cfg, v.st, v.issued, op)
      ensures WritesOf(cfg, v.st, op) == WritesOf(cfg, w.st, op) && AnswerOf(cfg, v.st, op) == AnswerOf(cfg, w.st, op)
    {
      MatchingAnswers(cfg, w, v, op, account);
    }
  }

  lemma StartIsKept(cfg: Config, now: int)
    ensures Kept(cfg, Start(now))
  {
  }

  lemma MatchesItself(cfg: Config, w: World, account: string)
    ensures Matches(cfg, w, w, account)
  {
  }
}
