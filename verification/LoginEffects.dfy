/** What each completed operation of the login logic leaves in the store, said from the state before it alone
    (satoken/logic.go:99-308). */
module LoginEffects {
  import opened Results
  import opened Text
  import opened MemoryStores
  import opened Sessions
  import opened SessionCodec
  import opened CodecRoundTrip
  import opened TokenIndex
  import opened LoginSpec
  import opened LoginInvariant
  import opened LoginCrash
  import opened LoginTidy
  import opened LoginRuns

  // ---- what is stored of a session that was written ----

  /** A stored terminal, field by field; its numbers have been float64. */
  predicate StoredTerminal(t: TerminalInfo, r: TerminalInfo) {
    && r.index == Float64(t.index)
    && r.tokenValue == t.tokenValue && r.deviceType == t.deviceType && r.deviceId == t.deviceId
    && r.extraData == PlainData(t.extraData)
    && r.createTime == Float64(t.createTime)
  }

  predicate StoredTerminals(ts: seq<TerminalInfo>, rs: seq<TerminalInfo>) {
    |rs| == |ts| && forall i :: 0 <= i < |ts| ==> StoredTerminal(ts[i], rs[i])
  }

  /** The terminals of the list that carry another token, in order. */
  function OthersThan(ts: seq<TerminalInfo>, token: string): seq<TerminalInfo> {
    if ts == [] then [] else (if ts[0].tokenValue == token then [] else [ts[0]]) + OthersThan(ts[1..], token)
  }

  function AtLeast(n: int, m: int): int {
    if n < m then m else n
  }

  function Stamp(now: int): string {
    PrintInt(now / 1_000_000)
  }

  /** The stamps after the token is stamped, when there is an idle timeout. */
  function Stamped(cfg: Config, st: State, stamps: map<string, Dated<string>>, token: string): map<string, Dated<string>> {
    if cfg.activeTimeout > 0 then stamps[token := Dated(Stamp(st.now), DueDate(cfg, st.now))] else stamps
  }

  // ---- signing in ----

  /** The session a new sign-in starts from: the stored one, or one with nothing but its id. */
  function SessionBefore(st: State, account: string, newId: string): Session {
    if Load(st, account).Ok? then Load(st, account).value
    else Session(newId, "", "", VNil, "", 0, 0, [], Some(map[]))
  }

  /** The tokens that a sign-in ends: without concurrent logins all that the account lists. */
  function Ended(cfg: Config, st: State, account: string): set<string> {
    if cfg.isConcurrent then {} else ListOf(IndexOf(cfg, st), account)
  }

  /** r is the session s signed in with the token: who the session belongs to is set, the former terminals are
      kept unless they are ended, the new one is numbered and dated, and all else stays. */
  predicate SignedInFrom(cfg: Config, now: int, s: Session, r: Session, account: string, token: string) {
    var kept := if cfg.isConcurrent then s.terminals else [];
    var count := 1 + if cfg.isConcurrent then s.historyTerminalCount else AtLeast(s.historyTerminalCount, 0);
    && r.id == s.id && r.token == s.token && r.createTime == s.createTime
    && r.kind == "Account-Session" && r.loginType == cfg.loginType && r.loginId == VStr(account)
    && |r.terminals| == |kept| + 1
    && StoredTerminals(kept, r.terminals[..|kept|])
    && r.terminals[|kept|] == TerminalInfo(Float64(count), token, "DEF", "", map[], Float64(now / 1_000_000))
    && r.historyTerminalCount == AtLeast(count, |kept| + 1)
  }

  lemma PutsLeave(cfg: Config, st: State, id: string, token: string, s: Session)
    ensures PerformAll(cfg, st, [PutSession(id, s), PutToken(token, id)] + StampNow(cfg, st, token)) ==
            State(st.now, st.tokens[token := Dated(id, DueDate(cfg, st.now))],
                  st.sessions[id := Dated(Reload(s), DueDate(cfg, st.now))], Stamped(cfg, st, st.stamps, token))
  {
    hide Perform, DueDate;
    var puts, stamps := [PutSession(id, s), PutToken(token, id)], StampNow(cfg, st, token);
    PerformAppend(cfg, st, puts, stamps);
    assert puts[..1] == [PutSession(id, s)] && puts[..1][..0] == [];
    assert stamps != [] ==> stamps[..0] == [];
    var one := Perform(cfg, st, puts[0]);
    assert PerformAll(cfg, st, puts[..1]) == one;
    PutEffects(cfg, st, puts[0]);
    PutEffects(cfg, one, puts[1]);
    if stamps != [] {
      PutEffects(cfg, Perform(cfg, one, puts[1]), stamps[0]);
    }
  }

  lemma PairLeaves(cfg: Config, st: State, t: string)
    ensures PerformAll(cfg, st, [DelToken(t), DelStamp(t)]) == State(st.now, st.tokens - {t}, st.sessions, st.stamps - {t})
  {
    assert [DelToken(t), DelStamp(t)][..1] == [DelToken(t)] && [DelToken(t)][..0] == [];
    assert PerformAll(cfg, st, [DelToken(t)]) == Perform(cfg, st, DelToken(t));
  }

  lemma MinusBoth(m: map<string, Dated<string>>, a: set<string>, t: string)
    ensures m - a - {t} == m - (a + {t})
    ensures m - {} == m
  {
  }

  lemma {:induction false} EvictionLeaves(cfg: Config, st: State, terminals: seq<TerminalInfo>)
    ensures PerformAll(cfg, st, EvictTerminals(terminals)) ==
            State(st.now, st.tokens - Named(terminals), st.sessions, st.stamps - Named(terminals))
  {
    MinusBoth(st.tokens, {}, "");
    MinusBoth(st.stamps, {}, "");
    if terminals != [] {
      var t, front := terminals[|terminals| - 1].tokenValue, terminals[..|terminals| - 1];
      EvictionLeaves(cfg, st, front);
      if t == "" {
        assert Named(terminals) == Named(front) + {} == Named(front);
        assert EvictTerminals(terminals) == EvictTerminals(front) + [] == EvictTerminals(front);
      } else {
        assert EvictTerminals(terminals) == EvictTerminals(front) + [DelToken(t), DelStamp(t)];
        assert Named(terminals) == Named(front) + {t};
        hide PerformAll, EvictTerminals, Named;
        PerformAppend(cfg, st, EvictTerminals(front), [DelToken(t), DelStamp(t)]);
        PairLeaves(cfg, PerformAll(cfg, st, EvictTerminals(front)), t);
        MinusBoth(st.tokens, Named(front), t);
        MinusBoth(st.stamps, Named(front), t);
      }
    }
  }

  /** An evicted account keeps its session, but for its terminals; its listed tokens are neither mapped nor
      stamped any more. */
  lemma ReplacedLeaves(cfg: Config, st: State, issued: set<string>, id: string)
    requires Tame(cfg, st, issued)
    ensures var after, listed := PerformAll(cfg, st, ReplacedPlan(cfg, st, id).writes), ListOf(IndexOf(cfg, st), id);
            && after.now == st.now && after.tokens == st.tokens - listed && after.stamps == st.stamps - listed
            && (Load(st, id).Err? ==> after.sessions == st.sessions && Load(st, id) == Err(NotFound))
            && (Load(st, id).Ok? ==>
                  after.sessions == st.sessions[id := Dated(Reload(Load(st, id).value.(terminals := [])), DueDate(cfg, st.now))])
  {
    hide Sound, Tidy, Savable;
    LoadedIsListed(cfg, st, id);
    var plan := ReplacedPlan(cfg, st, id);
    if Load(st, id).Ok? {
      var s := Load(st, id).value;
      var save := Save(cfg, s.(terminals := []));
      ListedAreNamed(cfg, st, issued, id);
      EvictionLeaves(cfg, st, s.terminals);
      assert plan.writes[..|plan.writes| - 1] == EvictTerminals(s.terminals);
      SavedUnder(cfg, st, id);
      PutEffects(cfg, PerformAll(cfg, st, EvictTerminals(s.terminals)), save);
    } else {
      assert st.tokens - {} == st.tokens && st.stamps - {} == st.stamps;
    }
  }

  lemma ListedAreNamed(cfg: Config, st: State, issued: set<string>, id: string)
    requires Tame(cfg, st, issued) && Load(st, id).Ok?
    ensures Named(Load(st, id).value.terminals) == ListOf(IndexOf(cfg, st), id)
  {
    LoadedIsListed(cfg, st, id);
    NamedTokens(Load(st, id).value.terminals);
  }

  lemma SavedUnder(cfg: Config, st: State, id: string)
    requires Sound(cfg, st) && Load(st, id).Ok?
    ensures LoginIDOf(cfg, Load(st, id).value) == id && ReadableData(DataOf(Load(st, id).value))
  {
    LoadedIsListed(cfg, st, id);
  }

  lemma EmptyStaysEmpty()
    ensures ReadableData(map[]) && ReloadedData(map[]) == map[]
  {
  }

  /** Reading back a session that was just signed in. */
  lemma SignedInReadsBack(cfg: Config, st: State, s: Session, account: string, token: string)
    requires ReadableData(DataOf(s)) && !Lists(s.terminals, token)
    ensures var r := Reload(SignedIn(cfg, st, s, account, token));
            var n, count := |s.terminals|, s.historyTerminalCount + 1;
            && r.Ok?
            && r.value.id == s.id && r.value.token == s.token && r.value.createTime == s.createTime
            && r.value.kind == "Account-Session" && r.value.loginType == cfg.loginType && r.value.loginId == VStr(account)
            && |r.value.terminals| == n + 1
            && StoredTerminals(s.terminals, r.value.terminals[..n])
            && r.value.terminals[n] == TerminalInfo(Float64(count), token, "DEF", "", map[], Float64(st.now / 1_000_000))
            && r.value.historyTerminalCount == AtLeast(count, n + 1)
            && r.value.data == Some(ReloadedData(DataOf(s)))
  {
    var t, new_ := SignedIn(cfg, st, s, account, token), NewTerminal(s, st.now, token);
    SignedInIs(cfg, st, s, account, token);
    assert DataOf(t) == DataOf(s);
    ReloadComputes(t);
    ReadBackOneMore(s.terminals, new_);
    StoredReadBack(s.terminals);
    NewReadsBack(s, st.now, token);
    hide Reload, Float64, ReadableData, ReloadedData, SignedIn, ReadBackAll, ReadBack, StoredTerminals, ToJson;
    assert Reload(t) == Ok(Reloaded(t)) && Plain(ToJson(VStr(account))) == VStr(account) by { TextReadsBack(account); }
  }

  lemma TextReadsBack(text: string)
    ensures Plain(ToJson(VStr(text))) == VStr(text)
  {
  }

  function NewTerminal(s: Session, now: int, token: string): TerminalInfo {
    TerminalInfo(s.historyTerminalCount + 1, token, "DEF", "", map[], now / 1_000_000)
  }

  lemma SignedInIs(cfg: Config, st: State, s: Session, account: string, token: string)
    requires !Lists(s.terminals, token)
    ensures SignedIn(cfg, st, s, account, token) ==
            s.(kind := "Account-Session", loginType := cfg.loginType, loginId := VStr(account),
               historyTerminalCount := s.historyTerminalCount + 1, terminals := s.terminals + [NewTerminal(s, st.now, token)])
  {
  }

  lemma ReadBackOneMore(ts: seq<TerminalInfo>, t: TerminalInfo)
    ensures ReadBackAll(ts + [t]) == ReadBackAll(ts) + [ReadBack(t)]
    ensures |ReadBackAll(ts)| == |ts|
  {
  }

  lemma StoredReadBack(ts: seq<TerminalInfo>)
    ensures StoredTerminals(ts, ReadBackAll(ts))
  {
  }

  lemma NewReadsBack(s: Session, now: int, token: string)
    ensures ReadBack(NewTerminal(s, now, token)) ==
            TerminalInfo(Float64(s.historyTerminalCount + 1), token, "DEF", "", map[], Float64(now / 1_000_000))
  {
    assert PlainData(map[]) == map[];
  }

  lemma NotListed(cfg: Config, st: State, issued: set<string>, op: Op)
    requires Tame(cfg, st, issued) && op.Login? && Allowed(cfg, st, issued, op) && op.minted.Ok? && Load(st, op.id).Ok?
    ensures !Lists(Load(st, op.id).value.terminals, op.minted.value)
  {
    LoadedIsListed(cfg, st, op.id);
    var terminals := Load(st, op.id).value.terminals;
    forall i | 0 <= i < |terminals| ensures terminals[i].tokenValue != op.minted.value {
      assert terminals[i] in terminals;
    }
  }

  /** The data map that a sign-in stores: written once, or twice when the account was evicted first. */
  function DataAfter(cfg: Config, st: State, account: string): map<string, Val>
    requires Load(st, account).Ok? ==> ReadableData(DataOf(Load(st, account).value))
  {
    if Load(st, account).Err? then map[]
    else
      var once := ReloadedData(DataOf(Load(st, account).value));
      if !cfg.isConcurrent && ReadableData(once) then ReloadedData(once) else once
  }

  /** The state after a sign-in with a new token. */
  predicate SignedInState(cfg: Config, st: State, after: State, account: string, token: string, newId: string) {
    && (Load(st, account).Ok? ==> ReadableData(DataOf(Load(st, account).value)))
    && Load(after, account).Ok?
    && SignedInFrom(cfg, st.now, SessionBefore(st, account, newId), Load(after, account).value, account, token)
    && Load(after, account).value.data == Some(DataAfter(cfg, st, account))
    && after == State(st.now,
                      (st.tokens - Ended(cfg, st, account))[token := Dated(account, DueDate(cfg, st.now))],
                      st.sessions[account := Dated(Load(after, account), DueDate(cfg, st.now))],
                      Stamped(cfg, st, st.stamps - Ended(cfg, st, account), token))
  }

  /** With concurrent logins, sign in beside the terminals there are. */
  lemma FreshLeaves(cfg: Config, st: State, issued: set<string>, op: Op)
    requires Tame(cfg, st, issued) && op.Login? && Allowed(cfg, st, issued, op) && op.minted.Ok? && !Blank(op.id)
    ensures var after := PerformAll(cfg, st, FreshPlan(cfg, st, op.id, op.minted, op.newId).writes);
            var s, token := SessionBefore(st, op.id, op.newId), op.minted.value;
            && ReadableData(DataOf(s)) && !Lists(s.terminals, token)
            && after == State(st.now, st.tokens[token := Dated(op.id, DueDate(cfg, st.now))],
                              st.sessions[op.id := Dated(Reload(SignedIn(cfg, st, s, op.id, token)), DueDate(cfg, st.now))],
                              Stamped(cfg, st, st.stamps, token))
  {
    hide Sound, Tidy, Savable, Reload;
    FreshWrites(cfg, st, op.id, op.minted.value, op.newId);
    EmptyStaysEmpty();
    LoadedIsListed(cfg, st, op.id);
    var s := SessionBefore(st, op.id, op.newId);
    if Load(st, op.id).Ok? {
      NotListed(cfg, st, issued, op);
      SavedUnder(cfg, st, op.id);
    }
    assert OpenSession(st, op.id, op.newId) == Ok(s);
    PutsLeave(cfg, st, op.id, op.minted.value, SignedIn(cfg, st, s, op.id, op.minted.value));
  }

  lemma SignedInBeside(cfg: Config, st: State, issued: set<string>, op: Op)
    requires Tame(cfg, st, issued) && op.Login? && Allowed(cfg, st, issued, op) && op.minted.Ok? && !Blank(op.id)
    requires cfg.isConcurrent
    ensures var after := PerformAll(cfg, st, FreshPlan(cfg, st, op.id, op.minted, op.newId).writes);
            SignedInState(cfg, st, after, op.id, op.minted.value, op.newId)
  {
    hide Tame, Reload, ReadableData, ReloadedData, SignedIn, StoredTerminals, Float64, Lists;
    FreshLeaves(cfg, st, issued, op);
    EmptyStaysEmpty();
    SignedInReadsBack(cfg, st, SessionBefore(st, op.id, op.newId), op.id, op.minted.value);
    assert st.tokens - {} == st.tokens && st.stamps - {} == st.stamps;
    assert SessionBefore(st, op.id, op.newId).terminals[..|SessionBefore(st, op.id, op.newId).terminals|]
           == SessionBefore(st, op.id, op.newId).terminals;
  }

  lemma EvictedReadsBack(s: Session)
    requires ReadableData(DataOf(s))
    ensures var r := Reload(s.(terminals := []));
            && r.Ok?
            && r.value.id == s.id && r.value.token == s.token && r.value.createTime == s.createTime
            && r.value.terminals == [] && r.value.historyTerminalCount == AtLeast(s.historyTerminalCount, 0)
            && r.value.data == Some(ReloadedData(DataOf(s)))
            && ReadableData(ReloadedData(DataOf(s)))
  {
    ReloadComputes(s.(terminals := []));
    assert ReadBackAll([]) == [];
    forall k | k in ReloadedData(DataOf(s)) ensures Readable(ReloadedData(DataOf(s))[k]) {
      TopReadable(DataOf(s)[k]);
      DecodedIsReadable(WrapValue(DataOf(s)[k]));
    }
  }

  /** What an eviction leaves for the sign-in after it. */
  predicate EvictedState(cfg: Config, st: State, mid: State, id: string, newId: string)
    requires Load(st, id).Ok? ==> ReadableData(DataOf(Load(st, id).value))
  {
    var s, t := SessionBefore(st, id, newId), SessionBefore(mid, id, newId);
    var listed := ListOf(IndexOf(cfg, st), id);
    && mid.now == st.now && mid.tokens == st.tokens - listed && mid.stamps == st.stamps - listed
    && mid.sessions - {id} == st.sessions - {id}
    && t.id == s.id && t.token == s.token && t.createTime == s.createTime
    && t.terminals == [] && t.historyTerminalCount == AtLeast(s.historyTerminalCount, 0)
    && (!cfg.isConcurrent ==> ReadableData(DataOf(t)) && ReloadedData(DataOf(t)) == DataAfter(cfg, st, id))
  }

  lemma EvictionPrepares(cfg: Config, st: State, issued: set<string>, id: string, newId: string)
    requires Tame(cfg, st, issued)
    ensures Load(st, id).Ok? ==> ReadableData(DataOf(Load(st, id).value))
    ensures EvictedState(cfg, st, PerformAll(cfg, st, ReplacedPlan(cfg, st, id).writes), id, newId)
  {
    hide Sound, Tidy, Reload, ReadableData, ReloadedData, Savable, PerformAll, ReplacedPlan;
    ReplacedLeaves(cfg, st, issued, id);
    EmptyStaysEmpty();
    if Load(st, id).Ok? {
      SavedUnder(cfg, st, id);
      EvictedReadsBack(Load(st, id).value);
    }
  }

  lemma SignedInAlone(cfg: Config, st: State, issued: set<string>, op: Op)
    requires Tame(cfg, st, issued) && op.Login? && Allowed(cfg, st, issued, op) && op.minted.Ok? && !Blank(op.id)
    requires !cfg.isConcurrent
    ensures var mid := PerformAll(cfg, st, ReplacedPlan(cfg, st, op.id).writes);
            var after := PerformAll(cfg, mid, FreshPlan(cfg, mid, op.id, op.minted, op.newId).writes);
            SignedInState(cfg, st, after, op.id, op.minted.value, op.newId)
  {
    hide Tame, Reload, ReadableData, ReloadedData, SignedIn, Float64, Lists, Near, ReplacedPlan, FreshPlan, PerformAll, IndexOf, ListOf,
         SessionBefore, DataAfter;
    var mid := PerformAll(cfg, st, ReplacedPlan(cfg, st, op.id).writes);
    EvictionPrepares(cfg, st, issued, op.id, op.newId);
    ReplacedEmpties(cfg, st, issued, op.id);
    FreshLeaves(cfg, mid, issued, op);
    SignedInReadsBack(cfg, mid, SessionBefore(mid, op.id, op.newId), op.id, op.minted.value);
    SameWithEntry(mid.sessions, st.sessions, op.id);
  }

  lemma SameWithEntry<V>(a: map<string, V>, b: map<string, V>, key: string)
    requires a - {key} == b - {key}
    ensures forall v {:trigger a[key := v]} :: a[key := v] == b[key := v]
  {
    forall v {:trigger a[key := v]} ensures a[key := v] == b[key := v] {
      forall k | k != key ensures (k in a <==> k in b) && (k in a ==> a[k] == b[k]) {
        assert k in a <==> k in a - {key};
        assert k in b <==> k in b - {key};
        assert k in a ==> (a - {key})[k] == a[k];
        assert k in b ==> (b - {key})[k] == b[k];
      }
    }
  }

  /** A login that signs in with a new token, from the states before and after alone. */
  lemma LoginLeaves(cfg: Config, st: State, issued: set<string>, op: Op)
    requires Tame(cfg, st, issued) && op.Login? && Allowed(cfg, st, issued, op)
    requires op.minted.Ok? && !Blank(op.id) && !Renews(cfg, st, op)
    ensures var after := PerformAll(cfg, st, WritesOf(cfg, st, op));
            SignedInState(cfg, st, after, op.id, op.minted.value, op.newId)
    ensures LoginPlan(cfg, st, op.id, op.minted, op.newId).result == op.minted
  {
    hide SignedInState, Sound, Tidy, Near, FreshPlan, LocalWrites, Savable;
    LoginIsLocal(cfg, st, issued, op);
    if cfg.isConcurrent {
      LoadedIsListed(cfg, st, op.id);
      FirstTokenFails(st, op.id);
      SignInWithoutCurrent(cfg, st, op);
      SignedInBeside(cfg, st, issued, op);
      var fresh_ := FreshPlan(cfg, st, op.id, op.minted, op.newId).writes;
      assert [] + fresh_ == fresh_;
    } else {
      var evict := ReplacedPlan(cfg, st, op.id).writes;
      var mid := PerformAll(cfg, st, evict);
      ReplacedIsLocal(cfg, st, op.id);
      ReplacedEmpties(cfg, st, issued, op.id);
      SignInWithoutCurrent(cfg, mid, op);
      SignedInAlone(cfg, st, issued, op);
      PerformAppend(cfg, st, evict, FreshPlan(cfg, mid, op.id, op.minted, op.newId).writes);
    }
  }

  // ---- renewing ----

  /** The current token is the first one listed that is not empty. */
  lemma {:induction false} FirstTokenExactly(terminals: seq<TerminalInfo>, token: string)
    ensures FirstToken(terminals) == Ok(token) <==>
            token != "" && exists i :: 0 <= i < |terminals| && terminals[i].tokenValue == token
                                       && forall j :: 0 <= j < i ==> terminals[j].tokenValue == ""
  {
    if terminals != [] {
      FirstTokenExactly(terminals[1..], token);
      if i :| 0 <= i < |terminals| - 1 && terminals[1..][i].tokenValue == token && forall j :: 0 <= j < i ==> terminals[1..][j].tokenValue == "" {
        assert terminals[i + 1].tokenValue == token;
        assert terminals[0].tokenValue == "" ==> forall j :: 0 <= j < i + 1 ==> terminals[j].tokenValue == "" by {
          forall j | 0 < j < i + 1 ensures terminals[j].tokenValue == "" {
            assert terminals[1..][j - 1] == terminals[j];
          }
        }
      }
      if i :| 0 <= i < |terminals| && terminals[i].tokenValue == token && forall j :: 0 <= j < i ==> terminals[j].tokenValue == "" {
        if i > 0 {
          assert terminals[1..][i - 1].tokenValue == token;
          forall j | 0 <= j < i - 1 ensures terminals[1..][j].tokenValue == "" {
            assert terminals[1..][j] == terminals[j + 1];
          }
        }
      }
    }
  }

  /** The session s written and read back. */
  predicate StoredSession(s: Session, r: Session) {
    && r.(loginId := s.loginId, historyTerminalCount := s.historyTerminalCount, terminals := s.terminals, data := s.data) == s
    && r.loginId == Plain(ToJson(s.loginId))
    && r.historyTerminalCount == AtLeast(s.historyTerminalCount, |s.terminals|)
    && StoredTerminals(s.terminals, r.terminals)
    && ReadableData(DataOf(s)) && r.data == Some(ReloadedData(DataOf(s)))
  }

  lemma SessionReadsBack(s: Session)
    requires ReadableData(DataOf(s))
    ensures Reload(s).Ok? && StoredSession(s, Reload(s).value)
  {
    ReloadComputes(s);
    StoredReadBack(s.terminals);
    hide Reload, ReadableData, ReloadedData, ReadBackAll;
  }

  /** A renewal maps the account's current token again, stores the session again with all it holds, and stamps
      the token: all due anew. */
  lemma RenewalLeaves(cfg: Config, st: State, issued: set<string>, op: Op)
    requires Tame(cfg, st, issued) && Renews(cfg, st, op)
    ensures Load(st, op.id).Ok? && FirstToken(Load(st, op.id).value.terminals).Ok?
    ensures var after, s := PerformAll(cfg, st, WritesOf(cfg, st, op)), Load(st, op.id).value;
            var token := FirstToken(s.terminals).value;
            && LoginPlan(cfg, st, op.id, op.minted, op.newId).result == Ok(token)
            && Load(after, op.id).Ok? && StoredSession(s, Load(after, op.id).value)
            && after == State(st.now, st.tokens[token := Dated(op.id, DueDate(cfg, st.now))],
                              st.sessions[op.id := Dated(Load(after, op.id), DueDate(cfg, st.now))],
                              Stamped(cfg, st, st.stamps, token))
  {
    hide Sound, Tidy, Savable, Reload, ReadableData, ReloadedData, FirstToken, Near;
    LoadedIsListed(cfg, st, op.id);
    FirstTokenFails(st, op.id);
    var s, token := Load(st, op.id).value, CurrentToken(st, op.id).value;
    SavedUnder(cfg, st, op.id);
    SessionReadsBack(s);
    RenewalPuts(cfg, st, op.id, token, s);
    var writes := RenewPlan(cfg, st, token, op.id).writes;
    assert WritesOf(cfg, st, op) == [] + writes == writes;
  }

  /** Renew by itself maps the token in any state; a session that is gone is no failure, and one that cannot be
      read is. */
  lemma RenewMapsAnyway(cfg: Config, st: State, token: string, id: string)
    requires Load(st, id).Err?
    ensures PerformAll(cfg, st, RenewPlan(cfg, st, token, id).writes) ==
            st.(tokens := st.tokens[token := Dated(id, DueDate(cfg, st.now))])
    ensures RenewPlan(cfg, st, token, id).result.Ok? <==> Load(st, id) == Err(NotFound)
    ensures Load(st, id) != Err(NotFound) ==> RenewPlan(cfg, st, token, id).result == Err(Load(st, id).error)
  {
    assert [PutToken(token, id)][..0] == [];
  }

  lemma RenewalPuts(cfg: Config, st: State, id: string, token: string, s: Session)
    ensures PerformAll(cfg, st, [PutToken(token, id), PutSession(id, s)] + StampNow(cfg, st, token)) ==
            State(st.now, st.tokens[token := Dated(id, DueDate(cfg, st.now))],
                  st.sessions[id := Dated(Reload(s), DueDate(cfg, st.now))], Stamped(cfg, st, st.stamps, token))
  {
    hide Perform, DueDate;
    var puts, stamps := [PutToken(token, id), PutSession(id, s)], StampNow(cfg, st, token);
    PerformAppend(cfg, st, puts, stamps);
    assert puts[..1] == [PutToken(token, id)] && puts[..1][..0] == [];
    assert stamps != [] ==> stamps[..0] == [];
    var one := Perform(cfg, st, puts[0]);
    assert PerformAll(cfg, st, puts[..1]) == one;
    PutEffects(cfg, st, puts[0]);
    PutEffects(cfg, one, puts[1]);
    if stamps != [] {
      PutEffects(cfg, Perform(cfg, one, puts[1]), stamps[0]);
    }
  }

  /** A login for a blank id does nothing, and one that is given no token does nothing either, without
      concurrent logins but for the eviction. */
  lemma FailedLoginLeaves(cfg: Config, st: State, issued: set<string>, op: Op)
    requires Tame(cfg, st, issued) && op.Login? && Allowed(cfg, st, issued, op)
    requires Blank(op.id) || (op.minted.Err? && !Renews(cfg, st, op))
    ensures LoginPlan(cfg, st, op.id, op.minted, op.newId).result == if Blank(op.id) then Err(BlankLoginID) else op.minted
    ensures var after, listed := PerformAll(cfg, st, WritesOf(cfg, st, op)), ListOf(IndexOf(cfg, st), op.id);
            if Blank(op.id) || cfg.isConcurrent then after == st
            else
              && after.tokens == st.tokens - listed && after.stamps == st.stamps - listed
              && (Load(st, op.id).Err? ==> after.sessions == st.sessions)
              && (Load(st, op.id).Ok? ==>
                    && Load(after, op.id).Ok?
                    && StoredSession(Load(st, op.id).value.(terminals := []), Load(after, op.id).value)
                    && after.sessions == st.sessions[op.id := Dated(Load(after, op.id), DueDate(cfg, st.now))])
  {
    hide Sound, Tidy, Near, Savable, Reload, LocalWrites, ReplacedPlan, ReadableData, ReloadedData;
    NothingPerformed(cfg, st);
    if !Blank(op.id) {
      LoginIsLocal(cfg, st, issued, op);
      if cfg.isConcurrent {
        LoadedIsListed(cfg, st, op.id);
        FirstTokenFails(st, op.id);
        SignInWithoutCurrent(cfg, st, op);
      } else {
        var evict := ReplacedPlan(cfg, st, op.id).writes;
        ReplacedIsLocal(cfg, st, op.id);
        ReplacedEmpties(cfg, st, issued, op.id);
        ReplacedLeaves(cfg, st, issued, op.id);
        SignInWithoutCurrent(cfg, PerformAll(cfg, st, evict), op);
        assert evict + [] == evict;
        if Load(st, op.id).Ok? {
          SavedUnder(cfg, st, op.id);
          SessionReadsBack(Load(st, op.id).value.(terminals := []));
        }
      }
    }
  }

  // ---- signing out ----

  lemma OthersAppend(a: seq<TerminalInfo>, b: seq<TerminalInfo>, token: string)
    ensures OthersThan(a + b, token) == OthersThan(a, token) + OthersThan(b, token)
  {
    if a == [] {
      assert a + b == b;
    } else {
      assert (a + b)[1..] == a[1..] + b;
      OthersAppend(a[1..], b, token);
    }
  }

  lemma {:induction false} WithoutIsOthers(terminals: seq<TerminalInfo>, token: string)
    ensures Without(terminals, token) == OthersThan(terminals, token)
  {
    if terminals != [] {
      var front, last := terminals[..|terminals| - 1], terminals[|terminals| - 1];
      WithoutIsOthers(front, token);
      OthersAppend(front, [last], token);
      assert front + [last] == terminals && [last][1..] == [];
      assert OthersThan([last], token) == (if last.tokenValue == token then [] else [last]) + [];
    }
  }

  lemma DeletesLeave(cfg: Config, st: State, token: string)
    ensures PerformAll(cfg, st, LogoutDeletes(token)) == State(st.now, st.tokens - {token}, st.sessions, st.stamps - {token})
  {
    var ws := LogoutDeletes(token);
    assert ws[..2] == [DelToken(token), DelStamp(token)];
    PairLeaves(cfg, st, token);
    assert PerformAll(cfg, st, ws) == Perform(cfg, PerformAll(cfg, st, ws[..2]), ws[2]);
  }

  /** The sessions after the token is taken off its owner's list: the session goes with its last terminal. */
  predicate Unlisted(cfg: Config, st: State, after: State, token: string) {
    if token !in st.tokens || Load(st, st.tokens[token].value).Err? then after.sessions == st.sessions
    else
      var id := st.tokens[token].value;
      var s := Load(st, id).value;
      var left := OthersThan(s.terminals, token);
      if left == [] then after.sessions == st.sessions - {id}
      else
        && Load(after, id).Ok? && StoredSession(s.(terminals := left), Load(after, id).value)
        && after.sessions == st.sessions[id := Dated(Load(after, id), DueDate(cfg, st.now))]
  }

  /** A logout takes away the token's mapping and its stamp, and its terminal from the owner's session. */
  lemma LogoutLeaves(cfg: Config, st: State, issued: set<string>, token: string)
    requires Tame(cfg, st, issued)
    ensures var after := PerformAll(cfg, st, LogoutPlan(cfg, st, token).writes);
            && after.now == st.now && after.tokens == st.tokens - {token} && after.stamps == st.stamps - {token}
            && Unlisted(cfg, st, after, token)
    ensures LogoutPlan(cfg, st, token).result.Ok?
  {
    hide Sound, Tidy, Savable, Reload, ReadableData, ReloadedData, StoredSession, LogoutPlan;
    TameTokens(cfg, st, issued);
    LogoutWrites(cfg, st, token);
    DeletesLeave(cfg, st, token);
    if token in st.tokens && Load(st, st.tokens[token].value).Ok? {
      var id := st.tokens[token].value;
      var s := Load(st, id).value;
      WithoutIsOthers(s.terminals, token);
      SavedUnder(cfg, st, id);
      SessionReadsBack(WithoutTerminal(s, token));
      var unlist := Unlisting(id, s, token);
      var all := LogoutDeletes(token) + [unlist];
      assert all[..|all| - 1] == LogoutDeletes(token);
      assert PerformAll(cfg, st, all) == Perform(cfg, PerformAll(cfg, st, LogoutDeletes(token)), unlist);
    } else {
      assert LogoutPlan(cfg, st, token).writes == LogoutDeletes(token);
    }
  }

  /** In every state a logout first deletes all that is stored under the token: its mapping, its stamp and its
      token session. */
  lemma LogoutDeletesFirst(cfg: Config, st: State, token: string)
    ensures [DelToken(token), DelStamp(token), DelTokenSession(token)] <= LogoutPlan(cfg, st, token).writes
  {
  }

  // ---- checking ----

  /** The token's stamp says a time, in milliseconds, that is longer ago than the idle timeout. */
  predicate Idle(cfg: Config, st: State, token: string) {
    && token in st.stamps && !Blank(st.stamps[token].value)
    && ParseInt64(st.stamps[token].value).Some?
    && st.now / 1_000_000 - ParseInt64(st.stamps[token].value).value > cfg.activeTimeout * 1000
  }

  /** A check of a live token logs it out when it was idle for too long, and stamps it anew otherwise; without
      an idle timeout, or of a token that is not live, it changes nothing. */
  lemma CheckLeaves(cfg: Config, st: State, issued: set<string>, token: string)
    requires Tame(cfg, st, issued)
    ensures var after := PerformAll(cfg, st, CheckPlan(cfg, st, token).writes);
            if token !in st.tokens || cfg.activeTimeout <= 0 then after == st
            else if Idle(cfg, st, token) then
              && after.now == st.now && after.tokens == st.tokens - {token} && after.stamps == st.stamps - {token}
              && Unlisted(cfg, st, after, token)
            else after == st.(stamps := st.stamps[token := Dated(Stamp(st.now), DueDate(cfg, st.now))])
    ensures CheckPlan(cfg, st, token).result ==
            if token !in st.tokens || (cfg.activeTimeout > 0 && Idle(cfg, st, token)) then Err(NotFound) else Ok(st.tokens[token].value)
  {
    hide Sound, Tidy, Unlisted, LogoutPlan;
    TameTokens(cfg, st, issued);
    NothingPerformed(cfg, st);
    LogoutLeaves(cfg, st, issued, token);
    if token in st.tokens {
      OwnerIsNamed(cfg, st, issued, token);
      var stamp := PutStamp(token, Millis(st.now));
      assert [stamp][..0] == [];
      PutEffects(cfg, st, stamp);
    }
  }

  lemma OwnerIsNamed(cfg: Config, st: State, issued: set<string>, token: string)
    requires Tame(cfg, st, issued) && token in st.tokens
    ensures TokenOwner(st, token) == Ok(st.tokens[token].value)
  {
    TameTokens(cfg, st, issued);
    assert NamesAccount(st, token);
  }

  // ---- saving ----

  /** SaveSession stores the session under its login id. A missing id, login type or type is filled in, a given
      one is kept; nothing else in the store changes. */
  lemma SaveLeaves(cfg: Config, st: State, s: Session, newId: string)
    ensures var after, id := PerformAll(cfg, st, SavePlan(cfg, s, newId).writes), LoginIDOf(cfg, s);
            && after == st.(sessions := st.sessions[id := Dated(Load(after, id), DueDate(cfg, st.now))])
            && (Load(after, id).Err? ==> Load(after, id) == Err(BadSession) && !ReadableData(DataOf(s)))
            && (Load(after, id).Ok? ==>
                  var r := Load(after, id).value;
                  && (s.id != "" ==> r.id == s.id) && (s.id == "" ==> r.id == newId)
                  && (s.loginType != "" ==> r.loginType == s.loginType) && (s.loginType == "" ==> r.loginType == cfg.loginType)
                  && (s.kind != "" ==> r.kind == s.kind) && (s.kind == "" ==> r.kind == "Account-Session")
                  && StoredSession(s.(id := r.id, loginType := r.loginType, kind := r.kind), r))
  {
    var full := Completed(cfg, s, newId);
    assert DataOf(full) == DataOf(s) && LoginIDOf(cfg, full) == LoginIDOf(cfg, s);
    ReloadComputes(full);
    assert [Save(cfg, full)][..0] == [];
    hide Reload, ReadableData, ReloadedData, ReadBackAll;
    PutEffects(cfg, st, Save(cfg, full));
    if ReadableData(DataOf(s)) {
      SessionReadsBack(full);
    }
  }
}
