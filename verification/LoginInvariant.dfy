/** The forward and the reverse index agree after every single write of every operation, so no crash
    between two writes can separate them. */
module LoginInvariant {
  import opened Results
  import opened Text
  import opened MemoryStores
  import opened Sessions
  import opened SessionCodec
  import opened CodecRoundTrip
  import opened TokenIndex
  import opened LoginSpec

  function TokensOf(terminals: seq<TerminalInfo>): set<string> {
    set t | t in terminals :: t.tokenValue
  }

  function IndexOf(cfg: Config, st: State): Index {
    Index(DueDate(cfg, st.now), st.tokens,
          map id | id in st.sessions && st.sessions[id].value.Ok? ::
            Dated(TokensOf(st.sessions[id].value.value.terminals), st.sessions[id].deadline))
  }

  function ChangeOf(w: Write): Change {
    match w
    case PutToken(t, id) => SetOwner(t, id)
    case PutSession(id, s) => SetList(id, TokensOf(s.terminals))
    case DelToken(t) => DropOwner(t)
    case DelSession(id) => DropList(id)
    case _ => Unrelated
  }

  /** The login id reads back as something that names the same account. */
  predicate IdSurvives(cfg: Config, s: Session) {
    LoginIDOf(cfg, s.(loginId := Plain(ToJson(s.loginId)))) == LoginIDOf(cfg, s)
  }

  /** The session can be saved under the account and read back for the same account. */
  predicate Savable(cfg: Config, s: Session, id: string) {
    LoginIDOf(cfg, s) == id && IdSurvives(cfg, s) && ReadableData(DataOf(s))
  }

  predicate SessionSound(cfg: Config, st: State, id: string)
    requires id in st.sessions
  {
    st.sessions[id].value.Ok? && Savable(cfg, st.sessions[id].value.value, id)
  }

  predicate NamesAccount(st: State, t: string)
    requires t in st.tokens
  {
    !Blank(st.tokens[t].value)
  }

  predicate Sound(cfg: Config, st: State) {
    && (forall id {:trigger SessionSound(cfg, st, id)} | id in st.sessions :: SessionSound(cfg, st, id))
    && (forall t {:trigger NamesAccount(st, t)} | t in st.tokens :: NamesAccount(st, t))
  }

  /** issued are the tokens handed out so far. */
  predicate Consistent(cfg: Config, st: State, issued: set<string>) {
    "" !in issued && Sound(cfg, st) && Agree(IndexOf(cfg, st), issued, !cfg.isConcurrent)
  }

  // ---- single writes ----

  lemma SameTokens(a: seq<TerminalInfo>, b: seq<TerminalInfo>)
    requires |a| == |b| && forall i :: 0 <= i < |a| ==> b[i].tokenValue == a[i].tokenValue
    ensures TokensOf(b) == TokensOf(a)
  {
    forall t | t in TokensOf(a) ensures t in TokensOf(b) {
      var i :| 0 <= i < |a| && a[i].tokenValue == t;
      assert b[i] in b;
    }
    forall t | t in TokensOf(b) ensures t in TokensOf(a) {
      var i :| 0 <= i < |b| && b[i].tokenValue == t;
      assert a[i] in a;
    }
  }

  lemma ReloadKeeps(cfg: Config, s: Session, id: string)
    requires Savable(cfg, s, id)
    ensures Reload(s).Ok?
    ensures Savable(cfg, Reload(s).value, id)
    ensures TokensOf(Reload(s).value.terminals) == TokensOf(s.terminals)
  {
    ReloadComputes(s);
    var r := Reloaded(s);
    PlainIdempotent(ToJson(s.loginId));
    forall k | k in DataOf(r) ensures Readable(DataOf(r)[k]) {
      TopReadable(DataOf(s)[k]);
      DecodedIsReadable(WrapValue(DataOf(s)[k]));
    }
    SameTokens(s.terminals, r.terminals);
  }

  predicate SoundWrite(cfg: Config, w: Write) {
    match w
    case PutSession(id, s) => Savable(cfg, s, id)
    case PutToken(_, id) => !Blank(id)
    case _ => true
  }

  /** One session and one token may be new; the rest is as it was. */
  lemma StaysSound(cfg: Config, st: State, after: State, id: string, token: string)
    requires Sound(cfg, st)
    requires forall k | k in after.sessions && k != id :: k in st.sessions && after.sessions[k] == st.sessions[k]
    requires forall t | t in after.tokens && t != token :: t in st.tokens && after.tokens[t] == st.tokens[t]
    requires id in after.sessions ==> SessionSound(cfg, after, id) || (id in st.sessions && after.sessions[id] == st.sessions[id])
    requires token in after.tokens ==> NamesAccount(after, token) || (token in st.tokens && after.tokens[token] == st.tokens[token])
    ensures Sound(cfg, after)
  {
    forall k | k in after.sessions ensures SessionSound(cfg, after, k) {
      assert k in st.sessions ==> SessionSound(cfg, st, k);
    }
    forall t | t in after.tokens ensures NamesAccount(after, t) {
      assert t in st.tokens ==> NamesAccount(st, t);
    }
  }

  lemma SessionChangesIndex(cfg: Config, st: State, id: string, r: Result<Session, Error>, tokens: set<string>)
    requires r.Ok? && Savable(cfg, r.value, id) && TokensOf(r.value.terminals) == tokens
    ensures var after := st.(sessions := st.sessions[id := Dated(r, DueDate(cfg, st.now))]);
            && IndexOf(cfg, after) == Shift(IndexOf(cfg, st), SetList(id, tokens))
            && (Sound(cfg, st) ==> Sound(cfg, after))
  {
    var after := st.(sessions := st.sessions[id := Dated(r, DueDate(cfg, st.now))]);
    assert SessionSound(cfg, after, id);
    if Sound(cfg, st) {
      StaysSound(cfg, st, after, id, "");
    }
  }

  lemma WriteChangesIndex(cfg: Config, st: State, w: Write)
    requires SoundWrite(cfg, w)
    ensures IndexOf(cfg, Perform(cfg, st, w)) == Shift(IndexOf(cfg, st), ChangeOf(w))
    ensures Sound(cfg, st) ==> Sound(cfg, Perform(cfg, st, w))
  {
    hide Savable;
    if w.PutSession? {
      ReloadKeeps(cfg, w.session, w.id);
      SessionChangesIndex(cfg, st, w.id, Reload(w.session), TokensOf(w.session.terminals));
    } else if Sound(cfg, st) {
      var after := Perform(cfg, st, w);
      assert w.PutToken? ==> NamesAccount(after, w.token);
      StaysSound(cfg, st, after, "", if w.PutToken? then w.token else "");
    }
  }

  predicate SafeWrite(cfg: Config, st: State, w: Write, issued: set<string>) {
    SoundWrite(cfg, w) && Safe(IndexOf(cfg, st), ChangeOf(w), issued, !cfg.isConcurrent)
  }

  /** The next write keeps the indexes in agreement exactly when it is safe. */
  lemma WriteKeepsConsistency(cfg: Config, st: State, w: Write, issued: set<string>)
    requires Consistent(cfg, st, issued) && SoundWrite(cfg, w)
    ensures Consistent(cfg, Perform(cfg, st, w), issued) <==> SafeWrite(cfg, st, w, issued)
  {
    WriteChangesIndex(cfg, st, w);
    SafetyIsExact(IndexOf(cfg, st), ChangeOf(w), issued, !cfg.isConcurrent);
  }

  // ---- sequences of writes ----

  function ChangesOf(ws: seq<Write>): (cs: seq<Change>)
    ensures |cs| == |ws|
  {
    if ws == [] then [] else ChangesOf(ws[..|ws| - 1]) + [ChangeOf(ws[|ws| - 1])]
  }

  predicate SoundWrites(cfg: Config, ws: seq<Write>) {
    forall i :: 0 <= i < |ws| ==> SoundWrite(cfg, ws[i])
  }

  lemma {:induction false} ChangesAppend(a: seq<Write>, b: seq<Write>)
    ensures ChangesOf(a + b) == ChangesOf(a) + ChangesOf(b)
  {
    if b == [] {
      assert a + b == a;
    } else {
      ChangesAppend(a, b[..|b| - 1]);
      assert (a + b)[..|a + b| - 1] == a + b[..|b| - 1];
    }
  }

  lemma ChangesPrefix(ws: seq<Write>, k: nat)
    requires k <= |ws|
    ensures ChangesOf(ws[..k]) == ChangesOf(ws)[..k]
  {
    hide ChangesOf;
    ChangesAppend(ws[..k], ws[k..]);
    assert ws[..k] + ws[k..] == ws;
  }

  lemma {:induction false} PerformShifts(cfg: Config, st: State, ws: seq<Write>)
    requires SoundWrites(cfg, ws)
    ensures IndexOf(cfg, PerformAll(cfg, st, ws)) == ShiftAll(IndexOf(cfg, st), ChangesOf(ws))
    ensures Sound(cfg, st) ==> Sound(cfg, PerformAll(cfg, st, ws))
  {
    if ws != [] {
      var front := ws[..|ws| - 1];
      PerformShifts(cfg, st, front);
      WriteChangesIndex(cfg, PerformAll(cfg, st, front), ws[|ws| - 1]);
      assert ChangesOf(ws)[..|ws| - 1] == ChangesOf(front);
    }
  }

  /** A plan none of whose writes separates the indexes. */
  predicate SafePlan(cfg: Config, st: State, ws: seq<Write>, issued: set<string>) {
    SoundWrites(cfg, ws) && AllSafe(IndexOf(cfg, st), ChangesOf(ws), issued, !cfg.isConcurrent)
  }

  lemma SafePlanPrefix(cfg: Config, st: State, ws: seq<Write>, issued: set<string>, k: nat)
    requires Consistent(cfg, st, issued) && SafePlan(cfg, st, ws, issued) && k <= |ws|
    ensures Consistent(cfg, PerformAll(cfg, st, ws[..k]), issued)
  {
    PerformShifts(cfg, st, ws[..k]);
    ChangesPrefix(ws, k);
    AllSafePrefix(IndexOf(cfg, st), ChangesOf(ws), k, issued, !cfg.isConcurrent);
  }

  lemma SafePlanAppend(cfg: Config, st: State, a: seq<Write>, b: seq<Write>, issued: set<string>)
    requires SafePlan(cfg, st, a, issued) && SafePlan(cfg, PerformAll(cfg, st, a), b, issued)
    ensures SafePlan(cfg, st, a + b, issued)
  {
    PerformShifts(cfg, st, a);
    ChangesAppend(a, b);
    AllSafeAppend(IndexOf(cfg, st), ChangesOf(a), ChangesOf(b), issued, !cfg.isConcurrent);
  }

  lemma PlanKeeps(cfg: Config, st: State, ws: seq<Write>, issued: set<string>)
    requires Consistent(cfg, st, issued) && SafePlan(cfg, st, ws, issued)
    ensures Consistent(cfg, PerformAll(cfg, st, ws), issued)
  {
    SafePlanPrefix(cfg, st, ws, issued, |ws|);
    assert ws[..|ws|] == ws;
  }

  lemma OneSafeWrite(cfg: Config, st: State, w: Write, issued: set<string>)
    requires SafeWrite(cfg, st, w, issued)
    ensures SafePlan(cfg, st, [w], issued)
  {
    assert ChangesOf([w]) == [ChangeOf(w)] by { assert [w][..0] == []; }
    OneSafeChange(IndexOf(cfg, st), ChangeOf(w), issued, !cfg.isConcurrent);
  }

  // ---- the plans ----

  lemma LoadedIsListed(cfg: Config, st: State, id: string)
    requires Sound(cfg, st)
    ensures Load(st, id).Ok? || Load(st, id) == Err(NotFound)
    ensures Load(st, id).Ok? ==> Savable(cfg, Load(st, id).value, id) && id in IndexOf(cfg, st).lists
    ensures ListOf(IndexOf(cfg, st), id) == if Load(st, id).Ok? then TokensOf(Load(st, id).value.terminals) else {}
  {
    assert id in st.sessions ==> SessionSound(cfg, st, id);
  }

  lemma StampIsSafe(cfg: Config, st: State, now: State, token: string, issued: set<string>)
    ensures SafePlan(cfg, st, StampNow(cfg, now, token), issued)
    ensures cfg.activeTimeout > 0 ==> SafePlan(cfg, st, [PutStamp(token, Millis(now.now))], issued)
  {
    OneSafeWrite(cfg, st, PutStamp(token, Millis(now.now)), issued);
  }

  lemma TokensOfLast(terminals: seq<TerminalInfo>)
    requires terminals != []
    ensures TokensOf(terminals) == TokensOf(terminals[..|terminals| - 1]) + {terminals[|terminals| - 1].tokenValue}
  {
    assert terminals == terminals[..|terminals| - 1] + [terminals[|terminals| - 1]];
  }

  lemma TwoChanges(v: Write, w: Write)
    ensures ChangesOf([v]) == [ChangeOf(v)]
    ensures ChangesOf([v, w]) == [ChangeOf(v), ChangeOf(w)]
  {
    assert [v][..0] == [] && [v, w][..1] == [v];
  }

  lemma {:induction false} EvictionSound(cfg: Config, terminals: seq<TerminalInfo>)
    ensures SoundWrites(cfg, EvictTerminals(terminals))
  {
    if terminals != [] {
      EvictionSound(cfg, terminals[..|terminals| - 1]);
    }
  }

  function Named(terminals: seq<TerminalInfo>): set<string> {
    if terminals == [] then {}
    else
      var t := terminals[|terminals| - 1].tokenValue;
      Named(terminals[..|terminals| - 1]) + if t == "" then {} else {t}
  }

  lemma {:induction false} NamedTokens(terminals: seq<TerminalInfo>)
    ensures Named(terminals) == TokensOf(terminals) - {""}
  {
    if terminals != [] {
      NamedTokens(terminals[..|terminals| - 1]);
      TokensOfLast(terminals);
    }
  }

  lemma EvictOneMore(before: seq<Write>, t: string)
    ensures var cs := ChangesOf(before + [DelToken(t), DelStamp(t)]);
            (OnlyDrops(ChangesOf(before)) ==> OnlyDrops(cs)) && Dropped(cs) == Dropped(ChangesOf(before)) + {t}
  {
    ChangesAppend(before, [DelToken(t), DelStamp(t)]);
    TwoChanges(DelToken(t), DelStamp(t));
    DroppedOneMore(ChangesOf(before), t);
  }

  lemma {:induction false} EvictionChanges(terminals: seq<TerminalInfo>)
    ensures OnlyDrops(ChangesOf(EvictTerminals(terminals)))
    ensures Dropped(ChangesOf(EvictTerminals(terminals))) == Named(terminals)
  {
    if terminals != [] {
      var t, before := terminals[|terminals| - 1].tokenValue, EvictTerminals(terminals[..|terminals| - 1]);
      EvictionChanges(terminals[..|terminals| - 1]);
      EvictOneMore(before, t);
      assert EvictTerminals(terminals) == if t == "" then before else before + [DelToken(t), DelStamp(t)];
    }
  }

  lemma EmptyListHasNoCurrentToken(cfg: Config, st: State, id: string)
    requires Sound(cfg, st) && ListOf(IndexOf(cfg, st), id) == {}
    ensures CurrentToken(st, id) == Err(NotFound)
  {
    LoadedIsListed(cfg, st, id);
    if Load(st, id).Ok? {
      var terminals := Load(st, id).value.terminals;
      assert terminals != [] ==> terminals[0].tokenValue in TokensOf(terminals);
    }
  }

  lemma EvictSound(cfg: Config, s: Session, id: string)
    requires Savable(cfg, s, id)
    ensures SoundWrites(cfg, EvictTerminals(s.terminals) + [PutSession(id, s.(terminals := []))])
  {
    EvictionSound(cfg, s.terminals);
  }

  lemma EvictShifts(x: Index, issued: set<string>, single: bool, id: string, terminals: seq<TerminalInfo>, save: Write)
    requires Agree(x, issued, single) && "" !in issued
    requires id in x.lists && x.lists[id].value == TokensOf(terminals)
    requires ChangeOf(save) == SetList(id, {})
    ensures var cs := ChangesOf(EvictTerminals(terminals) + [save]);
            && AllSafe(x, cs, issued, single)
            && Evicted(x, ShiftAll(x, cs), id)
  {
    AccountFacts(x, id, issued, single);
    EvictionChanges(terminals);
    NamedTokens(terminals);
    ChangesAppend(EvictTerminals(terminals), [save]);
    TwoChanges(save, save);
    hide Agree, AllSafe, ShiftAll, Owned, Evicted, EvictTerminals, Dropped, OnlyDrops;
    UnmapThenEmptyEvicts(x, ChangesOf(EvictTerminals(terminals)), id, issued, single);
  }

  lemma EvictIsSafe(cfg: Config, st: State, issued: set<string>, id: string, s: Session)
    requires Consistent(cfg, st, issued) && Load(st, id) == Ok(s)
    ensures var writes := EvictTerminals(s.terminals) + [PutSession(id, s.(terminals := []))];
            && SafePlan(cfg, st, writes, issued)
            && Evicted(IndexOf(cfg, st), IndexOf(cfg, PerformAll(cfg, st, writes)), id)
  {
    var save := PutSession(id, s.(terminals := []));
    LoadedIsListed(cfg, st, id);
    EvictSound(cfg, s, id);
    EvictShifts(IndexOf(cfg, st), issued, !cfg.isConcurrent, id, s.terminals, save);
    PerformShifts(cfg, st, EvictTerminals(s.terminals) + [save]);
  }

  /** Evicting an account leaves it without live tokens, and no write on the way separates the indexes. */
  lemma ReplacedIsSafe(cfg: Config, st: State, issued: set<string>, id: string)
    requires Consistent(cfg, st, issued)
    ensures var plan := ReplacedPlan(cfg, st, id);
            && plan.result.Ok?
            && SafePlan(cfg, st, plan.writes, issued)
            && Evicted(IndexOf(cfg, st), IndexOf(cfg, PerformAll(cfg, st, plan.writes)), id)
            && CurrentToken(PerformAll(cfg, st, plan.writes), id) == Err(NotFound)
  {
    LoadedIsListed(cfg, st, id);
    var plan := ReplacedPlan(cfg, st, id);
    match Load(st, id) {
      case Ok(s) =>
        EvictIsSafe(cfg, st, issued, id, s);
        PlanKeeps(cfg, st, plan.writes, issued);
        EmptyListHasNoCurrentToken(cfg, PerformAll(cfg, st, plan.writes), id);
      case Err(_) =>
        AccountFacts(IndexOf(cfg, st), id, issued, !cfg.isConcurrent);
    }
  }

  /** What consistency says about one live token. */
  lemma LiveToken(cfg: Config, st: State, issued: set<string>, token: string)
    requires Consistent(cfg, st, issued) && token in st.tokens
    ensures token != "" && token in issued
    ensures var id := st.tokens[token].value;
            && !Blank(id)
            && TokenOwner(st, token) == Ok(id)
            && Load(st, id).Ok?
            && Savable(cfg, Load(st, id).value, id)
            && token in TokensOf(Load(st, id).value.terminals)
            && id in IndexOf(cfg, st).lists
            && NoLater(st.tokens[token].deadline, st.sessions[id].deadline)
            && NoLater(st.tokens[token].deadline, DueDate(cfg, st.now))
  {
    hide Savable;
    var x, id := IndexOf(cfg, st), st.tokens[token].value;
    assert Backed(x, token) && ListSound(x, issued, id);
    assert NamesAccount(st, token);
    LoadedIsListed(cfg, st, id);
  }
}
