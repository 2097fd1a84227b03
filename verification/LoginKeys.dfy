/** The string keys of the login logic (satoken/logic.go:75-95), and the live store entries read as the
    state that the plans speak about. */
module LoginKeys {
  import opened Results
  import opened Text
  import opened MemoryStores
  import opened Sessions
  import opened SessionCodec
  import opened TokenIndex
  import opened LoginSpec

  function TokenKey(cfg: Config, token: string): string {
    cfg.tokenName + ":" + cfg.loginType + ":token:" + token
  }

  function SessionKey(cfg: Config, id: string): string {
    cfg.tokenName + ":" + cfg.loginType + ":session:" + id
  }

  function TokenSessionKey(cfg: Config, token: string): string {
    cfg.tokenName + ":" + cfg.loginType + ":token-session:" + token
  }

  function LastActiveKey(cfg: Config, token: string): string {
    cfg.tokenName + ":" + cfg.loginType + ":last-active:" + token
  }

  lemma SplicedText(family: string, name: string)
    ensures "acat-admin-token" + ":" + "login" + family + name == "acat-admin-token:login" + (family + name)
  {
    assert "acat-admin-token" + ":" + "login" == "acat-admin-token:login";
  }

  /** The keys of a configured system (satoken/logic_test.go:17-31). */
  lemma KeysOfTheTests(cfg: Config)
    requires cfg.tokenName == "acat-admin-token" && cfg.loginType == "login"
    ensures TokenKey(cfg, "abc") == "acat-admin-token:login" + ":token:abc"
    ensures SessionKey(cfg, "0") == "acat-admin-token:login" + ":session:0"
    ensures TokenSessionKey(cfg, "abc") == "acat-admin-token:login" + ":token-session:abc"
    ensures LastActiveKey(cfg, "abc") == "acat-admin-token:login" + ":last-active:abc"
  {
    SplicedText(":token:", "abc");
    SplicedText(":session:", "0");
    SplicedText(":token-session:", "abc");
    SplicedText(":last-active:", "abc");
    assert ":token:" + "abc" == ":token:abc" && ":session:" + "0" == ":session:0";
    assert ":token-session:" + "abc" == ":token-session:abc" && ":last-active:" + "abc" == ":last-active:abc";
  }

  /** Two prefixes that differ at some position both have. */
  predicate Diverge(a: string, b: string) {
    exists i :: 0 <= i < |a| && i < |b| && a[i] != b[i]
  }

  lemma DivergedKeys(a: string, b: string, x: string, y: string)
    requires Diverge(a, b)
    ensures a + x != b + y
    ensures !(a <= b + y)
  {
    var i :| 0 <= i < |a| && i < |b| && a[i] != b[i];
    assert (a + x)[i] == a[i] && (b + y)[i] == b[i];
  }

  lemma FamiliesDiverge(cfg: Config)
    ensures var t, s, ts, la := TokenKey(cfg, ""), SessionKey(cfg, ""), TokenSessionKey(cfg, ""), LastActiveKey(cfg, "");
            && Diverge(t, s) && Diverge(t, ts) && Diverge(t, la)
            && Diverge(s, t) && Diverge(s, ts) && Diverge(s, la)
            && Diverge(la, t) && Diverge(la, s) && Diverge(la, ts)
  {
    var t, s, ts, la := TokenKey(cfg, ""), SessionKey(cfg, ""), TokenSessionKey(cfg, ""), LastActiveKey(cfg, "");
    var n := |cfg.tokenName| + 1 + |cfg.loginType|;
    assert t[n + 1] == 't' && s[n + 1] == 's' && ts[n + 1] == 't' && la[n + 1] == 'l';
    assert t[n + 6] == ':' && ts[n + 6] == '-';
  }

  /** Each key is the family's prefix followed by the name. */
  lemma KeysArePrefixed(cfg: Config, name: string)
    ensures TokenKey(cfg, name) == TokenKey(cfg, "") + name
    ensures SessionKey(cfg, name) == SessionKey(cfg, "") + name
    ensures TokenSessionKey(cfg, name) == TokenSessionKey(cfg, "") + name
    ensures LastActiveKey(cfg, name) == LastActiveKey(cfg, "") + name
  {
  }

  datatype Kind = TokenKind | SessionKind | TokenSessionKind | LastActiveKind

  function Key(cfg: Config, kind: Kind, name: string): string {
    match kind
    case TokenKind => TokenKey(cfg, name)
    case SessionKind => SessionKey(cfg, name)
    case TokenSessionKind => TokenSessionKey(cfg, name)
    case LastActiveKind => LastActiveKey(cfg, name)
  }

  /** The four families never collide, and within a family a key determines its name, whatever the names
      and the configured prefixes contain. */
  lemma KeysAreUnambiguous(cfg: Config, a: Kind, x: string, b: Kind, y: string)
    ensures Key(cfg, a, x) == Key(cfg, b, y) <==> a == b && x == y
  {
    KeysArePrefixed(cfg, x);
    KeysArePrefixed(cfg, y);
    FamiliesDiverge(cfg);
    if a == b {
      var p := Key(cfg, a, "");
      assert (p + x)[|p|..] == x && (p + y)[|p|..] == y;
    } else if a.TokenSessionKind? {
      DivergedKeys(Key(cfg, b, ""), Key(cfg, a, ""), y, x);
    } else {
      DivergedKeys(Key(cfg, a, ""), Key(cfg, b, ""), x, y);
    }
  }

  // ---- one family of the live entries ----

  function Names(view: map<string, Entry>, prefix: string): set<string> {
    set k | k in view && prefix <= k :: k[|prefix|..]
  }

  lemma NamesLookup(view: map<string, Entry>, prefix: string, name: string)
    ensures name in Names(view, prefix) <==> prefix + name in view
  {
    if name in Names(view, prefix) {
      var k :| k in view && prefix <= k && k[|prefix|..] == name;
      assert k == prefix + name;
    }
    if prefix + name in view {
      assert (prefix + name)[|prefix|..] == name;
    }
  }

  function Family(view: map<string, Entry>, prefix: string): map<string, Dated<string>> {
    map name | name in Names(view, prefix) ::
      assert prefix + name in view by { NamesLookup(view, prefix, name); }
      Dated(view[prefix + name].value, view[prefix + name].deadline)
  }

  lemma FamilyLookup(view: map<string, Entry>, prefix: string, name: string)
    ensures name in Family(view, prefix) <==> prefix + name in view
    ensures prefix + name in view ==>
              Family(view, prefix)[name] == Dated(view[prefix + name].value, view[prefix + name].deadline)
  {
    NamesLookup(view, prefix, name);
  }

  lemma FamilyPut(view: map<string, Entry>, prefix: string, name: string, e: Entry)
    ensures Family(view[prefix + name := e], prefix) == Family(view, prefix)[name := Dated(e.value, e.deadline)]
  {
    var after := view[prefix + name := e];
    forall n ensures n in Family(after, prefix) <==> n in Family(view, prefix)[name := Dated(e.value, e.deadline)]
             ensures n in Family(after, prefix) ==>
                       Family(after, prefix)[n] == Family(view, prefix)[name := Dated(e.value, e.deadline)][n]
    {
      FamilyLookup(after, prefix, n);
      FamilyLookup(view, prefix, n);
      assert (prefix + n)[|prefix|..] == n && (prefix + name)[|prefix|..] == name;
    }
  }

  lemma FamilyRemove(view: map<string, Entry>, prefix: string, name: string)
    ensures Family(view - {prefix + name}, prefix) == Family(view, prefix) - {name}
  {
    var after := view - {prefix + name};
    forall n ensures n in Family(after, prefix) <==> n in Family(view, prefix) - {name}
             ensures n in Family(after, prefix) ==> Family(after, prefix)[n] == Family(view, prefix)[n]
    {
      FamilyLookup(after, prefix, n);
      FamilyLookup(view, prefix, n);
      assert (prefix + n)[|prefix|..] == n && (prefix + name)[|prefix|..] == name;
    }
  }

  lemma FamilyUntouched(view: map<string, Entry>, after: map<string, Entry>, prefix: string, key: string)
    requires !(prefix <= key)
    requires forall k | k != key :: (k in after <==> k in view) && (k in view ==> after[k] == view[k])
    ensures Family(after, prefix) == Family(view, prefix)
  {
    forall n ensures n in Family(after, prefix) <==> n in Family(view, prefix)
             ensures n in Family(after, prefix) ==> Family(after, prefix)[n] == Family(view, prefix)[n]
    {
      FamilyLookup(after, prefix, n);
      FamilyLookup(view, prefix, n);
      assert prefix <= prefix + n;
    }
  }

  // ---- the live entries as a state ----

  ghost predicate FaithfulJson(lib: GoLib) {
    forall j :: lib.parse(lib.render(j)) == Some(j)
  }

  function ReadSession(lib: GoLib, text: string): (r: Result<Session, Error>)
    ensures r.Err? ==> r.error == BadSession
  {
    match lib.parse(text)
    case None => Err(BadSession)
    case Some(j) => UnmarshalSession(j)
  }

  function ReadSessions(lib: GoLib, texts: map<string, Dated<string>>): map<string, Dated<Result<Session, Error>>> {
    map id | id in texts :: Dated(ReadSession(lib, texts[id].value), texts[id].deadline)
  }

  function StateOf(cfg: Config, view: map<string, Entry>, now: int): State {
    State(now,
          Family(view, TokenKey(cfg, "")),
          ReadSessions(cfg.lib, Family(view, SessionKey(cfg, ""))),
          Family(view, LastActiveKey(cfg, "")))
  }

  /** The session of an account is what the text under its key decodes to; text that is no JSON is unreadable. */
  lemma LoadReadsTheEntry(cfg: Config, view: map<string, Entry>, now: int, id: string)
    ensures var key := cfg.tokenName + ":" + cfg.loginType + ":session:" + id;
            Load(StateOf(cfg, view, now), id) ==
            if key !in view then Err(NotFound)
            else match cfg.lib.parse(view[key].value)
                 case None => Err(BadSession)
                 case Some(j) => UnmarshalSession(j)
  {
    FamilyLookup(view, SessionKey(cfg, ""), id);
    KeysArePrefixed(cfg, id);
    hide Family;
  }

  /** The owner of a token is the text under its key, unless that is blank. */
  lemma OwnerReadsTheEntry(cfg: Config, view: map<string, Entry>, now: int, token: string)
    ensures var key := cfg.tokenName + ":" + cfg.loginType + ":token:" + token;
            TokenOwner(StateOf(cfg, view, now), token) ==
            if token == "" || key !in view || Blank(view[key].value) then Err(NotFound) else Ok(view[key].value)
  {
    FamilyLookup(view, TokenKey(cfg, ""), token);
    KeysArePrefixed(cfg, token);
    hide Family;
  }

  function StoreWriteOf(cfg: Config, w: Write): StoreWrite {
    match w
    case PutToken(t, id) => Stored(TokenKey(cfg, t), id, cfg.timeout)
    case PutSession(id, s) => Stored(SessionKey(cfg, id), cfg.lib.render(MarshalSession(s)), cfg.timeout)
    case PutStamp(t, millis) => Stored(LastActiveKey(cfg, t), PrintInt(millis), cfg.timeout)
    case DelToken(t) => Removed(TokenKey(cfg, t))
    case DelStamp(t) => Removed(LastActiveKey(cfg, t))
    case DelTokenSession(t) => Removed(TokenSessionKey(cfg, t))
    case DelSession(id) => Removed(SessionKey(cfg, id))
  }

  function StoreWritesOf(cfg: Config, ws: seq<Write>): seq<StoreWrite> {
    seq(|ws|, i requires 0 <= i < |ws| => StoreWriteOf(cfg, ws[i]))
  }

  /** The effect of a write on the live entries. */
  function ViewAfter(view: map<string, Entry>, now: int, sw: StoreWrite): map<string, Entry> {
    match sw
    case Stored(key, value, timeout) => view[key := Entry(value, DeadlineAfter(timeout, now))]
    case Removed(key) => view - {key}
  }

  lemma OtherFamilies(cfg: Config, view: map<string, Entry>, after: map<string, Entry>, kind: Kind, name: string)
    requires forall k | k != Key(cfg, kind, name) :: (k in after <==> k in view) && (k in view ==> after[k] == view[k])
    ensures !kind.TokenKind? ==> Family(after, TokenKey(cfg, "")) == Family(view, TokenKey(cfg, ""))
    ensures !kind.SessionKind? ==> Family(after, SessionKey(cfg, "")) == Family(view, SessionKey(cfg, ""))
    ensures !kind.LastActiveKind? ==> Family(after, LastActiveKey(cfg, "")) == Family(view, LastActiveKey(cfg, ""))
  {
    KeysArePrefixed(cfg, name);
    FamiliesDiverge(cfg);
    var key, p := Key(cfg, kind, name), Key(cfg, kind, "");
    if !kind.TokenKind? {
      DivergedKeys(TokenKey(cfg, ""), p, "", name);
      FamilyUntouched(view, after, TokenKey(cfg, ""), key);
    }
    if !kind.SessionKind? {
      DivergedKeys(SessionKey(cfg, ""), p, "", name);
      FamilyUntouched(view, after, SessionKey(cfg, ""), key);
    }
    if !kind.LastActiveKind? {
      DivergedKeys(LastActiveKey(cfg, ""), p, "", name);
      FamilyUntouched(view, after, LastActiveKey(cfg, ""), key);
    }
  }

  function KindOf(w: Write): Kind {
    match w
    case PutToken(_, _) => TokenKind
    case DelToken(_) => TokenKind
    case PutSession(_, _) => SessionKind
    case DelSession(_) => SessionKind
    case DelTokenSession(_) => TokenSessionKind
    case _ => LastActiveKind
  }

  function NameOf(w: Write): string {
    match w
    case PutSession(id, _) => id
    case DelSession(id) => id
    case _ => w.token
  }

  lemma RefinesToken(cfg: Config, view: map<string, Entry>, now: int, w: Write)
    requires KindOf(w).TokenKind? || KindOf(w).LastActiveKind?
    ensures StateOf(cfg, ViewAfter(view, now, StoreWriteOf(cfg, w)), now) == Perform(cfg, StateOf(cfg, view, now), w)
  {
    var after := ViewAfter(view, now, StoreWriteOf(cfg, w));
    KeysArePrefixed(cfg, w.token);
    OtherFamilies(cfg, view, after, KindOf(w), w.token);
    match w
    case PutToken(t, id) => FamilyPut(view, TokenKey(cfg, ""), t, Entry(id, DueDate(cfg, now)));
    case PutStamp(t, millis) => FamilyPut(view, LastActiveKey(cfg, ""), t, Entry(PrintInt(millis), DueDate(cfg, now)));
    case DelToken(t) => FamilyRemove(view, TokenKey(cfg, ""), t);
    case DelStamp(t) => FamilyRemove(view, LastActiveKey(cfg, ""), t);
  }

  lemma ReadSessionsPut(lib: GoLib, texts: map<string, Dated<string>>, id: string, text: string, d: Deadline)
    ensures ReadSessions(lib, texts[id := Dated(text, d)]) == ReadSessions(lib, texts)[id := Dated(ReadSession(lib, text), d)]
    ensures ReadSessions(lib, texts - {id}) == ReadSessions(lib, texts) - {id}
  {
  }

  lemma RefinesSession(cfg: Config, view: map<string, Entry>, now: int, w: Write)
    requires FaithfulJson(cfg.lib) && (KindOf(w).SessionKind? || KindOf(w).TokenSessionKind?)
    ensures StateOf(cfg, ViewAfter(view, now, StoreWriteOf(cfg, w)), now) == Perform(cfg, StateOf(cfg, view, now), w)
  {
    var after, texts := ViewAfter(view, now, StoreWriteOf(cfg, w)), Family(view, SessionKey(cfg, ""));
    KeysArePrefixed(cfg, NameOf(w));
    OtherFamilies(cfg, view, after, KindOf(w), NameOf(w));
    match w
    case PutSession(id, s) =>
      var text := cfg.lib.render(MarshalSession(s));
      FamilyPut(view, SessionKey(cfg, ""), id, Entry(text, DueDate(cfg, now)));
      ReadSessionsPut(cfg.lib, texts, id, text, DueDate(cfg, now));
      assert ReadSession(cfg.lib, text) == Reload(s);
    case DelSession(id) =>
      FamilyRemove(view, SessionKey(cfg, ""), id);
      ReadSessionsPut(cfg.lib, texts, id, "", Forever);
    case DelTokenSession(_) =>
  }

  /** A write to the store under a string key does to the state what the planned write says. */
  lemma StoreWriteRefines(cfg: Config, view: map<string, Entry>, now: int, w: Write)
    requires FaithfulJson(cfg.lib)
    ensures StateOf(cfg, ViewAfter(view, now, StoreWriteOf(cfg, w)), now) == Perform(cfg, StateOf(cfg, view, now), w)
  {
    if KindOf(w).TokenKind? || KindOf(w).LastActiveKind? {
      RefinesToken(cfg, view, now, w);
    } else {
      RefinesSession(cfg, view, now, w);
    }
  }

  lemma FamilyLater(view: map<string, Entry>, prefix: string, now: int)
    ensures Family(Visible(view, now), prefix) == Unexpired(Family(view, prefix), now)
  {
    forall n ensures n in Family(Visible(view, now), prefix) <==> n in Unexpired(Family(view, prefix), now)
             ensures n in Family(Visible(view, now), prefix) ==>
                       Family(Visible(view, now), prefix)[n] == Unexpired(Family(view, prefix), now)[n]
    {
      FamilyLookup(Visible(view, now), prefix, n);
      FamilyLookup(view, prefix, n);
    }
  }

  lemma ReadSessionsLater(lib: GoLib, texts: map<string, Dated<string>>, now: int)
    ensures ReadSessions(lib, Unexpired(texts, now)) == Unexpired(ReadSessions(lib, texts), now)
  {
  }

  /** Time passing in the store is time passing in the state. */
  lemma TickRefines(cfg: Config, view: map<string, Entry>, now: int, elapsed: nat)
    ensures StateOf(cfg, Visible(view, now + elapsed), now + elapsed) == Later(StateOf(cfg, view, now), elapsed)
  {
    hide Family, ReadSessions, Unexpired, Visible;
    ReadSessionsLater(cfg.lib, Family(view, SessionKey(cfg, "")), now + elapsed);
    FamilyLater(view, TokenKey(cfg, ""), now + elapsed);
    FamilyLater(view, SessionKey(cfg, ""), now + elapsed);
    FamilyLater(view, LastActiveKey(cfg, ""), now + elapsed);
  }

  // ---- following a plan ----

  /** Since the state was st, the writes done led somewhere; one more write takes it further. */
  lemma OneMoreWrite(cfg: Config, st: State, done: seq<Write>, w: Write)
    ensures PerformAll(cfg, st, done + [w]) == Perform(cfg, PerformAll(cfg, st, done), w)
    ensures StoreWritesOf(cfg, done + [w]) == StoreWritesOf(cfg, done) + [StoreWriteOf(cfg, w)]
  {
    assert (done + [w])[..|done|] == done;
  }

  /** The writes and the answer of an operation that was to carry out the plan: all of it, or the first
      part of its writes when the context was cancelled. */
  predicate Follows<T(==)>(plan: Plan<T>, ws: seq<Write>, r: Result<T, Error>) {
    if r == Err(Cancelled) then ws <= plan.writes else Plan(ws, r) == plan
  }

  lemma StateNow(cfg: Config, view: map<string, Entry>, now: int)
    ensures StateOf(cfg, view, now).now == now
  {
  }

  lemma LoginFollows(cfg: Config, st: State, id: string, minted: Result<string, Error>, newId: string,
                     evicted: Result<(), Error>, evict: seq<Write>, rest: seq<Write>, r: Result<string, Error>)
    requires !Blank(id) && evicted.Ok?
    requires if cfg.isConcurrent then evict == [] else Follows(ReplacedPlan(cfg, st, id), evict, evicted)
    requires Follows(SignInPlan(cfg, PerformAll(cfg, st, evict), id, minted, newId), rest, r)
    ensures Follows(LoginPlan(cfg, st, id, minted, newId), evict + rest, r)
  {
  }

  lemma StoreWritesAppend(cfg: Config, a: seq<Write>, b: seq<Write>)
    ensures StoreWritesOf(cfg, a + b) == StoreWritesOf(cfg, a) + StoreWritesOf(cfg, b)
  {
  }

  lemma NothingDone(cfg: Config, st: State, log: seq<StoreWrite>)
    ensures PerformAll(cfg, st, []) == st
    ensures log + StoreWritesOf(cfg, []) == log
  {
  }
}
