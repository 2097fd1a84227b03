/** What each operation of the login logic (satoken/logic.go) writes to the store, in order.

    A plan is the sequence of store writes of one operation together with its result, computed from the
    entries that are live when the operation starts. The class in Logic.dfy carries the plans out. */
module LoginSpec {
  import opened Results
  import opened Text
  import opened MemoryStores
  import opened Sessions
  import opened SessionCodec
  import opened TokenIndex

  const SESSION_TYPE_ACCOUNT := "Account-Session"

  /** Go library code that is not modelled: the text form of JSON, and fmt.Sprintf("%v"). */
  datatype GoLib = GoLib(render: Json -> string, parse: string -> Option<Json>, sprint: Val -> string)

  datatype Config = Config(
    tokenName: string,
    loginType: string,
    timeout: int,
    activeTimeout: int,
    isConcurrent: bool,
    isShare: bool,
    lib: GoLib)

  /** A timeout that Set honours and time.Duration holds. */
  predicate ValidConfig(cfg: Config) {
    cfg.timeout == NEVER_EXPIRE || 0 < cfg.timeout <= MAX_TIMEOUT
  }

  function Millis(now: int): int {
    now / 1_000_000
  }

  // ---- the live entries, one map per key family ----

  datatype State = State(
    now: int,
    tokens: map<string, Dated<string>>,
    sessions: map<string, Dated<Result<Session, Error>>>,
    stamps: map<string, Dated<string>>)

  function Unexpired<V>(cells: map<string, Dated<V>>, now: int): map<string, Dated<V>> {
    map k | k in cells && Alive(cells[k].deadline, now) :: cells[k]
  }

  function Later(st: State, elapsed: nat): State {
    var now := st.now + elapsed;
    State(now, Unexpired(st.tokens, now), Unexpired(st.sessions, now), Unexpired(st.stamps, now))
  }

  datatype Write =
    | PutToken(token: string, loginId: string)
    | PutSession(id: string, session: Session)
    | PutStamp(token: string, millis: int)
    | DelToken(token: string)
    | DelStamp(token: string)
    | DelTokenSession(token: string)
    | DelSession(id: string)

  function DueDate(cfg: Config, now: int): Deadline {
    DeadlineAfter(cfg.timeout, now)
  }

  function Perform(cfg: Config, st: State, w: Write): State {
    var due := DueDate(cfg, st.now);
    match w
    case PutToken(t, id) => st.(tokens := st.tokens[t := Dated(id, due)])
    case PutSession(id, s) => st.(sessions := st.sessions[id := Dated(Reload(s), due)])
    case PutStamp(t, millis) => st.(stamps := st.stamps[t := Dated(PrintInt(millis), due)])
    case DelToken(t) => st.(tokens := st.tokens - {t})
    case DelStamp(t) => st.(stamps := st.stamps - {t})
    case DelTokenSession(_) => st
    case DelSession(id) => st.(sessions := st.sessions - {id})
  }

  function PerformAll(cfg: Config, st: State, ws: seq<Write>): State {
    if ws == [] then st else Perform(cfg, PerformAll(cfg, st, ws[..|ws| - 1]), ws[|ws| - 1])
  }

  lemma {:induction false} PerformAppend(cfg: Config, st: State, a: seq<Write>, b: seq<Write>)
    ensures PerformAll(cfg, st, a + b) == PerformAll(cfg, PerformAll(cfg, st, a), b)
  {
    if b == [] {
      assert a + b == a;
    } else {
      PerformAppend(cfg, st, a, b[..|b| - 1]);
      assert (a + b)[..|a + b| - 1] == a + b[..|b| - 1];
    }
  }

  lemma {:induction false} PerformKeepsNow(cfg: Config, st: State, ws: seq<Write>)
    ensures PerformAll(cfg, st, ws).now == st.now
  {
    if ws != [] {
      PerformKeepsNow(cfg, st, ws[..|ws| - 1]);
    }
  }

  // ---- reading ----

  function LoginIDOf(cfg: Config, s: Session): string {
    match s.loginId
    case VStr(id) => id
    case VNil => ""
    case v => cfg.lib.sprint(v)
  }

  /** LoginIDByToken */
  function TokenOwner(st: State, token: string): Result<string, Error> {
    if token == "" || token !in st.tokens || Blank(st.tokens[token].value) then Err(NotFound)
    else Ok(st.tokens[token].value)
  }

  /** getSessionByID */
  function Load(st: State, id: string): Result<Session, Error> {
    if id in st.sessions then st.sessions[id].value else Err(NotFound)
  }

  function FirstToken(terminals: seq<TerminalInfo>): (r: Result<string, Error>)
    ensures r.Ok? ==> r.value != ""
  {
    if terminals == [] then Err(NotFound)
    else if terminals[0].tokenValue != "" then Ok(terminals[0].tokenValue)
    else FirstToken(terminals[1..])
  }

  /** TokenValueByLoginID */
  function CurrentToken(st: State, id: string): Result<string, Error> {
    match Load(st, id)
    case Ok(s) => FirstToken(s.terminals)
    case Err(e) => Err(e)
  }

  /** The token was last stamped too long ago. A stamp that is missing or unreadable never is. */
  predicate IdleExpired(cfg: Config, st: State, token: string) {
    && cfg.activeTimeout > 0
    && token in st.stamps
    && !Blank(st.stamps[token].value)
    && var last := ParseInt64(st.stamps[token].value);
       last.Some? && Millis(st.now) - last.value > cfg.activeTimeout * 1000
  }

  // ---- plans ----

  datatype Plan<+T> = Plan(writes: seq<Write>, result: Result<T, Error>)

  function Save(cfg: Config, s: Session): Write {
    PutSession(LoginIDOf(cfg, s), s)
  }

  function StampNow(cfg: Config, st: State, token: string): seq<Write> {
    if cfg.activeTimeout <= 0 then [] else [PutStamp(token, Millis(st.now))]
  }

  function EvictTerminals(terminals: seq<TerminalInfo>): seq<Write> {
    if terminals == [] then []
    else
      var t := terminals[|terminals| - 1].tokenValue;
      EvictTerminals(terminals[..|terminals| - 1]) + if t == "" then [] else [DelToken(t), DelStamp(t)]
  }

  function ReplacedPlan(cfg: Config, st: State, id: string): Plan<()> {
    match Load(st, id)
    case Err(NotFound) => Plan([], Ok(()))
    case Err(e) => Plan([], Err(e))
    case Ok(s) => Plan(EvictTerminals(s.terminals) + [Save(cfg, s.(terminals := []))], Ok(()))
  }

  function RenewPlan(cfg: Config, st: State, token: string, id: string): Plan<()> {
    match Load(st, id)
    case Err(NotFound) => Plan([PutToken(token, id)], Ok(()))
    case Err(e) => Plan([PutToken(token, id)], Err(e))
    case Ok(s) => Plan([PutToken(token, id), Save(cfg, s)] + StampNow(cfg, st, token), Ok(()))
  }

  /** getSessionByLoginID with create: the stored session, or a new one when there is none. */
  function OpenSession(st: State, id: string, newId: string): Result<Session, Error> {
    var loaded := Load(st, id);
    if loaded == Err(NotFound) then Ok(NewSession(newId)) else loaded
  }

  /** The session of an account with a terminal for a new token. */
  function SignedIn(cfg: Config, st: State, s: Session, id: string, token: string): Session {
    WithTerminal(s.(kind := SESSION_TYPE_ACCOUNT, loginType := cfg.loginType, loginId := VStr(id)),
                 TerminalInfo(0, token, "", "", map[], Millis(st.now)))
  }

  function FreshPlan(cfg: Config, st: State, id: string, minted: Result<string, Error>, newId: string): Plan<string> {
    match minted
    case Err(e) => Plan([], Err(e))
    case Ok(token) =>
      match OpenSession(st, id, newId)
      case Err(e) => Plan([], Err(e))
      case Ok(s) =>
        Plan([Save(cfg, SignedIn(cfg, st, s, id, token)), PutToken(token, id)] + StampNow(cfg, st, token), Ok(token))
  }

  function SignInPlan(cfg: Config, st: State, id: string, minted: Result<string, Error>, newId: string): Plan<string> {
    var existing := CurrentToken(st, id);
    if cfg.isShare && existing.Ok? then
      var renewal := RenewPlan(cfg, st, existing.value, id);
      Plan(renewal.writes, if renewal.result.Ok? then existing else Err(renewal.result.error))
    else if cfg.isShare && existing.error != NotFound then Plan([], existing)
    else FreshPlan(cfg, st, id, minted, newId)
  }

  /** minted is what NewTokenValue would answer, newId what NewSessionID would. */
  function LoginPlan(cfg: Config, st: State, id: string, minted: Result<string, Error>, newId: string): Plan<string> {
    if Blank(id) then Plan([], Err(BlankLoginID))
    else
      var evict := if cfg.isConcurrent then Plan([], Ok(())) else ReplacedPlan(cfg, st, id);
      if evict.result.Err? then Plan(evict.writes, Err(evict.result.error))
      else
        var rest := SignInPlan(cfg, PerformAll(cfg, st, evict.writes), id, minted, newId);
        Plan(evict.writes + rest.writes, rest.result)
  }

  function LogoutPlan(cfg: Config, st: State, token: string): Plan<()> {
    var deletes := [DelToken(token), DelStamp(token), DelTokenSession(token)];
    match TokenOwner(st, token)
    case Err(_) => Plan(deletes, Ok(()))
    case Ok(id) =>
      match Load(st, id)
      case Err(NotFound) => Plan(deletes, Ok(()))
      case Err(e) => Plan(deletes, Err(e))
      case Ok(s) =>
        var left := WithoutTerminal(s, token);
        Plan(deletes + [if left.terminals == [] then DelSession(id) else Save(cfg, left)], Ok(()))
  }

  function CheckPlan(cfg: Config, st: State, token: string): Plan<string> {
    var owner := TokenOwner(st, token);
    if owner.Err? || cfg.activeTimeout <= 0 then Plan([], owner)
    else if IdleExpired(cfg, st, token) then
      var out := LogoutPlan(cfg, st, token);
      Plan(out.writes, Err(if out.result.Err? then out.result.error else NotFound))
    else Plan(StampNow(cfg, st, token), owner)
  }

  /** The defaults SaveSession fills in. */
  function Completed(cfg: Config, s: Session, newId: string): Session {
    s.(id := if s.id == "" then newId else s.id,
       loginType := if s.loginType == "" then cfg.loginType else s.loginType,
       kind := if s.kind == "" then SESSION_TYPE_ACCOUNT else s.kind)
  }

  function SavePlan(cfg: Config, s: Session, newId: string): Plan<()> {
    Plan([Save(cfg, Completed(cfg, s, newId))], Ok(()))
  }
}
