/** What an account's session answers, its permissions among it, lasts from one save to the next: logging in,
    being evicted, logging out and crashing change who is signed in, not what the account may do. */
module LoginAnswers {
  import opened Sessions
  import opened SessionCodec
  import opened CodecRoundTrip
  import opened TokenIndex
  import opened LoginSpec
  import opened LoginInvariant
  import opened LoginCrash
  import opened LoginTidy
  import opened LoginTorn
  import opened LoginRuns
  import opened LoginFinality
  import opened LoginEffects
  import opened LoginIsolation
  import opened LoginLockout

  /** What StringList and String answer for a key. */
  datatype Answers = Answers(strings: seq<string>, text: string)

  const NOTHING := Answers([], "")

  function AnswersTo(s: Session, key: string): Answers {
    Answers(StringList(s, key), String(s, key))
  }

  /** The value under the key is no nil list and no map posing as a collection, which reading back changes. */
  predicate Steady(s: Session, key: string) {
    && key != CLASS
    && (key in DataOf(s) ==> !DataOf(s)[key].VNilList? && (DataOf(s)[key].VMap? ==> ITEMS !in DataOf(s)[key].m))
  }

  /** Steady values answer the same after any number of saves. */
  lemma SteadyStays(s: Session, key: string)
    requires Steady(s, key)
    ensures Reload(s).Ok? ==> Steady(Reload(s).value, key) && AnswersTo(Reload(s).value, key) == AnswersTo(s, key)
  {
    ReloadComputes(s);
    if ReadableData(DataOf(s)) {
      StringsSurviveExactly(s, key);
      if key in DataOf(s) {
        SteadyValue(DataOf(s)[key]);
      }
      hide Reload;
    }
  }

  lemma SteadyValue(v: Val)
    requires Readable(v) && !v.VNilList? && (v.VMap? ==> ITEMS !in v.m)
    ensures DecodeDataValue(WrapValue(v)).Ok?
    ensures var w := DecodeDataValue(WrapValue(v)).value; !w.VNilList? && (w.VMap? ==> ITEMS !in w.m)
  {
    TopReadable(v);
  }

  // ---- writes ----

  /** If the account has a session, it answers a for the key, and steadily. */
  predicate Answering(st: State, id: string, key: string, a: Answers) {
    Load(st, id).Ok? ==> Steady(Load(st, id).value, key) && AnswersTo(Load(st, id).value, key) == a
  }

  predicate Carries(w: Write, id: string, key: string, a: Answers) {
    w.PutSession? && w.id == id ==> Steady(w.session, key) && AnswersTo(w.session, key) == a
  }

  predicate AllCarry(ws: seq<Write>, id: string, key: string, a: Answers) {
    forall i {:trigger ws[i]} :: 0 <= i < |ws| ==> Carries(ws[i], id, key, a)
  }

  lemma WriteKeepsAnswers(cfg: Config, st: State, w: Write, id: string, key: string, a: Answers)
    requires Answering(st, id, key, a) && Carries(w, id, key, a)
    ensures Answering(Perform(cfg, st, w), id, key, a)
  {
    hide Steady, AnswersTo, Reload;
    if w.PutSession? && w.id == id {
      SteadyStays(w.session, key);
    }
  }

  lemma {:induction false} WritesKeepAnswers(cfg: Config, st: State, ws: seq<Write>, id: string, key: string, a: Answers)
    requires Answering(st, id, key, a) && AllCarry(ws, id, key, a)
    ensures Answering(PerformAll(cfg, st, ws), id, key, a)
  {
    hide Answering, Carries, Perform;
    if ws != [] {
      WritesKeepAnswers(cfg, st, ws[..|ws| - 1], id, key, a);
      WriteKeepsAnswers(cfg, PerformAll(cfg, st, ws[..|ws| - 1]), ws[|ws| - 1], id, key, a);
    }
  }

  lemma BothCarry(x: seq<Write>, y: seq<Write>, id: string, key: string, a: Answers)
    requires AllCarry(x, id, key, a) && AllCarry(y, id, key, a)
    ensures AllCarry(x + y, id, key, a)
  {
    hide Carries;
  }

  lemma SameDataSameAnswers(s: Session, t: Session, key: string)
    requires t.data == s.data
    ensures Steady(t, key) == Steady(s, key) && AnswersTo(t, key) == AnswersTo(s, key)
  {
  }

  // ---- operations ----

  /** The account answers a, or it has no session and a is nothing. */
  predicate Gives(st: State, id: string, key: string, a: Answers) {
    Answering(st, id, key, a) && (Load(st, id).Err? ==> a == NOTHING) && key != CLASS
  }

  lemma {:induction false} EvictionCarries(terminals: seq<TerminalInfo>, id: string, key: string, a: Answers)
    ensures AllCarry(EvictTerminals(terminals), id, key, a)
  {
    hide Steady, AnswersTo;
    if terminals != [] {
      EvictionCarries(terminals[..|terminals| - 1], id, key, a);
    }
  }

  lemma ReplacedCarries(cfg: Config, st: State, id: string, key: string, a: Answers)
    requires Gives(st, id, key, a)
    ensures AllCarry(ReplacedPlan(cfg, st, id).writes, id, key, a)
  {
    hide Steady, AnswersTo;
    if Load(st, id).Ok? {
      var s := Load(st, id).value;
      EvictionCarries(s.terminals, id, key, a);
      SameDataSameAnswers(s, s.(terminals := []), key);
      BothCarry(EvictTerminals(s.terminals), [Save(cfg, s.(terminals := []))], id, key, a);
    }
  }

  lemma SignInCarries(cfg: Config, st: State, op: Op, key: string, a: Answers)
    requires op.Login? && Gives(st, op.id, key, a)
    ensures AllCarry(SignInPlan(cfg, st, op.id, op.minted, op.newId).writes, op.id, key, a)
  {
    NewAnswersNothing(op.newId, key);
    hide Steady, AnswersTo;
    var found := OpenSession(st, op.id, op.newId);
    if op.minted.Ok? && found.Ok? {
      SameDataSameAnswers(found.value, SignedIn(cfg, st, found.value, op.id, op.minted.value), key);
    }
  }

  lemma NewAnswersNothing(newId: string, key: string)
    ensures AnswersTo(NewSession(newId), key) == NOTHING && (key != CLASS ==> Steady(NewSession(newId), key))
  {
  }

  lemma LoginCarries(cfg: Config, st: State, issued: set<string>, op: Op, key: string, a: Answers)
    requires Tame(cfg, st, issued) && op.Login? && Gives(st, op.id, key, a)
    ensures AllCarry(WritesOf(cfg, st, op), op.id, key, a)
  {
    hide Tame, Answering, Carries, SignInPlan, ReplacedPlan, PerformAll;
    var evict := if cfg.isConcurrent then [] else ReplacedPlan(cfg, st, op.id).writes;
    var mid := PerformAll(cfg, st, evict);
    if cfg.isConcurrent {
      NothingPerformed(cfg, st);
    } else {
      ReplacedCarries(cfg, st, op.id, key, a);
      WritesKeepAnswers(cfg, st, evict, op.id, key, a);
      ReplacedStaysLoaded(cfg, st, issued, op.id);
    }
    SignInCarries(cfg, mid, op, key, a);
    BothCarry(evict, SignInPlan(cfg, mid, op.id, op.minted, op.newId).writes, op.id, key, a);
  }

  lemma ReplacedStaysLoaded(cfg: Config, st: State, issued: set<string>, id: string)
    requires Tame(cfg, st, issued)
    ensures Load(st, id).Ok? <==> Load(PerformAll(cfg, st, ReplacedPlan(cfg, st, id).writes), id).Ok?
  {
    hide Tame, Reload, ReadableData, StoredSession;
    ReplacedLeaves(cfg, st, issued, id);
    if Load(st, id).Ok? {
      TameIsSound(cfg, st, issued);
      SavedUnder(cfg, st, id);
      SessionReadsBack(Load(st, id).value.(terminals := []));
    }
  }

  lemma TameIsSound(cfg: Config, st: State, issued: set<string>)
    requires Tame(cfg, st, issued)
    ensures Sound(cfg, st)
  {
  }

  lemma LogoutCarries(cfg: Config, st: State, issued: set<string>, token: string, id: string, key: string, a: Answers)
    requires Tame(cfg, st, issued) && Gives(st, id, key, a)
    requires token in st.tokens && st.tokens[token].value == id
    ensures AllCarry(LogoutPlan(cfg, st, token).writes, id, key, a)
  {
    hide Sound, Tidy, Steady, AnswersTo, Savable;
    TameTokens(cfg, st, issued);
    LogoutWrites(cfg, st, token);
    if Load(st, id).Ok? {
      SameDataSameAnswers(Load(st, id).value, WithoutTerminal(Load(st, id).value, token), key);
    }
  }

  lemma OpCarries(cfg: Config, st: State, issued: set<string>, op: Op, id: string, key: string, a: Answers)
    requires Tame(cfg, st, issued) && Gives(st, id, key, a) && !(op.SaveSession? && LoginIDOf(cfg, op.session) == id)
    ensures AllCarry(WritesOf(cfg, st, op), id, key, a)
  {
    hide Tame, Gives, LoginPlan, LogoutPlan;
    if id in Accounts(cfg, st, op) {
      match op
      case Login(_, _, _) => LoginCarries(cfg, st, issued, op, key, a);
      case Logout(token) => LogoutCarries(cfg, st, issued, token, id, key, a);
      case CheckLogin(token) => LogoutCarries(cfg, st, issued, token, id, key, a);
      case SaveSession(_, _) =>
    } else {
      OpReach(cfg, st, issued, op);
    }
  }

  lemma StepKeepsAnswers(cfg: Config, w: World, step: Step, id: string, key: string, a: Answers)
    requires Tame(cfg, w.st, w.issued) && Possible(cfg, w, step) && Gives(w.st, id, key, a) && !Saves(cfg, step, id)
    ensures Answering(Next(cfg, w, step).st, id, key, a)
  {
    match step
    case Wait(elapsed) =>
    case Cut(op, k) => CutKeepsAnswers(cfg, w, op, k, id, key, a);
    case Complete(op) => CutKeepsAnswers(cfg, w, op, |WritesOf(cfg, w.st, op)|, id, key, a);
  }

  lemma CutKeepsAnswers(cfg: Config, w: World, op: Op, k: nat, id: string, key: string, a: Answers)
    requires Tame(cfg, w.st, w.issued) && Gives(w.st, id, key, a) && k <= |WritesOf(cfg, w.st, op)|
    requires !(op.SaveSession? && LoginIDOf(cfg, op.session) == id && k > 0)
    ensures Answering(CutAfter(cfg, w, op, k).st, id, key, a)
  {
    hide Tame, WritesOf, TornAfter, Carries;
    if k == 0 {
      NothingPerformed(cfg, w.st);
      assert WritesOf(cfg, w.st, op)[..0] == [];
    } else {
      OpCarries(cfg, w.st, w.issued, op, id, key, a);
      WritesKeepAnswers(cfg, w.st, WritesOf(cfg, w.st, op)[..k], id, key, a);
    }
  }

  // ---- runs ----

  /** The account has a session before the run and after each of its steps. */
  predicate StaysLoaded(cfg: Config, w: World, steps: seq<Step>, id: string)
    requires Runs(cfg, w, steps)
    decreases |steps|
  {
    Load(w.st, id).Ok? && (steps != [] ==> StaysLoaded(cfg, Next(cfg, w, steps[0]), steps[1..], id))
  }

  lemma {:induction false} RunKeepsAnswers(cfg: Config, w: World, steps: seq<Step>, id: string, key: string, a: Answers)
    requires Tame(cfg, w.st, w.issued) && Runs(cfg, w, steps) && !SavedIn(cfg, steps, id) && Gives(w.st, id, key, a)
    ensures Answering(After(cfg, w, steps).st, id, key, if StaysLoaded(cfg, w, steps, id) then a else NOTHING)
    decreases |steps|
  {
    hide Tame, Possible, Next, Saves, SavedIn, Steady, AnswersTo;
    if steps != [] {
      var next := Next(cfg, w, steps[0]);
      SavedInRest(cfg, steps, id);
      StepIsTame(cfg, w, steps[0]);
      StepKeepsAnswers(cfg, w, steps[0], id, key, a);
      RunKeepsAnswers(cfg, next, steps[1..], id, key, if Load(next.st, id).Ok? then a else NOTHING);
    }
  }

  /** Between two saves of an account its session answers the same for every steady key, whoever logs in or out,
      is evicted or crashes; only when the session was gone in between does a new one answer nothing. */
  lemma AnswersLast(cfg: Config, w: World, steps: seq<Step>, id: string, key: string)
    requires Tame(cfg, w.st, w.issued) && Runs(cfg, w, steps) && !SavedIn(cfg, steps, id)
    requires Load(w.st, id).Ok? && Steady(Load(w.st, id).value, key)
    ensures var end := Load(After(cfg, w, steps).st, id);
            end.Ok? ==>
              AnswersTo(end.value, key) ==
              if StaysLoaded(cfg, w, steps, id) then AnswersTo(Load(w.st, id).value, key) else NOTHING
  {
    hide Tame, Runs, After, SavedIn, StaysLoaded;
    RunKeepsAnswers(cfg, w, steps, id, key, AnswersTo(Load(w.st, id).value, key));
  }

  /** So permissions last from save to save. */
  lemma PermissionsLast(cfg: Config, w: World, steps: seq<Step>, id: string, code: string)
    requires Tame(cfg, w.st, w.issued) && Runs(cfg, w, steps) && !SavedIn(cfg, steps, id)
    requires Load(w.st, id).Ok? && Steady(Load(w.st, id).value, PERMISSIONS)
    ensures var end := Load(After(cfg, w, steps).st, id);
            end.Ok? ==>
              (CheckPermission(end.value, code) <==>
               StaysLoaded(cfg, w, steps, id) && CheckPermission(Load(w.st, id).value, code))
  {
    hide Tame, Runs, After, SavedIn, StaysLoaded;
    AnswersLast(cfg, w, steps, id, PERMISSIONS);
  }
}
