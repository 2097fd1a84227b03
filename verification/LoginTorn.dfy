/** Keeping track of the tokens that a torn renewal has stranded: all others stay in agreement. */
module LoginTorn {
  import opened Text
  import opened Sessions
  import opened TokenIndex
  import opened LoginSpec
  import opened LoginInvariant
  import opened LoginCrash
  import opened LoginTidy

  /** The state as seen by someone who does not know the torn tokens. */
  function Hidden(st: State, torn: set<string>): State {
    st.(tokens := st.tokens - torn)
  }

  /** The tokens the writes map. */
  function Mapped(ws: seq<Write>): set<string> {
    if ws == [] then {}
    else Mapped(ws[..|ws| - 1]) + if ws[|ws| - 1].PutToken? then {ws[|ws| - 1].token} else {}
  }

  /** The operation is cut inside a renewal, between mapping the token and renewing a session that is due
      earlier. */
  predicate Tears(cfg: Config, st: State, op: Op, k: nat) {
    Renews(cfg, st, op) && k == 1 && Torn(cfg, st, op.id)
  }

  /** The tokens whose last mapping was torn, after the first k writes of the operation. */
  function TornAfter(cfg: Config, st: State, torn: set<string>, op: Op, k: nat): set<string>
    requires k <= |WritesOf(cfg, st, op)|
  {
    if Tears(cfg, st, op, k) then torn + {CurrentToken(st, op.id).value}
    else torn - Mapped(WritesOf(cfg, st, op)[..k])
  }

  lemma {:induction false} HiddenPerform(cfg: Config, st: State, torn: set<string>, ws: seq<Write>)
    ensures Hidden(PerformAll(cfg, st, ws), torn - Mapped(ws)) == PerformAll(cfg, Hidden(st, torn), ws)
  {
    if ws != [] {
      var front := ws[..|ws| - 1];
      HiddenPerform(cfg, st, torn, front);
      HiddenWrite(cfg, PerformAll(cfg, st, front), torn - Mapped(front), ws[|ws| - 1]);
      assert torn - Mapped(ws) == torn - Mapped(front) - if ws[|ws| - 1].PutToken? then {ws[|ws| - 1].token} else {};
    }
  }

  lemma HiddenWrite(cfg: Config, st: State, torn: set<string>, w: Write)
    ensures Hidden(Perform(cfg, st, w), torn - if w.PutToken? then {w.token} else {}) == Perform(cfg, Hidden(st, torn), w)
  {
    hide PrintInt, DueDate;
    match w
    case PutToken(t, id) =>
      assert st.tokens[t := Dated(id, DueDate(cfg, st.now))] - (torn - {t}) == (st.tokens - torn)[t := Dated(id, DueDate(cfg, st.now))];
    case DelToken(t) => assert (st.tokens - {t}) - torn == (st.tokens - torn) - {t};
    case _ => assert torn - {} == torn;
  }

  lemma {:induction false} NothingMapped(ws: seq<Write>)
    requires forall i :: 0 <= i < |ws| ==> !ws[i].PutToken?
    ensures Mapped(ws) == {}
  {
    if ws != [] {
      NothingMapped(ws[..|ws| - 1]);
    }
  }

  lemma {:induction false} EvictionMapsNothing(terminals: seq<TerminalInfo>)
    ensures forall i :: 0 <= i < |EvictTerminals(terminals)| ==> !EvictTerminals(terminals)[i].PutToken?
  {
    if terminals != [] {
      EvictionMapsNothing(terminals[..|terminals| - 1]);
    }
  }

  /** Logging in does not look at the mapped tokens. */
  lemma LoginIgnoresTokens(cfg: Config, st: State, torn: set<string>, op: Op)
    requires op.Login?
    ensures WritesOf(cfg, Hidden(st, torn), op) == WritesOf(cfg, st, op)
    ensures Renews(cfg, Hidden(st, torn), op) <==> Renews(cfg, st, op)
    ensures Torn(cfg, Hidden(st, torn), op.id) <==> Torn(cfg, st, op.id)
  {
    hide PerformAll, SignInPlan, EvictTerminals, Blank;
    var evict := if cfg.isConcurrent then [] else ReplacedPlan(cfg, st, op.id).writes;
    if Load(st, op.id).Ok? {
      EvictionMapsNothing(Load(st, op.id).value.terminals);
    }
    NothingMapped(evict);
    HiddenPerform(cfg, st, torn, evict);
    SameSignIn(cfg, PerformAll(cfg, st, evict), PerformAll(cfg, Hidden(st, torn), evict), op);
  }

  lemma SameSignIn(cfg: Config, st: State, other: State, op: Op)
    requires op.Login? && other.sessions == st.sessions && other.now == st.now
    ensures SignInPlan(cfg, other, op.id, op.minted, op.newId) == SignInPlan(cfg, st, op.id, op.minted, op.newId)
  {
  }

  /** The operation does the same whether or not the torn tokens are known. */
  predicate Unaware(cfg: Config, st: State, torn: set<string>, op: Op) {
    (op.Logout? || op.CheckLogin?) ==> op.token !in st.tokens || op.token !in torn
  }

  lemma UnawareDoesTheSame(cfg: Config, st: State, torn: set<string>, op: Op)
    requires Unaware(cfg, st, torn, op)
    ensures WritesOf(cfg, Hidden(st, torn), op) == WritesOf(cfg, st, op)
  {
    if op.Login? {
      LoginIgnoresTokens(cfg, st, torn, op);
    }
  }

  /** Logging out a torn token does no harm to the others. */
  lemma LogoutOfTornIsSafe(cfg: Config, st: State, issued: set<string>, torn: set<string>, token: string)
    requires Tame(cfg, st, issued) && Consistent(cfg, Hidden(st, torn), issued)
    requires token in st.tokens && token in torn
    ensures SafePlan(cfg, Hidden(st, torn), LogoutPlan(cfg, st, token).writes, issued)
  {
    var seen, id := Hidden(st, torn), st.tokens[token].value;
    var x := IndexOf(cfg, seen);
    TameTokens(cfg, st, issued);
    LogoutWrites(cfg, st, token);
    LogoutDrops(cfg, token);
    LoadedIsListed(cfg, seen, id);
    if Load(st, id).Ok? {
      DeletesThen(cfg, token, Unlisting(id, Load(st, id).value, token));
      UnlistingShifts(x, issued, !cfg.isConcurrent, id, Load(st, id).value, token, ChangesOf(LogoutDeletes(token)));
    } else {
      UnmapAllIsSafe(x, ChangesOf(LogoutDeletes(token)), issued, !cfg.isConcurrent);
    }
  }

  lemma LogoutMapsNothing(cfg: Config, st: State, token: string)
    ensures forall i :: 0 <= i < |LogoutPlan(cfg, st, token).writes| ==> !LogoutPlan(cfg, st, token).writes[i].PutToken?
  {
  }

  lemma CutOfTorn(cfg: Config, st: State, issued: set<string>, torn: set<string>, op: Op, k: nat)
    requires Tame(cfg, st, issued) && Consistent(cfg, Hidden(st, torn), issued)
    requires !Unaware(cfg, st, torn, op) && k <= |WritesOf(cfg, st, op)|
    ensures Mapped(WritesOf(cfg, st, op)[..k]) == {}
    ensures Consistent(cfg, PerformAll(cfg, Hidden(st, torn), WritesOf(cfg, st, op)[..k]), issued)
  {
    hide SafePlan, Consistent, Tame;
    var ws := WritesOf(cfg, st, op);
    LogoutOfTornIsSafe(cfg, st, issued, torn, op.token);
    LogoutMapsNothing(cfg, st, op.token);
    StampIsSafe(cfg, Hidden(st, torn), st, op.token, issued);
    NothingIsSafe(cfg, Hidden(st, torn), issued);
    assert SafePlan(cfg, Hidden(st, torn), ws, issued);
    NothingMapped(ws[..k]);
    SafePlanPrefix(cfg, Hidden(st, torn), ws, issued, k);
  }

  lemma NothingIsSafe(cfg: Config, st: State, issued: set<string>)
    ensures SafePlan(cfg, st, [], issued)
  {
  }

  /** Cut any operation anywhere: the tokens whose last mapping is not torn agree with their sessions. */
  lemma EveryPrefixAgreesButForTorn(cfg: Config, st: State, issued: set<string>, torn: set<string>, op: Op, k: nat)
    requires Tame(cfg, st, issued) && Consistent(cfg, Hidden(st, torn), issued)
    requires Allowed(cfg, st, issued, op) && k <= |WritesOf(cfg, st, op)|
    ensures Consistent(cfg, Hidden(PerformAll(cfg, st, WritesOf(cfg, st, op)[..k]), TornAfter(cfg, st, torn, op, k)), Issue(issued, op))
  {
    hide Consistent, Tame;
    var ws, seen := WritesOf(cfg, st, op)[..k], Hidden(st, torn);
    HiddenPerform(cfg, st, torn, ws);
    if !Unaware(cfg, st, torn, op) {
      CutOfTorn(cfg, st, issued, torn, op, k);
    } else {
      UnawareDoesTheSame(cfg, st, torn, op);
      if op.Login? {
        LoginIgnoresTokens(cfg, st, torn, op);
      }
      if Tears(cfg, st, op, k) {
        IssueKeeps(cfg, seen, issued, op);
        HidingMore(cfg, st, Issue(issued, op), torn, CurrentToken(st, op.id).value);
        TornCutMapsOne(cfg, st, op, torn);
      } else {
        EveryPrefix(cfg, seen, issued, op, k);
      }
    }
  }

  lemma HidingMore(cfg: Config, st: State, issued: set<string>, torn: set<string>, token: string)
    requires Consistent(cfg, Hidden(st, torn), issued)
    ensures Consistent(cfg, Hidden(st, torn + {token}), issued)
  {
    WriteKeepsConsistency(cfg, Hidden(st, torn), DelToken(token), issued);
    assert Hidden(st, torn + {token}) == Perform(cfg, Hidden(st, torn), DelToken(token));
  }

  lemma TornCutMapsOne(cfg: Config, st: State, op: Op, torn: set<string>)
    requires Tears(cfg, st, op, 1)
    ensures |WritesOf(cfg, st, op)| >= 1
    ensures var token := CurrentToken(st, op.id).value;
            && WritesOf(cfg, st, op)[..1] == [PutToken(token, op.id)]
            && Hidden(PerformAll(cfg, st, WritesOf(cfg, st, op)[..1]), torn + {token}) == Hidden(st, torn + {token})
  {
    var token := CurrentToken(st, op.id).value;
    var renewal := RenewPlan(cfg, st, token, op.id).writes;
    assert WritesOf(cfg, st, op) == [] + renewal && renewal[0] == PutToken(token, op.id);
    assert [PutToken(token, op.id)][..0] == [];
  }
}
