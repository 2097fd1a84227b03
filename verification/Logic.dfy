/** The login logic as it runs (satoken/logic.go): methods that read and write the store key by key,
    proved to carry out the plans of LoginSpec.

    Every method that writes also returns, as a ghost, the writes it made. When its context is cancelled
    on the way, those are the first writes of the plan. */
module LoginLogic {
  import opened Results
  import opened Text
  import opened MemoryStores
  import opened Sessions
  import opened SessionCodec
  import opened LoginSpec
  import opened LoginKeys

  lemma {:induction false} EvictPrefix(terminals: seq<TerminalInfo>, i: nat)
    requires i <= |terminals|
    ensures EvictTerminals(terminals[..i]) <= EvictTerminals(terminals)
  {
    if i < |terminals| {
      var front := terminals[..|terminals| - 1];
      EvictPrefix(front, i);
      assert front[..i] == terminals[..i];
    } else {
      assert terminals[..i] == terminals;
    }
  }

  lemma EvictNext(terminals: seq<TerminalInfo>, i: nat)
    requires i < |terminals|
    ensures var t := terminals[i].tokenValue;
            EvictTerminals(terminals[..i + 1]) ==
            EvictTerminals(terminals[..i]) + if t == "" then [] else [DelToken(t), DelStamp(t)]
  {
    assert terminals[..i + 1][..i] == terminals[..i];
  }

  lemma MappedKeepsSessions(cfg: Config, st: State, token: string, id: string)
    ensures var after := PerformAll(cfg, st, [PutToken(token, id)]);
            after.sessions == st.sessions && after.now == st.now
  {
    assert [PutToken(token, id)][..0] == [];
  }

  lemma DeletesKeepTheRest(cfg: Config, st: State, token: string)
    ensures var after := PerformAll(cfg, st, [DelToken(token), DelStamp(token), DelTokenSession(token)]);
            after.sessions == st.sessions && after.now == st.now
  {
    OneMoreWrite(cfg, st, [], DelToken(token));
    OneMoreWrite(cfg, st, [DelToken(token)], DelStamp(token));
    OneMoreWrite(cfg, st, [DelToken(token), DelStamp(token)], DelTokenSession(token));
    assert [] + [DelToken(token)] == [DelToken(token)];
    assert [DelToken(token)] + [DelStamp(token)] == [DelToken(token), DelStamp(token)];
    assert [DelToken(token), DelStamp(token)] + [DelTokenSession(token)] ==
           [DelToken(token), DelStamp(token), DelTokenSession(token)];
  }

  class Logic {
    const cfg: Config
    const store: MemoryStore

    ghost predicate Valid() {
      ValidConfig(cfg) && FaithfulJson(cfg.lib)
    }

    ghost function St(): State
      reads store
    {
      StateOf(cfg, store.View(), store.now)
    }

    constructor (cfg: Config, store: MemoryStore)
      requires ValidConfig(cfg) && FaithfulJson(cfg.lib)
      ensures Valid() && this.cfg == cfg && this.store == store
    {
      this.cfg := cfg;
      this.store := store;
    }

    /** Since the state was st and the log of the store was log, exactly the writes ws were made. */
    ghost predicate Made(st: State, log: seq<StoreWrite>, ws: seq<Write>)
      reads store
    {
      St() == PerformAll(cfg, st, ws) && store.writes == log + StoreWritesOf(cfg, ws)
    }

    // ---- store access ----

    method Get(ctx: Context, key: string) returns (r: Result<string, Error>)
      modifies store, ctx
      ensures r == Err(Cancelled) ==> ctx.checksLeft == 0
      ensures r != Err(Cancelled) ==>
                r == if key in old(store.View()) then Ok(old(store.View())[key].value) else Err(NotFound)
      ensures store.View() == old(store.View()) && St() == old(St()) && store.writes == old(store.writes)
    {
      r := store.Get(ctx, key);
    }

    method Set(ctx: Context, key: string, value: string,
               ghost st: State, ghost log: seq<StoreWrite>, ghost done: seq<Write>, ghost w: Write)
      returns (r: Result<(), Error>)
      requires Valid() && Made(st, log, done)
      requires StoreWriteOf(cfg, w) == Stored(key, value, cfg.timeout)
      modifies store, ctx
      ensures r == Ok(()) || (r == Err(Cancelled) && ctx.checksLeft == 0)
      ensures old(ctx.checksLeft) == 0 ==> r.Err?
      ensures Made(st, log, if r.Ok? then done + [w] else done)
    {
      hide PerformAll, Perform, StateOf, StoreWritesOf, Family;
      ghost var view := store.View();
      r := store.Set(ctx, key, value, cfg.timeout);
      if r.Ok? {
        assert Alive(DueDate(cfg, store.now), store.now) by {
          if cfg.timeout != NEVER_EXPIRE { NanosInRange(cfg.timeout); }
        }
        assert store.View() == ViewAfter(view, store.now, StoreWriteOf(cfg, w));
        StoreWriteRefines(cfg, view, store.now, w);
        OneMoreWrite(cfg, st, done, w);
      }
    }

    method Delete(ctx: Context, key: string,
                  ghost st: State, ghost log: seq<StoreWrite>, ghost done: seq<Write>, ghost w: Write)
      returns (r: Result<(), Error>)
      requires Valid() && Made(st, log, done)
      requires StoreWriteOf(cfg, w) == Removed(key)
      modifies store, ctx
      ensures r == Ok(()) || (r == Err(Cancelled) && ctx.checksLeft == 0)
      ensures Made(st, log, if r.Ok? then done + [w] else done)
    {
      hide PerformAll, Perform, StateOf, StoreWritesOf, Family;
      ghost var view := store.View();
      r := store.Delete(ctx, key);
      if r.Ok? {
        assert store.View() == ViewAfter(view, store.now, StoreWriteOf(cfg, w));
        StoreWriteRefines(cfg, view, store.now, w);
        OneMoreWrite(cfg, st, done, w);
      }
    }

    // ---- reading ----

    method LoginIDByToken(ctx: Context, token: string) returns (r: Result<string, Error>)
      requires Valid()
      modifies store, ctx
      ensures r == TokenOwner(old(St()), token) || (r == Err(Cancelled) && ctx.checksLeft == 0)
      ensures store.View() == old(store.View()) && St() == old(St()) && store.writes == old(store.writes)
    {
      if token == "" {
        return Err(NotFound);
      }
      FamilyLookup(store.View(), TokenKey(cfg, ""), token);
      KeysArePrefixed(cfg, token);
      r := Get(ctx, TokenKey(cfg, token));
      if r.Ok? && TrimSpace(r.value) == "" {
        r := Err(NotFound);
      }
    }

    method GetSessionByID(ctx: Context, key: string, ghost id: string) returns (r: Result<SessionObject, Error>)
      requires Valid() && key == SessionKey(cfg, id)
      modifies store, ctx
      ensures St() == old(St()) && store.writes == old(store.writes)
      ensures r.Ok? ==> fresh(r.value) && fresh(r.value.slots) && r.value.Valid() && Load(old(St()), id) == Ok(r.value.View())
      ensures r.Err? ==> if r.error == Cancelled then ctx.checksLeft == 0 else Load(old(St()), id) == Err(r.error)
    {
      FamilyLookup(store.View(), SessionKey(cfg, ""), id);
      KeysArePrefixed(cfg, id);
      var raw := Get(ctx, key);
      if raw.Err? {
        return Err(raw.error);
      }
      var tree := cfg.lib.parse(raw.value);
      if tree.None? {
        return Err(BadSession);
      }
      var s := UnmarshalSession(tree.value);
      if s.Err? {
        return Err(s.error);
      }
      var session := new SessionObject(s.value);
      return Ok(session);
    }

    method TokenValueByLoginID(ctx: Context, loginId: string) returns (r: Result<string, Error>)
      requires Valid()
      modifies store, ctx
      ensures St() == old(St()) && store.writes == old(store.writes)
      ensures if r == Err(Cancelled) then ctx.checksLeft == 0 else r == CurrentToken(old(St()), loginId)
    {
      var session := GetSessionByID(ctx, SessionKey(cfg, loginId), loginId);
      if session.Err? {
        return Err(session.error);
      }
      var i := 0;
      ghost var terminals := session.value.View().terminals;
      while i < session.value.used
        invariant 0 <= i <= session.value.used == |terminals|
        invariant FirstToken(terminals) == FirstToken(terminals[i..])
      {
        if session.value.slots[i].tokenValue != "" {
          return Ok(session.value.slots[i].tokenValue);
        }
        assert terminals[i..][1..] == terminals[i + 1..];
        i := i + 1;
      }
      return Err(NotFound);
    }

    // ---- saving ----

    method SaveSessionValue(ctx: Context, session: SessionObject,
                            ghost st: State, ghost log: seq<StoreWrite>, ghost done: seq<Write>)
      returns (r: Result<(), Error>)
      requires Valid() && session.Valid() && Made(st, log, done)
      modifies store, ctx
      ensures session.Valid() && session.View() == old(session.View())
      ensures r == Ok(()) || (r == Err(Cancelled) && ctx.checksLeft == 0)
      ensures Made(st, log, if r.Ok? then done + [Save(cfg, session.View())] else done)
    {
      var payload := cfg.lib.render(MarshalSession(session.View()));
      r := Set(ctx, SessionKey(cfg, LoginIDOf(cfg, session.View())), payload, st, log, done, Save(cfg, session.View()));
    }

    method SetLastActiveToNow(ctx: Context, token: string, ghost st: State, ghost log: seq<StoreWrite>, ghost done: seq<Write>)
      returns (r: Result<(), Error>)
      requires Valid() && Made(st, log, done)
      modifies store, ctx
      ensures r == Ok(()) || (r == Err(Cancelled) && ctx.checksLeft == 0)
      ensures cfg.activeTimeout > 0 && old(ctx.checksLeft) == 0 ==> r.Err?
      ensures Made(st, log, if r.Ok? then done + StampNow(cfg, st, token) else done)
    {
      PerformKeepsNow(cfg, st, done);
      if cfg.activeTimeout <= 0 {
        assert done + [] == done;
        return Ok(());
      }
      var millis := Millis(store.now);
      r := Set(ctx, LastActiveKey(cfg, token), PrintInt(millis), st, log, done, PutStamp(token, millis));
    }

    // ---- operations ----

    method Renew(ctx: Context, token: string, loginId: string) returns (r: Result<(), Error>, ghost ws: seq<Write>)
      requires Valid()
      modifies store, ctx
      ensures Made(old(St()), old(store.writes), ws)
      ensures Follows(RenewPlan(cfg, old(St()), token, loginId), ws, r)
      ensures r == Err(Cancelled) ==> ctx.checksLeft == 0
    {
      hide StateOf, Family, ReadSessions, Perform, PerformAll, StoreWritesOf, LoginIDOf, MarshalSession;
      ghost var st, log := St(), store.writes;
      ws := [];
      NothingDone(cfg, st, log);
      r := Set(ctx, TokenKey(cfg, token), loginId, st, log, ws, PutToken(token, loginId));
      if r.Err? {
        return;
      }
      ws := ws + [PutToken(token, loginId)];
      assert ws == [PutToken(token, loginId)];
      MappedKeepsSessions(cfg, st, token, loginId);
      var session := GetSessionByID(ctx, SessionKey(cfg, loginId), loginId);
      if session.Err? {
        r := if session.error == NotFound then Ok(()) else Err(session.error);
        return;
      }
      r := SaveSessionValue(ctx, session.value, st, log, ws);
      if r.Err? {
        return;
      }
      ws := ws + [Save(cfg, session.value.View())];
      r := SetLastActiveToNow(ctx, token, st, log, ws);
      if r.Ok? {
        ws := ws + StampNow(cfg, st, token);
      }
    }
  
    /** The loop of replaced: unmap and unstamp every listed token. */
    method EvictListed(ctx: Context, session: SessionObject, ghost st: State, ghost log: seq<StoreWrite>)
      returns (r: Result<(), Error>, ghost ws: seq<Write>)
      requires Valid() && session.Valid() && Made(st, log, [])
      modifies store, ctx
      ensures session.Valid() && session.View() == old(session.View())
      ensures Made(st, log, ws)
      ensures ws <= EvictTerminals(session.View().terminals)
      ensures (r == Err(Cancelled) && ctx.checksLeft == 0) || (r == Ok(()) && ws == EvictTerminals(session.View().terminals))
    {
      hide StateOf, Family, ReadSessions, Perform, PerformAll, StoreWritesOf;
      ghost var terminals := session.View().terminals;
      ws := [];
      r := Ok(());
      var i := 0;
      while i < session.used
        invariant session.Valid() && session.View() == old(session.View())
        invariant 0 <= i <= session.used == |terminals| && r == Ok(())
        invariant ws == EvictTerminals(terminals[..i]) && Made(st, log, ws)
      {
        var token := session.slots[i].tokenValue;
        ghost var before := ws;
        EvictPrefix(terminals, i);
        EvictPrefix(terminals, i + 1);
        EvictNext(terminals, i);
        if token != "" {
          r := Delete(ctx, TokenKey(cfg, token), st, log, ws, DelToken(token));
          if r.Err? {
            return;
          }
          ws := before + [DelToken(token)];
          assert ws <= ws + [DelStamp(token)] == before + [DelToken(token), DelStamp(token)];
          r := Delete(ctx, LastActiveKey(cfg, token), st, log, ws, DelStamp(token));
          if r.Err? {
            return;
          }
          ws := ws + [DelStamp(token)];
        }
        i := i + 1;
      }
      assert terminals[..i] == terminals;
    }

    method Replaced(ctx: Context, loginId: string) returns (r: Result<(), Error>, ghost ws: seq<Write>)
      requires Valid()
      modifies store, ctx
      ensures Made(old(St()), old(store.writes), ws)
      ensures Follows(ReplacedPlan(cfg, old(St()), loginId), ws, r)
      ensures r == Err(Cancelled) ==> ctx.checksLeft == 0
    {
      hide StateOf, Family, ReadSessions, Perform, PerformAll, StoreWritesOf, LoginIDOf, MarshalSession;
      ghost var st, log := St(), store.writes;
      ws := [];
      NothingDone(cfg, st, log);
      var loaded := GetSessionByID(ctx, SessionKey(cfg, loginId), loginId);
      if loaded.Err? {
        r := if loaded.error == NotFound then Ok(()) else Err(loaded.error);
        return;
      }
      var session := loaded.value;
      ghost var terminals := session.View().terminals;
      r, ws := EvictListed(ctx, session, st, log);
      if r.Err? {
        return;
      }
      session.used := 0;
      assert session.View() == Load(st, loginId).value.(terminals := []);
      r := SaveSessionValue(ctx, session, st, log, ws);
      if r.Ok? {
        ws := ws + [Save(cfg, session.View())];
      }
    }
  
    /** The part of Login after the eviction: reuse a shared token or issue a new one. minted is what
        NewTokenValue answers, newId what NewSessionID does. */
    method SignIn(ctx: Context, loginId: string, minted: Result<string, Error>, newId: string)
      returns (r: Result<string, Error>, ghost ws: seq<Write>)
      requires Valid() && (minted.Err? ==> minted.error == TokenSource)
      modifies store, ctx
      ensures Made(old(St()), old(store.writes), ws)
      ensures Follows(SignInPlan(cfg, old(St()), loginId, minted, newId), ws, r)
      ensures r == Err(Cancelled) ==> ctx.checksLeft == 0
    {
      hide StateOf, Family, ReadSessions, Perform, PerformAll, StoreWritesOf, LoginIDOf, MarshalSession;
      ghost var st, log := St(), store.writes;
      ws := [];
      NothingDone(cfg, st, log);
      if cfg.isShare {
        var existing := TokenValueByLoginID(ctx, loginId);
        if existing.Ok? && existing.value != "" {
          var renewed;
          renewed, ws := Renew(ctx, existing.value, loginId);
          r := if renewed.Ok? then existing else Err(renewed.error);
          return;
        }
        if existing.Err? && existing.error != NotFound {
          r := existing;
          return;
        }
      }
      r, ws := IssueToken(ctx, loginId, minted, newId);
    }

    method GetSessionByLoginID(ctx: Context, loginId: string, newId: string) returns (r: Result<SessionObject, Error>)
      requires Valid()
      modifies store, ctx
      ensures St() == old(St()) && store.writes == old(store.writes)
      ensures r.Ok? ==>
                && fresh(r.value) && fresh(r.value.slots) && r.value.Valid()
                && OpenSession(old(St()), loginId, newId) == Ok(r.value.View())
      ensures r.Err? ==>
                if r.error == Cancelled then ctx.checksLeft == 0 else OpenSession(old(St()), loginId, newId) == Err(r.error)
    {
      r := GetSessionByID(ctx, SessionKey(cfg, loginId), loginId);
      if r.Err? && r.error == NotFound {
        var session := new SessionObject(NewSession(newId));
        r := Ok(session);
      }
    }

    /** The account's session, signed in with a terminal for the new token. */
    method SignedInSession(ctx: Context, loginId: string, token: string, newId: string) returns (r: Result<SessionObject, Error>)
      requires Valid()
      modifies store, ctx
      ensures St() == old(St()) && store.writes == old(store.writes)
      ensures r.Ok? ==>
                && fresh(r.value) && fresh(r.value.slots) && r.value.Valid()
                && OpenSession(old(St()), loginId, newId).Ok?
                && r.value.View() == SignedIn(cfg, old(St()), OpenSession(old(St()), loginId, newId).value, loginId, token)
      ensures r.Err? ==>
                if r.error == Cancelled then ctx.checksLeft == 0 else OpenSession(old(St()), loginId, newId) == Err(r.error)
    {
      hide StateOf, Family, ReadSessions;
      StateNow(cfg, store.View(), store.now);
      r := GetSessionByLoginID(ctx, loginId, newId);
      if r.Ok? {
        StateNow(cfg, store.View(), store.now);
        r.value.kind := SESSION_TYPE_ACCOUNT;
        r.value.loginType := cfg.loginType;
        r.value.loginId := VStr(loginId);
        r.value.AddTerminal(TerminalInfo(0, token, "", "", map[], Millis(store.now)));
      }
    }

    method IssueToken(ctx: Context, loginId: string, minted: Result<string, Error>, newId: string)
      returns (r: Result<string, Error>, ghost ws: seq<Write>)
      requires Valid() && (minted.Err? ==> minted.error == TokenSource)
      modifies store, ctx
      ensures Made(old(St()), old(store.writes), ws)
      ensures Follows(FreshPlan(cfg, old(St()), loginId, minted, newId), ws, r)
      ensures r == Err(Cancelled) ==> ctx.checksLeft == 0
    {
      hide StateOf, Family, ReadSessions, Perform, PerformAll, StoreWritesOf, LoginIDOf, MarshalSession, SignedIn, OpenSession;
      ghost var st, log := St(), store.writes;
      ws := [];
      NothingDone(cfg, st, log);
      if minted.Err? {
        return minted, ws;
      }
      var token := minted.value;
      var signed := SignedInSession(ctx, loginId, token, newId);
      if signed.Err? {
        return Err(signed.error), ws;
      }
      var session := signed.value;
      ghost var save, put := Save(cfg, session.View()), PutToken(token, loginId);
      assert FreshPlan(cfg, st, loginId, minted, newId).writes == [save] + [put] + StampNow(cfg, st, token);
      var saved := SaveSessionValue(ctx, session, st, log, ws);
      if saved.Err? {
        return Err(saved.error), ws;
      }
      ws := ws + [save];
      var mapped := Set(ctx, TokenKey(cfg, token), loginId, st, log, ws, put);
      if mapped.Err? {
        return Err(mapped.error), ws;
      }
      ws := ws + [put];
      var stamped := SetLastActiveToNow(ctx, token, st, log, ws);
      if stamped.Err? {
        return Err(stamped.error), ws;
      }
      ws := ws + StampNow(cfg, st, token);
      r := Ok(token);
    }

    method Login(ctx: Context, loginId: string, minted: Result<string, Error>, newId: string)
      returns (r: Result<string, Error>, ghost ws: seq<Write>)
      requires Valid() && (minted.Err? ==> minted.error == TokenSource)
      modifies store, ctx
      ensures Made(old(St()), old(store.writes), ws)
      ensures Follows(LoginPlan(cfg, old(St()), loginId, minted, newId), ws, r)
      ensures r == Err(Cancelled) ==> ctx.checksLeft == 0
    {
      hide StateOf, Family, ReadSessions, Perform, PerformAll, StoreWritesOf, ReplacedPlan, SignInPlan;
      ghost var st, log := St(), store.writes;
      ws := [];
      NothingDone(cfg, st, log);
      if TrimSpace(loginId) == "" {
        return Err(BlankLoginID), ws;
      }
      var evicted := Ok(());
      if !cfg.isConcurrent {
        evicted, ws := Replaced(ctx, loginId);
        if evicted.Err? {
          return Err(evicted.error), ws;
        }
      }
      ghost var rest;
      r, rest := SignIn(ctx, loginId, minted, newId);
      LoginFollows(cfg, st, loginId, minted, newId, evicted, ws, rest, r);
      PerformAppend(cfg, st, ws, rest);
      StoreWritesAppend(cfg, ws, rest);
      ws := ws + rest;
    }

    method Logout(ctx: Context, token: string) returns (r: Result<(), Error>, ghost ws: seq<Write>)
      requires Valid()
      modifies store, ctx
      ensures Made(old(St()), old(store.writes), ws)
      ensures Follows(LogoutPlan(cfg, old(St()), token), ws, r)
      ensures r == Err(Cancelled) ==> ctx.checksLeft == 0
    {
      hide StateOf, Family, ReadSessions, Perform, PerformAll, StoreWritesOf, LoginIDOf, MarshalSession;
      ghost var st, log := St(), store.writes;
      ws := [];
      NothingDone(cfg, st, log);
      var owner := LoginIDByToken(ctx, token);
      if owner.Err? && owner.error != NotFound {
        return Err(owner.error), ws;
      }
      r, ws := DeleteTokenKeys(ctx, token);
      if r.Err? || owner.Err? {
        return;
      }
      DeletesKeepTheRest(cfg, st, token);
      var loaded := GetSessionByID(ctx, SessionKey(cfg, owner.value), owner.value);
      if loaded.Err? {
        r := if loaded.error == NotFound then Ok(()) else Err(loaded.error);
        return;
      }
      var session := loaded.value;
      session.RemoveTerminal(token);
      if session.used == 0 {
        r := Delete(ctx, SessionKey(cfg, owner.value), st, log, ws, DelSession(owner.value));
        if r.Ok? {
          ws := ws + [DelSession(owner.value)];
        }
      } else {
        r := SaveSessionValue(ctx, session, st, log, ws);
        if r.Ok? {
          ws := ws + [Save(cfg, session.View())];
        }
      }
    }

    /** The three deletes of Logout. */
    method DeleteTokenKeys(ctx: Context, token: string) returns (r: Result<(), Error>, ghost ws: seq<Write>)
      requires Valid()
      modifies store, ctx
      ensures Made(old(St()), old(store.writes), ws)
      ensures Follows(Plan([DelToken(token), DelStamp(token), DelTokenSession(token)], Ok(())), ws, r)
      ensures r == Err(Cancelled) ==> ctx.checksLeft == 0
    {
      hide StateOf, Family, ReadSessions, Perform, PerformAll, StoreWritesOf, LoginIDOf, MarshalSession;
      ghost var st, log := St(), store.writes;
      ws := [];
      NothingDone(cfg, st, log);
      r := Delete(ctx, TokenKey(cfg, token), st, log, ws, DelToken(token));
      if r.Err? {
        return;
      }
      ws := ws + [DelToken(token)];
      r := Delete(ctx, LastActiveKey(cfg, token), st, log, ws, DelStamp(token));
      if r.Err? {
        return;
      }
      ws := ws + [DelStamp(token)];
      r := Delete(ctx, TokenSessionKey(cfg, token), st, log, ws, DelTokenSession(token));
      if r.Ok? {
        ws := ws + [DelTokenSession(token)];
      }
    }

    method CheckLogin(ctx: Context, token: string) returns (r: Result<string, Error>, ghost ws: seq<Write>)
      requires Valid()
      modifies store, ctx
      ensures Made(old(St()), old(store.writes), ws)
      ensures Follows(CheckPlan(cfg, old(St()), token), ws, r)
      ensures r == Err(Cancelled) ==> ctx.checksLeft == 0
    {
      hide StateOf, Family, ReadSessions, Perform, PerformAll, StoreWritesOf, LoginIDOf, MarshalSession;
      ghost var st, log := St(), store.writes;
      ws := [];
      NothingDone(cfg, st, log);
      StateNow(cfg, store.View(), store.now);
      var owner := LoginIDByToken(ctx, token);
      if owner.Err? || cfg.activeTimeout <= 0 {
        return owner, ws;
      }
      var last := LastActive(ctx, token);
      StateNow(cfg, store.View(), store.now);
      if last.Ok? && TrimSpace(last.value) != "" {
        var millis := ParseInt64(last.value);
        if millis.Some? && Millis(store.now) - millis.value > cfg.activeTimeout * 1000 {
          var out;
          out, ws := Logout(ctx, token);
          r := Err(if out.Err? then out.error else NotFound);
          return;
        }
      }
      var stamped := SetLastActiveToNow(ctx, token, st, log, ws);
      if stamped.Err? {
        return Err(stamped.error), ws;
      }
      ws := ws + StampNow(cfg, st, token);
      r := owner;
    }

    method LastActive(ctx: Context, token: string) returns (r: Result<string, Error>)
      requires Valid()
      modifies store, ctx
      ensures St() == old(St()) && store.writes == old(store.writes)
      ensures r == Err(Cancelled) ==> ctx.checksLeft == 0
      ensures r != Err(Cancelled) ==>
                r == if token in old(St()).stamps then Ok(old(St()).stamps[token].value) else Err(NotFound)
    {
      FamilyLookup(store.View(), LastActiveKey(cfg, ""), token);
      KeysArePrefixed(cfg, token);
      r := Get(ctx, LastActiveKey(cfg, token));
    }

    /** A null session is refused; otherwise missing fields are filled in on the caller's object. */
    method SaveSession(ctx: Context, session: SessionObject?, newId: string) returns (r: Result<(), Error>, ghost ws: seq<Write>)
      requires Valid() && (session != null ==> session.Valid())
      modifies store, ctx, session
      ensures Made(old(St()), old(store.writes), ws)
      ensures session == null ==> r == Err(NilSession) && ws == []
      ensures session != null ==>
                && session.Valid() && session.View() == Completed(cfg, old(session.View()), newId)
                && Follows(SavePlan(cfg, old(session.View()), newId), ws, r)
      ensures r == Err(Cancelled) ==> ctx.checksLeft == 0
    {
      hide StateOf, Family, ReadSessions, Perform, PerformAll, StoreWritesOf, LoginIDOf, MarshalSession;
      ghost var st, log := St(), store.writes;
      ws := [];
      NothingDone(cfg, st, log);
      if session == null {
        return Err(NilSession), ws;
      }
      if session.id == "" {
        session.id := newId;
      }
      if session.loginType == "" {
        session.loginType := cfg.loginType;
      }
      if session.kind == "" {
        session.kind := SESSION_TYPE_ACCOUNT;
      }
      r := SaveSessionValue(ctx, session, st, log, ws);
      if r.Ok? {
        ws := ws + [Save(cfg, session.View())];
      }
    }
  }
}
