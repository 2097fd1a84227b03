/** The two indexes behind the login state, and what single writes may do to them.

    owners is the forward index, token to account; lists is the reverse index, account to the tokens its
    session lists. The source keeps both in one flat store without multi-key transactions, so the order
    of the writes is what keeps them in agreement. */
module TokenIndex {
  import opened MemoryStores

  datatype Dated<V> = Dated(value: V, deadline: Deadline)

  /** due is the deadline a write made now receives. */
  datatype Index = Index(due: Deadline, owners: map<string, Dated<string>>, lists: map<string, Dated<set<string>>>)

  predicate NoLater(a: Deadline, b: Deadline) {
    b.Forever? || (a.At? && a.t <= b.t)
  }

  /** The account the token maps to lists the token and its session lives at least as long. */
  predicate Backed(x: Index, t: string)
    requires t in x.owners
  {
    var id := x.owners[t].value;
    id in x.lists && t in x.lists[id].value && NoLater(x.owners[t].deadline, x.lists[id].deadline)
  }

  predicate ListSound(x: Index, issued: set<string>, id: string)
    requires id in x.lists
  {
    && x.lists[id].value <= issued
    && NoLater(x.lists[id].deadline, x.due)
    && (x.due.Forever? ==> x.lists[id].deadline.Forever?)
  }

  predicate Apart(x: Index, a: string, b: string)
    requires a in x.lists && b in x.lists
  {
    a != b ==> x.lists[a].value !! x.lists[b].value
  }

  predicate Rivals(x: Index, t: string, u: string)
    requires t in x.owners && u in x.owners
  {
    t != u && x.owners[t].value == x.owners[u].value
  }

  predicate OneEach(x: Index) {
    forall t, u {:trigger Rivals(x, t, u)} | t in x.owners && u in x.owners :: !Rivals(x, t, u)
  }

  /** The agreement: issued are the tokens handed out so far; single says that an account may hold at
      most one live token. */
  predicate Agree(x: Index, issued: set<string>, single: bool) {
    && (forall t {:trigger Backed(x, t)} | t in x.owners :: Backed(x, t))
    && (forall id {:trigger ListSound(x, issued, id)} | id in x.lists :: ListSound(x, issued, id))
    && (forall a, b {:trigger Apart(x, a, b)} | a in x.lists && b in x.lists :: Apart(x, a, b))
    && (single ==> OneEach(x))
  }

  datatype Change =
    | SetOwner(token: string, id: string)
    | SetList(id: string, tokens: set<string>)
    | DropOwner(token: string)
    | DropList(id: string)
    | Unrelated

  function Shift(x: Index, c: Change): Index {
    match c
    case SetOwner(t, id) => x.(owners := x.owners[t := Dated(id, x.due)])
    case SetList(id, tokens) => x.(lists := x.lists[id := Dated(tokens, x.due)])
    case DropOwner(t) => x.(owners := x.owners - {t})
    case DropList(id) => x.(lists := x.lists - {id})
    case Unrelated => x
  }

  function ListOf(x: Index, id: string): set<string> {
    if id in x.lists then x.lists[id].value else {}
  }

  function Owned(x: Index, id: string): set<string> {
    set t | t in x.owners && x.owners[t].value == id
  }

  /** When a change keeps the agreement. */
  predicate Safe(x: Index, c: Change, issued: set<string>, single: bool) {
    match c
    case SetOwner(t, id) =>
      && id in x.lists && t in x.lists[id].value && NoLater(x.due, x.lists[id].deadline)
      && (single ==> Owned(x, id) <= {t})
    case SetList(id, tokens) =>
      && Owned(x, id) <= tokens <= issued
      && forall other | other in x.lists && other != id :: tokens !! x.lists[other].value
    case DropOwner(_) => true
    case DropList(id) => Owned(x, id) == {}
    case Unrelated => true
  }

  lemma SafeChangeKeepsBacking(x: Index, c: Change, issued: set<string>, single: bool, t: string)
    requires Agree(x, issued, single) && Safe(x, c, issued, single)
    requires t in Shift(x, c).owners
    ensures Backed(Shift(x, c), t)
  {
    if !(c.SetOwner? && c.token == t) {
      assert Backed(x, t) && ListSound(x, issued, x.owners[t].value);
      assert t in Owned(x, x.owners[t].value);
    }
  }

  lemma SafeChangeKeepsSingle(x: Index, c: Change)
    requires OneEach(x) && (c.SetOwner? ==> Owned(x, c.id) <= {c.token})
    ensures OneEach(Shift(x, c))
  {
    var y := Shift(x, c);
    forall t, u | t in y.owners && u in y.owners ensures !Rivals(y, t, u) {
      if t in x.owners && u in x.owners {
        assert !Rivals(x, t, u);
      }
      assert c.SetOwner? ==> forall v | v in x.owners && x.owners[v].value == c.id :: v in Owned(x, c.id);
    }
  }

  lemma SafeChangeKeepsLists(x: Index, c: Change, issued: set<string>, single: bool)
    requires Agree(x, issued, single) && Safe(x, c, issued, single)
    ensures var y := Shift(x, c);
            && (forall id | id in y.lists :: ListSound(y, issued, id))
            && (forall a, b | a in y.lists && b in y.lists :: Apart(y, a, b))
  {
    var y := Shift(x, c);
    forall id | id in y.lists ensures ListSound(y, issued, id) {
      assert id in x.lists ==> ListSound(x, issued, id);
    }
    forall a, b | a in y.lists && b in y.lists ensures Apart(y, a, b) {
      assert a in x.lists && b in x.lists ==> Apart(x, a, b);
    }
  }

  lemma SafeChangeKeepsAgreement(x: Index, c: Change, issued: set<string>, single: bool)
    requires Agree(x, issued, single) && Safe(x, c, issued, single)
    ensures Agree(Shift(x, c), issued, single)
  {
    forall t | t in Shift(x, c).owners ensures Backed(Shift(x, c), t) {
      SafeChangeKeepsBacking(x, c, issued, single, t);
    }
    SafeChangeKeepsLists(x, c, issued, single);
    if single {
      SafeChangeKeepsSingle(x, c);
    }
  }

  lemma UnsafeChangeBreaksAgreement(x: Index, c: Change, issued: set<string>, single: bool)
    requires Agree(x, issued, single) && !Safe(x, c, issued, single)
    ensures !Agree(Shift(x, c), issued, single)
  {
    var y := Shift(x, c);
    match c
    case SetOwner(t, id) =>
      if Backed(y, t) {
        assert ListSound(y, issued, id) ==> NoLater(x.due, x.lists[id].deadline);
        if single && !(Owned(x, id) <= {t}) {
          var u :| u in Owned(x, id) && u != t;
          assert Rivals(y, u, t);
        }
      }
    case SetList(id, tokens) =>
      if t :| t in Owned(x, id) && t !in tokens {
        assert !Backed(y, t);
      } else if tokens <= issued {
        var other :| other in x.lists && other != id && !(tokens !! x.lists[other].value);
        assert !Apart(y, id, other);
      } else {
        assert !ListSound(y, issued, id);
      }
    case DropList(id) =>
      var t :| t in Owned(x, id);
      assert !Backed(y, t);
    case _ =>
  }

  /** A change keeps the agreement exactly when it is safe. */
  lemma SafetyIsExact(x: Index, c: Change, issued: set<string>, single: bool)
    requires Agree(x, issued, single)
    ensures Agree(Shift(x, c), issued, single) <==> Safe(x, c, issued, single)
  {
    if Safe(x, c, issued, single) {
      SafeChangeKeepsAgreement(x, c, issued, single);
    } else {
      UnsafeChangeBreaksAgreement(x, c, issued, single);
    }
  }

  /** x with the account's list emptied and its tokens unmapped, and nothing else changed. */
  predicate Evicted(x: Index, y: Index, id: string) {
    && ListOf(y, id) == {}
    && y.lists - {id} == x.lists - {id}
    && y.owners == x.owners - Owned(x, id)
  }

  // ---- time ----

  function Advance(x: Index, due: Deadline, now: int): Index {
    Index(due,
          map t | t in x.owners && Alive(x.owners[t].deadline, now) :: x.owners[t],
          map id | id in x.lists && Alive(x.lists[id].deadline, now) :: x.lists[id])
  }

  lemma TimeKeepsAgreement(x: Index, issued: set<string>, single: bool, due: Deadline, now: int)
    requires Agree(x, issued, single) && NoLater(x.due, due) && (due.Forever? ==> x.due.Forever?)
    ensures Agree(Advance(x, due, now), issued, single)
  {
    var y := Advance(x, due, now);
    forall t | t in y.owners ensures Backed(y, t) {
      assert Backed(x, t);
      assert ListSound(x, issued, x.owners[t].value);
    }
    forall id | id in y.lists ensures ListSound(y, issued, id) {
      assert ListSound(x, issued, id);
    }
    forall a, b | a in y.lists && b in y.lists ensures Apart(y, a, b) {
      assert Apart(x, a, b);
    }
    forall t, u | t in y.owners && u in y.owners ensures single ==> !Rivals(y, t, u) {
      assert single ==> !Rivals(x, t, u);
    }
  }

  // ---- tokens that are gone ----

  /** The token is neither live nor listed by any live session. */
  predicate Gone(x: Index, t: string) {
    t !in x.owners && forall id | id in x.lists :: t !in x.lists[id].value
  }

  /** Being gone is being outside everything the agreement allows. */
  lemma GoneExactly(x: Index, issued: set<string>, single: bool, t: string)
    requires Agree(x, issued, single)
    ensures Gone(x, t) <==> Agree(x, issued - {t}, single)
    ensures t !in issued ==> Gone(x, t)
  {
    forall id | id in x.lists ensures ListSound(x, issued - {t}, id) <==> t !in x.lists[id].value {
      assert ListSound(x, issued, id);
    }
    if t in x.owners {
      assert Backed(x, t);
      assert !ListSound(x, issued - {t}, x.owners[t].value);
    }
    if Agree(x, issued - {t}, single) {
      forall id | id in x.lists ensures t !in x.lists[id].value {
        assert ListSound(x, issued - {t}, id);
      }
    }
    assert t !in issued ==> issued - {t} == issued;
  }

  lemma IssuingMore(x: Index, issued: set<string>, single: bool, t: string)
    requires Agree(x, issued, single)
    ensures Agree(x, issued + {t}, single)
  {
    forall id | id in x.lists ensures ListSound(x, issued + {t}, id) {
      assert ListSound(x, issued, id);
    }
  }

  // ---- sequences of changes ----

  function ShiftAll(x: Index, cs: seq<Change>): Index {
    if cs == [] then x else Shift(ShiftAll(x, cs[..|cs| - 1]), cs[|cs| - 1])
  }

  /** Every change is safe where it happens, so the agreement holds between any two of them. */
  predicate AllSafe(x: Index, cs: seq<Change>, issued: set<string>, single: bool) {
    if cs == [] then true
    else
      var front := cs[..|cs| - 1];
      AllSafe(x, front, issued, single) && Safe(ShiftAll(x, front), cs[|cs| - 1], issued, single)
  }

  lemma {:induction false} ShiftAppend(x: Index, a: seq<Change>, b: seq<Change>)
    ensures ShiftAll(x, a + b) == ShiftAll(ShiftAll(x, a), b)
  {
    if b == [] {
      assert a + b == a;
    } else {
      ShiftAppend(x, a, b[..|b| - 1]);
      assert (a + b)[..|a + b| - 1] == a + b[..|b| - 1];
    }
  }

  lemma {:induction false} AllSafeAppend(x: Index, a: seq<Change>, b: seq<Change>, issued: set<string>, single: bool)
    requires AllSafe(x, a, issued, single) && AllSafe(ShiftAll(x, a), b, issued, single)
    ensures AllSafe(x, a + b, issued, single)
  {
    if b == [] {
      assert a + b == a;
    } else {
      AllSafeAppend(x, a, b[..|b| - 1], issued, single);
      ShiftAppend(x, a, b[..|b| - 1]);
      assert (a + b)[..|a + b| - 1] == a + b[..|b| - 1];
    }
  }

  lemma {:induction false} AllSafePrefix(x: Index, cs: seq<Change>, k: nat, issued: set<string>, single: bool)
    requires Agree(x, issued, single) && AllSafe(x, cs, issued, single) && k <= |cs|
    ensures Agree(ShiftAll(x, cs[..k]), issued, single)
  {
    if k == |cs| {
      assert cs[..k] == cs;
      if k > 0 {
        AllSafePrefix(x, cs[..k - 1], k - 1, issued, single);
        assert cs[..k - 1][..k - 1] == cs[..k - 1];
        SafeChangeKeepsAgreement(ShiftAll(x, cs[..k - 1]), cs[k - 1], issued, single);
      }
    } else {
      AllSafePrefix(x, cs[..|cs| - 1], k, issued, single);
      assert cs[..|cs| - 1][..k] == cs[..k];
    }
  }

  // ---- the sequences behind the operations ----

  /** The tokens a sequence unmaps. */
  function Dropped(cs: seq<Change>): set<string> {
    if cs == [] then {}
    else Dropped(cs[..|cs| - 1]) + if cs[|cs| - 1].DropOwner? then {cs[|cs| - 1].token} else {}
  }

  predicate OnlyDrops(cs: seq<Change>) {
    forall i :: 0 <= i < |cs| ==> cs[i].DropOwner? || cs[i].Unrelated?
  }

  lemma DroppedOneMore(cs: seq<Change>, t: string)
    ensures OnlyDrops(cs) ==> OnlyDrops(cs + [DropOwner(t), Unrelated])
    ensures Dropped(cs + [DropOwner(t), Unrelated]) == Dropped(cs) + {t}
  {
    var one, two := cs + [DropOwner(t)], cs + [DropOwner(t), Unrelated];
    assert two[..|cs| + 1] == one && one[..|cs|] == cs;
  }

  /** What the agreement says about one account. */
  lemma AccountFacts(x: Index, id: string, issued: set<string>, single: bool)
    requires Agree(x, issued, single)
    ensures Owned(x, id) <= ListOf(x, id) <= issued
    ensures forall other | other in x.lists && other != id :: ListOf(x, id) !! x.lists[other].value
    ensures id in x.lists ==> NoLater(x.lists[id].deadline, x.due)
  {
    forall u | u in Owned(x, id) ensures u in ListOf(x, id) {
      assert Backed(x, u);
    }
    assert id in x.lists ==> ListSound(x, issued, id);
    forall other | other in x.lists && other != id ensures ListOf(x, id) !! x.lists[other].value {
      assert id in x.lists ==> Apart(x, id, other);
    }
  }

  /** Logging in with a new token: list it first, then map it. */
  lemma ListThenMapIsSafe(x: Index, id: string, t: string, issued: set<string>, single: bool)
    requires Agree(x, issued, single) && t in issued && Gone(x, t) && (single ==> Owned(x, id) == {})
    ensures AllSafe(x, [SetList(id, ListOf(x, id) + {t}), SetOwner(t, id)], issued, single)
  {
    var listing := SetList(id, ListOf(x, id) + {t});
    AccountFacts(x, id, issued, single);
    var y := Shift(x, listing);
    assert Owned(y, id) == Owned(x, id);
    var cs := [listing, SetOwner(t, id)];
    assert cs[..1] == [listing] && [listing][..0] == [];
    assert ShiftAll(x, [listing]) == y;
    assert AllSafe(x, [listing], issued, single);
  }

  /** Evicting an account: unmap what it lists, then empty the list. */
  lemma {:induction false} UnmapAllIsSafe(x: Index, cs: seq<Change>, issued: set<string>, single: bool)
    requires OnlyDrops(cs)
    ensures AllSafe(x, cs, issued, single)
    ensures var y := ShiftAll(x, cs);
            && y.due == x.due && y.lists == x.lists
            && y.owners == x.owners - Dropped(cs)
  {
    if cs != [] {
      var front, last := cs[..|cs| - 1], cs[|cs| - 1];
      UnmapAllIsSafe(x, front, issued, single);
    }
  }

  lemma OneSafeChange(x: Index, c: Change, issued: set<string>, single: bool)
    requires Safe(x, c, issued, single)
    ensures AllSafe(x, [c], issued, single) && ShiftAll(x, [c]) == Shift(x, c)
  {
    assert [c][..0] == [];
  }

  lemma UnmapThenShrinkIsSafe(x: Index, drops: seq<Change>, id: string, left: set<string>, issued: set<string>, single: bool)
    requires Agree(x, issued, single) && id in x.lists
    requires OnlyDrops(drops)
    requires left == x.lists[id].value - Dropped(drops)
    ensures AllSafe(x, drops + [SetList(id, left)], issued, single)
    ensures left == {} ==> AllSafe(x, drops + [DropList(id)], issued, single)
    ensures var y := ShiftAll(x, drops + [SetList(id, left)]);
            && Owned(y, id) <= left
            && y.lists == x.lists[id := Dated(left, x.due)]
            && y.owners == x.owners - Dropped(drops)
  {
    UnmapAllIsSafe(x, drops, issued, single);
    AccountFacts(x, id, issued, single);
    var y := ShiftAll(x, drops);
    assert Owned(y, id) <= left;
    OneSafeChange(y, SetList(id, left), issued, single);
    AllSafeAppend(x, drops, [SetList(id, left)], issued, single);
    ShiftAppend(x, drops, [SetList(id, left)]);
    if left == {} {
      OneSafeChange(y, DropList(id), issued, single);
      AllSafeAppend(x, drops, [DropList(id)], issued, single);
    }
  }

  /** Unmapping what an account lists is unmapping its tokens. */
  lemma UnmappingTheListed(x: Index, id: string, issued: set<string>, single: bool)
    requires Agree(x, issued, single)
    ensures x.owners - ListOf(x, id) == x.owners - Owned(x, id)
  {
    AccountFacts(x, id, issued, single);
    forall t | t in x.owners && t in ListOf(x, id) ensures t in Owned(x, id) {
      assert Backed(x, t) && Apart(x, id, x.owners[t].value);
    }
  }

  lemma UnmapThenEmptyEvicts(x: Index, drops: seq<Change>, id: string, issued: set<string>, single: bool)
    requires Agree(x, issued, single) && id in x.lists
    requires OnlyDrops(drops) && Dropped(drops) == ListOf(x, id)
    ensures AllSafe(x, drops + [SetList(id, {})], issued, single)
    ensures Evicted(x, ShiftAll(x, drops + [SetList(id, {})]), id)
  {
    UnmappingTheListed(x, id, issued, single);
    UnmapThenShrinkIsSafe(x, drops, id, {}, issued, single);
    hide Agree, AllSafe, ShiftAll, Owned, OnlyDrops, Dropped;
  }

  /** Saving an account's session again with the same terminals. */
  lemma RelistIsSafe(x: Index, id: string, issued: set<string>, single: bool)
    requires Agree(x, issued, single)
    ensures Safe(x, SetList(id, ListOf(x, id)), issued, single)
  {
    AccountFacts(x, id, issued, single);
  }

  /** Renewing: map the token again, then save its account's session. Both receive the same deadline. */
  lemma MapThenRelistAgrees(x: Index, id: string, t: string, issued: set<string>)
    requires Agree(x, issued, false) && t in ListOf(x, id)
    ensures Agree(ShiftAll(x, [SetOwner(t, id), SetList(id, ListOf(x, id))]), issued, false)
  {
    var relist, remap := SetList(id, ListOf(x, id)), SetOwner(t, id);
    RelistIsSafe(x, id, issued, false);
    var y := Shift(x, relist);
    SafeChangeKeepsAgreement(x, relist, issued, false);
    SafeChangeKeepsAgreement(y, remap, issued, false);
    assert [remap, relist][..1] == [remap] && [remap][..0] == [];
    assert ShiftAll(x, [remap]) == Shift(x, remap);
    assert ShiftAll(x, [remap, relist]) == Shift(y, remap);
  }

  // ---- what holds even where the indexes do not agree ----

  /** No session but that of its own account lists the token. */
  predicate AtHome(x: Index, t: string)
    requires t in x.owners
  {
    forall id | id in x.lists && t in x.lists[id].value :: id == x.owners[t].value
  }

  /** Agreement without the promise that a live token has a session: live and listed tokens were issued, a
      token is listed by one account at most and by no other than its owner, and no deadline of a token
      is later than one set now. */
  predicate Tidy(x: Index, issued: set<string>) {
    && (forall t {:trigger AtHome(x, t)} | t in x.owners ::
          t in issued && AtHome(x, t) && NoLater(x.owners[t].deadline, x.due))
    && (forall id | id in x.lists :: x.lists[id].value <= issued)
    && (forall a, b {:trigger Apart(x, a, b)} | a in x.lists && b in x.lists :: Apart(x, a, b))
  }

  lemma AgreementIsTidy(x: Index, issued: set<string>, single: bool)
    requires Agree(x, issued, single)
    ensures Tidy(x, issued)
  {
    forall t | t in x.owners ensures t in issued && AtHome(x, t) && NoLater(x.owners[t].deadline, x.due) {
      var home := x.owners[t].value;
      assert Backed(x, t) && ListSound(x, issued, home);
      forall id | id in x.lists && t in x.lists[id].value ensures id == home {
        assert Apart(x, id, home);
      }
    }
    forall id | id in x.lists ensures x.lists[id].value <= issued {
      assert ListSound(x, issued, id);
    }
  }

  /** A token is gone exactly when the index is tidy without it among the issued ones. */
  lemma GoneIsUnissued(x: Index, issued: set<string>, t: string)
    requires Tidy(x, issued)
    ensures Gone(x, t) <==> Tidy(x, issued - {t})
    ensures t !in issued ==> Gone(x, t)
  {
    if t in x.owners {
      assert AtHome(x, t);
    }
    if Gone(x, t) {
      forall u | u in x.owners ensures u in issued - {t} && AtHome(x, u) && NoLater(x.owners[u].deadline, x.due) {
        assert AtHome(x, u);
      }
    }
  }

  lemma TimeKeepsTidy(x: Index, issued: set<string>, due: Deadline, now: int)
    requires Tidy(x, issued) && NoLater(x.due, due)
    ensures Tidy(Advance(x, due, now), issued)
  {
    var y := Advance(x, due, now);
    forall t | t in y.owners ensures t in issued && AtHome(y, t) && NoLater(y.owners[t].deadline, y.due) {
      assert AtHome(x, t);
    }
    forall a, b | a in y.lists && b in y.lists ensures Apart(y, a, b) {
      assert Apart(x, a, b);
    }
  }

  /** The change maps no token but the given ones, and that to the account, and lists no more than these
      in addition, for the account only. */
  predicate Local(x: Index, c: Change, id: string, tokens: set<string>) {
    match c
    case SetOwner(t, owner) => owner == id && t in tokens
    case SetList(owner, listed) => owner == id && listed <= ListOf(x, id) + tokens
    case _ => true
  }

  predicate AllLocal(x: Index, cs: seq<Change>, id: string, tokens: set<string>) {
    forall i :: 0 <= i < |cs| ==> Local(x, cs[i], id, tokens)
  }

  /** y holds no more than local changes of x can bring about; they may take away. */
  predicate Near(x: Index, y: Index, id: string, tokens: set<string>) {
    && y.due == x.due
    && (forall t | t in y.owners ::
          (t in tokens && y.owners[t] == Dated(id, x.due)) || (t in x.owners && y.owners[t] == x.owners[t]))
    && (forall other | other in y.lists && other != id :: other in x.lists && y.lists[other] == x.lists[other])
    && ListOf(y, id) <= ListOf(x, id) + tokens
  }

  lemma {:induction false} LocalChangesStayNear(x: Index, cs: seq<Change>, id: string, tokens: set<string>)
    requires AllLocal(x, cs, id, tokens)
    ensures Near(x, ShiftAll(x, cs), id, tokens)
  {
    hide Local, Shift;
    if cs != [] {
      var front := cs[..|cs| - 1];
      assert forall i :: 0 <= i < |front| ==> front[i] == cs[i];
      LocalChangesStayNear(x, front, id, tokens);
      LocalChangeStaysNear(x, ShiftAll(x, front), cs[|cs| - 1], id, tokens);
    }
  }

  lemma LocalChangeStaysNear(x: Index, y: Index, c: Change, id: string, tokens: set<string>)
    requires Near(x, y, id, tokens) && Local(x, c, id, tokens)
    ensures Near(x, Shift(y, c), id, tokens)
  {
  }

  /** The tokens may be mapped to the account: they were issued and no other account has or lists them. */
  predicate FreeFor(x: Index, id: string, tokens: set<string>, issued: set<string>) {
    && tokens <= issued
    && (forall t | t in tokens && t in x.owners :: x.owners[t].value == id)
    && (forall t, other | t in tokens && other in x.lists && t in x.lists[other].value :: other == id)
  }

  lemma NearIsTidy(x: Index, y: Index, id: string, tokens: set<string>, issued: set<string>)
    requires Tidy(x, issued) && Near(x, y, id, tokens) && FreeFor(x, id, tokens, issued)
    ensures Tidy(y, issued)
  {
    forall t | t in y.owners ensures t in issued && AtHome(y, t) && NoLater(y.owners[t].deadline, y.due) {
      assert t in x.owners ==> AtHome(x, t);
      forall other | other in y.lists && t in y.lists[other].value ensures other == y.owners[t].value {
        assert other != id ==> y.lists[other] == x.lists[other];
      }
    }
    forall other | other in y.lists ensures y.lists[other].value <= issued {
      assert ListOf(x, id) <= issued;
      assert other == id ==> y.lists[other].value == ListOf(y, id);
    }
    forall a, b | a in y.lists && b in y.lists ensures Apart(y, a, b) {
      NearIsApart(x, y, id, tokens, issued, a, b);
    }
  }

  lemma NearIsApart(x: Index, y: Index, id: string, tokens: set<string>, issued: set<string>, a: string, b: string)
    requires Tidy(x, issued) && Near(x, y, id, tokens) && FreeFor(x, id, tokens, issued)
    requires a in y.lists && b in y.lists
    ensures Apart(y, a, b)
  {
    if a != id && b != id {
      assert Apart(x, a, b);
    } else if a != b {
      var other := if a == id then b else a;
      forall t | t in y.lists[other].value ensures t !in ListOf(y, id) {
        assert y.lists[other] == x.lists[other] && t !in tokens;
        assert id in x.lists ==> Apart(x, id, other);
      }
    }
  }
}
