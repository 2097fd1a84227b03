/** Account sessions and their terminal lists (satoken/session_codec.go). */
module Sessions {
  import opened Results

  /** A value of a session's data map, as Go holds it in an `any`. VNum is an integer type, VFloat a
      float64 that holds an integer, VNilList a nil []any. */
  datatype Val =
    | VNil
    | VBool(b: bool)
    | VNum(n: int)
    | VFloat(n: int)
    | VStr(s: string)
    | VStrs(strs: seq<string>)
    | VNilList
    | VList(items: seq<Val>)
    | VMap(m: map<string, Val>)

  datatype TerminalInfo = TerminalInfo(
    index: int,
    tokenValue: string,
    deviceType: string,
    deviceId: string,
    extraData: map<string, Val>,
    createTime: int)

  /** A session as a value. data is None when the Go map is nil. */
  datatype Session = Session(
    id: string,
    kind: string,
    loginType: string,
    loginId: Val,
    token: string,
    historyTerminalCount: int,
    createTime: int,
    terminals: seq<TerminalInfo>,
    data: Option<map<string, Val>>)

  function NewSession(id: string): Session {
    Session(id, "", "", VNil, "", 0, 0, [], Some(map[]))
  }

  // ---- reading the data map ----

  function Get(s: Session, key: string): Option<Val> {
    if s.data.Some? && key in s.data.value then Some(s.data.value[key]) else None
  }

  /** The strings among a list's items, in order. */
  function StringsAmong(items: seq<Val>): seq<string> {
    if items == [] then []
    else (if items[0].VStr? then [items[0].s] else []) + StringsAmong(items[1..])
  }

  function StringsOf(v: Val): seq<string> {
    match v
    case VStrs(strs) => strs
    case VList(items) => StringsAmong(items)
    case _ => []
  }

  function TextOf(v: Val): string {
    if v.VStr? then v.s else ""
  }

  function StringList(s: Session, key: string): seq<string> {
    match Get(s, key)
    case Some(v) => StringsOf(v)
    case None => []
  }

  function String(s: Session, key: string): string {
    match Get(s, key)
    case Some(v) => TextOf(v)
    case None => ""
  }

  const PERMISSIONS := "permissions"

  /** CheckPermission of logic.go, on a session that is not nil. */
  predicate CheckPermission(s: Session, code: string) {
    code != "" && code in StringList(s, PERMISSIONS)
  }

  // ---- terminal lists ----

  predicate Lists(terminals: seq<TerminalInfo>, token: string) {
    exists i :: 0 <= i < |terminals| && terminals[i].tokenValue == token
  }

  function WithTerminal(s: Session, info: TerminalInfo): Session {
    if info.tokenValue != "" && Lists(s.terminals, info.tokenValue) then s
    else
      var count := s.historyTerminalCount + 1;
      var deviceType := if info.deviceType == "" then "DEF" else info.deviceType;
      s.(historyTerminalCount := count,
         terminals := s.terminals + [info.(index := count, deviceType := deviceType)])
  }

  /** The terminals that do not carry the token, in order. */
  function Without(terminals: seq<TerminalInfo>, token: string): seq<TerminalInfo> {
    if terminals == [] then []
    else
      var last := terminals[|terminals| - 1];
      Without(terminals[..|terminals| - 1], token) + if last.tokenValue == token then [] else [last]
  }

  lemma WithoutNext(terminals: seq<TerminalInfo>, i: nat, token: string)
    requires i < |terminals|
    ensures Without(terminals[..i + 1], token) ==
            Without(terminals[..i], token) + if terminals[i].tokenValue == token then [] else [terminals[i]]
  {
    assert terminals[..i + 1][..i] == terminals[..i];
  }

  function WithoutTerminal(s: Session, token: string): Session {
    s.(terminals := Without(s.terminals, token))
  }

  lemma {:induction false} WithoutLists(terminals: seq<TerminalInfo>, token: string, other: string)
    ensures Lists(Without(terminals, token), other) <==> Lists(terminals, other) && other != token
  {
    if terminals != [] {
      var front, last := terminals[..|terminals| - 1], terminals[|terminals| - 1];
      WithoutLists(front, token, other);
      var kept := Without(front, token);
      if Lists(front, other) && other != token {
        var i :| 0 <= i < |kept| && kept[i].tokenValue == other;
        assert Without(terminals, token)[i] == kept[i];
      } else if last.tokenValue == other && other != token {
        assert Without(terminals, token)[|kept|] == last;
      }
      if Lists(terminals, other) {
        var i :| 0 <= i < |terminals| && terminals[i].tokenValue == other;
        assert i < |front| ==> front[i].tokenValue == other;
      }
    }
  }

  lemma WithTerminalLists(s: Session, info: TerminalInfo, other: string)
    ensures Lists(WithTerminal(s, info).terminals, other) <==> Lists(s.terminals, other) || other == info.tokenValue
  {
    var after := WithTerminal(s, info).terminals;
    if Lists(s.terminals, other) {
      var i :| 0 <= i < |s.terminals| && s.terminals[i].tokenValue == other;
      assert after[i].tokenValue == other;
    }
    if after != s.terminals {
      assert after[|s.terminals|].tokenValue == info.tokenValue;
    }
  }

  /** A terminal with a token that is listed changes nothing; any other is appended, numbered with the raised
      count and with the device type DEF when it has none, and nothing else of the session changes. */
  lemma AddedExactly(s: Session, info: TerminalInfo)
    ensures var r := WithTerminal(s, info);
            if info.tokenValue != "" && exists i :: 0 <= i < |s.terminals| && s.terminals[i].tokenValue == info.tokenValue
            then r == s
            else
              && r.(historyTerminalCount := s.historyTerminalCount, terminals := s.terminals) == s
              && |r.terminals| == |s.terminals| + 1 && r.terminals[..|s.terminals|] == s.terminals
              && var t := r.terminals[|s.terminals|];
              && t.index == r.historyTerminalCount == s.historyTerminalCount + 1
              && t.tokenValue == info.tokenValue && t.deviceId == info.deviceId
              && t.extraData == info.extraData && t.createTime == info.createTime
              && (info.deviceType != "" ==> t.deviceType == info.deviceType)
              && (info.deviceType == "" ==> t.deviceType == "DEF")
  {
  }

  /** Each terminal is kept or removed by itself, in the given order. */
  lemma {:induction false} RemovedInOrder(a: seq<TerminalInfo>, t: TerminalInfo, b: seq<TerminalInfo>, token: string)
    ensures Without(a + b, token) == Without(a, token) + Without(b, token)
    ensures Without([t], token) == if t.tokenValue == token then [] else [t]
  {
    assert [t][..0] == [];
    if b == [] {
      assert a + b == a;
    } else {
      RemovedInOrder(a, t, b[..|b| - 1], token);
      assert (a + b)[..|a + b| - 1] == a + b[..|b| - 1];
    }
  }

  /** A list answers exactly its strings, in order and as often as they occur. */
  lemma {:induction false} StringsInOrder(a: seq<Val>, v: Val, b: seq<Val>)
    ensures StringsAmong(a + b) == StringsAmong(a) + StringsAmong(b)
    ensures StringsAmong([v]) == if v.VStr? then [v.s] else []
  {
    assert [v][1..] == [];
    if a == [] {
      assert a + b == b;
    } else {
      StringsInOrder(a[1..], v, b);
      assert (a + b)[1..] == a[1..] + b;
    }
  }

  // ---- the invariant of a terminal list over any run of operations ----

  /** One terminal before another: an older index and another token. */
  predicate Precedes(a: TerminalInfo, b: TerminalInfo) {
    a.index < b.index && a.tokenValue != b.tokenValue
  }

  predicate InOrder(terminals: seq<TerminalInfo>) {
    forall i, j :: 0 <= i < j < |terminals| ==> Precedes(terminals[i], terminals[j])
  }

  predicate Ordered(s: Session) {
    && 0 <= s.historyTerminalCount
    && InOrder(s.terminals)
    && forall i :: 0 <= i < |s.terminals| ==>
         1 <= s.terminals[i].index <= s.historyTerminalCount && s.terminals[i].tokenValue != ""
  }

  datatype TerminalOp = Add(info: TerminalInfo) | Remove(token: string)

  function Apply(s: Session, op: TerminalOp): Session {
    match op
    case Add(info) => WithTerminal(s, info)
    case Remove(token) => WithoutTerminal(s, token)
  }

  function ApplyAll(s: Session, ops: seq<TerminalOp>): Session {
    if ops == [] then s else Apply(ApplyAll(s, ops[..|ops| - 1]), ops[|ops| - 1])
  }

  lemma {:induction false} WithoutKeepsOnly(terminals: seq<TerminalInfo>, token: string, t: TerminalInfo)
    ensures t in Without(terminals, token) ==> t in terminals
  {
    if terminals != [] {
      WithoutKeepsOnly(terminals[..|terminals| - 1], token, t);
    }
  }

  lemma {:induction false} WithoutInOrder(terminals: seq<TerminalInfo>, token: string)
    requires InOrder(terminals)
    ensures InOrder(Without(terminals, token))
  {
    if terminals != [] {
      var front, last := terminals[..|terminals| - 1], terminals[|terminals| - 1];
      var kept := Without(front, token);
      WithoutInOrder(front, token);
      forall i | 0 <= i < |kept| ensures Precedes(kept[i], last) {
        WithoutKeepsOnly(front, token, kept[i]);
      }
    }
  }

  lemma WithoutOrdered(s: Session, token: string)
    requires Ordered(s)
    ensures Ordered(WithoutTerminal(s, token))
  {
    WithoutInOrder(s.terminals, token);
    var kept := Without(s.terminals, token);
    forall i | 0 <= i < |kept| ensures 1 <= kept[i].index <= s.historyTerminalCount && kept[i].tokenValue != "" {
      WithoutKeepsOnly(s.terminals, token, kept[i]);
    }
  }

  /** Tokens stay distinct, indexes stay strictly increasing within 1..historyTerminalCount, and the
      count never drops, whatever is added and removed. */
  lemma {:induction false} TerminalListInvariant(s: Session, ops: seq<TerminalOp>)
    requires Ordered(s)
    requires forall i :: 0 <= i < |ops| && ops[i].Add? ==> ops[i].info.tokenValue != ""
    ensures Ordered(ApplyAll(s, ops))
    ensures s.historyTerminalCount <= ApplyAll(s, ops).historyTerminalCount
  {
    if ops != [] {
      var before := ApplyAll(s, ops[..|ops| - 1]);
      TerminalListInvariant(s, ops[..|ops| - 1]);
      match ops[|ops| - 1]
      case Add(info) =>
        var added := WithTerminal(before, info);
        if !Lists(before.terminals, info.tokenValue) {
          assert forall i :: 0 <= i < |before.terminals| ==> Precedes(before.terminals[i], added.terminals[|before.terminals|]);
        }
      case Remove(token) =>
        WithoutOrdered(before, token);
    }
  }

  // ---- the object ----

  /** A *Session. TerminalList is a Go slice: the first `used` slots of a backing array. */
  class SessionObject {
    var id: string
    var kind: string
    var loginType: string
    var loginId: Val
    var token: string
    var historyTerminalCount: int
    var createTime: int
    var slots: array<TerminalInfo>
    var used: nat
    var data: Option<map<string, Val>>

    ghost predicate Valid()
      reads this
    {
      used <= slots.Length
    }

    function View(): Session
      requires Valid()
      reads this, slots
    {
      Session(id, kind, loginType, loginId, token, historyTerminalCount, createTime, slots[..used], data)
    }

    constructor (s: Session)
      ensures Valid() && fresh(slots)
      ensures View() == s
    {
      id, kind, loginType, loginId := s.id, s.kind, s.loginType, s.loginId;
      token, historyTerminalCount, createTime := s.token, s.historyTerminalCount, s.createTime;
      data := s.data;
      var backing := new TerminalInfo[|s.terminals|](i requires 0 <= i < |s.terminals| => s.terminals[i]);
      slots, used := backing, |s.terminals|;
      new;
      assert slots[..used] == s.terminals;
    }

    method Set(key: string, value: Val)
      requires Valid()
      modifies this`data
      ensures Valid()
      ensures View() == old(View()).(data := Some((if old(data).Some? then old(data).value else map[])[key := value]))
    {
      if data.None? {
        data := Some(map[]);
      }
      data := Some(data.value[key := value]);
    }

    method AddTerminal(info: TerminalInfo)
      requires Valid()
      modifies this`historyTerminalCount, this`slots, this`used, slots
      ensures Valid() && (slots == old(slots) || fresh(slots))
      ensures View() == WithTerminal(old(View()), info)
    {
      var i := 0;
      while i < used
        invariant 0 <= i <= used
        invariant info.tokenValue == "" || forall j :: 0 <= j < i ==> slots[j].tokenValue != info.tokenValue
      {
        if slots[i].tokenValue == info.tokenValue && info.tokenValue != "" {
          assert View().terminals[i].tokenValue == info.tokenValue;
          return;
        }
        i := i + 1;
      }
      assert info.tokenValue != "" ==> !Lists(View().terminals, info.tokenValue);
      historyTerminalCount := historyTerminalCount + 1;
      var added := info.(index := historyTerminalCount);
      if added.deviceType == "" {
        added := added.(deviceType := "DEF");
      }
      Append(added);
    }

    /** The built-in append: it writes into spare capacity or moves to a larger array. */
    method Append(info: TerminalInfo)
      requires Valid()
      modifies this`slots, this`used, slots
      ensures Valid() && (slots == old(slots) || fresh(slots))
      ensures used == old(used) + 1
      ensures slots[..used] == old(slots[..used]) + [info]
    {
      if used == slots.Length {
        var n, old_ := used, slots;
        slots := new TerminalInfo[2 * n + 1](i reads old_ requires n <= old_.Length => if 0 <= i < n then old_[i] else info);
      }
      slots[used] := info;
      used := used + 1;
    }

    /** Compaction in place: kept elements slide down over the removed ones. */
    method RemoveTerminal(token: string)
      requires Valid()
      modifies this`used, slots
      ensures Valid()
      ensures View() == WithoutTerminal(old(View()), token)
    {
      if used == 0 {
        return;
      }
      ghost var was := slots[..used];
      var kept, i := 0, 0;
      while i < used
        invariant 0 <= kept <= i <= used == |was| <= slots.Length
        invariant slots[..kept] == Without(was[..i], token)
        invariant forall j :: i <= j < used ==> slots[j] == was[j]
      {
        WithoutNext(was, i, token);
        if slots[i].tokenValue != token {
          slots[kept] := slots[i];
          kept := kept + 1;
        }
        i := i + 1;
      }
      assert was[..used] == was;
      used := kept;
    }
  }
}
