/** When decoding undoes encoding, exactly, and what a saved session always reads back as. */
module CodecRoundTrip {
  import opened Results
  import opened MemoryStores
  import opened Sessions
  import opened SessionCodec

  // ---- sameness: two sessions that hold the same JSON content ----

  predicate SameData(a: map<string, Val>, b: map<string, Val>) {
    a.Keys == b.Keys && forall k | k in a :: ToJson(a[k]) == ToJson(b[k])
  }

  predicate SameTerminal(a: TerminalInfo, b: TerminalInfo) {
    a.(extraData := b.extraData) == b && SameData(a.extraData, b.extraData)
  }

  /** Equal up to Go's representations of equal content: a []string and a []any of strings, nil and an
      empty data map. */
  predicate SameContent(a: Session, b: Session) {
    && a.(loginId := b.loginId, terminals := b.terminals, data := b.data) == b
    && ToJson(a.loginId) == ToJson(b.loginId)
    && |a.terminals| == |b.terminals|
    && (forall i :: 0 <= i < |a.terminals| ==> SameTerminal(a.terminals[i], b.terminals[i]))
    && SameData(DataOf(a), DataOf(b))
  }

  function DataOf(s: Session): map<string, Val> {
    if s.data.Some? then s.data.value else map[]
  }

  // ---- the exact domain ----

  /** Every number inside survives as a float64. */
  predicate ExactNumbers(v: Val) {
    match v
    case VNum(n) => Exact(n)
    case VFloat(n) => Exact(n)
    case VList(items) => forall i :: 0 <= i < |items| ==> ExactNumbers(items[i])
    case VMap(m) => forall k | k in m :: ExactNumbers(m[k])
    case _ => true
  }

  /** A list that the decoder would take for a [class name, list] wrapper. */
  predicate LooksWrapped(items: seq<Val>) {
    |items| == 2 && items[0].VStr? && (items[1].VList? || items[1].VStrs?)
  }

  /** A value inside a nested map, where nothing is wrapped. */
  predicate CleanNested(v: Val) {
    match v
    case VList(items) => ExactNumbers(v) && !LooksWrapped(items)
    case VMap(m) => CLASS !in m && ITEMS !in m && forall k | k in m :: CleanNested(m[k])
    case _ => ExactNumbers(v)
  }

  /** A value directly in the data map, where lists are wrapped. */
  predicate CleanTop(v: Val) {
    match v
    case VList(_) => ExactNumbers(v)
    case VNilList => false
    case _ => CleanNested(v)
  }

  predicate CleanTerminal(t: TerminalInfo) {
    Exact(t.index) && Exact(t.createTime) && ExactNumbers(VMap(t.extraData))
  }

  predicate CleanSession(s: Session) {
    && |s.terminals| <= s.historyTerminalCount
    && ExactNumbers(s.loginId)
    && (forall i :: 0 <= i < |s.terminals| ==> CleanTerminal(s.terminals[i]))
    && CLASS !in DataOf(s)
    && forall k | k in DataOf(s) :: CleanTop(DataOf(s)[k])
  }

  // ---- values ----

  lemma PlainStrings(strs: seq<string>)
    ensures ToJson(Plain(StrArr(strs))) == StrArr(strs)
  {
    var back := ToJson(Plain(StrArr(strs)));
    forall i | 0 <= i < |strs| ensures back.items[i] == Str(strs[i]) {
      assert ToJson(Plain(Str(strs[i]))) == Str(strs[i]);
    }
  }

  /** Through json.Marshal and back into an `any`, content is kept exactly when every number is exact. */
  lemma {:induction false} PlainRoundTrip(v: Val)
    ensures ToJson(Plain(ToJson(v))) == ToJson(v) <==> ExactNumbers(v)
  {
    match v
    case VStrs(strs) => PlainStrings(strs);
    case VList(items) =>
      forall i | 0 <= i < |items|
        ensures ToJson(Plain(ToJson(v))).items[i] == ToJson(v).items[i] <==> ExactNumbers(items[i])
      {
        PlainRoundTrip(items[i]);
      }
    case VMap(m) =>
      forall k | k in m
        ensures ToJson(Plain(ToJson(v))).fields[k] == ToJson(v).fields[k] <==> ExactNumbers(m[k])
      {
        PlainRoundTrip(m[k]);
      }
    case _ =>
  }

  /** How often a value can be taken for a wrapper, and its content for a wrapper again. */
  function Wraps(j: Json): nat {
    if j.Arr? && |j.items| == 2 then 1 + Wraps(j.items[1]) else 0
  }

  lemma {:induction false} PlainKeepsWraps(j: Json)
    ensures Wraps(ToJson(Plain(j))) == Wraps(j)
  {
    if j.Arr? && |j.items| == 2 {
      PlainKeepsWraps(j.items[1]);
    }
  }

  lemma NarrowKeepsContent(list: Val)
    requires list.VList?
    ensures ToJson(Narrow(list)) == ToJson(list)
  {
    if AllStrings(list.items) {
      assert forall i :: 0 <= i < |list.items| ==> ToJson(list.items[i]) == Str(list.items[i].s);
    }
  }

  ghost predicate DecodesBack(encoded: Json, v: Val) {
    DecodeDataValue(encoded).Ok? && ToJson(DecodeDataValue(encoded).value) == ToJson(v)
  }

  lemma NestedList(items: seq<Val>)
    ensures DecodesBack(ToJson(VList(items)), VList(items)) <==> CleanNested(VList(items))
  {
    var j := ToJson(VList(items));
    PlainRoundTrip(VList(items));
    if LooksWrapped(items) {
      assert DecodeCollection(j) == Ok(Plain(j.items[1]));
      NarrowKeepsContent(Plain(j.items[1]));
      PlainKeepsWraps(j.items[1]);
      assert Wraps(j) == 1 + Wraps(j.items[1]);
    } else {
      assert DecodeCollection(j) == Ok(Plain(j));
      NarrowKeepsContent(Plain(j));
    }
  }

  lemma NestedStrings(strs: seq<string>)
    ensures DecodesBack(StrArr(strs), VStrs(strs))
  {
    PlainStrings(strs);
    NarrowKeepsContent(Plain(StrArr(strs)));
  }

  lemma PlainMapBack(m: map<string, Val>, f: map<string, Json>)
    requires f.Keys == m.Keys && forall k | k in m :: f[k] == ToJson(m[k])
    ensures DecodePlainMap(Obj(f)).Ok? && ToJson(VMap(DecodePlainMap(Obj(f)).value)) == Obj(f) <==>
            CLASS !in m && forall k | k in m :: DecodesBack(f[k], m[k])
  {
    var inner := DecodePlainMap(Obj(f));
    if inner.Ok? {
      var back := ToJson(VMap(inner.value)).fields;
      assert back.Keys == m.Keys - {CLASS};
      forall k | k in m && k != CLASS ensures back[k] == ToJson(DecodeDataValue(f[k]).value) {
        assert k in inner.value;
      }
      if back == f {
        assert forall k | k in m :: back[k] == f[k];
      }
    }
  }

  lemma NestedMap(m: map<string, Val>)
    requires ITEMS !in m
    ensures DecodesBack(ToJson(VMap(m)), VMap(m)) <==>
            CLASS !in m && forall k | k in m :: DecodesBack(ToJson(m[k]), m[k])
  {
    PlainMapBack(m, ToJson(VMap(m)).fields);
  }

  lemma {:induction false} NestedRoundTrip(v: Val)
    ensures DecodesBack(ToJson(v), v) <==> CleanNested(v)
  {
    match v
    case VStrs(strs) => NestedStrings(strs);
    case VList(items) => NestedList(items);
    case VMap(m) =>
      if ITEMS !in m {
        NestedMap(m);
        forall k | k in m ensures DecodesBack(ToJson(m[k]), m[k]) <==> CleanNested(m[k]) {
          NestedRoundTrip(m[k]);
        }
      }
    case _ =>
  }

  lemma TopRoundTrip(v: Val)
    ensures DecodesBack(WrapValue(v), v) <==> CleanTop(v)
  {
    match v
    case VStrs(strs) =>
      PlainStrings(strs);
      NarrowKeepsContent(Plain(ToJson(v)));
    case VList(_) =>
      PlainRoundTrip(v);
      NarrowKeepsContent(Plain(ToJson(v)));
    case VNilList =>
    case _ => NestedRoundTrip(v);
  }

  // ---- float64 numbers are stable ----

  lemma {:induction false} UlpOfMultiple(q: nat, n: nat)
    requires TWO_53 / 2 <= q < TWO_53
    ensures Ulp(q * Ulp(n)) == Ulp(n)
  {
    if n >= TWO_53 {
      UlpOfMultiple(q, n / 2);
      var half := Ulp(n / 2);
      assert q * Ulp(n) == 2 * (q * half);
      assert q * half >= q;
    }
  }

  lemma MultipleIsFar(d: int, k: int)
    requires d > 0
    ensures k >= 1 ==> d * k >= d
    ensures k <= -1 ==> d * k <= -d
  {
  }

  lemma DivisionIsUnique(n: nat, d: nat, q: nat, r: nat)
    requires n == d * q + r && r < d
    ensures n / d == q && n % d == r
  {
    MultipleIsFar(d, n / d - q);
    assert d * (n / d - q) == r - n % d;
  }

  lemma HalveThenDivide(n: nat, h: nat)
    requires h > 0
    ensures n / (2 * h) == (n / 2) / h
  {
    var q, r := (n / 2) / h, (n / 2) % h;
    assert n == (2 * h) * q + (2 * r + n % 2);
    DivisionIsUnique(n, 2 * h, q, 2 * r + n % 2);
  }

  lemma {:induction false} UlpBounds(n: nat)
    requires TWO_53 <= n
    ensures TWO_53 / 2 <= n / Ulp(n) < TWO_53
  {
    HalveThenDivide(n, Ulp(n / 2));
    if n / 2 >= TWO_53 {
      UlpBounds(n / 2);
    }
  }

  lemma MultipleOfItsUlp(n: nat, q: nat)
    requires n == Ulp(n) * q
    ensures RoundNat(n) == n
  {
    DivisionIsUnique(n, Ulp(n), q, 0);
  }

  lemma UlpDoubles(n: nat)
    ensures Ulp(TWO_53 * Ulp(n)) == 2 * Ulp(n)
  {
    var h: nat := TWO_53 / 2;
    UlpOfMultiple(h, n);
    var big := TWO_53 * Ulp(n);
    assert big / 2 == h * Ulp(n);
    assert big >= TWO_53;
  }

  /** A multiple of the spacing around n, at the same magnitude, is a multiple of its own spacing. */
  lemma OwnMultiple(x: nat, q: nat, n: nat) returns (k: nat)
    requires TWO_53 / 2 <= q <= TWO_53
    requires x == q * Ulp(n)
    ensures x == Ulp(x) * k
  {
    if q < TWO_53 {
      UlpOfMultiple(q, n);
      k := q;
    } else {
      UlpDoubles(n);
      k := TWO_53 / 2;
    }
  }

  lemma RoundNatIdempotent(n: nat)
    ensures RoundNat(RoundNat(n)) == RoundNat(n)
  {
    if n >= TWO_53 {
      UlpBounds(n);
      var q := n / Ulp(n);
      var x := RoundNat(n);
      var k := OwnMultiple(x, if x == q * Ulp(n) then q else q + 1, n);
      MultipleOfItsUlp(x, k);
    }
  }

  lemma Float64Idempotent(n: int)
    ensures Float64(Float64(n)) == Float64(n)
  {
    RoundNatIdempotent(if n < 0 then -n else n);
  }

  lemma {:induction false} PlainIdempotent(j: Json)
    ensures Plain(ToJson(Plain(j))) == Plain(j)
  {
    match j
    case Num(n) => Float64Idempotent(n);
    case Arr(items) =>
      forall i | 0 <= i < |items| ensures Plain(ToJson(Plain(j))).items[i] == Plain(j).items[i] {
        PlainIdempotent(items[i]);
      }
    case Obj(m) =>
      forall k | k in m ensures Plain(ToJson(Plain(j))).m[k] == Plain(j).m[k] {
        PlainIdempotent(m[k]);
      }
    case _ =>
  }

  // ---- terminals ----

  function PlainData(m: map<string, Val>): map<string, Val> {
    map k | k in m :: Plain(ToJson(m[k]))
  }

  function ReadBack(t: TerminalInfo): TerminalInfo {
    t.(index := Float64(t.index), createTime := Float64(t.createTime), extraData := PlainData(t.extraData))
  }

  function ReadBackAll(ts: seq<TerminalInfo>): seq<TerminalInfo> {
    seq(|ts|, i requires 0 <= i < |ts| => ReadBack(ts[i]))
  }

  function OptNum(n: int): Json {
    if n == 0 then Null else Num(n)
  }

  function OptText(text: string): Json {
    if text == "" then Null else Str(text)
  }

  function OptMap(m: map<string, Val>): Json {
    if m == map[] then Null else ToJson(VMap(m))
  }

  function TerminalField(t: TerminalInfo, name: string): Json {
    if name == CLASS then Str(CLASS_TERMINAL_INFO)
    else if name == "index" then OptNum(t.index)
    else if name == "tokenValue" then OptText(t.tokenValue)
    else if name == "deviceType" then OptText(t.deviceType)
    else if name == "deviceId" then OptText(t.deviceId)
    else if name == "extraData" then OptMap(t.extraData)
    else if name == "createTime" then OptNum(t.createTime)
    else Null
  }

  lemma PutLookup(m: map<string, Json>, added: string, empty: bool, value: Json, name: string)
    ensures Field(Put(m, added, empty, value), name) == if name == added && !empty then value else Field(m, name)
  {
  }

  lemma TerminalLookup(t: TerminalInfo, name: string)
    ensures Field(TerminalFields(t), name) == TerminalField(t, name)
  {
    var m0 := map[CLASS := Str(CLASS_TERMINAL_INFO)];
    var m1 := Put(m0, "index", t.index == 0, Num(t.index));
    var m2 := Put(m1, "tokenValue", t.tokenValue == "", Str(t.tokenValue));
    var m3 := Put(m2, "deviceType", t.deviceType == "", Str(t.deviceType));
    var m4 := Put(m3, "deviceId", t.deviceId == "", Str(t.deviceId));
    var extra := ToJson(VMap(t.extraData));
    var m5 := Put(m4, "extraData", t.extraData == map[], extra);
    PutLookup(m0, "index", t.index == 0, Num(t.index), name);
    PutLookup(m1, "tokenValue", t.tokenValue == "", Str(t.tokenValue), name);
    PutLookup(m2, "deviceType", t.deviceType == "", Str(t.deviceType), name);
    PutLookup(m3, "deviceId", t.deviceId == "", Str(t.deviceId), name);
    PutLookup(m4, "extraData", t.extraData == map[], extra, name);
    PutLookup(m5, "createTime", t.createTime == 0, Num(t.createTime), name);
  }

  lemma ExtraDataReread(m: map<string, Val>)
    ensures AsMap(ToJson(Plain(ToJson(VMap(m))))) == Ok(PlainData(m))
  {
    var once := ToJson(VMap(m));
    var twice := ToJson(Plain(once));
    assert once.Obj? && twice.Obj? && twice.fields.Keys == m.Keys;
    forall k | k in m ensures Plain(twice.fields[k]) == Plain(ToJson(m[k])) {
      PlainIdempotent(once.fields[k]);
    }
    assert AsMap(twice).value == PlainData(m);
  }

  /** The object holds a terminal's fields as they are after a trip through an `any`. */
  ghost predicate Reread(m: map<string, Json>, t: TerminalInfo) {
    && Field(m, CLASS) == Str(CLASS_TERMINAL_INFO)
    && Field(m, "index") == ToJson(Plain(OptNum(t.index)))
    && Field(m, "tokenValue") == OptText(t.tokenValue)
    && Field(m, "deviceType") == OptText(t.deviceType)
    && Field(m, "deviceId") == OptText(t.deviceId)
    && Field(m, "extraData") == (if t.extraData == map[] then Null else ToJson(Plain(ToJson(VMap(t.extraData)))))
    && Field(m, "createTime") == ToJson(Plain(OptNum(t.createTime)))
  }

  lemma RereadDecodes(m: map<string, Json>, t: TerminalInfo)
    requires Reread(m, t)
    ensures DecodeTerminal(Obj(m)) == Ok(ReadBack(t))
  {
    if t.extraData == map[] {
      assert PlainData(t.extraData) == map[];
    } else {
      ExtraDataReread(t.extraData);
    }
  }

  lemma FieldReread(t: TerminalInfo, name: string)
    ensures ToJson(Plain(Obj(TerminalFields(t)))).Obj?
    ensures Field(ToJson(Plain(Obj(TerminalFields(t)))).fields, name) == ToJson(Plain(TerminalField(t, name)))
  {
    TerminalLookup(t, name);
  }

  lemma TextReread(text: string)
    ensures ToJson(Plain(OptText(text))) == OptText(text)
  {
  }

  lemma SimpleReread()
    ensures ToJson(Plain(Null)) == Null && ToJson(Plain(Str(CLASS_TERMINAL_INFO))) == Str(CLASS_TERMINAL_INFO)
  {
  }

  lemma TerminalReread(t: TerminalInfo)
    ensures ToJson(Plain(Obj(TerminalFields(t)))).Obj?
    ensures Reread(ToJson(Plain(Obj(TerminalFields(t)))).fields, t)
  {
    TextReread(t.tokenValue);
    TextReread(t.deviceType);
    TextReread(t.deviceId);
    SimpleReread();
    hide TerminalFields, ToJson, Plain, OptText, OptNum;
    FieldReread(t, CLASS);
    FieldReread(t, "index");
    FieldReread(t, "tokenValue");
    FieldReread(t, "deviceType");
    FieldReread(t, "deviceId");
    FieldReread(t, "extraData");
    FieldReread(t, "createTime");
  }

  lemma TerminalReadsBack(t: TerminalInfo)
    ensures DecodeTerminal(ToJson(Plain(Obj(TerminalFields(t))))) == Ok(ReadBack(t))
  {
    TerminalReread(t);
    RereadDecodes(ToJson(Plain(Obj(TerminalFields(t)))).fields, t);
  }

  lemma {:induction false} TerminalsReadBack(ts: seq<TerminalInfo>, items: seq<Val>)
    requires |items| == |ts|
    requires forall i :: 0 <= i < |ts| ==> DecodeTerminal(ToJson(items[i])) == Ok(ReadBack(ts[i]))
    ensures DecodeTerminals(items) == Ok(ReadBackAll(ts))
  {
    hide DecodeTerminal, ToJson, ReadBack;
    if ts != [] {
      var n := |ts| - 1;
      TerminalsReadBack(ts[..n], items[..n]);
      assert DecodeTerminal(ToJson(items[n])) == Ok(ReadBack(ts[n]));
      assert ReadBackAll(ts) == ReadBackAll(ts[..n]) + [ReadBack(ts[n])];
    }
  }

  // ---- what can be read back at all ----

  /** Decoding fails only on a nested map that the decoder takes for an "@items" collection but whose
      "@items" is not a list. Nothing inside a list is decoded that way. */
  predicate Readable(v: Val) {
    match v
    case VMap(m) =>
      if ITEMS in m then m[ITEMS].VNil? || m[ITEMS].VNilList? || m[ITEMS].VList? || m[ITEMS].VStrs?
      else forall k | k in m && k != CLASS :: Readable(m[k])
    case _ => true
  }

  predicate ReadableData(m: map<string, Val>) {
    forall k | k in m && k != CLASS :: Readable(m[k])
  }

  lemma {:induction false} NestedReadable(v: Val)
    ensures DecodeDataValue(ToJson(v)).Ok? <==> Readable(v)
  {
    if v.VMap? && ITEMS !in v.m {
      var f := ToJson(v).fields;
      forall k | k in v.m ensures DecodeDataValue(f[k]).Ok? <==> Readable(v.m[k]) {
        NestedReadable(v.m[k]);
      }
    }
  }

  lemma TopReadable(v: Val)
    ensures DecodeDataValue(WrapValue(v)).Ok? <==> Readable(v)
  {
    NestedReadable(v);
  }

  /** Whatever was decoded can be saved and decoded again. */
  lemma {:induction false} DecodedIsReadable(j: Json)
    ensures DecodeDataValue(j).Ok? ==> Readable(DecodeDataValue(j).value)
  {
    if j.Obj? && ITEMS !in j.fields {
      forall k | k in j.fields && k != CLASS && DecodeDataValue(j.fields[k]).Ok?
        ensures Readable(DecodeDataValue(j.fields[k]).value)
      {
        DecodedIsReadable(j.fields[k]);
      }
    }
  }

  // ---- sessions ----

  function SessionField(s: Session, name: string): Json {
    if name == CLASS then Str(CLASS_SESSION)
    else if name == "id" then Str(s.id)
    else if name == "type" then OptText(s.kind)
    else if name == "loginType" then OptText(s.loginType)
    else if name == "loginId" then ToJson(s.loginId)
    else if name == "token" then OptText(s.token)
    else if name == "historyTerminalCount" then Num(s.historyTerminalCount)
    else if name == "createTime" then Num(s.createTime)
    else if name == "dataMap" then DataJson(s.data)
    else if name == "terminalList" then TerminalsJson(s.terminals)
    else Null
  }

  lemma SessionLookup(s: Session, name: string)
    ensures Field(SessionFields(s), name) == SessionField(s, name)
    ensures "terminalList" in SessionFields(s)
  {
    var m0 := map[CLASS := Str(CLASS_SESSION), "id" := Str(s.id)];
    var m1 := Put(m0, "type", s.kind == "", Str(s.kind));
    PutLookup(m0, "type", s.kind == "", Str(s.kind), name);
    PutLookup(m1, "loginType", s.loginType == "", Str(s.loginType), name);
  }

  function ReloadedData(m: map<string, Val>): map<string, Val>
    requires ReadableData(m)
  {
    map k | k in m && k != CLASS ::
      assert DecodeDataValue(WrapValue(m[k])).Ok? by { TopReadable(m[k]); }
      DecodeDataValue(WrapValue(m[k])).value
  }

  /** What a readable session reads back as. */
  function Reloaded(s: Session): Session
    requires ReadableData(DataOf(s))
  {
    var listed := |s.terminals|;
    s.(loginId := Plain(ToJson(s.loginId)),
       historyTerminalCount := if s.historyTerminalCount < listed then listed else s.historyTerminalCount,
       terminals := ReadBackAll(s.terminals),
       data := Some(ReloadedData(DataOf(s))))
  }

  lemma DataReadsBack(data: Option<map<string, Val>>)
    ensures var m := if data.Some? then data.value else map[];
            var r := DecodeDataMap(DataJson(data));
            && (r.Ok? <==> ReadableData(m))
            && (r.Ok? ==> r.value == ReloadedData(m))
  {
    var m := if data.Some? then data.value else map[];
    var f := map k | k in m :: WrapValue(m[k]);
    forall k | k in m ensures DecodeDataValue(f[k]).Ok? <==> Readable(m[k]) {
      TopReadable(m[k]);
    }
    assert DecodePlainMap(Obj(f)).Ok? <==> ReadableData(m);
    if ReadableData(m) {
      assert DecodePlainMap(Obj(f)).value == ReloadedData(m);
    }
  }

  lemma TerminalListReadsBack(ts: seq<TerminalInfo>)
    ensures var list := DecodeCollection(TerminalsJson(ts));
            list.Ok? && DecodeTerminals(ItemsOf(list.value)) == Ok(ReadBackAll(ts))
  {
    var list := DecodeCollection(TerminalsJson(ts));
    if ts == [] {
      assert ReadBackAll(ts) == [];
    } else {
      var items := ItemsOf(list.value);
      forall i | 0 <= i < |ts| ensures DecodeTerminal(ToJson(items[i])) == Ok(ReadBack(ts[i])) {
        TerminalReadsBack(ts[i]);
      }
      TerminalsReadBack(ts, items);
    }
  }

  ghost predicate Holds(f: map<string, Json>, s: Session) {
    && Field(f, CLASS) == Str(CLASS_SESSION)
    && Field(f, "id") == Str(s.id)
    && Field(f, "type") == OptText(s.kind)
    && Field(f, "loginType") == OptText(s.loginType)
    && Field(f, "loginId") == ToJson(s.loginId)
    && Field(f, "token") == OptText(s.token)
    && Field(f, "historyTerminalCount") == Num(s.historyTerminalCount)
    && Field(f, "createTime") == Num(s.createTime)
    && Field(f, "dataMap") == DataJson(s.data)
    && Field(f, "terminalList") == TerminalsJson(s.terminals)
    && "terminalList" in f
  }

  lemma MarshalHolds(s: Session)
    ensures Holds(SessionFields(s), s)
  {
    SessionLookup(s, CLASS);
    SessionLookup(s, "id");
    SessionLookup(s, "type");
    SessionLookup(s, "loginType");
    SessionLookup(s, "loginId");
    SessionLookup(s, "token");
    SessionLookup(s, "historyTerminalCount");
    SessionLookup(s, "createTime");
    SessionLookup(s, "dataMap");
    SessionLookup(s, "terminalList");
  }

  lemma ReadBackLength(ts: seq<TerminalInfo>)
    ensures |ReadBackAll(ts)| == |ts|
  {
  }

  lemma FieldsDecode(s: Session, f: map<string, Json>)
    requires Holds(f, s)
    ensures DecodeFields(f) == if ReadableData(DataOf(s)) then Ok(Reloaded(s)) else Err(BadSession)
  {
    hide ToJson, Plain, DecodeDataMap, DecodeTerminals, DecodeCollection, TerminalsJson, DataJson, ReloadedData, ReadBackAll, Readable;
    DataReadsBack(s.data);
    TerminalListReadsBack(s.terminals);
    ReadBackLength(s.terminals);
  }

  /** The complete answer to decode-after-encode, for every session. */
  lemma ReloadComputes(s: Session)
    ensures Reload(s) == if ReadableData(DataOf(s)) then Ok(Reloaded(s)) else Err(BadSession)
  {
    MarshalHolds(s);
    FieldsDecode(s, SessionFields(s));
  }

  lemma TerminalSurvives(t: TerminalInfo)
    ensures SameTerminal(t, ReadBack(t)) <==> CleanTerminal(t)
  {
    forall k | k in t.extraData ensures ToJson(Plain(ToJson(t.extraData[k]))) == ToJson(t.extraData[k]) <==> ExactNumbers(t.extraData[k]) {
      PlainRoundTrip(t.extraData[k]);
    }
  }

  lemma DataSurvives(m: map<string, Val>)
    ensures (forall k | k in m && k != CLASS :: CleanTop(m[k])) ==> ReadableData(m)
    ensures ReadableData(m) ==>
              (SameData(m, ReloadedData(m)) <==> CLASS !in m && forall k | k in m :: CleanTop(m[k]))
  {
    hide CleanTop, WrapValue, Readable;
    forall k | k in m ensures (CleanTop(m[k]) <==> DecodesBack(WrapValue(m[k]), m[k]))
                      ensures DecodeDataValue(WrapValue(m[k])).Ok? <==> Readable(m[k])
    {
      TopRoundTrip(m[k]);
      TopReadable(m[k]);
    }
    if ReadableData(m) {
      var back := ReloadedData(m);
      assert back.Keys == m.Keys - {CLASS};
      assert forall k | k in back :: ToJson(back[k]) == ToJson(m[k]) <==> CleanTop(m[k]);
    }
  }

  /** Decoding undoes encoding exactly on the clean sessions: the terminal count is recorded, numbers fit
      a float64, no data key is "@class", no list in the data map is nil, and no nested map holds
      "@class", "@items" or a list that looks wrapped. */
  lemma RoundTripExactly(s: Session)
    ensures Reload(s).Ok? && SameContent(s, Reload(s).value) <==> CleanSession(s)
  {
    ReloadComputes(s);
    DataSurvives(DataOf(s));
    if ReadableData(DataOf(s)) {
      var r := Reloaded(s);
      PlainRoundTrip(s.loginId);
      forall i | 0 <= i < |s.terminals|
        ensures SameTerminal(s.terminals[i], r.terminals[i]) <==> CleanTerminal(s.terminals[i])
      {
        TerminalSurvives(s.terminals[i]);
      }
    }
  }

  // ---- permissions ----

  lemma {:induction false} StringsAmongPlain(items: seq<Val>, back: seq<Val>)
    requires |back| == |items| && forall i :: 0 <= i < |items| ==> back[i] == Plain(ToJson(items[i]))
    ensures StringsAmong(back) == StringsAmong(items)
  {
    if items != [] {
      StringsAmongPlain(items[1..], back[1..]);
    }
  }

  lemma {:induction false} StringsAmongAll(items: seq<Val>, strs: seq<string>)
    requires |strs| == |items| && forall i :: 0 <= i < |items| ==> items[i] == VStr(strs[i])
    ensures StringsAmong(items) == strs
  {
    if items != [] {
      StringsAmongAll(items[1..], strs[1..]);
    }
  }

  lemma NarrowKeepsStrings(items: seq<Val>)
    ensures StringsOf(Narrow(VList(items))) == StringsAmong(items)
  {
    if AllStrings(items) {
      StringsAmongAll(items, Narrow(VList(items)).strs);
    }
  }

  /** The strings of an "@items" list, for a map that would be decoded as a collection. */
  function ItemStrings(v: Val): seq<string> {
    if v.VMap? && ITEMS in v.m then StringsOf(v.m[ITEMS]) else []
  }

  lemma CollectionStrings(m: map<string, Val>)
    requires ITEMS in m && Readable(VMap(m))
    ensures var r := DecodeDataValue(ToJson(VMap(m)));
            r.Ok? && StringsOf(r.value) == ItemStrings(VMap(m)) && TextOf(r.value) == ""
  {
    var f := ToJson(VMap(m)).fields;
    assert f[ITEMS] == ToJson(m[ITEMS]);
    match m[ITEMS]
    case VStrs(strs) => StringsAmongAll(PlainItems(StrArr(strs).items), strs);
    case VList(items) => StringsAmongPlain(items, PlainItems(f[ITEMS].items));
    case _ =>
  }

  /** The strings a value stands for once it was saved and read back. */
  function RereadStrings(v: Val): seq<string> {
    match v
    case VNilList => [CLASS_LIST_WRAPPER]
    case VMap(_) => ItemStrings(v)
    case _ => StringsOf(v)
  }

  lemma NilListStrings()
    ensures var w := DecodeDataValue(WrapValue(VNilList));
            w.Ok? && StringsOf(w.value) == [CLASS_LIST_WRAPPER] && TextOf(w.value) == ""
  {
    var items := [VStr(CLASS_LIST_WRAPPER), VNil];
    assert PlainItems([Str(CLASS_LIST_WRAPPER), Null]) == items;
    NarrowKeepsStrings(items);
    assert items[1..] == [VNil] && items[1..][1..] == [];
    assert StringsAmong(items) == [CLASS_LIST_WRAPPER] + StringsAmong([VNil]);
  }

  lemma ValueStrings(v: Val)
    requires Readable(v)
    ensures DecodeDataValue(WrapValue(v)).Ok?
    ensures var w := DecodeDataValue(WrapValue(v)).value;
            TextOf(w) == TextOf(v) && StringsOf(w) == RereadStrings(v)
  {
    TopReadable(v);
    match v
    case VStrs(strs) =>
      var plain := PlainItems(StrArr(strs).items);
      NarrowKeepsStrings(plain);
      StringsAmongAll(plain, strs);
    case VList(items) =>
      var plain := PlainItems(ToJson(v).items);
      NarrowKeepsStrings(plain);
      StringsAmongPlain(items, plain);
    case VNilList =>
      NilListStrings();
    case VMap(m) =>
      if ITEMS in m {
        CollectionStrings(m);
      }
    case _ =>
  }

  /** Saving and reading back never changes a stored text, and changes the strings under a key exactly when
      the value there is a nil list or a map posing as a collection of strings. Numbers, mixed lists and
      nesting do not matter. The key @class alone is dropped with what it holds. */
  lemma StringsSurviveExactly(s: Session, key: string)
    requires ReadableData(DataOf(s))
    ensures Reload(s).Ok?
    ensures var r := Reload(s).value;
            && (String(r, key) == String(s, key) <==> key != CLASS || String(s, key) == "")
            && (StringList(r, key) == StringList(s, key) <==>
                if key == CLASS then StringList(s, key) == []
                else key !in DataOf(s) || (!DataOf(s)[key].VNilList? && ItemStrings(DataOf(s)[key]) == []))
  {
    ReloadComputes(s);
    if key in DataOf(s) && key != CLASS {
      ValueStrings(DataOf(s)[key]);
    }
  }

  /** All permissions survive exactly unless the value is a nil list, or a map posing as a collection that
      holds a string other than the empty one. */
  lemma PermissionsSurviveExactly(s: Session)
    requires ReadableData(DataOf(s))
    ensures Reload(s).Ok?
    ensures (forall code :: CheckPermission(Reload(s).value, code) <==> CheckPermission(s, code)) <==>
            PERMISSIONS !in DataOf(s)
            || (!DataOf(s)[PERMISSIONS].VNilList? && forall x | x in ItemStrings(DataOf(s)[PERMISSIONS]) :: x == "")
  {
    PermissionsIsNoClass();
    ReloadComputes(s);
    var r := Reload(s).value;
    if PERMISSIONS in DataOf(s) {
      var v := DataOf(s)[PERMISSIONS];
      ValueStrings(v);
      assert StringList(r, PERMISSIONS) == RereadStrings(v) && StringList(s, PERMISSIONS) == StringsOf(v);
      if v.VNilList? {
        NilListGrantsWrapper(s);
      } else if x :| x in ItemStrings(v) && x != "" {
        assert CheckPermission(r, x) && !CheckPermission(s, x);
      } else {
        forall code ensures CheckPermission(r, code) <==> CheckPermission(s, code) {
        }
      }
    }
  }

  lemma PermissionsIsNoClass()
    ensures PERMISSIONS != CLASS
  {
    assert PERMISSIONS[0] != CLASS[0];
  }

  /** A session whose permission list is nil reads back with a permission it never had. */
  lemma NilListGrantsWrapper(s: Session)
    requires ReadableData(DataOf(s)) && PERMISSIONS in DataOf(s) && DataOf(s)[PERMISSIONS].VNilList?
    ensures Reload(s).Ok? && CheckPermission(Reload(s).value, CLASS_LIST_WRAPPER) && !CheckPermission(s, CLASS_LIST_WRAPPER)
  {
    PermissionsIsNoClass();
    ReloadComputes(s);
    ValueStrings(DataOf(s)[PERMISSIONS]);
    assert StringList(Reload(s).value, PERMISSIONS) == [CLASS_LIST_WRAPPER];
    assert CLASS_LIST_WRAPPER != "";
  }
}
