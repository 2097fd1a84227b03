/** Encoding and decoding of sessions (satoken/session_codec.go), over JSON trees.

    The encoder writes Jackson's WRAPPER_ARRAY form, [class name, value], around the data map, the
    terminal list and the lists directly in the data map. The decoder accepts that form, the
    "@class"/"@items" property form and bare values, at every level of nested maps. */
module SessionCodec {
  import opened Results
  import opened MemoryStores
  import opened Sessions

  datatype Json =
    | Null
    | Bool(b: bool)
    | Num(n: int)
    | Str(s: string)
    | Arr(items: seq<Json>)
    | Obj(fields: map<string, Json>)

  const CLASS := "@class"
  const ITEMS := "@items"
  const CLASS_SESSION := "cn.dev33.satoken.session.SaSession"
  const CLASS_TERMINAL_INFO := "cn.dev33.satoken.session.SaTerminalInfo"
  const CLASS_SESSION_MAP := "java.util.concurrent.ConcurrentHashMap"
  const CLASS_TERMINAL_VECTOR := "java.util.Vector"
  const CLASS_LIST_WRAPPER := "java.util.ArrayList"

  // ---- numbers decoded into an `any` become float64 ----

  const TWO_53: nat := 0x20_0000_0000_0000

  /** The distance between neighbouring float64 integers around n. */
  function Ulp(n: nat): (u: nat)
    ensures u > 0
  {
    if n < TWO_53 then 1 else 2 * Ulp(n / 2)
  }

  /** Round to nearest, ties to even. */
  function RoundNat(n: nat): nat {
    var u := Ulp(n);
    var q, r := n / u, n % u;
    if 2 * r < u || (2 * r == u && q % 2 == 0) then q * u else (q + 1) * u
  }

  function Float64(n: int): int {
    if n < 0 then -(RoundNat(-n) as int) else RoundNat(n)
  }

  /** The integer survives as a float64. */
  predicate Exact(n: int) {
    Float64(n) == n
  }

  lemma SmallIntegersAreExact(n: int)
    requires -0x20_0000_0000_0000 <= n <= TWO_53
    ensures Exact(n)
  {
    if n == TWO_53 || -n == TWO_53 {
      assert Ulp(TWO_53) == 2 * Ulp(TWO_53 / 2) == 2;
    }
  }

  // ---- json.Marshal, and json.Unmarshal into an `any` ----

  function StrArr(strs: seq<string>): Json {
    Arr(seq(|strs|, i requires 0 <= i < |strs| => Str(strs[i])))
  }

  function ToJson(v: Val): Json {
    match v
    case VNil => Null
    case VBool(b) => Bool(b)
    case VNum(n) => Num(n)
    case VFloat(n) => Num(n)
    case VStr(s) => Str(s)
    case VStrs(strs) => StrArr(strs)
    case VNilList => Null
    case VList(items) => Arr(seq(|items|, i requires 0 <= i < |items| => ToJson(items[i])))
    case VMap(m) => Obj(map k | k in m :: ToJson(m[k]))
  }

  function Plain(j: Json): Val {
    match j
    case Null => VNil
    case Bool(b) => VBool(b)
    case Num(n) => VFloat(Float64(n))
    case Str(s) => VStr(s)
    case Arr(items) => VList(PlainItems(items))
    case Obj(m) => VMap(map k | k in m :: Plain(m[k]))
  }

  function PlainItems(items: seq<Json>): (vs: seq<Val>)
    ensures |vs| == |items| && forall i :: 0 <= i < |items| ==> vs[i] == Plain(items[i])
  {
    seq(|items|, i requires 0 <= i < |items| => Plain(items[i]))
  }

  // ---- encoding ----

  /** A field with omitempty. */
  function Put(m: map<string, Json>, name: string, empty: bool, value: Json): map<string, Json> {
    if empty then m else m[name := value]
  }

  function TerminalFields(t: TerminalInfo): map<string, Json> {
    var m0 := map[CLASS := Str(CLASS_TERMINAL_INFO)];
    var m1 := Put(m0, "index", t.index == 0, Num(t.index));
    var m2 := Put(m1, "tokenValue", t.tokenValue == "", Str(t.tokenValue));
    var m3 := Put(m2, "deviceType", t.deviceType == "", Str(t.deviceType));
    var m4 := Put(m3, "deviceId", t.deviceId == "", Str(t.deviceId));
    var m5 := Put(m4, "extraData", t.extraData == map[], ToJson(VMap(t.extraData)));
    Put(m5, "createTime", t.createTime == 0, Num(t.createTime))
  }

  function WrapValue(v: Val): Json {
    match v
    case VStrs(_) => Arr([Str(CLASS_LIST_WRAPPER), ToJson(v)])
    case VNilList => Arr([Str(CLASS_LIST_WRAPPER), Null])
    case VList(_) => Arr([Str(CLASS_LIST_WRAPPER), ToJson(v)])
    case _ => ToJson(v)
  }

  function DataJson(data: Option<map<string, Val>>): Json {
    match data
    case None => Null
    case Some(m) => Arr([Str(CLASS_SESSION_MAP), Obj(map k | k in m :: WrapValue(m[k]))])
  }

  function TerminalsJson(terminals: seq<TerminalInfo>): Json {
    if terminals == [] then Null
    else Arr([Str(CLASS_TERMINAL_VECTOR),
              Arr(seq(|terminals|, i requires 0 <= i < |terminals| => Obj(TerminalFields(terminals[i]))))])
  }

  function SessionFields(s: Session): map<string, Json> {
    var m0 := map[CLASS := Str(CLASS_SESSION), "id" := Str(s.id)];
    var m1 := Put(m0, "type", s.kind == "", Str(s.kind));
    var m2 := Put(m1, "loginType", s.loginType == "", Str(s.loginType));
    m2["loginId" := ToJson(s.loginId)]
      ["token" := if s.token == "" then Null else Str(s.token)]
      ["historyTerminalCount" := Num(s.historyTerminalCount)]
      ["createTime" := Num(s.createTime)]
      ["dataMap" := DataJson(s.data)]
      ["terminalList" := TerminalsJson(s.terminals)]
  }

  function MarshalSession(s: Session): Json {
    Obj(SessionFields(s))
  }

  // ---- decoding ----

  /** A struct field; one that is missing keeps its zero value, exactly as null does. */
  function Field(m: map<string, Json>, name: string): Json {
    if name in m then m[name] else Null
  }

  function AsText(j: Json): Result<string, Error> {
    match j
    case Null => Ok("")
    case Str(s) => Ok(s)
    case _ => Err(BadSession)
  }

  function AsNum(j: Json): Result<int, Error> {
    match j
    case Null => Ok(0)
    case Num(n) => Ok(n)
    case _ => Err(BadSession)
  }

  function AsMap(j: Json): Result<map<string, Val>, Error> {
    match j
    case Null => Ok(map[])
    case Obj(m) => Ok(map k | k in m :: Plain(m[k]))
    case _ => Err(BadSession)
  }

  function DecodeTerminal(j: Json): Result<TerminalInfo, Error> {
    if !j.Null? && !j.Obj? then Err(BadSession)
    else
      var m := if j.Null? then map[] else j.fields;
      var index, token := AsNum(Field(m, "index")), AsText(Field(m, "tokenValue"));
      var deviceType, deviceId := AsText(Field(m, "deviceType")), AsText(Field(m, "deviceId"));
      var extra, created := AsMap(Field(m, "extraData")), AsNum(Field(m, "createTime"));
      if AsText(Field(m, CLASS)).Ok? && index.Ok? && token.Ok? && deviceType.Ok? && deviceId.Ok? && extra.Ok? && created.Ok?
      then Ok(TerminalInfo(index.value, token.value, deviceType.value, deviceId.value, extra.value, created.value))
      else Err(BadSession)
  }

  /** Every element is marshalled again before it is read as a terminal, so its numbers have been float64. */
  function DecodeTerminals(items: seq<Val>): Result<seq<TerminalInfo>, Error> {
    if items == [] then Ok([])
    else
      var front, last := DecodeTerminals(items[..|items| - 1]), DecodeTerminal(ToJson(items[|items| - 1]));
      if front.Ok? && last.Ok? then Ok(front.value + [last.value]) else Err(BadSession)
  }

  /** The list of a collection in any of its three forms; VNilList is Go's nil. */
  function DecodeCollection(j: Json): (r: Result<Val, Error>)
    ensures r.Ok? ==> r.value.VList? || r.value.VNilList?
  {
    match j
    case Null => Ok(VNilList)
    case Arr(xs) =>
      if |xs| == 2 && xs[0].Str? && xs[1].Arr? then Ok(Plain(xs[1])) else Ok(Plain(j))
    case Obj(m) =>
      (match Field(m, ITEMS)
       case Null => Ok(VNilList)
       case Arr(items) => Ok(VList(PlainItems(items)))
       case _ => Err(BadSession))
    case _ => Err(BadSession)
  }

  function ItemsOf(v: Val): seq<Val> {
    if v.VList? then v.items else []
  }

  predicate AllStrings(items: seq<Val>) {
    forall i :: 0 <= i < |items| ==> items[i].VStr?
  }

  /** A list holding only strings becomes a []string. */
  function Narrow(list: Val): Val {
    if AllStrings(ItemsOf(list)) then
      VStrs(seq(|ItemsOf(list)|, i requires 0 <= i < |ItemsOf(list)| => ItemsOf(list)[i].s))
    else list
  }

  function DecodeDataValue(j: Json): Result<Val, Error>
    decreases j, 1
  {
    match j
    case Arr(_) =>
      var list := DecodeCollection(j);
      if list.Ok? then Ok(Narrow(list.value)) else list
    case Obj(m) =>
      if ITEMS in m then DecodeCollection(j)
      else
        var inner := DecodePlainMap(j);
        if inner.Ok? then Ok(VMap(inner.value)) else Err(inner.error)
    case _ => Ok(Plain(j))
  }

  function DecodePlainMap(j: Json): Result<map<string, Val>, Error>
    decreases j, 0
  {
    match j
    case Null => Ok(map[])
    case Obj(m) =>
      if forall k | k in m && k != CLASS :: DecodeDataValue(m[k]).Ok?
      then Ok(map k | k in m && k != CLASS :: DecodeDataValue(m[k]).value)
      else Err(BadSession)
    case _ => Err(BadSession)
  }

  function DecodeDataMap(j: Json): Result<map<string, Val>, Error> {
    match j
    case Null => Ok(map[])
    case Arr(xs) => if |xs| == 2 then DecodePlainMap(xs[1]) else Err(BadSession)
    // An object holding "@items" takes a branch of its own in the source, with the same outcome.
    case Obj(_) => DecodePlainMap(j)
    case _ => Err(BadSession)
  }

  function DecodeFields(m: map<string, Json>): (r: Result<Session, Error>)
    ensures r.Err? ==> r.error == BadSession
  {
    var id, kind, loginType := AsText(Field(m, "id")), AsText(Field(m, "type")), AsText(Field(m, "loginType"));
    var count, created := AsNum(Field(m, "historyTerminalCount")), AsNum(Field(m, "createTime"));
    var list := DecodeCollection(Field(m, "terminalList"));
    if AsText(Field(m, CLASS)).Err? || id.Err? || kind.Err? || loginType.Err? || count.Err? || created.Err? || list.Err?
    then Err(BadSession)
    else
      var terminals, data := DecodeTerminals(ItemsOf(list.value)), DecodeDataMap(Field(m, "dataMap"));
      if terminals.Err? || data.Err? then Err(BadSession)
      else
        var listed := |terminals.value|;
        var raised := if "terminalList" in m && count.value < listed then listed else count.value;
        var token := Field(m, "token");
        Ok(Session(id.value, kind.value, loginType.value, Plain(Field(m, "loginId")),
                   if token.Str? then token.s else "", raised, created.value, terminals.value, Some(data.value)))
  }

  function UnmarshalSession(j: Json): (r: Result<Session, Error>)
    ensures r.Err? ==> r.error == BadSession
  {
    match j
    case Null => DecodeFields(map[])
    case Obj(m) => DecodeFields(m)
    case _ => Err(BadSession)
  }

  /** What a saved session reads back as. */
  function Reload(s: Session): Result<Session, Error> {
    UnmarshalSession(MarshalSession(s))
  }
}
