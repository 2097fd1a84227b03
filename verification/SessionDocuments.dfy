/** Which JSON documents decode to a session, and to which (satoken/session_codec.go:256-459): every document,
    whoever wrote it, not only the encoder's own. */
module SessionDocuments {
  import opened Results
  import opened Sessions
  import opened SessionCodec
  import opened CodecRoundTrip

  // ---- what a document says ----

  predicate IsText(j: Json) {
    j.Null? || j.Str?
  }

  predicate IsNumber(j: Json) {
    j.Null? || j.Num?
  }

  function TextIn(j: Json): string {
    if j.Str? then j.s else ""
  }

  function NumberIn(j: Json): int {
    if j.Num? then j.n else 0
  }

  function FieldsIn(j: Json): map<string, Json> {
    if j.Obj? then j.fields else map[]
  }

  /** The elements of a list in any of its forms: null, ["class", [..]], {"@class": .., "@items": [..]}, [..]. */
  function ListItems(j: Json): Option<seq<Json>> {
    match j
    case Null => Some([])
    case Arr(xs) => if |xs| == 2 && xs[0].Str? && xs[1].Arr? then Some(xs[1].items) else Some(xs)
    case Obj(m) =>
      var items := Field(m, ITEMS);
      if items.Null? then Some([]) else if items.Arr? then Some(items.items) else None
    case _ => None
  }

  /** The document with its numbers as float64 has them. */
  function Rounded(j: Json): Json {
    match j
    case Num(n) => Num(Float64(n))
    case Arr(items) => Arr(seq(|items|, i requires 0 <= i < |items| => Rounded(items[i])))
    case Obj(m) => Obj(map k | k in m :: Rounded(m[k]))
    case _ => j
  }

  // ---- values of a data map ----

  /** Only an object whose "@items" is no list cannot be read. */
  predicate ReadableDocument(j: Json) {
    match j
    case Obj(m) =>
      if ITEMS in m then m[ITEMS].Null? || m[ITEMS].Arr?
      else forall k | k in m && k != CLASS :: ReadableDocument(m[k])
    case _ => true
  }

  /** The content of a value: lists out of their wrappers and maps without "@class", at every level of
      nested maps; inside a list nothing is unwrapped. */
  function Content(j: Json): Json {
    match j
    case Arr(xs) => if |xs| == 2 && xs[0].Str? && xs[1].Arr? then xs[1] else j
    case Obj(m) => if ITEMS in m then m[ITEMS] else Obj(map k | k in m && k != CLASS :: Content(m[k]))
    case _ => j
  }

  function StringsIn(items: seq<Json>): seq<string> {
    if items == [] then []
    else (if items[0].Str? then [items[0].s] else []) + StringsIn(items[1..])
  }

  lemma {:induction false} PlainRounds(j: Json)
    ensures ToJson(Plain(j)) == Rounded(j)
  {
    match j
    case Arr(items) =>
      forall i | 0 <= i < |items| ensures ToJson(Plain(j)).items[i] == Rounded(j).items[i] {
        PlainRounds(items[i]);
      }
    case Obj(m) =>
      forall k | k in m ensures ToJson(Plain(j)).fields[k] == Rounded(j).fields[k] {
        PlainRounds(m[k]);
      }
    case _ =>
  }

  lemma {:induction false} StringsOfPlain(items: seq<Json>, vs: seq<Val>)
    requires |vs| == |items| && forall i :: 0 <= i < |items| ==> vs[i] == Plain(items[i])
    ensures StringsAmong(vs) == StringsIn(items)
  {
    if items != [] {
      StringsOfPlain(items[1..], vs[1..]);
    }
  }

  lemma ListDecodes(items: seq<Json>)
    ensures var v := Narrow(Plain(Arr(items)));
            ToJson(v) == Rounded(Arr(items)) && StringsOf(v) == StringsIn(items) && TextOf(v) == ""
  {
    NarrowKeepsContent(Plain(Arr(items)));
    PlainRounds(Arr(items));
    NarrowKeepsStrings(PlainItems(items));
    StringsOfPlain(items, PlainItems(items));
  }

  lemma PlainListDecodes(items: seq<Json>)
    ensures var v := Plain(Arr(items));
            ToJson(v) == Rounded(Arr(items)) && StringsOf(v) == StringsIn(items) && TextOf(v) == ""
  {
    PlainRounds(Arr(items));
    StringsOfPlain(items, PlainItems(items));
  }

  lemma NestedMapDecodes(m: map<string, Json>)
    requires ITEMS !in m
    requires forall k | k in m :: DecodeDataValue(m[k]).Ok? <==> ReadableDocument(m[k])
    requires forall k | k in m && DecodeDataValue(m[k]).Ok? :: ToJson(DecodeDataValue(m[k]).value) == Rounded(Content(m[k]))
    ensures var r := DecodeDataValue(Obj(m));
            && (r.Ok? <==> ReadableDocument(Obj(m)))
            && (r.Ok? ==> r.value.VMap? && ToJson(r.value) == Rounded(Content(Obj(m))))
  {
    var r := DecodePlainMap(Obj(m));
    if r.Ok? {
      var content := Content(Obj(m)).fields;
      forall k | k in content ensures ToJson(r.value[k]) == Rounded(content[k]) {
        assert k in m && k != CLASS;
      }
      assert ToJson(VMap(r.value)).fields == Rounded(Obj(content)).fields;
    }
  }

  /** A value can be read exactly when it is readable, and then holds the document's content, its numbers
      rounded; it answers the strings of a list, in order, and the text of a string. */
  lemma {:induction false} ValueDecodes(j: Json)
    ensures var r := DecodeDataValue(j);
            && (r.Ok? <==> ReadableDocument(j))
            && (r.Ok? ==>
                  && ToJson(r.value) == Rounded(Content(j))
                  && StringsOf(r.value) == (if Content(j).Arr? then StringsIn(Content(j).items) else [])
                  && TextOf(r.value) == TextIn(Content(j)))
  {
    match j
    case Arr(xs) =>
      if |xs| == 2 && xs[0].Str? && xs[1].Arr? {
        ListDecodes(xs[1].items);
      } else {
        ListDecodes(xs);
      }
    case Obj(m) =>
      if ITEMS in m {
        if m[ITEMS].Arr? {
          PlainListDecodes(m[ITEMS].items);
        }
      } else {
        forall k | k in m
          ensures DecodeDataValue(m[k]).Ok? <==> ReadableDocument(m[k])
          ensures DecodeDataValue(m[k]).Ok? ==> ToJson(DecodeDataValue(m[k]).value) == Rounded(Content(m[k]))
        {
          ValueDecodes(m[k]);
        }
        NestedMapDecodes(m);
      }
    case _ => PlainRounds(j);
  }

  // ---- the data map ----

  /** The entries of a data map in any of its forms: null, ["class", {..}], {"@class": .., ..}, {..}. */
  function Entries(j: Json): Option<map<string, Json>> {
    match j
    case Null => Some(map[])
    case Obj(m) => Some(m - {CLASS})
    case Arr(xs) =>
      if |xs| == 2 && (xs[1].Null? || xs[1].Obj?) then Some(FieldsIn(xs[1]) - {CLASS}) else None
    case _ => None
  }

  predicate WellFormedData(j: Json) {
    Entries(j).Some? && forall k | k in Entries(j).value :: ReadableDocument(Entries(j).value[k])
  }

  predicate HoldsData(entries: map<string, Json>, data: map<string, Val>) {
    data.Keys == entries.Keys && forall k {:trigger data[k]} | k in entries :: HoldsValue(entries[k], data[k])
  }

  predicate HoldsValue(j: Json, v: Val) {
    && ToJson(v) == Rounded(Content(j))
    && StringsOf(v) == (if Content(j).Arr? then StringsIn(Content(j).items) else [])
    && TextOf(v) == TextIn(Content(j))
  }

  lemma PlainMapReads(m: map<string, Json>)
    ensures DecodePlainMap(Obj(m)).Ok? <==> forall k | k in m - {CLASS} :: ReadableDocument(m[k])
  {
    hide ReadableDocument;
    forall k | k in m ensures DecodeDataValue(m[k]).Ok? <==> ReadableDocument(m[k]) {
      ValueDecodes(m[k]);
    }
    hide DecodeDataValue;
  }

  lemma PlainMapHolds(m: map<string, Json>, k: string)
    requires DecodePlainMap(Obj(m)).Ok? && k in m && k != CLASS
    ensures k in DecodePlainMap(Obj(m)).value && HoldsValue(m[k], DecodePlainMap(Obj(m)).value[k])
  {
    ValueDecodes(m[k]);
    hide ToJson, Rounded, Content, StringsOf, StringsIn, TextOf, TextIn;
  }

  lemma PlainMapDecodes(m: map<string, Json>)
    ensures var r, entries := DecodePlainMap(Obj(m)), m - {CLASS};
            && (r.Ok? <==> forall k | k in entries :: ReadableDocument(entries[k]))
            && (r.Ok? ==> HoldsData(entries, r.value))
  {
    hide ReadableDocument, HoldsValue;
    var entries := m - {CLASS};
    PlainMapReads(m);
    assert forall k | k in entries :: entries[k] == m[k];
    if DecodePlainMap(Obj(m)).Ok? {
      forall k | k in entries ensures HoldsValue(entries[k], DecodePlainMap(Obj(m)).value[k]) {
        PlainMapHolds(m, k);
      }
    }
  }

  lemma DataMapDecodes(j: Json)
    ensures var r := DecodeDataMap(j);
            && (r.Ok? <==> WellFormedData(j))
            && (r.Ok? ==> HoldsData(Entries(j).value, r.value))
  {
    hide Content, Rounded, ReadableDocument, StringsIn;
    match j
    case Obj(m) => PlainMapDecodes(m);
    case Arr(xs) =>
      if |xs| == 2 && xs[1].Obj? {
        PlainMapDecodes(xs[1].fields);
      }
    case _ =>
  }

  // ---- terminals ----

  predicate WellFormedTerminal(j: Json) {
    var m := FieldsIn(j);
    && (j.Null? || j.Obj?)
    && IsText(Field(m, CLASS)) && IsText(Field(m, "tokenValue"))
    && IsText(Field(m, "deviceType")) && IsText(Field(m, "deviceId"))
    && IsNumber(Field(m, "index")) && IsNumber(Field(m, "createTime"))
    && (Field(m, "extraData").Null? || Field(m, "extraData").Obj?)
  }

  predicate HoldsTerminal(j: Json, t: TerminalInfo) {
    var m := FieldsIn(j);
    && t.index == Float64(NumberIn(Field(m, "index")))
    && t.tokenValue == TextIn(Field(m, "tokenValue"))
    && t.deviceType == TextIn(Field(m, "deviceType"))
    && t.deviceId == TextIn(Field(m, "deviceId"))
    && ToJson(VMap(t.extraData)) == Rounded(Obj(FieldsIn(Field(m, "extraData"))))
    && t.createTime == Float64(NumberIn(Field(m, "createTime")))
  }

  lemma FieldRounded(m: map<string, Json>, name: string)
    ensures Rounded(Obj(m)).Obj?
    ensures Field(Rounded(Obj(m)).fields, name) == Rounded(Field(m, name))
  {
  }

  lemma TextDecodes(m: map<string, Json>, name: string)
    ensures Rounded(Obj(m)).Obj?
    ensures var r := AsText(Field(Rounded(Obj(m)).fields, name));
            (r.Ok? <==> IsText(Field(m, name))) && (r.Ok? ==> r.value == TextIn(Field(m, name)))
  {
    FieldRounded(m, name);
  }

  lemma NumberDecodes(m: map<string, Json>, name: string)
    ensures Rounded(Obj(m)).Obj?
    ensures var r := AsNum(Field(Rounded(Obj(m)).fields, name));
            (r.Ok? <==> IsNumber(Field(m, name))) && (r.Ok? ==> r.value == Float64(NumberIn(Field(m, name))))
  {
    FieldRounded(m, name);
    assert Float64(0) == 0;
  }

  lemma MapContent(v: map<string, Val>, m: map<string, Json>)
    requires v.Keys == m.Keys && forall k | k in m :: ToJson(v[k]) == m[k]
    ensures ToJson(VMap(v)) == Obj(m)
  {
    assert ToJson(VMap(v)).fields == m;
  }

  lemma RoundedTwice(j: Json)
    ensures ToJson(Plain(Rounded(j))) == Rounded(j)
  {
    PlainRounds(j);
    PlainIdempotent(j);
  }

  lemma ObjectRereads(m: map<string, Json>)
    ensures var once := Rounded(Obj(m));
            && AsMap(once).Ok?
            && ToJson(VMap(AsMap(once).value)) == once
  {
    var once := Rounded(Obj(m)).fields;
    var v := AsMap(Obj(once)).value;
    forall k | k in once ensures ToJson(v[k]) == once[k] {
      RoundedTwice(m[k]);
    }
    hide ToJson, Plain;
    MapContent(v, once);
  }

  lemma ExtraDecodes(j: Json)
    ensures AsMap(Rounded(j)).Ok? <==> j.Null? || j.Obj?
    ensures AsMap(Rounded(j)).Ok? ==> ToJson(VMap(AsMap(Rounded(j)).value)) == Rounded(Obj(FieldsIn(j)))
  {
    hide ToJson, Plain;
    match j
    case Obj(m) => ObjectRereads(m);
    case Null => NothingRereads();
    case _ =>
  }

  lemma NothingRereads()
    ensures AsMap(Rounded(Null)) == Ok(map[]) && ToJson(VMap(map[])) == Rounded(Obj(map[]))
  {
    assert ToJson(VMap(map[])).fields == map[] == Rounded(Obj(map[])).fields;
  }

  /** An element of the terminal list decodes exactly when its fields are of their kinds. */
  lemma TerminalDecodes(j: Json)
    ensures var r := DecodeTerminal(ToJson(Plain(j)));
            && (r.Ok? <==> WellFormedTerminal(j))
            && (r.Ok? ==> HoldsTerminal(j, r.value))
  {
    PlainRounds(j);
    var m := FieldsIn(j);
    ExtraDecodes(Field(m, "extraData"));
    FieldRounded(m, "extraData");
    TextDecodes(m, CLASS);
    TextDecodes(m, "tokenValue");
    TextDecodes(m, "deviceType");
    TextDecodes(m, "deviceId");
    NumberDecodes(m, "index");
    NumberDecodes(m, "createTime");
    assert j.Null? || j.Obj? ==> DecodeTerminal(Rounded(j)) == DecodeTerminal(Rounded(Obj(m))) by { NullTerminal(); }
    hide Float64, ToJson, Plain, AsMap, AsText, AsNum, IsText, IsNumber, TextIn, NumberIn, Rounded, Field;
  }

  lemma NullTerminal()
    ensures DecodeTerminal(Rounded(Null)) == DecodeTerminal(Rounded(Obj(map[])))
  {
    assert Rounded(Obj(map[])).fields == map[];
  }

  lemma {:induction false} TerminalsDecode(xs: seq<Json>)
    ensures var r := DecodeTerminals(PlainItems(xs));
            && (r.Ok? <==> forall i :: 0 <= i < |xs| ==> WellFormedTerminal(xs[i]))
            && (r.Ok? ==> |r.value| == |xs| && forall i :: 0 <= i < |xs| ==> HoldsTerminal(xs[i], r.value[i]))
  {
    hide DecodeTerminal, WellFormedTerminal, HoldsTerminal, ToJson, Plain;
    if xs != [] {
      var n := |xs| - 1;
      TerminalsDecode(xs[..n]);
      TerminalDecodes(xs[n]);
      assert PlainItems(xs)[..n] == PlainItems(xs[..n]);
    }
  }

  lemma CollectionItems(j: Json)
    ensures var r := DecodeCollection(j);
            && (r.Ok? <==> ListItems(j).Some?)
            && (r.Ok? ==> ItemsOf(r.value) == PlainItems(ListItems(j).value))
  {
    assert PlainItems([]) == [];
  }

  predicate WellFormedTerminals(j: Json) {
    ListItems(j).Some? && forall i :: 0 <= i < |ListItems(j).value| ==> WellFormedTerminal(ListItems(j).value[i])
  }

  // ---- sessions ----

  /** Every named field is absent, null or of its kind, and the lists and maps can be read. */
  predicate WellFormedSession(m: map<string, Json>) {
    && IsText(Field(m, CLASS)) && IsText(Field(m, "id")) && IsText(Field(m, "type")) && IsText(Field(m, "loginType"))
    && IsNumber(Field(m, "historyTerminalCount")) && IsNumber(Field(m, "createTime"))
    && WellFormedTerminals(Field(m, "terminalList")) && WellFormedData(Field(m, "dataMap"))
  }

  /** Each field of the session is the document's own. The token may be of any kind and only a string counts;
      the count of terminals is raised to the length of the list when there is one. */
  predicate HoldsSession(m: map<string, Json>, s: Session)
    requires WellFormedSession(m)
  {
    var items, entries := ListItems(Field(m, "terminalList")).value, Entries(Field(m, "dataMap")).value;
    var count := NumberIn(Field(m, "historyTerminalCount"));
    && s.id == TextIn(Field(m, "id"))
    && s.kind == TextIn(Field(m, "type"))
    && s.loginType == TextIn(Field(m, "loginType"))
    && ToJson(s.loginId) == Rounded(Field(m, "loginId"))
    && s.token == TextIn(Field(m, "token"))
    && s.historyTerminalCount == (if "terminalList" in m && count < |items| then |items| else count)
    && s.createTime == NumberIn(Field(m, "createTime"))
    && |s.terminals| == |items|
    && (forall i :: 0 <= i < |items| ==> HoldsTerminal(items[i], s.terminals[i]))
    && s.data.Some? && HoldsData(entries, s.data.value)
  }

  lemma Kinds(j: Json)
    ensures (AsText(j).Ok? <==> IsText(j)) && (IsText(j) ==> AsText(j).value == TextIn(j))
    ensures (AsNum(j).Ok? <==> IsNumber(j)) && (IsNumber(j) ==> AsNum(j).value == NumberIn(j))
  {
  }

  lemma ListsDecode(m: map<string, Json>)
    ensures var list, data := DecodeCollection(Field(m, "terminalList")), DecodeDataMap(Field(m, "dataMap"));
            && (list.Ok? && DecodeTerminals(ItemsOf(list.value)).Ok? <==> WellFormedTerminals(Field(m, "terminalList")))
            && (list.Ok? && DecodeTerminals(ItemsOf(list.value)).Ok? ==>
                  var items, terminals := ListItems(Field(m, "terminalList")).value, DecodeTerminals(ItemsOf(list.value)).value;
                  |terminals| == |items| && forall i :: 0 <= i < |items| ==> HoldsTerminal(items[i], terminals[i]))
            && (data.Ok? <==> WellFormedData(Field(m, "dataMap")))
            && (data.Ok? ==> HoldsData(Entries(Field(m, "dataMap")).value, data.value))
  {
    CollectionItems(Field(m, "terminalList"));
    DataMapDecodes(Field(m, "dataMap"));
    if ListItems(Field(m, "terminalList")).Some? {
      TerminalsDecode(ListItems(Field(m, "terminalList")).value);
    }
    hide DecodeTerminals, DecodeDataMap, DecodeCollection, HoldsTerminal, HoldsData, WellFormedTerminal, WellFormedData, Entries,
         ListItems, ItemsOf, Field;
  }

  /** Whatever wrote it, a JSON object decodes exactly when it is well formed, and then to what it holds. */
  lemma SessionDecodes(m: map<string, Json>)
    ensures UnmarshalSession(Obj(m)).Ok? <==> WellFormedSession(m)
    ensures UnmarshalSession(Obj(m)).Ok? ==> HoldsSession(m, UnmarshalSession(Obj(m)).value)
  {
    Kinds(Field(m, CLASS));
    Kinds(Field(m, "id"));
    Kinds(Field(m, "type"));
    Kinds(Field(m, "loginType"));
    Kinds(Field(m, "historyTerminalCount"));
    Kinds(Field(m, "createTime"));
    PlainRounds(Field(m, "loginId"));
    ListsDecode(m);
    hide ToJson, Plain, Rounded, DecodeTerminals, DecodeDataMap, DecodeCollection, HoldsTerminal, HoldsData, WellFormedTerminals,
         WellFormedData, Entries, ListItems, ItemsOf, Field, AsText, AsNum, IsText, IsNumber, NumberIn;
  }

  lemma {:induction false} StringsInExactly(items: seq<Json>, text: string)
    ensures text in StringsIn(items) <==> exists i :: 0 <= i < |items| && items[i] == Str(text)
  {
    if items != [] {
      StringsInExactly(items[1..], text);
      if i :| 0 <= i < |items| && items[i] == Str(text) {
        assert i > 0 ==> items[1..][i - 1] == Str(text);
      }
      if text in StringsIn(items[1..]) {
        var i :| 0 <= i < |items| - 1 && items[1..][i] == Str(text);
        assert items[i + 1] == Str(text);
      }
    }
  }

  /** A document grants exactly the non-empty strings of its list of permissions, whatever the list's form
      (satoken/logic.go:312-322). */
  lemma DocumentGrantsExactly(m: map<string, Json>, code: string)
    requires UnmarshalSession(Obj(m)).Ok?
    ensures Entries(Field(m, "dataMap")).Some?
    ensures var entries := Entries(Field(m, "dataMap")).value;
            CheckPermission(UnmarshalSession(Obj(m)).value, code) <==>
            && code != "" && "permissions" in entries && Content(entries["permissions"]).Arr?
            && exists i {:trigger Content(entries["permissions"]).items[i]} ::
                 0 <= i < |Content(entries["permissions"]).items| && Content(entries["permissions"]).items[i] == Str(code)
  {
    SessionDecodes(m);
    hide UnmarshalSession, Content, Rounded, ToJson, StringsOf, StringsIn, TextOf, TextIn, Field, Entries, HoldsTerminal,
         WellFormedTerminals, ListItems, NumberIn, IsText, IsNumber, ReadableDocument;
    var entries := Entries(Field(m, "dataMap")).value;
    if "permissions" in entries && Content(entries["permissions"]).Arr? {
      StringsInExactly(Content(entries["permissions"]).items, code);
    }
  }

  /** Nothing but an object decodes, null apart, which is an empty session. */
  lemma OtherDocuments(j: Json)
    requires !j.Obj?
    ensures UnmarshalSession(j).Ok? <==> j.Null?
    ensures j.Null? ==> UnmarshalSession(j) == UnmarshalSession(Obj(map[]))
  {
    SessionDecodes(map[]);
    assert WellFormedData(Null) && WellFormedTerminals(Null);
  }

  /** The class name of a session may be absent or any text. */
  lemma SessionClassIsIgnored(m: map<string, Json>, class_: string)
    ensures UnmarshalSession(Obj(m[CLASS := Str(class_)])) == UnmarshalSession(Obj(m - {CLASS}))
  {
    hide DecodeFields;
    SameFields(m[CLASS := Str(class_)], m - {CLASS});
  }

  /** Two objects agree on the named field. */
  predicate SameAt(a: map<string, Json>, b: map<string, Json>, name: string) {
    (name in a <==> name in b) && Field(a, name) == Field(b, name)
  }

  predicate SameButTwo(a: map<string, Json>, b: map<string, Json>) {
    && SameAt(a, b, "id") && SameAt(a, b, "type") && SameAt(a, b, "loginType") && SameAt(a, b, "loginId") && SameAt(a, b, "token")
    && SameAt(a, b, "historyTerminalCount") && SameAt(a, b, "createTime") && SameAt(a, b, "dataMap")
  }

  lemma SameDecoding(a: map<string, Json>, b: map<string, Json>)
    requires SameButTwo(a, b) && IsText(Field(a, CLASS)) == IsText(Field(b, CLASS))
    requires ("terminalList" in a <==> "terminalList" in b)
    requires DecodeCollection(Field(a, "terminalList")) == DecodeCollection(Field(b, "terminalList"))
    ensures DecodeFields(a) == DecodeFields(b)
  {
    hide DecodeTerminals, DecodeDataMap, DecodeCollection, Plain, Field;
  }

  lemma NamesDiffer()
    ensures "id" != CLASS && "type" != CLASS && "loginType" != CLASS && "loginId" != CLASS && "token" != CLASS
    ensures "historyTerminalCount" != CLASS && "createTime" != CLASS && "terminalList" != CLASS && "dataMap" != CLASS
  {
  }

  lemma ListNameDiffers()
    ensures "id" != "terminalList" && "type" != "terminalList" && "loginType" != "terminalList" && "loginId" != "terminalList"
    ensures "token" != "terminalList" && "historyTerminalCount" != "terminalList" && "createTime" != "terminalList"
    ensures "dataMap" != "terminalList" && CLASS != "terminalList"
  {
  }

  lemma SameElsewhere(a: map<string, Json>, b: map<string, Json>, except: string, name: string)
    requires a - {except} == b - {except} && name != except
    ensures SameAt(a, b, name)
  {
    assert name in a <==> name in a - {except};
    assert name in b <==> name in b - {except};
    assert name in a ==> (a - {except})[name] == a[name];
    assert name in b ==> (b - {except})[name] == b[name];
  }

  lemma SameFields(a: map<string, Json>, b: map<string, Json>)
    requires a - {CLASS} == b - {CLASS} && IsText(Field(a, CLASS)) && IsText(Field(b, CLASS))
    ensures DecodeFields(a) == DecodeFields(b)
  {
    NamesDiffer();
    hide DecodeFields, DecodeCollection, CLASS;
    SameElsewhere(a, b, CLASS, "id");
    SameElsewhere(a, b, CLASS, "type");
    SameElsewhere(a, b, CLASS, "loginType");
    SameElsewhere(a, b, CLASS, "loginId");
    SameElsewhere(a, b, CLASS, "token");
    SameElsewhere(a, b, CLASS, "historyTerminalCount");
    SameElsewhere(a, b, CLASS, "createTime");
    SameElsewhere(a, b, CLASS, "dataMap");
    SameElsewhere(a, b, CLASS, "terminalList");
    SameDecoding(a, b);
  }

  /** The terminal list decodes alike in its three forms. A bare list of a string and a list would be taken for
      a wrapper; no such list is well formed. */
  lemma TerminalFormsAgree(m: map<string, Json>, items: seq<Json>, class_: string, other: Json)
    ensures var wrapped := m["terminalList" := Arr([Str(class_), Arr(items)])];
            var property := m["terminalList" := Obj(map[CLASS := other, ITEMS := Arr(items)])];
            var bare := m["terminalList" := Arr(items)];
            && UnmarshalSession(Obj(wrapped)) == UnmarshalSession(Obj(property))
            && ((forall i :: 0 <= i < |items| ==> WellFormedTerminal(items[i])) ==>
                  UnmarshalSession(Obj(wrapped)) == UnmarshalSession(Obj(bare)))
  {
    var wrapped, property, bare := Arr([Str(class_), Arr(items)]), Obj(map[CLASS := other, ITEMS := Arr(items)]), Arr(items);
    ListForms(items, class_, other);
    hide DecodeFields, DecodeCollection;
    SameButTerminals(m, wrapped, property);
    if forall i :: 0 <= i < |items| ==> WellFormedTerminal(items[i]) {
      assert |items| == 2 ==> WellFormedTerminal(items[0]);
      SameButTerminals(m, wrapped, bare);
    }
  }

  lemma ListForms(items: seq<Json>, class_: string, other: Json)
    ensures var list := Ok(VList(PlainItems(items)));
            && DecodeCollection(Arr([Str(class_), Arr(items)])) == list
            && DecodeCollection(Obj(map[CLASS := other, ITEMS := Arr(items)])) == list
            && ((|items| == 2 ==> !items[0].Str?) ==> DecodeCollection(Arr(items)) == list)
  {
    assert CLASS != ITEMS;
  }

  lemma SameButTerminals(m: map<string, Json>, a: Json, b: Json)
    requires DecodeCollection(a) == DecodeCollection(b)
    ensures DecodeFields(m["terminalList" := a]) == DecodeFields(m["terminalList" := b])
  {
    var ma, mb := m["terminalList" := a], m["terminalList" := b];
    assert ma - {"terminalList"} == m - {"terminalList"} == mb - {"terminalList"};
    ListNameDiffers();
    hide DecodeFields, DecodeCollection, CLASS;
    SameElsewhere(ma, mb, "terminalList", "id");
    SameElsewhere(ma, mb, "terminalList", "type");
    SameElsewhere(ma, mb, "terminalList", "loginType");
    SameElsewhere(ma, mb, "terminalList", "loginId");
    SameElsewhere(ma, mb, "terminalList", "token");
    SameElsewhere(ma, mb, "terminalList", "historyTerminalCount");
    SameElsewhere(ma, mb, "terminalList", "createTime");
    SameElsewhere(ma, mb, "terminalList", "dataMap");
    SameElsewhere(ma, mb, "terminalList", CLASS);
    SameDecoding(ma, mb);
  }

  // ---- the documents the library writes ----

  /** The form of a value in the data map: lists are wrapped with their class name, nothing else is. */
  predicate WrittenValue(v: Val, j: Json) {
    if v.VStrs? || v.VList? || v.VNilList? then j == Arr([Str("java.util.ArrayList"), ToJson(v)]) else j == ToJson(v)
  }

  /** A field that is left out, which reads as null, when it is empty. */
  predicate WrittenUnlessEmpty(m: map<string, Json>, name: string, empty: bool, j: Json) {
    Field(m, name) == if empty then Null else j
  }

  predicate WrittenTerminal(t: TerminalInfo, j: Json) {
    && j.Obj?
    && Field(j.fields, "@class") == Str("cn.dev33.satoken.session.SaTerminalInfo")
    && WrittenUnlessEmpty(j.fields, "index", t.index == 0, Num(t.index))
    && WrittenUnlessEmpty(j.fields, "tokenValue", t.tokenValue == "", Str(t.tokenValue))
    && WrittenUnlessEmpty(j.fields, "deviceType", t.deviceType == "", Str(t.deviceType))
    && WrittenUnlessEmpty(j.fields, "deviceId", t.deviceId == "", Str(t.deviceId))
    && WrittenUnlessEmpty(j.fields, "extraData", t.extraData == map[], ToJson(VMap(t.extraData)))
    && WrittenUnlessEmpty(j.fields, "createTime", t.createTime == 0, Num(t.createTime))
  }

  lemma TerminalIsWritten(t: TerminalInfo)
    ensures WrittenTerminal(t, Obj(TerminalFields(t)))
  {
    TerminalLookup(t, CLASS);
    TerminalLookup(t, "index");
    TerminalLookup(t, "tokenValue");
    TerminalLookup(t, "deviceType");
    TerminalLookup(t, "deviceId");
    TerminalLookup(t, "extraData");
    TerminalLookup(t, "createTime");
    hide ToJson, TerminalFields, Field;
  }

  lemma DataIsWritten(data: Option<map<string, Val>>)
    ensures WrittenData(data, DataJson(data))
  {
    if data.Some? {
      forall k | k in data.value ensures WrittenValue(data.value[k], WrapValue(data.value[k])) {
        ValueIsWritten(data.value[k]);
      }
      hide WrapValue, WrittenValue;
    }
  }

  lemma ValueIsWritten(v: Val)
    ensures WrittenValue(v, WrapValue(v))
  {
  }

  lemma TerminalsAreWritten(terminals: seq<TerminalInfo>)
    ensures WrittenTerminals(terminals, TerminalsJson(terminals))
  {
    forall i | 0 <= i < |terminals| ensures WrittenTerminal(terminals[i], Obj(TerminalFields(terminals[i]))) {
      TerminalIsWritten(terminals[i]);
    }
    hide TerminalFields, WrittenTerminal;
  }

  /** A session is written in the form that the Java side reads: class names as properties of the session and its
      terminals, and around the data map, the lists in it and the terminal list; an empty token or list is null. */
  lemma WrittenForm(s: Session)
    ensures MarshalSession(s).Obj?
    ensures var f := MarshalSession(s).fields;
            && Field(f, "@class") == Str("cn.dev33.satoken.session.SaSession")
            && Field(f, "id") == Str(s.id)
            && Field(f, "loginId") == ToJson(s.loginId)
            && Field(f, "token") == (if s.token == "" then Null else Str(s.token))
            && Field(f, "historyTerminalCount") == Num(s.historyTerminalCount)
            && Field(f, "createTime") == Num(s.createTime)
            && Field(f, "type") == (if s.kind == "" then Null else Str(s.kind))
            && Field(f, "loginType") == (if s.loginType == "" then Null else Str(s.loginType))
            && WrittenData(s.data, Field(f, "dataMap"))
            && WrittenTerminals(s.terminals, Field(f, "terminalList"))
  {
    MarshalHolds(s);
    DataIsWritten(s.data);
    TerminalsAreWritten(s.terminals);
    hide SessionFields, ToJson, Field, WrittenData, WrittenTerminals, DataJson, TerminalsJson;
  }

  predicate WrittenData(data: Option<map<string, Val>>, j: Json) {
    if data.None? then j == Null
    else
      && j.Arr? && |j.items| == 2 && j.items[0] == Str("java.util.concurrent.ConcurrentHashMap") && j.items[1].Obj?
      && j.items[1].fields.Keys == data.value.Keys
      && forall k | k in data.value :: WrittenValue(data.value[k], j.items[1].fields[k])
  }

  predicate WrittenTerminals(terminals: seq<TerminalInfo>, j: Json) {
    if terminals == [] then j == Null
    else
      && j.Arr? && |j.items| == 2 && j.items[0] == Str("java.util.Vector") && j.items[1].Arr?
      && |j.items[1].items| == |terminals|
      && forall i :: 0 <= i < |terminals| ==> WrittenTerminal(terminals[i], j.items[1].items[i])
  }

  // ---- documents from the library's tests ----

  /** A document without token, terminals, numbers and data. */
  lemma BareSession(m: map<string, Json>, id: string, kind: string, loginType: string, loginId: Json)
    requires Field(m, CLASS) == Null && Field(m, "id") == Str(id) && Field(m, "type") == Str(kind)
    requires Field(m, "loginType") == Str(loginType) && Field(m, "loginId") == loginId && Field(m, "token") == Null
    requires Field(m, "historyTerminalCount") == Null && Field(m, "createTime") == Null
    requires Field(m, "terminalList") == Null && "terminalList" !in m && Field(m, "dataMap") == Obj(map[])
    ensures DecodeFields(m) == Ok(Session(id, kind, loginType, Plain(loginId), "", 0, 0, [], Some(map[])))
  {
    assert DecodeDataMap(Obj(map[])) == Ok(map[]);
    assert DecodeCollection(Null) == Ok(VNilList) && ItemsOf(VNilList) == [] && DecodeTerminals([]) == Ok([]);
    hide Field, DecodeDataMap, DecodeCollection, DecodeTerminals, ItemsOf, Plain;
  }

  /** A session whose login id was written as a number, with no class name (satoken/session_codec_test.go:187-197). */
  lemma NumberLoginIdDecodes()
    ensures UnmarshalSession(Obj(map["id" := Str("s1"), "type" := Str("Account-Session"), "loginType" := Str("login"),
                                     "loginId" := Num(123456), "dataMap" := Obj(map[])]))
            == Ok(Session("s1", "Account-Session", "login", VFloat(123456), "", 0, 0, [], Some(map[])))
  {
    SmallIntegersAreExact(123456);
    hide DecodeFields;
    var m := map["id" := Str("s1"), "type" := Str("Account-Session"), "loginType" := Str("login"),
                 "loginId" := Num(123456), "dataMap" := Obj(map[])];
    BareSession(m, "s1", "Account-Session", "login", Num(123456));
  }
}
