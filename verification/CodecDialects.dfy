/** The three JSON dialects of a data map decode to the same answers. */
module CodecDialects {
  import opened Results
  import opened Sessions
  import opened SessionCodec
  import opened CodecRoundTrip

  /** A data map of texts and string lists, independent of any JSON form. */
  datatype Item = Text(s: string) | Strings(strs: seq<string>)

  /** How a list is written: ["class", [..]], {"@class": .., "@items": [..]} or [..]. */
  datatype Style = WrapperArray(class_: string) | ClassProperty(class_: string) | Bare

  /** How the map itself is written: ["class", {..}], {"@class": .., ..} or {..}. */
  datatype Outer = OuterArray(class_: string) | OuterProperty(class_: string) | OuterBare

  datatype Dialect = Dialect(outer: Outer, styleOf: string -> Style)

  function ItemJson(item: Item, style: Style): Json {
    match item
    case Text(s) => Str(s)
    case Strings(strs) =>
      match style
      case WrapperArray(c) => Arr([Str(c), StrArr(strs)])
      case ClassProperty(c) => Obj(map[CLASS := Str(c), ITEMS := StrArr(strs)])
      case Bare => StrArr(strs)
  }

  function DataMapJson(data: map<string, Item>, dialect: Dialect): Json {
    var fields := map k | k in data :: ItemJson(data[k], dialect.styleOf(k));
    match dialect.outer
    case OuterArray(c) => Arr([Str(c), Obj(fields)])
    case OuterProperty(c) => Obj(fields[CLASS := Str(c)])
    case OuterBare => Obj(fields)
  }

  function ItemStringsOf(item: Item): seq<string> {
    if item.Strings? then item.strs else []
  }

  function ItemTextOf(item: Item): string {
    if item.Text? then item.s else ""
  }

  lemma ItemDecodes(item: Item, style: Style)
    ensures var r := DecodeDataValue(ItemJson(item, style));
            r.Ok? && StringsOf(r.value) == ItemStringsOf(item) && TextOf(r.value) == ItemTextOf(item)
  {
    if item.Strings? {
      var plain := PlainItems(StrArr(item.strs).items);
      StringsAmongAll(plain, item.strs);
      NarrowKeepsStrings(plain);
    }
  }

  /** Each list may be in a dialect of its own, as in the sessions that the Java side writes: every key
      except "@class" reads back as the text or the strings it stands for. */
  lemma EveryDialectDecodes(data: map<string, Item>, dialect: Dialect)
    ensures var r := DecodeDataMap(DataMapJson(data, dialect));
            && r.Ok?
            && r.value.Keys == data.Keys - {CLASS}
            && (forall k | k in r.value ::
                  StringsOf(r.value[k]) == ItemStringsOf(data[k]) && TextOf(r.value[k]) == ItemTextOf(data[k]))
  {
    var j := DataMapJson(data, dialect);
    var inner := if j.Arr? then j.items[1] else j;
    forall k | k in data && k != CLASS
      ensures k in inner.fields && DecodeDataValue(inner.fields[k]).Ok?
      ensures StringsOf(DecodeDataValue(inner.fields[k]).value) == ItemStringsOf(data[k])
      ensures TextOf(DecodeDataValue(inner.fields[k]).value) == ItemTextOf(data[k])
    {
      ItemDecodes(data[k], dialect.styleOf(k));
    }
    assert DecodePlainMap(inner).Ok?;
  }

  lemma OnlyDataDiffers(fa: map<string, Json>, fb: map<string, Json>)
    requires forall name | name != "dataMap" :: Field(fa, name) == Field(fb, name)
    requires "terminalList" in fa <==> "terminalList" in fb
    requires DecodeDataMap(Field(fa, "dataMap")).Ok? && DecodeDataMap(Field(fb, "dataMap")).Ok?
    ensures DecodeFields(fa).Ok? <==> DecodeFields(fb).Ok?
    ensures DecodeFields(fa).Ok? ==>
              && DecodeFields(fa).value.data == Some(DecodeDataMap(Field(fa, "dataMap")).value)
              && DecodeFields(fb).value.data == Some(DecodeDataMap(Field(fb, "dataMap")).value)
              && DecodeFields(fa).value.(data := DecodeFields(fb).value.data) == DecodeFields(fb).value
  {
    assert Field(fa, CLASS) == Field(fb, CLASS) && Field(fa, "id") == Field(fb, "id");
    assert Field(fa, "type") == Field(fb, "type") && Field(fa, "loginType") == Field(fb, "loginType");
    assert Field(fa, "loginId") == Field(fb, "loginId") && Field(fa, "token") == Field(fb, "token");
    assert Field(fa, "historyTerminalCount") == Field(fb, "historyTerminalCount");
    assert Field(fa, "createTime") == Field(fb, "createTime");
    assert Field(fa, "terminalList") == Field(fb, "terminalList");
  }

  /** Two session documents that differ only in the dialect of their data map decode to the same session
      but for representation: the same StringList and String under every key other than "@class". */
  lemma DialectsAgree(doc: map<string, Json>, data: map<string, Item>, a: Dialect, b: Dialect, key: string)
    requires key != CLASS
    ensures var ra := UnmarshalSession(Obj(doc["dataMap" := DataMapJson(data, a)]));
            var rb := UnmarshalSession(Obj(doc["dataMap" := DataMapJson(data, b)]));
            && (ra.Ok? <==> rb.Ok?)
            && (ra.Ok? ==>
                  && ra.value.(data := rb.value.data) == rb.value
                  && StringList(ra.value, key) == StringList(rb.value, key)
                  && String(ra.value, key) == String(rb.value, key))
  {
    var ja, jb := DataMapJson(data, a), DataMapJson(data, b);
    EveryDialectDecodes(data, a);
    EveryDialectDecodes(data, b);
    var da, db := DecodeDataMap(ja).value, DecodeDataMap(jb).value;
    assert key in da <==> key in db;
    OnlyDataDiffers(doc["dataMap" := ja], doc["dataMap" := jb]);
  }
}
