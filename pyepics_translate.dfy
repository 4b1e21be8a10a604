/** The pyepics compatibility layer's pure half: how a decoded ReadResponse
    becomes pyepics' flat metadata dictionary (`_parse_dbr_metadata`,
    `_read_response_to_pyepics`, `_scalarify`) and how `get()` picks the
    value it hands back (`_pyepics_get_value`). Text is decoded with the
    library's default string encoding, Latin-1. */
module PyepicsTranslate {
  import opened Common
  import opened Dbr

  /** The metadata attributes of a decoded DBR structure. Which of them
      exist depends on the DBR type that was read. */
  datatype DbrMeta = DbrMeta(
    scalars: map<string, PyVal>,       // status, severity, precision and the limits present
    units: Option<bytes>,
    enumStrings: Option<seq<bytes>>,
    stamp: Option<(int, nat)>)         // secondsSinceEpoch, nanoSeconds

  /** A decoded ReadResponse: its metadata, the value elements, the same
      elements as the raw memory image `data.tobytes()`, and the type and
      count fields of its header. */
  datatype ReadResponse = ReadResponse(
    metadata: DbrMeta,
    data: seq<PyVal>,
    buffer: bytes,
    dataType: int,
    dataCount: int)

  /** The attributes `_parse_dbr_metadata` copies under their own name. */
  const ScalarArgs: set<string> :=
    {"status", "severity", "precision", "upper_disp_limit", "lower_disp_limit",
     "upper_alarm_limit", "upper_warning_limit", "lower_warning_limit",
     "lower_alarm_limit", "upper_ctrl_limit", "lower_ctrl_limit"}

  /** The keys `_parse_dbr_metadata` can produce. */
  const MetadataKeys: set<string> :=
    ScalarArgs + {"units", "enum_strs", "posixseconds", "nanoseconds", "timestamp"}

  /** `t in group` for a type that may still be unknown (None). */
  predicate InTypes(t: Option<ChType>, group: set<ChType>) {
    t.Some? && t.value in group
  }

  function Texts(ss: seq<string>): (r: seq<PyVal>)
    ensures |r| == |ss| && forall i :: 0 <= i < |ss| ==> r[i] == PStr(ss[i])
  {
    seq(|ss|, i requires 0 <= i < |ss| => PStr(ss[i]))
  }

  function DecodeAll(bs: seq<bytes>): (r: seq<string>)
    ensures |r| == |bs| && forall i :: 0 <= i < |bs| ==> r[i] == DecodeLatin1(bs[i])
  {
    seq(|bs|, i requires 0 <= i < |bs| => DecodeLatin1(bs[i]))
  }

  /** A list that is unwrapped when it holds exactly one element. */
  function Unwrap1(xs: seq<PyVal>): PyVal {
    if |xs| == 1 then xs[0] else PList(xs)
  }

  /** An element used as a list index: ints and bools. */
  function AsIndex(v: PyVal): Option<int> {
    match v
    case PInt(i) => Some(i)
    case PBool(b) => Some(if b then 1 else 0)
    case _ => None
  }

  // ---------------------------------------------------------------------
  // _parse_dbr_metadata

  /** Only metadata attribute names appear. */
  function ParseDbrMetadata(md: DbrMeta): (r: map<string, PyVal>)
    ensures r.Keys <= MetadataKeys
  {
    var base := map k | k in md.scalars.Keys * ScalarArgs :: md.scalars[k];
    var withEnums := match md.enumStrings
      case None => base
      case Some(es) =>
        base["enum_strs" := if es == [] then PTuple([]) else PTuple(Texts(DecodeAll(es)))];
    var withStamp := match md.stamp
      case None => withEnums
      case Some(st) =>
        withEnums["posixseconds" := PInt(st.0)]["nanoseconds" := PInt(st.1)]
                 ["timestamp" := PReal(EpicsTimestampToUnix(st.0, st.1))];
    match md.units
    case None => withStamp
    case Some(u) => withStamp["units" := PStr(DecodeLatin1(u))]
  }

  /** The parsed dictionary has an entry for exactly the attributes the
      structure carries, copies the scalar ones unchanged, and turns the
      byte strings into text from which the original bytes are recovered. */
  lemma ParseDbrMetadataSpec(md: DbrMeta)
    ensures forall k :: k in ScalarArgs ==>
      (k in ParseDbrMetadata(md) <==> k in md.scalars) &&
      (k in md.scalars ==> ParseDbrMetadata(md)[k] == md.scalars[k])
    ensures ("units" in ParseDbrMetadata(md) <==> md.units.Some?)
    ensures md.units.Some? ==>
      ParseDbrMetadata(md)["units"].PStr? &&
      EncodeLatin1(ParseDbrMetadata(md)["units"].s) == Some(md.units.value)
    ensures ("enum_strs" in ParseDbrMetadata(md) <==> md.enumStrings.Some?)
    ensures md.enumStrings.Some? ==>
      var v := ParseDbrMetadata(md)["enum_strs"];
      v.PTuple? && |v.items| == |md.enumStrings.value| &&
      forall i :: 0 <= i < |v.items| ==>
        v.items[i].PStr? && EncodeLatin1(v.items[i].s) == Some(md.enumStrings.value[i])
    ensures ("timestamp" in ParseDbrMetadata(md) <==> md.stamp.Some?)
    ensures md.stamp.Some? ==>
      ParseDbrMetadata(md)["posixseconds"] == PInt(md.stamp.value.0) &&
      ParseDbrMetadata(md)["nanoseconds"] == PInt(md.stamp.value.1)
  {
    var r := ParseDbrMetadata(md);
    if md.units.Some? {
      EncodeDecodeLatin1(md.units.value);
    }
    if md.enumStrings.Some? {
      var es := md.enumStrings.value;
      forall i | 0 <= i < |es| ensures EncodeLatin1(DecodeLatin1(es[i])) == Some(es[i]) {
        EncodeDecodeLatin1(es[i]);
      }
    }
  }

  // ---------------------------------------------------------------------
  // _scalarify

  /** A single element is handed back bare, except for CHAR and STRING,
      whose one element stays an array; an empty array where one element
      was announced is an IndexError. */
  function Scalarify(data: seq<PyVal>, ntype: int, count: int): (r: Result<PyVal>)
    ensures r.Err? <==> count == 1 && ntype != CHAR && ntype != STRING && data == []
    ensures r.Err? ==> r.error == IndexError
    ensures r.Ok? && count == 1 && ntype != CHAR && ntype != STRING ==> r.value == data[0]
    ensures (count != 1 || ntype == CHAR || ntype == STRING) ==> r == Ok(PArray(data))
  {
    if count == 1 && ntype != CHAR && ntype != STRING then
      if data == [] then Err(IndexError) else Ok(data[0])
    else Ok(PArray(data))
  }

  // ---------------------------------------------------------------------
  // _read_response_to_pyepics

  /** A string element decoded to text; anything but a byte string has no
      `decode`. */
  function DecodeText(v: PyVal): Result<PyVal> {
    if v.PBytes? then Ok(PStr(DecodeLatin1(v.bs))) else Err(AttributeError)
  }

  /** The display name of one enum index, bounds-checked: an index outside
      the names is shown as ''. */
  function EnumLabel(names: seq<string>, v: PyVal): (r: Result<PyVal>)
    ensures r.Ok? <==> AsIndex(v).Some?
    ensures r.Ok? ==>
      var i := AsIndex(v).value;
      r.value == (if 0 <= i < |names| then PStr(names[i]) else PStr(""))
  {
    match AsIndex(v)
    case None => Err(TypeError)
    case Some(i) => Ok(if 0 <= i < |names| then PStr(names[i]) else PStr(""))
  }

  /** The enum display value: None per element when no names are known,
      otherwise the name or '' per element; one element is unwrapped. */
  function EnumDisplay(names: Option<seq<string>>, data: seq<PyVal>): (r: Result<PyVal>)
    ensures names.None? ==> r == Ok(Unwrap1(seq(|data|, _ => PNone)))
    ensures names.Some? ==> (r.Ok? <==> forall i :: 0 <= i < |data| ==> AsIndex(data[i]).Some?)
  {
    match names
    case None => Ok(Unwrap1(seq(|data|, _ => PNone)))
    case Some(ns) =>
      var labels :- MapR(data, v => EnumLabel(ns, v));
      Ok(Unwrap1(labels))
  }

  /** The enum names used for a response: the decoded names it carries if
      there are any, else the ones the caller already knew. */
  function EnumNames(md: DbrMeta, known: Option<seq<string>>): Option<seq<string>> {
    match md.enumStrings
    case Some(es) => if es != [] then Some(DecodeAll(es)) else known
    case None => known
  }

  /** The dictionary always has the raw elements, a value and a display
      value. */
  function ReadResponseToPyepics(fullType: Option<ChType>, cmd: ReadResponse, enumStrings: Option<seq<string>>)
    : (r: Result<map<string, PyVal>>)
    ensures r.Ok? ==>
      "value" in r.value && "char_value" in r.value && "raw_value" in r.value &&
      r.value["raw_value"] == PArray(cmd.data)
  {
    var value :- Scalarify(cmd.data, cmd.dataType, cmd.dataCount);
    var info := ParseDbrMetadata(cmd.metadata)["raw_value" := PArray(cmd.data)]["value" := value];
    if InTypes(fullType, CharTypes) then
      Ok(info["char_value" := PStr(DecodeLatin1(CutAtNul(cmd.buffer)))])
    else if InTypes(fullType, StringTypes) then
      var texts :- MapR(cmd.data, DecodeText);
      Ok(info["value" := Unwrap1(texts)]["char_value" := Unwrap1(texts)])
    else if InTypes(fullType, EnumTypes) then
      var display :- EnumDisplay(EnumNames(cmd.metadata, enumStrings), cmd.data);
      Ok(info["char_value" := display])
    else
      Ok(info["char_value" := PNone])
  }

  /** The dictionary keeps the parsed metadata and adds nothing but the
      raw elements, the value and the display value. */
  lemma ReadResponseKeys(fullType: Option<ChType>, cmd: ReadResponse, enumStrings: Option<seq<string>>)
    requires ReadResponseToPyepics(fullType, cmd, enumStrings).Ok?
    ensures var info := ReadResponseToPyepics(fullType, cmd, enumStrings).value;
      info.Keys == ParseDbrMetadata(cmd.metadata).Keys + {"raw_value", "value", "char_value"} &&
      forall k :: k in ParseDbrMetadata(cmd.metadata) && k !in {"raw_value", "value", "char_value"} ==>
        info[k] == ParseDbrMetadata(cmd.metadata)[k]
  {
    var r := ReadResponseToPyepics(fullType, cmd, enumStrings).value;
    var value := Scalarify(cmd.data, cmd.dataType, cmd.dataCount).value;
    var base := ParseDbrMetadata(cmd.metadata)["raw_value" := PArray(cmd.data)]["value" := value];
    if InTypes(fullType, CharTypes) {
      assert r == base["char_value" := r["char_value"]];
    } else if InTypes(fullType, StringTypes) {
      assert r == base["value" := r["value"]]["char_value" := r["char_value"]];
    } else {
      assert r == base["char_value" := r["char_value"]];
    }
  }

  /** Reading fails exactly for an announced single element that is
      missing, a string element that is not a byte string, or an enum
      element that is not an index while names are known. */
  lemma ReadResponseErrors(fullType: Option<ChType>, cmd: ReadResponse, enumStrings: Option<seq<string>>)
    ensures ReadResponseToPyepics(fullType, cmd, enumStrings).Err? <==>
      (cmd.dataCount == 1 && cmd.dataType != CHAR && cmd.dataType != STRING && cmd.data == []) ||
      (!InTypes(fullType, CharTypes) && InTypes(fullType, StringTypes) &&
         exists i :: 0 <= i < |cmd.data| && !cmd.data[i].PBytes?) ||
      (!InTypes(fullType, CharTypes) && !InTypes(fullType, StringTypes) && InTypes(fullType, EnumTypes) &&
         EnumNames(cmd.metadata, enumStrings).Some? &&
         exists i :: 0 <= i < |cmd.data| && AsIndex(cmd.data[i]).None?)
  {
    if InTypes(fullType, StringTypes) {
      var ok := MapR(cmd.data, DecodeText).Ok?;
      assert ok <==> forall i :: 0 <= i < |cmd.data| ==> DecodeText(cmd.data[i]).Ok?;
    }
  }

  /** For char types the display value is the text before the first NUL
      of the raw bytes: it holds no NUL and encodes back to exactly those
      bytes. */
  lemma CharValueStopsAtNul(fullType: Option<ChType>, cmd: ReadResponse, enumStrings: Option<seq<string>>)
    requires InTypes(fullType, CharTypes)
    requires ReadResponseToPyepics(fullType, cmd, enumStrings).Ok?
    ensures var cv := ReadResponseToPyepics(fullType, cmd, enumStrings).value["char_value"];
      cv.PStr? && (forall k :: 0 <= k < |cv.s| ==> cv.s[k] != 0 as char) &&
      EncodeLatin1(cv.s) == Some(CutAtNul(cmd.buffer)) &&
      cmd.buffer[..|cv.s|] == CutAtNul(cmd.buffer)
  {
    var cut := CutAtNul(cmd.buffer);
    EncodeDecodeLatin1(cut);
    var cv := DecodeLatin1(cut);
    forall k | 0 <= k < |cv| ensures cv[k] != 0 as char {
      assert cv[k] as int == cut[k];
    }
  }

  /** For string types the value and the display value are the decoded
      strings, a bare string when there is one. */
  lemma StringValueDecoded(fullType: Option<ChType>, cmd: ReadResponse, enumStrings: Option<seq<string>>, raw: seq<bytes>)
    requires !InTypes(fullType, CharTypes) && InTypes(fullType, StringTypes)
    requires |cmd.data| == |raw| && forall i :: 0 <= i < |raw| ==> cmd.data[i] == PBytes(raw[i])
    requires cmd.dataCount != 1 || cmd.dataType == CHAR || cmd.dataType == STRING || cmd.data != []
    ensures ReadResponseToPyepics(fullType, cmd, enumStrings).Ok?
    ensures var info := ReadResponseToPyepics(fullType, cmd, enumStrings).value;
      info["value"] == info["char_value"] &&
      info["value"] == Unwrap1(Texts(DecodeAll(raw)))
  {
    var m := MapR(cmd.data, DecodeText);
    assert m.Ok?;
    assert m.value == Texts(DecodeAll(raw));
  }

  /** What each enum index shows as: None when no names are known, else
      its name, or '' when out of range. */
  function Shown(names: Option<seq<string>>, idx: seq<int>): (r: seq<PyVal>)
    ensures |r| == |idx|
  {
    seq(|idx|, i requires 0 <= i < |idx| =>
      if names.None? then PNone
      else if 0 <= idx[i] < |names.value| then PStr(names.value[idx[i]])
      else PStr(""))
  }

  /** For enum types each element's display is its name, '' when the
      index is out of range, or None when no names are known; a single
      element is shown bare. */
  lemma EnumValueDisplayed(fullType: Option<ChType>, cmd: ReadResponse, enumStrings: Option<seq<string>>, idx: seq<int>)
    requires !InTypes(fullType, CharTypes) && !InTypes(fullType, StringTypes) && InTypes(fullType, EnumTypes)
    requires |cmd.data| == |idx| && forall i :: 0 <= i < |idx| ==> cmd.data[i] == PInt(idx[i])
    requires cmd.dataCount != 1 || cmd.data != []
    ensures ReadResponseToPyepics(fullType, cmd, enumStrings).Ok?
    ensures ReadResponseToPyepics(fullType, cmd, enumStrings).value["char_value"] ==
      Unwrap1(Shown(EnumNames(cmd.metadata, enumStrings), idx))
  {
    var names := EnumNames(cmd.metadata, enumStrings);
    var shown := Shown(names, idx);
    if names.Some? {
      var m := MapR(cmd.data, v => EnumLabel(names.value, v));
      assert forall i :: 0 <= i < |idx| ==> AsIndex(cmd.data[i]) == Some(idx[i]);
      assert m.Ok?;
      assert m.value == shown;
    } else {
      assert seq(|cmd.data|, _ => PNone) == shown;
    }
  }

  // ---------------------------------------------------------------------
  // _pyepics_get_value

  /** The name of one enum index as Python indexing finds it (negative
      indices count from the end); an IndexError becomes ''. */
  function EnumName(names: seq<string>, v: PyVal): (r: Result<PyVal>)
    ensures r.Ok? <==> AsIndex(v).Some?
  {
    match AsIndex(v)
    case None => Err(TypeError)
    case Some(i) =>
      match PyIndex(names, i)
      case Some(n) => Ok(PStr(n))
      case None => Ok(PStr(""))
  }

  /** The text shown for enum index i: its name under Python indexing, or
      '' when the index is out of range. */
  function NameOrBlank(names: seq<string>, i: int): string {
    if -|names| <= i < |names| then PyIndex(names, i).value else ""
  }

  /** Only names asked for an enum can fail; a value that is neither
      text nor asked as a string comes back as its elements, a lone one
      bare when no count was asked for. */
  function PyepicsGetValue(value: seq<PyVal>, stringValue: PyVal, fullType: Option<ChType>, nativeCount: PyVal,
                           requestedCount: Option<int>, enumStrings: Option<seq<string>>,
                           asString: bool, asNumpy: bool): (r: Result<PyVal>)
    ensures r.Err? ==> asString && InTypes(fullType, EnumTypes) && !InTypes(fullType, StringTypes)
    ensures !asString && !InTypes(fullType, StringTypes) ==>
      r.Ok? &&
      if nativeCount == PInt(1) && |value| == 1 && requestedCount.None? then r.value == value[0]
      else (r.value.PList? || r.value.PArray?) && r.value.items == value
  {
    if (asString && InTypes(fullType, CharTypes)) || InTypes(fullType, StringTypes) then
      Ok(stringValue)
    else if asString && InTypes(fullType, EnumTypes) then
      if enumStrings.None? then Err(CaprotoValueError)
      else
        var ret :- MapR(value, v => EnumName(enumStrings.value, v));
        Ok(Unwrap1(ret))
    else if nativeCount == PInt(1) && |value| == 1 then
      if requestedCount.None? then Ok(value[0]) else Ok(PArray(value))
    else if !asNumpy then Ok(PList(value))
    else Ok(PArray(value))
  }

  /** Text for char types asked as strings and for string types is the
      display value; enum types asked as strings need names and give the
      name of every index ('' for an index out of range); everything else
      hands back the elements, a lone one bare unless a count was asked. */
  lemma PyepicsGetValueSpec(value: seq<PyVal>, stringValue: PyVal, fullType: Option<ChType>, nativeCount: PyVal,
                            requestedCount: Option<int>, enumStrings: Option<seq<string>>,
                            asString: bool, asNumpy: bool)
    ensures var r := PyepicsGetValue(value, stringValue, fullType, nativeCount, requestedCount, enumStrings, asString, asNumpy);
      var text := (asString && InTypes(fullType, CharTypes)) || InTypes(fullType, StringTypes);
      var names := !text && asString && InTypes(fullType, EnumTypes);
      (text ==> r == Ok(stringValue)) &&
      (names && enumStrings.None? ==> r == Err(CaprotoValueError)) &&
      (names && enumStrings.Some? ==>
         (r.Ok? <==> forall i :: 0 <= i < |value| ==> AsIndex(value[i]).Some?)) &&
      (names && enumStrings.Some? && r.Ok? && |value| == 1 ==>
         r.value == PStr(NameOrBlank(enumStrings.value, AsIndex(value[0]).value))) &&
      (names && enumStrings.Some? && r.Ok? && |value| != 1 ==>
         r.value.PList? && |r.value.items| == |value| &&
         forall k :: 0 <= k < |value| ==> r.value.items[k] == PStr(NameOrBlank(enumStrings.value, AsIndex(value[k]).value))) &&
      (!text && !names ==>
         (r.Ok? &&
          if nativeCount == PInt(1) && |value| == 1 && requestedCount.None? then r.value == value[0]
          else r.value.items == value))
  {
  }

  /** Asking an enum for strings and looking each name up again gives back
      the index whenever the names are distinct and the index in range. */
  lemma EnumNameLookup(names: seq<string>, i: int)
    requires 0 <= i < |names|
    requires forall a, b :: 0 <= a < b < |names| ==> names[a] != names[b]
    ensures EnumName(names, PInt(i)) == Ok(PStr(names[i]))
    ensures IndexOf(names, names[i]) == Some(i)
  {
    var k := IndexOf(names, names[i]).value;
    assert names[k] == names[i];
  }
}
