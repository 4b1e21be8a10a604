/** Value conversion between Channel Access field types (convert_values and
    its ENUM, CHAR and STRING branches). Strings are encoded with Latin-1,
    the library's default encoding. Conversions that numpy performs are
    returned as a NumpyCast marker naming the values and the target type;
    `str(v)` of arbitrary values as a StrEncoded marker. */
module Data {
  import opened Common
  import opened Dbr

  /** What a conversion produces. */
  datatype Converted =
    | Py(v: PyVal)                               // a Python object built here
    | NumpyCast(source: PyVal, dtype: ChType)    // np.asarray(source).astype(dtype)
    | StrEncoded(items: seq<PyVal>)              // [str(v).encode() for v in items]

  /** Native integer and floating-point types (numpy handles these targets). */
  const NativeNumericTypes: set<ChType> := {INT, CHAR, LONG, ENUM, FLOAT, DOUBLE}

  /** The elements a `for v in values` loop visits. */
  function Elements(v: PyVal): (r: seq<PyVal>)
    ensures v.PList? || v.PTuple? || v.PArray? ==> r == v.items
    ensures v.PStr? ==> |r| == |v.s|
    ensures v.PBytes? ==> |r| == |v.bs|
  {
    match v
    case PList(xs) => xs
    case PTuple(xs) => xs
    case PArray(xs) => xs
    case PStr(s) => seq(|s|, i requires 0 <= i < |s| => PStr([s[i]]))
    case PBytes(b) => seq(|b|, i requires 0 <= i < |b| => PInt(b[i]))
    case _ => []
  }

  /** `v.encode(STR_ENC)`: only a str has `encode`. */
  function EncodeStr(v: PyVal): (r: Result<bytes>)
    ensures r.Ok? <==> v.PStr? && IsLatin1(v.s)
    ensures r.Ok? ==> DecodeLatin1(r.value) == v.s
  {
    match v
    case PStr(s) =>
      if IsLatin1(s) then DecodeEncodeLatin1(s); Ok(EncodeLatin1(s).value)
      else Err(UnicodeEncodeError)
    case _ => Err(AttributeError)
  }

  function EncodeToPy(v: PyVal): Result<PyVal> {
    var b :- EncodeStr(v);
    Ok(PBytes(b))
  }

  function IndexIn(names: seq<PyVal>, v: PyVal): Result<PyVal> {
    match IndexOf(names, v)
    case None => Err(ValueError)
    case Some(i) => Ok(PInt(i))
  }

  /** _convert_enum_values: a lone str or bytes is wrapped in a list; to
      STRING every value is encoded; otherwise each value is replaced by its
      position in the enum strings, or by 0 when there are none. */
  function ConvertEnumValues(values: PyVal, to: ChType, enumStrings: Option<seq<PyVal>>): (r: Result<Converted>)
    ensures r.Ok? ==>
      r.value.Py? && r.value.v.PList? &&
      |r.value.v.items| == (if values.PStr? || values.PBytes? then 1 else |Elements(values)|)
    ensures r.Err? ==> to == STRING || enumStrings.Some?
    ensures r.Ok? && to != STRING && enumStrings.Some? ==>
      forall k :: 0 <= k < |r.value.v.items| ==>
        r.value.v.items[k].PInt? && 0 <= r.value.v.items[k].i < |enumStrings.value|
  {
    var vs := if values.PStr? || values.PBytes? then [values] else Elements(values);
    if to == STRING then
      var out :- MapR(vs, EncodeToPy);
      Ok(Py(PList(out)))
    else if enumStrings.Some? then
      var out :- MapR(vs, v => IndexIn(enumStrings.value, v));
      Ok(Py(PList(out)))
    else
      Ok(Py(PList(seq(|vs|, _ => PInt(0)))))
  }

  /** _convert_char_values: a str is first encoded; anything but bytes goes
      to numpy; bytes become an array of their byte values for a numeric
      target (cast again unless the target is CHAR) and are kept as they
      are for STRING. */
  function ConvertCharValues(values: PyVal, to: ChType): (r: Result<Converted>)
    ensures r.Err? <==> values.PStr? && !IsLatin1(values.s)
    ensures r.Ok? && to == STRING && (values.PStr? || values.PBytes?) ==>
      r.value.Py? && r.value.v.PBytes? &&
      (values.PBytes? ==> r.value.v == values) &&
      (values.PStr? ==> DecodeLatin1(r.value.v.bs) == values.s)
  {
    var v :- if values.PStr? then EncodeToPy(values) else Ok(values);
    if !v.PBytes? then Ok(NumpyCast(v, to))
    else if to in NativeNumericTypes then
      var arr := PArray(Elements(v));
      if to != CHAR then Ok(NumpyCast(arr, to)) else Ok(Py(arr))
    else Ok(Py(v))
  }

  /** `values[0]` on the already-wrapped values. */
  function First(values: PyVal): Result<PyVal> {
    match values
    case PList(xs) => if xs == [] then Err(IndexError) else Ok(xs[0])
    case PTuple(xs) => if xs == [] then Err(IndexError) else Ok(xs[0])
    case PArray(xs) => if xs == [] then Err(IndexError) else Ok(xs[0])
    case _ => Err(TypeError)
  }

  function KeepOrEncode(v: PyVal): Result<PyVal> {
    if v.PStr? then EncodeToPy(v) else Ok(v)
  }

  /** _convert_string_values. To ENUM: the first value (unless a lone string
      was given) is looked up among the enum strings in its bytes form, then
      in its str form, and returned itself, not its index; no enum strings
      give 0. To a numeric type: numpy. To STRING: a list of byte strings. */
  function ConvertStringValues(values: PyVal, to: ChType, enumStrings: Option<seq<PyVal>>): (r: Result<Converted>)
    ensures r.Ok? && to == ENUM && enumStrings.Some? && enumStrings.value != [] ==>
      r.value.Py? && r.value.v in enumStrings.value
    ensures r.Ok? && to == STRING ==>
      r.value.Py? && r.value.v.PList? &&
      forall k :: 0 <= k < |r.value.v.items| ==> !r.value.v.items[k].PStr?
  {
    if to == ENUM then
      var v :- if values.PStr? || values.PBytes? then Ok(values) else First(values);
      if enumStrings.Some? && enumStrings.value != [] then
        var names := enumStrings.value;
        var byteValue :- if v.PBytes? then Ok(v) else EncodeToPy(v);
        var strValue := if v.PBytes? then PStr(DecodeLatin1(v.bs)) else v;
        if byteValue in names then Ok(Py(byteValue))
        else if strValue in names then Ok(Py(strValue))
        else Err(ValueError)
      else Ok(Py(PInt(0)))
    else if to in NativeNumericTypes then Ok(NumpyCast(values, to))
    else if values.PStr? then
      var b :- EncodeToPy(values);
      Ok(Py(PList([b])))
    else if values.PBytes? then Ok(Py(PList([values])))
    else
      var out :- MapR(Elements(values), KeepOrEncode);
      Ok(Py(PList(out)))
  }

  /** The part of convert_values after its guards. */
  function ConvertWrapped(values: PyVal, fromType: int, to: ChType, enumStrings: Option<seq<PyVal>>): Result<Converted> {
    var vs := if IsIterable(values) then values else PTuple([values]);
    if fromType == ENUM then ConvertEnumValues(vs, to, enumStrings)
    else if fromType == CHAR then ConvertCharValues(vs, to)
    else if fromType == STRING then ConvertStringValues(vs, to, enumStrings)
    else if to == STRING then Ok(StrEncoded(Elements(vs)))
    else Ok(NumpyCast(vs, to))
  }

  /** convert_values as written: the target must be native, which makes the
      later check for STSACK_STRING and CLASS_NAME targets unreachable. */
  function ConvertValuesAsWritten(values: PyVal, fromType: int, toType: int, enumStrings: Option<seq<PyVal>>): (r: Result<Converted>)
    ensures !IsNative(toType) ==> r == Err(ValueError)
  {
    if !IsNative(toType) then Err(ValueError)
    else if (toType == STSACK_STRING || toType == CLASS_NAME) && fromType != toType then Err(ValueError)
    else ConvertWrapped(values, fromType, toType, enumStrings)
  }

  /** convert_values with the special types admitted as targets, so that the
      check against converting them to other types is the one that applies. */
  function ConvertValues(values: PyVal, fromType: int, toType: int, enumStrings: Option<seq<PyVal>>): (r: Result<Converted>)
    ensures !IsNative(toType) && toType != STSACK_STRING && toType != CLASS_NAME ==> r == Err(ValueError)
    ensures (toType == STSACK_STRING || toType == CLASS_NAME) ==>
      (r.Ok? <==> fromType == toType)
  {
    if !IsNative(toType) && toType != STSACK_STRING && toType != CLASS_NAME then Err(ValueError)
    else if (toType == STSACK_STRING || toType == CLASS_NAME) && fromType != toType then Err(ValueError)
    else ConvertWrapped(values, fromType, toType, enumStrings)
  }

  // ---------------------------------------------------------------------
  // Properties.

  /** As written, converting a special type to itself is refused by the
      native-type guard, so the special-type check never decides anything. */
  lemma SpecialToItselfAsWritten(values: PyVal, t: int, enumStrings: Option<seq<PyVal>>)
    requires t == STSACK_STRING || t == CLASS_NAME
    ensures ConvertValuesAsWritten(values, t, t, enumStrings) == Err(ValueError)
    ensures ConvertValues(values, t, t, enumStrings) ==
      Ok(NumpyCast(if IsIterable(values) then values else PTuple([values]), t))
  {
  }

  /** The two definitions agree on every native target. */
  lemma ConvertAgreesOnNative(values: PyVal, fromType: int, toType: int, enumStrings: Option<seq<PyVal>>)
    requires IsNative(toType)
    ensures ConvertValuesAsWritten(values, fromType, toType, enumStrings) ==
            ConvertValues(values, fromType, toType, enumStrings)
  {
  }

  /** A value without a length is treated as a one-element tuple. */
  lemma ScalarIsWrapped(x: PyVal, fromType: int, toType: int, enumStrings: Option<seq<PyVal>>)
    requires !IsIterable(x)
    ensures ConvertValues(x, fromType, toType, enumStrings) ==
            ConvertValues(PTuple([x]), fromType, toType, enumStrings)
  {
  }

  /** ENUM to a non-STRING native type with enum strings: each value becomes
      the index of its first occurrence among the names, and the conversion
      fails with ValueError exactly when some value is not a name. */
  lemma {:induction false} EnumToIndex(values: seq<PyVal>, to: ChType, names: seq<PyVal>)
    requires IsNative(to) && to != STRING
    ensures var r := ConvertValues(PList(values), ENUM, to, Some(names));
      (r.Ok? <==> forall i :: 0 <= i < |values| ==> values[i] in names) &&
      (r.Err? ==> r.error == ValueError) &&
      (r.Ok? ==>
         r.value.Py? && r.value.v.PList? && |r.value.v.items| == |values| &&
         forall i :: 0 <= i < |values| ==>
           var k := r.value.v.items[i];
           k.PInt? && 0 <= k.i < |names| && names[k.i] == values[i] && values[i] !in names[..k.i])
  {
    var f := v => IndexIn(names, v);
    var m := MapR(values, f);
    assert ConvertValues(PList(values), ENUM, to, Some(names)) ==
      (if m.Ok? then Ok(Py(PList(m.value))) else Err(m.error));
    forall i | 0 <= i < |values| ensures f(values[i]).Ok? <==> values[i] in names {
    }
    if m.Err? {
      var i :| 0 <= i < |values| && f(values[i]) == Err(m.error);
    }
  }

  /** ENUM to STRING encodes each name; decoding the result gives the names
      back. */
  lemma {:induction false} EnumToStringRoundTrip(names: seq<string>)
    requires forall i :: 0 <= i < |names| ==> IsLatin1(names[i])
    ensures var r := ConvertValues(PList(seq(|names|, i requires 0 <= i < |names| => PStr(names[i]))), ENUM, STRING, None);
      r.Ok? && r.value.Py? && r.value.v.PList? && |r.value.v.items| == |names| &&
      forall i :: 0 <= i < |names| ==>
        r.value.v.items[i].PBytes? && DecodeLatin1(r.value.v.items[i].bs) == names[i]
  {
    var vs := seq(|names|, i requires 0 <= i < |names| => PStr(names[i]));
    var m := MapR(vs, EncodeToPy);
    forall i | 0 <= i < |vs| ensures EncodeToPy(vs[i]).Ok? {
      assert EncodeStr(vs[i]).Ok?;
    }
    assert m.Ok?;
  }

  /** STRING to ENUM with enum strings returns the matching name itself
      (bytes form first, then str form) and fails with ValueError when
      neither form is a name. */
  lemma StringToEnum(b: bytes, names: seq<PyVal>)
    requires names != []
    ensures var r := ConvertValues(PList([PBytes(b)]), STRING, ENUM, Some(names));
      (PBytes(b) in names ==> r == Ok(Py(PBytes(b)))) &&
      (PBytes(b) !in names && PStr(DecodeLatin1(b)) in names ==> r == Ok(Py(PStr(DecodeLatin1(b))))) &&
      (PBytes(b) !in names && PStr(DecodeLatin1(b)) !in names ==> r == Err(ValueError))
  {
  }

  /** ENUM to a non-STRING native type without enum strings gives one 0
      per value. */
  lemma EnumWithoutNames(values: seq<PyVal>, to: ChType)
    requires IsNative(to) && to != STRING
    ensures var r := ConvertValues(PList(values), ENUM, to, None);
      r.Ok? && r.value.Py? && r.value.v.PList? && |r.value.v.items| == |values| &&
      forall i :: 0 <= i < |values| ==> r.value.v.items[i] == PInt(0)
  {
  }

  /** STRING to ENUM with no enum strings, or an empty list of them, gives
      0 whatever the value. */
  lemma StringToEnumWithoutNames(values: PyVal, enumStrings: Option<seq<PyVal>>)
    requires enumStrings.None? || enumStrings == Some([])
    requires values.PStr? || values.PBytes? || (values.PList? && values.items != [])
    ensures ConvertValues(values, STRING, ENUM, enumStrings) == Ok(Py(PInt(0)))
  {
  }

  /** STRING to STRING keeps byte strings and encodes text, element by
      element. */
  lemma {:induction false} StringToStringKeepsText(values: seq<PyVal>)
    requires forall i :: 0 <= i < |values| ==>
      values[i].PBytes? || (values[i].PStr? && IsLatin1(values[i].s))
    ensures var r := ConvertValues(PList(values), STRING, STRING, None);
      r.Ok? && r.value.Py? && r.value.v.PList? && |r.value.v.items| == |values| &&
      forall i :: 0 <= i < |values| ==>
        var o := r.value.v.items[i];
        o.PBytes? &&
        (values[i].PBytes? ==> o == values[i]) &&
        (values[i].PStr? ==> DecodeLatin1(o.bs) == values[i].s)
  {
    var m := MapR(values, KeepOrEncode);
    forall i | 0 <= i < |values| ensures KeepOrEncode(values[i]).Ok? {
      if values[i].PStr? { assert EncodeStr(values[i]).Ok?; }
    }
    assert m.Ok?;
  }

  /** CHAR data held as bytes: to CHAR it becomes the array of its byte
      values, to STRING it is passed through unchanged. */
  lemma CharBytes(b: bytes)
    ensures ConvertValues(PBytes(b), CHAR, CHAR, None) ==
            Ok(Py(PArray(seq(|b|, i requires 0 <= i < |b| => PInt(b[i])))))
    ensures ConvertValues(PBytes(b), CHAR, STRING, None) == Ok(Py(PBytes(b)))
  {
  }
}
