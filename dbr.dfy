/** Channel Access DBR type codes: the native field types, their promoted
    STS/TIME/GR/CTRL variants, the special types, the groupings the client
    code dispatches on, and the conversions between them. */
module Dbr {
  import opened Common

  /** A member of the ChannelType enumeration (codes 0 to 38). */
  type ChType = t: int | 0 <= t <= 38

  const STRING: ChType := 0
  const INT: ChType := 1
  const FLOAT: ChType := 2
  const ENUM: ChType := 3
  const CHAR: ChType := 4
  const LONG: ChType := 5
  const DOUBLE: ChType := 6
  const STS_STRING: ChType := 7
  const STS_INT: ChType := 8
  const STS_ENUM: ChType := 10
  const STS_CHAR: ChType := 11
  const TIME_STRING: ChType := 14
  const TIME_INT: ChType := 15
  const TIME_ENUM: ChType := 17
  const TIME_CHAR: ChType := 18
  const GR_STRING: ChType := 21
  const CTRL_STRING: ChType := 28
  const CTRL_INT: ChType := 29
  const CTRL_ENUM: ChType := 31
  const CTRL_CHAR: ChType := 32
  const PUT_ACKT: ChType := 35
  const PUT_ACKS: ChType := 36
  const STSACK_STRING: ChType := 37
  const CLASS_NAME: ChType := 38

  /** Offsets of the promoted blocks: each block starts with its STRING variant. */
  const STS_BASE := 7
  const TIME_BASE := 14
  const GR_BASE := 21
  const CTRL_BASE := 28

  /** Number of seconds between the UNIX epoch and the EPICS epoch (1990-01-01). */
  const EPICS2UNIX_EPOCH := 631152000

  const MAX_ENUM_STATES := 16
  const MAX_ENUM_STRING_SIZE := 26

  predicate IsNative(t: int) { 0 <= t <= 6 }

  /** The groupings by value type. `char_types` is assigned twice in the
      module; the later assignment, without STS_CHAR, is the one in force. */
  const NativeTypes: set<ChType> := {0, 1, 2, 3, 4, 5, 6}
  const CharTypes: set<ChType> := {CHAR, TIME_CHAR, CTRL_CHAR}
  const StringTypes: set<ChType> := {STRING, TIME_STRING, CTRL_STRING, STS_STRING}
  const EnumTypes: set<ChType> := {ENUM, STS_ENUM, TIME_ENUM, CTRL_ENUM}

  /** `special_types` as written: PUT_ACKS twice and no PUT_ACKT. */
  const SpecialTypesAsWritten: set<ChType> := {PUT_ACKS, STSACK_STRING, CLASS_NAME}
  /** The special types, all four of them. */
  const SpecialTypes: set<ChType> := {PUT_ACKT, PUT_ACKS, STSACK_STRING, CLASS_NAME}

  /** The keyword flags of promote_type. */
  datatype Flags = Flags(useStatus: bool, useTime: bool, useCtrl: bool, useGr: bool)

  const NoFlags := Flags(false, false, false, false)
  const StatusFlag := Flags(true, false, false, false)
  const TimeFlag := Flags(false, true, false, false)
  const CtrlFlag := Flags(false, false, true, false)
  const GrFlag := Flags(false, false, false, true)

  function FlagCount(f: Flags): nat {
    (if f.useStatus then 1 else 0) + (if f.useTime then 1 else 0) +
    (if f.useCtrl then 1 else 0) + (if f.useGr then 1 else 0)
  }

  /** `ChType(n)`: ValueError unless n is a member of the enumeration. */
  function ToChType(n: int): (r: Result<ChType>)
    ensures r.Ok? <==> 0 <= n <= 38
    ensures r.Ok? ==> r.value == n
  {
    if 0 <= n <= 38 then Ok(n) else Err(ValueError)
  }

  /** `_native_map` once the module is loaded: every promoted variant to its
      native type and every special type to itself. GR_STRING and
      CTRL_STRING are not keys, because promoting STRING to GR or CTRL gives
      STS_STRING and TIME_STRING. None stands for a missing key. */
  function NativeMap(t: int): (r: Option<ChType>)
    ensures r.Some? ==> IsNative(r.value) || (r.value == t && t in SpecialTypes)
  {
    if 0 <= t <= 6 then Some(t)
    else if 7 <= t <= 13 then Some(t - STS_BASE)
    else if 14 <= t <= 20 then Some(t - TIME_BASE)
    else if 22 <= t <= 27 then Some(t - GR_BASE)
    else if 29 <= t <= 34 then Some(t - CTRL_BASE)
    else if 35 <= t <= 38 then Some(t)
    else None
  }

  /** promote_type, parameterised by whether `_native_map` has been filled
      yet (it is empty while the module builds it, so no demotion happens
      then) and by the set of special types it consults. */
  function PromoteWith(populated: bool, specials: set<ChType>, ftype: int, f: Flags): (r: Result<ChType>)
  {
    if FlagCount(f) > 1 then Err(ValueError)
    else if 0 <= ftype <= 38 && ftype in specials then Ok(ftype)
    else
      var demoted :-
        if !populated then Ok(ftype)
        else if !(0 <= ftype <= 38) then Err(ValueError)
        else if NativeMap(ftype).None? then Err(KeyError)
        else Ok(NativeMap(ftype).value as int);
      if f.useCtrl then
        (if demoted == STRING then Ok(TIME_STRING) else ToChType(demoted + CTRL_BASE))
      else if f.useTime then ToChType(demoted + TIME_BASE)
      else if f.useStatus then ToChType(demoted + STS_BASE)
      else if f.useGr then
        (if demoted == STRING then Ok(STS_STRING) else ToChType(demoted + GR_BASE))
      else ToChType(demoted)
  }

  /** promote_type as it runs while the module builds `_native_map`. */
  function InitPromote(nt: int, f: Flags): Result<ChType> {
    PromoteWith(false, SpecialTypesAsWritten, nt, f)
  }

  /** promote_type after loading, as written (PUT_ACKT not special): it
      differs from the corrected promote_type on PUT_ACKT alone. */
  function PromoteTypeAsWritten(ftype: int, f: Flags): (r: Result<ChType>)
    ensures FlagCount(f) > 1 ==> r == Err(ValueError)
    ensures ftype != PUT_ACKT ==> r == PromoteType(ftype, f)
  {
    PromoteWith(true, SpecialTypesAsWritten, ftype, f)
  }

  /** promote_type after loading with all four special types exempt: more
      than one flag is a ValueError, every failure is a ValueError or a
      KeyError, and every result has a native type. */
  function PromoteType(ftype: int, f: Flags): (r: Result<ChType>)
    ensures FlagCount(f) > 1 ==> r == Err(ValueError)
    ensures r.Err? ==> r.error == ValueError || r.error == KeyError
    ensures r.Ok? ==> NativeMap(r.value).Some?
  {
    PromoteWith(true, SpecialTypes, ftype, f)
  }

  /** The block offset a single flag selects, for a non-STRING native type. */
  function Offset(f: Flags): nat {
    if f.useCtrl then CTRL_BASE else if f.useTime then TIME_BASE
    else if f.useStatus then STS_BASE else if f.useGr then GR_BASE else 0
  }

  /** native_type: `_native_map[ftype]`, KeyError for anything not a key. */
  function NativeType(ftype: int): (r: Result<ChType>)
    ensures r.Ok? <==> (0 <= ftype <= 38 && ftype != GR_STRING && ftype != CTRL_STRING)
    ensures r.Ok? ==> r.value == NativeMap(ftype).value
  {
    match NativeMap(ftype)
    case None => Err(KeyError)
    case Some(n) => Ok(n)
  }

  // ---------------------------------------------------------------------
  // _native_map is built from promote_type: its keys are exactly the
  // results of promoting each native type with no flag or one flag, plus
  // the special types, and each key maps to the native type it came from.

  lemma InitPromoteNative(nt: int, f: Flags)
    requires IsNative(nt) && FlagCount(f) <= 1
    ensures InitPromote(nt, f).Ok?
    ensures InitPromote(nt, f).value ==
      (if nt == STRING && f.useCtrl then TIME_STRING
       else if nt == STRING && f.useGr then STS_STRING
       else nt + Offset(f))
    ensures NativeMap(InitPromote(nt, f).value) == Some(nt)
  {
  }

  function OneFlag(k: nat): Flags
    requires k < 5
  {
    [NoFlags, StatusFlag, TimeFlag, GrFlag, CtrlFlag][k]
  }

  /** Every key of `_native_map` comes from the build: a special type maps to
      itself, anything else is some native type promoted by one flag. */
  lemma NativeMapKeysFromInit(t: int)
    requires NativeMap(t).Some?
    ensures t in SpecialTypes ==> NativeMap(t) == Some(t)
    ensures t !in SpecialTypes ==>
      exists k :: 0 <= k < 5 && InitPromote(NativeMap(t).value, OneFlag(k)) == Ok(t)
  {
    if t !in SpecialTypes {
      var n := NativeMap(t).value;
      var k := if t <= 6 then 0 else if t <= 13 then 1 else if t <= 20 then 2 else if t <= 27 then 3 else 4;
      assert InitPromote(n, OneFlag(k)) == Ok(t);
    }
  }

  // ---------------------------------------------------------------------
  // Properties of promote_type.

  /** Asking for more than one kind of metadata is an error, whatever the type. */
  lemma PromoteTooManyFlags(ftype: int, f: Flags)
    requires FlagCount(f) > 1
    ensures PromoteType(ftype, f) == Err(ValueError)
    ensures PromoteTypeAsWritten(ftype, f) == Err(ValueError)
  {
  }

  /** The error cases after loading: codes outside the enumeration are a
      ValueError, GR_STRING and CTRL_STRING (no native mapping) a KeyError. */
  lemma PromoteErrors(ftype: int, f: Flags)
    requires FlagCount(f) <= 1
    ensures !(0 <= ftype <= 38) ==> PromoteType(ftype, f) == Err(ValueError)
    ensures ftype == GR_STRING || ftype == CTRL_STRING ==> PromoteType(ftype, f) == Err(KeyError)
  {
  }

  /** Special types have no promoted versions and come back unchanged. */
  lemma PromoteSpecialUnchanged(t: ChType, f: Flags)
    requires t in SpecialTypes && FlagCount(f) <= 1
    ensures PromoteType(t, f) == Ok(t)
  {
  }

  /** For a native type and at most one flag, promotion lands in the block
      the flag selects (STRING going to TIME_STRING for CTRL and STS_STRING
      for GR), and the native type of the result is the type promoted. */
  lemma PromoteNative(nt: int, f: Flags)
    requires IsNative(nt) && FlagCount(f) <= 1
    ensures PromoteType(nt, f).Ok?
    ensures PromoteType(nt, f) == InitPromote(nt, f)
    ensures NativeType(PromoteType(nt, f).value) == Ok(nt)
  {
    InitPromoteNative(nt, f);
  }

  /** Promotion first demotes: a promoted variant promotes exactly as its
      native type does. */
  lemma {:induction false} PromoteDemotesFirst(t: int, f: Flags)
    requires NativeMap(t).Some? && t !in SpecialTypes && FlagCount(f) <= 1
    ensures PromoteType(t, f) == PromoteType(NativeMap(t).value, f)
  {
    var n := NativeMap(t).value;
    assert IsNative(n);
    assert NativeMap(n) == Some(n);
  }

  /** Promotion is idempotent: promoting a result again with the same flag
      gives the same type. */
  lemma PromoteIdempotent(t: int, f: Flags)
    requires PromoteType(t, f).Ok?
    ensures PromoteType(PromoteType(t, f).value, f) == PromoteType(t, f)
  {
    var r := PromoteType(t, f).value;
    if t !in SpecialTypes {
      var n := NativeMap(t).value;
      PromoteDemotesFirst(t, f);
      PromoteNative(n, f);
      PromoteDemotesFirst(r, f);
    }
  }

  /** As written, PUT_ACKT is not exempt: it is demoted to itself and then
      shifted past the end of the enumeration, so promoting it for TIME
      metadata raises ValueError while the other special types pass. */
  lemma PromotePutAcktAsWritten()
    ensures PromoteTypeAsWritten(PUT_ACKT, TimeFlag) == Err(ValueError)
    ensures PromoteTypeAsWritten(PUT_ACKS, TimeFlag) == Ok(PUT_ACKS)
    ensures PromoteType(PUT_ACKT, TimeFlag) == Ok(PUT_ACKT)
  {
  }

  /** The two definitions differ only on PUT_ACKT. */
  lemma PromoteAsWrittenAgrees(ftype: int, f: Flags)
    requires ftype != PUT_ACKT
    ensures PromoteTypeAsWritten(ftype, f) == PromoteType(ftype, f)
  {
  }

  // ---------------------------------------------------------------------
  // Metadata keys used by the client code.

  /** The metadata form of a request, a key of `field_types`. */
  datatype Form = Native | Status | Time | Graphic | Control

  function FormFlags(key: Form): Flags {
    match key
    case Native => NoFlags
    case Status => StatusFlag
    case Time => TimeFlag
    case Graphic => GrFlag
    case Control => CtrlFlag
  }

  /** `field_types[key][nt]`: the DBR type carrying the native type nt with
      the metadata of the given form. */
  function FieldType(key: Form, nt: ChType): (r: ChType)
    requires IsNative(nt)
    ensures NativeType(r) == Ok(nt)
    ensures key == Native ==> r == nt
  {
    PromoteNative(nt, FormFlags(key));
    PromoteType(nt, FormFlags(key)).value
  }

  /** The value groupings agree with native types: every char, string and
      enum type that has a native type has CHAR, STRING or ENUM as it. */
  lemma GroupingsByNative(t: ChType)
    ensures t in CharTypes ==> NativeType(t) == Ok(CHAR)
    ensures t in EnumTypes ==> NativeType(t) == Ok(ENUM)
    ensures t in StringTypes && t != CTRL_STRING ==> NativeType(t) == Ok(STRING)
  {
  }

  /** A FieldType of a char, string or enum native type is in the matching
      grouping for the forms the client reads (native, time, control);
      STS_CHAR is the one promoted char type outside `char_types`. */
  lemma FieldTypeGroupings(key: Form, nt: ChType)
    requires IsNative(nt) && key in {Native, Time, Control}
    ensures nt == CHAR ==> FieldType(key, nt) in CharTypes
    ensures nt == STRING ==> FieldType(key, nt) in StringTypes
    ensures nt == ENUM ==> FieldType(key, nt) in EnumTypes
    ensures FieldType(Status, CHAR) == STS_CHAR && STS_CHAR !in CharTypes
  {
    PromoteNative(nt, FormFlags(key));
    PromoteNative(CHAR, StatusFlag);
  }

  // ---------------------------------------------------------------------
  // Enum strings and timestamps.

  /** DBR_GR_ENUM.enum_strs: the first no_str slots, each cut at its first
      NUL (a ctypes char-array `.value`); a negative count gives no names and
      one beyond the 16 slots is an IndexError. */
  function EnumStrs(noStr: int, strs: seq<bytes>): (r: Result<seq<bytes>>)
    requires |strs| == MAX_ENUM_STATES
    ensures noStr > MAX_ENUM_STATES <==> r.Err?
    ensures r.Ok? ==> |r.value| == (if noStr < 0 then 0 else noStr)
    ensures r.Ok? ==> forall i :: 0 <= i < |r.value| ==>
      |r.value[i]| <= |strs[i]| && r.value[i] == strs[i][..|r.value[i]|] && 0 !in r.value[i] &&
      (|r.value[i]| == |strs[i]| || strs[i][|r.value[i]|] == 0)
  {
    if noStr > MAX_ENUM_STATES then Err(IndexError)
    else if noStr <= 0 then Ok([])
    else Ok(seq(noStr, i requires 0 <= i < noStr => CutAtNul(strs[i])))
  }

  /** epics_timestamp_to_unix: the EPICS epoch offset plus the seconds plus
      the nanoseconds truncated to whole microseconds. */
  function EpicsTimestampToUnix(secs: int, nanos: nat): (ts: real)
    ensures nanos < 1000000000 ==>
      (EPICS2UNIX_EPOCH + secs) as real <= ts < (EPICS2UNIX_EPOCH + secs + 1) as real
    ensures ts * 1000000.0 == ((EPICS2UNIX_EPOCH + secs) * 1000000 + nanos / 1000) as real
  {
    (EPICS2UNIX_EPOCH + secs) as real + ((nanos / 1000) as real) / 1000000.0
  }
}
