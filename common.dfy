/** Shared vocabulary of the caproto model: bytes, optional values, the
    exceptions the library raises, the Latin-1 text codec it uses by
    default (CAPROTO_STRING_ENCODING = 'latin-1'), Python's `str.encode()`
    default (UTF-8), Python sequence indexing, and a small universe of
    Python values for the places where the library handles untyped data. */
module Common {

  type byte = x: int | 0 <= x < 256
  type bytes = seq<byte>

  datatype Option<+T> = None | Some(value: T)

  /** The exceptions the modelled code raises, by class. */
  datatype Error =
    | ValueError            // builtin ValueError
    | TypeError             // builtin TypeError
    | KeyError              // builtin KeyError
    | IndexError            // builtin IndexError
    | AttributeError        // builtin AttributeError
    | NameError             // builtin NameError: a name that is not defined
    | AssertionError        // a failing `assert` statement
    | TimeoutError          // builtin TimeoutError: a request the server did not answer in time
    | DisconnectedError     // a request on a channel that is not connected
    | UnicodeEncodeError    // str.encode on a character the codec cannot map
    | CaprotoValueError
    | CaprotoTypeError
    | CaprotoKeyError
    | CaprotoTimeoutError
    | LocalProtocolError
    | RemoteProtocolError
    | AccessRightsException
    | UnknownSearchResponse
    | DuplicateSearchResponse

  datatype Result<+T> = Ok(value: T) | Err(error: Error) {
    predicate IsFailure() { Err? }
    function PropagateFailure<U>(): Result<U>
      requires Err?
    {
      Err(error)
    }
    function Extract(): T
      requires Ok?
    {
      value
    }
  }

  /** Values of the Python objects the library passes around untyped:
      metadata dictionaries, put values, converted value lists.
      PArray stands for a numpy array, PList for a list, PTuple for a tuple. */
  datatype PyVal =
    | PNone
    | PBool(b: bool)
    | PInt(i: int)
    | PReal(r: real)
    | PStr(s: string)
    | PBytes(bs: bytes)
    | PList(items: seq<PyVal>)
    | PTuple(items: seq<PyVal>)
    | PArray(items: seq<PyVal>)

  /** `isinstance(v, collections.abc.Iterable)` for the values modelled. */
  predicate IsIterable(v: PyVal) {
    v.PStr? || v.PBytes? || v.PList? || v.PTuple? || v.PArray?
  }

  /** `len(v)`, which raises TypeError on a scalar. */
  function PyLen(v: PyVal): (r: Result<nat>)
    ensures r.Ok? <==> IsIterable(v)
  {
    match v
    case PStr(s) => Ok(|s|)
    case PBytes(b) => Ok(|b|)
    case PList(xs) => Ok(|xs|)
    case PTuple(xs) => Ok(|xs|)
    case PArray(xs) => Ok(|xs|)
    case _ => Err(TypeError)
  }

  /** Python truthiness (`if v:`) of the modelled values. */
  predicate Truthy(v: PyVal) {
    match v
    case PNone => false
    case PBool(b) => b
    case PInt(i) => i != 0
    case PReal(r) => r != 0.0
    case PStr(s) => s != []
    case PBytes(b) => b != []
    case PList(xs) => xs != []
    case PTuple(xs) => xs != []
    case PArray(xs) => xs != []
  }

  /** Python indexing `s[i]`: negative indices count from the end, anything
      else out of range is an IndexError (modelled as None). */
  function PyIndex<T>(s: seq<T>, i: int): (r: Option<T>)
    ensures r.Some? <==> -|s| <= i < |s|
    ensures 0 <= i < |s| ==> r == Some(s[i])
    ensures -|s| <= i < 0 ==> r == Some(s[|s| + i])
  {
    if 0 <= i < |s| then Some(s[i])
    else if -|s| <= i < 0 then Some(s[|s| + i])
    else None
  }

  /** `bytes(n)` / `ljust` padding: n NUL bytes. */
  function Zeros(n: nat): (z: bytes)
    ensures |z| == n && forall k :: 0 <= k < n ==> z[k] == 0
  {
    seq(n, _ => 0)
  }

  /** `b.partition(b'\x00')[0]`: the bytes before the first NUL. */
  function CutAtNul(b: bytes): (r: bytes)
    ensures |r| <= |b| && r == b[..|r|]
    ensures forall k :: 0 <= k < |r| ==> r[k] != 0
    ensures |r| < |b| ==> b[|r|] == 0
  {
    if b == [] || b[0] == 0 then [] else [b[0]] + CutAtNul(b[1..])
  }

  /** Index of the first occurrence of x in s (`s.index(x)`), or None where
      Python raises ValueError. */
  function IndexOf<T(==)>(s: seq<T>, x: T): (r: Option<nat>)
    ensures r.None? <==> x !in s
    ensures r.Some? ==> r.value < |s| && s[r.value] == x && x !in s[..r.value]
  {
    if s == [] then None
    else if s[0] == x then Some(0)
    else match IndexOf(s[1..], x)
      case None => None
      case Some(k) => assert s[1..][..k] == s[1..k + 1]; Some(k + 1)
  }

  /** A Python list comprehension whose element expression may raise: the
      first exception, in order, propagates. */
  function MapR<A, B>(xs: seq<A>, f: A -> Result<B>): (r: Result<seq<B>>)
    ensures r.Ok? <==> forall i :: 0 <= i < |xs| ==> f(xs[i]).Ok?
    ensures r.Ok? ==> |r.value| == |xs| && forall i :: 0 <= i < |xs| ==> r.value[i] == f(xs[i]).value
    ensures r.Err? ==> exists i :: 0 <= i < |xs| && f(xs[i]) == Err(r.error) &&
                                   forall j :: 0 <= j < i ==> f(xs[j]).Ok?
  {
    if xs == [] then Ok([])
    else match f(xs[0])
      case Err(e) => Err(e)
      case Ok(y) =>
        match MapR(xs[1..], f)
        case Err(e) =>
          ghost var i :| 0 <= i < |xs[1..]| && f(xs[1..][i]) == Err(e) &&
                         forall j :: 0 <= j < i ==> f(xs[1..][j]).Ok?;
          assert f(xs[i + 1]) == Err(e);
          Err(e)
        case Ok(ys) => Ok([y] + ys)
  }

  // ---------------------------------------------------------------------
  // Latin-1, the library's default string encoding (STR_ENC).

  predicate IsLatin1(s: string) {
    forall k :: 0 <= k < |s| ==> (s[k] as int) < 256
  }

  /** `s.encode('latin-1')`: UnicodeEncodeError on any character above U+00FF. */
  function EncodeLatin1(s: string): (r: Option<bytes>)
    ensures r.Some? <==> IsLatin1(s)
    ensures r.Some? ==> |r.value| == |s| && forall k :: 0 <= k < |s| ==> r.value[k] == s[k] as int
  {
    if IsLatin1(s) then Some(seq(|s|, k requires 0 <= k < |s| => s[k] as int as byte)) else None
  }

  /** `b.decode('latin-1')`: total, one character per byte. */
  function DecodeLatin1(b: bytes): (s: string)
    ensures |s| == |b| && forall k :: 0 <= k < |b| ==> s[k] as int == b[k]
  {
    seq(|b|, k requires 0 <= k < |b| => b[k] as char)
  }

  lemma DecodeEncodeLatin1(s: string)
    requires IsLatin1(s)
    ensures EncodeLatin1(s).Some? && DecodeLatin1(EncodeLatin1(s).value) == s
  {
    var d := DecodeLatin1(EncodeLatin1(s).value);
    assert |d| == |s|;
    forall k | 0 <= k < |s| ensures d[k] == s[k] {
      assert d[k] as int == s[k] as int;
    }
  }

  lemma EncodeDecodeLatin1(b: bytes)
    ensures EncodeLatin1(DecodeLatin1(b)) == Some(b)
  {
    var s := DecodeLatin1(b);
    assert IsLatin1(s);
    var e := EncodeLatin1(s).value;
    assert |e| == |b|;
    forall k | 0 <= k < |b| ensures e[k] == b[k] { }
    assert e == b;
  }

  /** Latin-1 decoding loses nothing: distinct byte strings decode to
      distinct text. */
  lemma DecodeLatin1Injective(a: bytes, b: bytes)
    requires DecodeLatin1(a) == DecodeLatin1(b)
    ensures a == b
  {
    EncodeDecodeLatin1(a);
    EncodeDecodeLatin1(b);
  }

  // ---------------------------------------------------------------------
  // UTF-8, the default of Python's `str.encode()`.

  function Utf8Char(c: char): (r: bytes)
    ensures 1 <= |r| <= 4
    ensures (c as int) < 0x80 <==> |r| == 1
    ensures (c as int) < 0x80 ==> r == [c as int]
  {
    var n := c as int;
    if n < 0x80 then [n]
    else if n < 0x800 then [0xC0 + n / 64, 0x80 + n % 64]
    else if n < 0x10000 then [0xE0 + n / 4096, 0x80 + (n / 64) % 64, 0x80 + n % 64]
    else [0xF0 + n / 262144, 0x80 + (n / 4096) % 64, 0x80 + (n / 64) % 64, 0x80 + n % 64]
  }

  function Utf8Encode(s: string): (r: bytes)
    ensures |r| >= |s|
  {
    if s == [] then [] else Utf8Char(s[0]) + Utf8Encode(s[1..])
  }

  predicate IsAscii(s: string) {
    forall k :: 0 <= k < |s| ==> (s[k] as int) < 0x80
  }

  /** On ASCII text the UTF-8 and Latin-1 encodings agree byte for byte. */
  lemma {:induction false} AsciiUtf8IsLatin1(s: string)
    requires IsAscii(s)
    ensures EncodeLatin1(s) == Some(Utf8Encode(s))
  {
    if s != [] {
      assert IsAscii(s[1..]) by {
        forall k | 0 <= k < |s[1..]| ensures (s[1..][k] as int) < 0x80 {
          assert s[1..][k] == s[k + 1];
        }
      }
      AsciiUtf8IsLatin1(s[1..]);
      var e := EncodeLatin1(s).value;
      var u := Utf8Encode(s);
      assert u == [s[0] as int] + Utf8Encode(s[1..]);
      assert |u| == |e|;
      forall k | 0 <= k < |s| ensures e[k] == u[k] {
        if k > 0 {
          assert u[k] == Utf8Encode(s[1..])[k - 1];
          assert Utf8Encode(s[1..]) == EncodeLatin1(s[1..]).value;
        }
      }
      assert e == u;
    }
  }

  /** Concatenation of a sequence of byte strings (`b''.join(...)`). */
  function Concat(parts: seq<bytes>): (r: bytes)
  {
    if parts == [] then [] else parts[0] + Concat(parts[1..])
  }

  lemma {:induction false} ConcatUniformLength(parts: seq<bytes>, w: nat)
    requires forall k :: 0 <= k < |parts| ==> |parts[k]| == w
    ensures |Concat(parts)| == |parts| * w
  {
    if parts != [] {
      ConcatUniformLength(parts[1..], w);
    }
  }

  lemma {:induction false} ConcatAppend(parts: seq<bytes>, last: bytes)
    ensures Concat(parts + [last]) == Concat(parts) + last
  {
    if parts == [] {
      assert [] + [last] == [last];
    } else {
      assert (parts + [last])[1..] == parts[1..] + [last];
      ConcatAppend(parts[1..], last);
    }
  }
}
