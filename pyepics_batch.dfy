/** The pyepics-style batch helpers: `caput_many`, which puts one value to
    each of a list of PVs and reports one status per PV, and the result
    assembly of `caget_many`, which turns the readings gathered for a list
    of PVs into values. Connecting, waiting and the network are not
    modelled: what each PV did is given as input. */
module PyepicsBatch {
  import opened Common
  import opened Dbr
  import opened PyepicsTranslate
  import opened PyepicsPv

  // ---------------------------------------------------------------------
  // caput_many

  /** The `wait` argument: 'each' waits on every put, 'all' waits for all
      puts to complete at the end; any other value waits for nothing. */
  datatype WaitMode = NoWait | Each | All

  /** The exceptions `except TimeoutError` catches: the builtin, and
      caproto's own timeout error. */
  predicate IsTimeout(e: Error) {
    e == TimeoutError || e == CaprotoTimeoutError
  }

  /** One PV's entry in `out`: 1 when connecting and putting succeeded, -1
      on a timeout; any other exception propagates. */
  function PutStatus(outcome: Result<()>): (r: Result<int>)
    ensures r.Ok? <==> outcome.Ok? || IsTimeout(outcome.error)
    ensures r.Ok? ==> (r.value == 1 <==> outcome.Ok?) && (r.value == 1 || r.value == -1)
    ensures r.Err? ==> r == Err(outcome.error)
  {
    match outcome
    case Ok(_) => Ok(1)
    case Err(e) => if IsTimeout(e) then Ok(-1) else Err(e)
  }

  /** The statuses caput_many returns, given the outcome of each PV's
      connect-and-put and, for 'all', whether each PV ended connected with
      its put complete. */
  function CaputStatuses(nNames: nat, nValues: nat, wait: WaitMode, outcomes: seq<Result<()>>,
                         completes: seq<bool>): (r: Result<seq<int>>)
    requires |completes| == |outcomes|
    ensures r.Ok? ==>
      nNames == nValues && |r.value| == |outcomes| &&
      forall k :: 0 <= k < |outcomes| ==> r.value[k] == 1 || r.value[k] == -1
  {
    if nNames != nValues then Err(CaprotoValueError)
    else
      var out :- MapR(outcomes, PutStatus);
      if wait != All then Ok(AsStatuses(out)) else Ok(CompletionStatuses(completes))
  }

  /** Each put result kept as 1 when it is 1, and -1 otherwise. */
  function AsStatuses(out: seq<int>): (r: seq<int>)
    ensures |r| == |out| && forall k :: 0 <= k < |out| ==> r[k] == (if out[k] == 1 then 1 else -1)
  {
    seq(|out|, k requires 0 <= k < |out| => if out[k] == 1 then 1 else -1)
  }

  /** One status per PV: 1 when it ended connected with its put
      complete, -1 otherwise. */
  function CompletionStatuses(completes: seq<bool>): (r: seq<int>)
    ensures |r| == |completes| && forall k :: 0 <= k < |completes| ==> r[k] == (if completes[k] then 1 else -1)
  {
    seq(|completes|, k requires 0 <= k < |completes| => if completes[k] then 1 else -1)
  }

  /** Mismatched lists fail before anything is done; otherwise there is one
      status per PV, each 1 or -1, and the first exception other than a
      timeout propagates. Without 'all' a status is 1 exactly when the
      put went through; with 'all', exactly when the put completed. */
  lemma CaputStatusesSpec(nNames: nat, nValues: nat, wait: WaitMode, outcomes: seq<Result<()>>,
                          completes: seq<bool>)
    requires |completes| == |outcomes|
    ensures var r := CaputStatuses(nNames, nValues, wait, outcomes, completes);
      (nNames != nValues ==> r == Err(CaprotoValueError)) &&
      (nNames == nValues ==>
         (r.Ok? <==> forall i :: 0 <= i < |outcomes| ==> outcomes[i].Ok? || IsTimeout(outcomes[i].error))) &&
      (nNames == nValues && r.Err? ==>
         exists i :: 0 <= i < |outcomes| && outcomes[i] == Err(r.error) && !IsTimeout(r.error) &&
           forall j :: 0 <= j < i ==> outcomes[j].Ok? || IsTimeout(outcomes[j].error)) &&
      (r.Ok? ==>
         (|r.value| == |outcomes| &&
          forall i :: 0 <= i < |outcomes| ==>
            (r.value[i] == 1 || r.value[i] == -1) &&
            (wait != All ==> (r.value[i] == 1 <==> outcomes[i].Ok?)) &&
            (wait == All ==> (r.value[i] == 1 <==> completes[i]))))
  {
    if nNames == nValues {
      var m := MapR(outcomes, PutStatus);
      if m.Ok? {
        forall i | 0 <= i < |outcomes| ensures m.value[i] == PutStatus(outcomes[i]).value {
        }
      }
    }
  }

  /** caput_many: check the lengths, then go through the PVs in order,
      appending 1 or -1 to `out`; finally report either `out` (with
      anything but 1 as -1) or, with 'all', each PV's completion. */
  method CaputMany(names: seq<string>, values: seq<PyVal>, wait: WaitMode,
                   outcomes: seq<Result<()>>, completes: seq<bool>) returns (r: Result<seq<int>>)
    requires |outcomes| == |names| && |completes| == |names|
    ensures r == CaputStatuses(|names|, |values|, wait, outcomes, completes)
  {
    if |names| != |values| {
      return Err(CaprotoValueError);
    }
    var out :- PutEach(outcomes);
    if wait != All {
      var res := ToStatuses(out);
      return Ok(res);
    }
    var res := ToCompletion(completes);
    r := Ok(res);
  }

  /** caput_many's loop over the PVs. */
  method PutEach(outcomes: seq<Result<()>>) returns (r: Result<seq<int>>)
    ensures r == MapR(outcomes, PutStatus)
  {
    var out: seq<int> := [];
    var i := 0;
    while i < |outcomes|
      invariant 0 <= i <= |outcomes| && |out| == i
      invariant forall j :: 0 <= j < i ==> PutStatus(outcomes[j]).Ok? && out[j] == PutStatus(outcomes[j]).value
    {
      var s := PutStatus(outcomes[i]);
      if s.Err? {
        // outcomes[i] is the first failing entry, so its error is MapR's.
        ghost var m := MapR(outcomes, PutStatus);
        assert m.Err?;
        ghost var k :| 0 <= k < |outcomes| && PutStatus(outcomes[k]) == Err(m.error) &&
                       forall j :: 0 <= j < k ==> PutStatus(outcomes[j]).Ok?;
        assert k == i;
        return Err(s.error);
      }
      out := out + [s.value];
      i := i + 1;
    }
    ghost var m := MapR(outcomes, PutStatus);
    assert m.Ok?;
    assert m.value == out;
    r := Ok(out);
  }

  method ToStatuses(out: seq<int>) returns (res: seq<int>)
    ensures res == AsStatuses(out)
  {
    res := [];
    var j := 0;
    while j < |out|
      invariant 0 <= j <= |out| && |res| == j
      invariant forall k :: 0 <= k < j ==> res[k] == (if out[k] == 1 then 1 else -1)
    {
      res := res + [if out[j] == 1 then 1 else -1];
      j := j + 1;
    }
  }

  method ToCompletion(completes: seq<bool>) returns (res: seq<int>)
    ensures res == CompletionStatuses(completes)
  {
    res := [];
    var j := 0;
    while j < |completes|
      invariant 0 <= j <= |completes| && |res| == j
      invariant forall k :: 0 <= k < j ==> res[k] == (if completes[k] then 1 else -1)
    {
      res := res + [if completes[j] then 1 else -1];
      j := j + 1;
    }
  }

  // ---------------------------------------------------------------------
  // caget_many's result assembly

  /** What caget_many holds for one PV when its wait ends: still pending,
      or connected with the channel's report and its control-type
      reading. */
  datatype Gathered = Pending | Read(channel: ChannelInfo, reading: ReadResponse)

  /** The enum names of a reading, decoded; an empty list stays empty and
      no names stay None. */
  function ReadingNames(cmd: ReadResponse): (r: Option<seq<string>>)
    ensures r.Some? <==> cmd.metadata.enumStrings.Some?
    ensures r.Some? ==>
      (|r.value| == |cmd.metadata.enumStrings.value| &&
       forall k :: 0 <= k < |r.value| ==> EncodeLatin1(r.value[k]) == Some(cmd.metadata.enumStrings.value[k]))
  {
    match cmd.metadata.enumStrings
    case None => None
    case Some(xs) =>
      var names := seq(|xs|, k requires 0 <= k < |xs| => DecodeLatin1(xs[k]));
      assert forall k :: 0 <= k < |xs| ==> EncodeLatin1(names[k]) == Some(xs[k]) by {
        forall k | 0 <= k < |xs| ensures EncodeLatin1(names[k]) == Some(xs[k]) {
          EncodeDecodeLatin1(xs[k]);
        }
      }
      Some(names)
  }

  /** final_get: None for a pending PV; otherwise the reading converted
      with the control type of the channel's native type, and the value
      computed with the native type itself. */
  function FinalGet(g: Gathered, asString: bool, count: Option<int>, asNumpy: bool): (r: Result<PyVal>)
    ensures r.Err? ==> g.Read?
    ensures g.Read? && r.Ok? && !asString && !InTypes(Some(g.channel.nativeType), StringTypes) ==>
      var data := g.reading.data;
      if g.channel.nativeCount == 1 && |data| == 1 && count.None? then r.value == data[0]
      else (r.value.PList? || r.value.PArray?) && r.value.items == data
  {
    match g
    case Pending => Ok(PNone)
    case Read(ch, cmd) =>
      if !IsNative(ch.nativeType) then Err(KeyError)
      else
        var names := ReadingNames(cmd);
        var info :- ReadResponseToPyepics(Some(FieldType(Control, ch.nativeType)), cmd, names);
        PyepicsGetValue(cmd.data, info["char_value"], Some(ch.nativeType), PInt(ch.nativeCount), count,
                        names, asString, asNumpy)
  }

  predicate AnyPending(gs: seq<Gathered>) {
    exists i :: 0 <= i < |gs| && gs[i].Pending?
  }

  function CagetMany(gs: seq<Gathered>, asString: bool, count: Option<int>, asNumpy: bool,
                     raises: bool): (r: Result<seq<PyVal>>)
    ensures r.Ok? ==>
      |r.value| == |gs| && forall i :: 0 <= i < |gs| && gs[i].Pending? ==> r.value[i] == PNone
    ensures r.Err? && !raises ==> exists i :: 0 <= i < |gs| && gs[i].Read?
  {
    if raises && AnyPending(gs) then Err(CaprotoTimeoutError)
    else MapR(gs, g => FinalGet(g, asString, count, asNumpy))
  }

  /** One value per PV, in order: None for a PV still pending (or a
      timeout error when asked to raise), each other one its own
      final_get value. */
  lemma CagetManySpec(gs: seq<Gathered>, asString: bool, count: Option<int>, asNumpy: bool, raises: bool)
    ensures var r := CagetMany(gs, asString, count, asNumpy, raises);
      (raises && AnyPending(gs) ==> r == Err(CaprotoTimeoutError)) &&
      (!(raises && AnyPending(gs)) ==>
         (r.Ok? <==> forall i :: 0 <= i < |gs| ==> FinalGet(gs[i], asString, count, asNumpy).Ok?)) &&
      (r.Ok? ==>
         (|r.value| == |gs| &&
          forall i :: 0 <= i < |gs| ==>
            (gs[i].Pending? ==> r.value[i] == PNone) &&
            (gs[i].Read? ==> Ok(r.value[i]) == FinalGet(gs[i], asString, count, asNumpy))))
  {
    if !(raises && AnyPending(gs)) {
      var m := MapR(gs, g => FinalGet(g, asString, count, asNumpy));
      if m.Ok? {
        forall i | 0 <= i < |gs| ensures Ok(m.value[i]) == FinalGet(gs[i], asString, count, asNumpy) {
        }
      }
    }
  }

  /** An enum PV read as a string gives the name its index selects, taken
      from the names in its own reading. */
  lemma CagetManyEnumName(ch: ChannelInfo, cmd: ReadResponse, count: Option<int>, asNumpy: bool, i: nat)
    requires ch.nativeType == ENUM && cmd.data == [PInt(i)]
    requires cmd.metadata.enumStrings.Some? && i < |cmd.metadata.enumStrings.value|
    requires FinalGet(Read(ch, cmd), true, count, asNumpy).Ok?
    ensures var r := FinalGet(Read(ch, cmd), true, count, asNumpy).value;
      r.PStr? && EncodeLatin1(r.s) == Some(cmd.metadata.enumStrings.value[i])
  {
    var names := ReadingNames(cmd);
    assert AsIndex(PInt(i)) == Some(i);
    PyepicsGetValueSpec(cmd.data, ReadResponseToPyepics(Some(FieldType(Control, ENUM)), cmd, names).value["char_value"],
                        Some(ENUM), PInt(ch.nativeCount), count, names, true, asNumpy);
  }
}
