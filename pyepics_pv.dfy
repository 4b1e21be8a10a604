/** The pyepics-style PV handle of the threading client. It keeps a cache
    of the channel's value and metadata, a registry of user callbacks
    keyed by increasing indices, a connected flag and a connect signal,
    and at most one automatic monitor subscription. The channel it talks
    to is the threading client's channel handle, modelled as an object
    whose answers are given in advance. */
module PyepicsPv {
  import opened Common
  import opened Dbr
  import opened PyepicsTranslate

  /** Channels no longer than this are monitored automatically. */
  const AUTOMONITOR_MAXLENGTH := 65536

  const DBE_VALUE := 1
  const DBE_ALARM := 4
  /** DBE_VALUE | DBE_ALARM */
  const DEFAULT_SUBSCRIPTION_MASK := 5

  /** AccessRights: bit 0 is READ, bit 1 is WRITE. */
  type Rights = r: int | 0 <= r < 4

  const ACCESS_STRS: seq<string> := ["no access", "read-only", "write-only", "read/write"]

  /** What a connected channel reports about itself. */
  datatype ChannelInfo = ChannelInfo(nativeType: ChType, nativeCount: int, accessRights: Rights)

  datatype ReadRequest = ReadRequest(dataType: ChType, count: Option<int>)
  datatype WriteRequest = WriteRequest(value: PyVal, wait: bool, notify: bool, withCallback: bool)
  datatype SubscribeRequest = SubscribeRequest(dataType: PyVal, count: Option<int>, mask: int)

  /** The threading client's channel handle, as far as the PV uses it. The
      server's answers to the next reads are queued in `responses`; an
      empty queue is a read the server leaves unanswered. Every request
      is logged. */
  class CaChannel {
    var connected: bool
    var channel: Option<ChannelInfo>
    var responses: seq<ReadResponse>
    var answersWrites: bool
    var readLog: seq<ReadRequest>
    var writeLog: seq<WriteRequest>
    var subscriptions: seq<SubscribeRequest>

    constructor(connected: bool, channel: Option<ChannelInfo>, responses: seq<ReadResponse>, answersWrites: bool)
      ensures this.connected == connected && this.channel == channel
      ensures this.responses == responses && this.answersWrites == answersWrites
      ensures readLog == [] && writeLog == [] && subscriptions == []
    {
      this.connected := connected;
      this.channel := channel;
      this.responses := responses;
      this.answersWrites := answersWrites;
      readLog := [];
      writeLog := [];
      subscriptions := [];
    }

    /** A read: DisconnectedError when not connected, else the request is
        sent and the next queued answer returned, or TimeoutError. */
    method Read(dataType: ChType, count: Option<int>) returns (r: Result<ReadResponse>)
      modifies this`readLog, this`responses
      ensures !connected ==> r == Err(DisconnectedError) && readLog == old(readLog) && responses == old(responses)
      ensures connected ==> readLog == old(readLog) + [ReadRequest(dataType, count)]
      ensures connected && old(responses) == [] ==> r == Err(TimeoutError) && responses == []
      ensures connected && old(responses) != [] ==> r == Ok(old(responses)[0]) && responses == old(responses)[1..]
    {
      if !connected {
        return Err(DisconnectedError);
      }
      readLog := readLog + [ReadRequest(dataType, count)];
      if responses == [] {
        return Err(TimeoutError);
      }
      r := Ok(responses[0]);
      responses := responses[1..];
    }

    /** A write: sent when connected; waiting for an answer that does not
        come is a TimeoutError. */
    method Write(value: PyVal, wait: bool, notify: bool, withCallback: bool) returns (r: Result<()>)
      modifies this`writeLog
      ensures !connected ==> r == Err(DisconnectedError) && writeLog == old(writeLog)
      ensures connected ==> writeLog == old(writeLog) + [WriteRequest(value, wait, notify, withCallback)]
      ensures connected ==> (r.Err? <==> wait && !answersWrites)
      ensures r.Err? && connected ==> r.error == TimeoutError
    {
      if !connected {
        return Err(DisconnectedError);
      }
      writeLog := writeLog + [WriteRequest(value, wait, notify, withCallback)];
      if wait && !answersWrites {
        return Err(TimeoutError);
      }
      r := Ok(());
    }

    method Subscribe(dataType: PyVal, count: Option<int>, mask: int) returns (r: Result<SubscribeRequest>)
      modifies this`subscriptions
      ensures !connected ==> r == Err(DisconnectedError) && subscriptions == old(subscriptions)
      ensures connected ==> r == Ok(SubscribeRequest(dataType, count, mask)) &&
                            subscriptions == old(subscriptions) + [r.value]
    {
      if !connected {
        return Err(DisconnectedError);
      }
      r := Ok(SubscribeRequest(dataType, count, mask));
      subscriptions := subscriptions + [r.value];
    }
  }

  // ---------------------------------------------------------------------
  // Values kept in the cache.

  /** The `auto_monitor` setting: undecided (None), a flag, or an event
      mask. */
  datatype AutoMonitor = Undecided | Monitor(on: bool) | Mask(mask: int)

  predicate MonitorWanted(a: AutoMonitor) {
    match a
    case Undecided => false
    case Monitor(on) => on
    case Mask(m) => m != 0
  }

  /** A user callback: its identity and whether it is callable. */
  datatype Handler = Handler(name: string, isCallable: bool)
  datatype Registered = Registered(handler: Handler, kwargs: map<string, PyVal>)
  /** One call of a user callback: which one, its index, its keywords. */
  datatype Call = Call(handler: Handler, index: nat, kwargs: map<string, PyVal>)

  /** The constructor's `callback` argument: none, one callable, or a
      list of them. */
  datatype CallbackArg = NoCallback | One(h: Handler) | Several(hs: seq<Handler>)

  /** The PV's fixed attribute names; the cache always has each of them. */
  const FIELDS: set<string> :=
    USED +
    {"pvname", "char_value", "status", "ftype", "chid", "host",
     "access", "read_access", "severity", "timestamp", "posixseconds",
     "nanoseconds", "precision", "units", "upper_disp_limit",
     "lower_disp_limit", "upper_alarm_limit", "lower_alarm_limit", "lower_warning_limit",
     "upper_warning_limit", "upper_ctrl_limit", "lower_ctrl_limit", "put_complete", "nelm"}

  /** The fields the PV's own methods look up. */
  const USED: set<string> := {"type", "typefull", "value", "count", "enum_strs", "write_access"}

  /** The cache as the constructor sets it up. */
  function InitialArgs(pvname: string, count: Option<int>): (r: map<string, PyVal>)
    ensures "pvname" in r && r["pvname"] == PStr(pvname) && "nelm" in r && r["nelm"] == PInt(-1)
    ensures USED <= r.Keys && r["value"] == PNone && r["write_access"] == PNone && r["enum_strs"] == PNone
  {
    var blank := map k | k in FIELDS :: PNone;
    assert USED <= blank.Keys;
    blank["pvname" := PStr(pvname)]
         ["count" := if count.Some? then PInt(count.value) else PNone]
         ["nelm" := PInt(-1)]
  }

  /** The initial cache holds exactly the PV's attribute names. */
  lemma InitialArgsFields(pvname: string, count: Option<int>)
    ensures InitialArgs(pvname, count).Keys == FIELDS
  {
  }

  /** A cached type code, or None when it is unset or not a type. */
  function TypeArg(v: PyVal): Option<ChType> {
    if v.PInt? && 0 <= v.i <= 38 then Some(v.i) else None
  }

  /** A converted read response never carries the channel's type codes,
      so merging it into the cache keeps them. */
  lemma InfoKeepsTypes(fullType: Option<ChType>, cmd: ReadResponse, enumStrings: Option<seq<string>>)
    requires ReadResponseToPyepics(fullType, cmd, enumStrings).Ok?
    ensures "type" !in ReadResponseToPyepics(fullType, cmd, enumStrings).value
    ensures "typefull" !in ReadResponseToPyepics(fullType, cmd, enumStrings).value
  {
    ReadResponseKeys(fullType, cmd, enumStrings);
    ParseDbrMetadataSpec(cmd.metadata);
    TypesNotMetadata();
  }

  lemma TypesNotMetadata()
    ensures "type" !in MetadataKeys && "typefull" !in MetadataKeys
    ensures "type" !in {"raw_value", "value", "char_value"} && "typefull" !in {"raw_value", "value", "char_value"}
  {
    forall k | k in MetadataKeys + {"raw_value", "value", "char_value"} ensures k[1] != 'y' {
    }
  }

  /** A list, tuple or array, whose elements can be taken. */
  predicate IsSequence(v: PyVal) {
    v.PList? || v.PTuple? || v.PArray?
  }

  /** A cached list of enum names, or None when there is none. */
  function NamesArg(v: PyVal): Option<seq<string>> {
    if (v.PTuple? || v.PList?) && forall i :: 0 <= i < |v.items| ==> v.items[i].PStr? then
      Some(seq(|v.items|, i requires 0 <= i < |v.items| => v.items[i].s))
    else None
  }

  // ---------------------------------------------------------------------
  // Callback registry.

  /** The callbacks the constructor registers: a list puts each callable
      at its position, a single callable goes to index 0. */
  function InitialCallbacks(cb: CallbackArg): (r: map<nat, Registered>)
    ensures forall i :: i in r ==> r[i].handler.isCallable && r[i].kwargs == map[]
    ensures cb.Several? ==> forall i: nat :: i in r <==> i < |cb.hs| && cb.hs[i].isCallable
    ensures cb.Several? ==> forall i :: i in r ==> r[i].handler == cb.hs[i]
    ensures cb.One? ==> r == (if cb.h.isCallable then map[0 := Registered(cb.h, map[])] else map[])
    ensures cb.NoCallback? ==> r == map[]
  {
    match cb
    case NoCallback => map[]
    case One(h) => if h.isCallable then map[0 := Registered(h, map[])] else map[]
    case Several(hs) =>
      map i: nat | i < |hs| && hs[i].isCallable :: Registered(hs[i], map[])
  }

  /** The first index the constructor leaves free. */
  function FirstFreeIndex(cb: CallbackArg): (n: nat)
    ensures forall i :: i in InitialCallbacks(cb) ==> i < n
  {
    match cb
    case NoCallback => 0
    case One(_) => 1
    case Several(hs) => |hs|
  }

  /** A registry whose counter is past every index in use. */
  predicate CounterAhead(cbs: map<nat, Registered>, counter: nat) {
    forall i :: i in cbs ==> i < counter
  }

  /** add_callback's registry step: the counter's value becomes the new
      index and the counter moves on. */
  function AddEntry(cbs: map<nat, Registered>, counter: nat, e: Registered): (map<nat, Registered>, nat) {
    (cbs[counter := e], counter + 1)
  }

  /** With the counter ahead, adding never replaces a callback, and the
      counter stays ahead. */
  lemma AddNeverReplaces(cbs: map<nat, Registered>, counter: nat, e: Registered)
    requires CounterAhead(cbs, counter)
    ensures var (cbs', counter') := AddEntry(cbs, counter, e);
      counter !in cbs && cbs'.Keys == cbs.Keys + {counter} && cbs'[counter] == e &&
      (forall i :: i in cbs ==> cbs'[i] == cbs[i]) && CounterAhead(cbs', counter')
  {
  }

  /** As written, the counter starts at 0 whatever the constructor
      registered: after a list of two callables, the first callback added
      is given index 0 and silently replaces the first of them. */
  lemma CounterAsWrittenReplaces(f: Handler, g: Handler, h: Handler)
    requires f.isCallable && g.isCallable && h.isCallable && f != h && g != f
    ensures var cbs := InitialCallbacks(Several([f, g]));
      0 in cbs && cbs[0].handler == f &&
      !CounterAhead(cbs, 0) &&
      var (cbs', _) := AddEntry(cbs, 0, Registered(h, map[]));
      cbs'.Keys == cbs.Keys && forall i :: i in cbs' ==> cbs'[i].handler != f
  {
    var cbs := InitialCallbacks(Several([f, g]));
    assert 0 in cbs && 1 in cbs;
    assert cbs.Keys == {0, 1};
  }

  /** Starting the counter at the first free index keeps it ahead. */
  lemma CounterStartAhead(cb: CallbackArg)
    ensures CounterAhead(InitialCallbacks(cb), FirstFreeIndex(cb))
  {
  }

  /** The indices of a registry in ascending order. */
  function SortedKeys(s: set<nat>): (r: seq<nat>)
    ensures |r| == |s|
    ensures forall i :: i in s <==> i in r
    ensures forall a, b :: 0 <= a < b < |r| ==> r[a] < r[b]
    decreases |s|
  {
    if s == {} then []
    else
      var m := MinOf(s);
      var rest := SortedKeys(s - {m});
      SortedCons(s, m, rest);
      [m] + rest
  }

  /** The least index in front of the others in ascending order gives all
      of them in ascending order. */
  lemma SortedCons(s: set<nat>, m: nat, rest: seq<nat>)
    requires m in s && forall x :: x in s ==> m <= x
    requires |rest| == |s - {m}| && forall i :: i in s - {m} <==> i in rest
    requires forall a, b :: 0 <= a < b < |rest| ==> rest[a] < rest[b]
    ensures |[m] + rest| == |s|
    ensures forall i :: i in s <==> i in [m] + rest
    ensures forall a, b :: 0 <= a < b < |[m] + rest| ==> ([m] + rest)[a] < ([m] + rest)[b]
  {
    var r := [m] + rest;
    forall a, b | 0 <= a < b < |r| ensures r[a] < r[b] {
      assert r[b] == rest[b - 1] && r[b] in s - {m};
      if a > 0 {
        assert r[a] == rest[a - 1];
      }
    }
    forall i: nat ensures i in s <==> i in r {
      assert i in r <==> i == m || i in rest;
    }
  }

  function MinOf(s: set<nat>): (m: nat)
    requires s != {}
    ensures m in s && forall x :: x in s ==> m <= x
  {
    MinExists(s);
    var m :| m in s && forall x :: x in s ==> m <= x;
    m
  }

  lemma MinExists(s: set<nat>)
    requires s != {}
    ensures exists m :: m in s && forall x :: x in s ==> m <= x
  {
    var m := MinWitness(s);
  }

  lemma {:induction false} MinWitness(s: set<nat>) returns (m: nat)
    requires s != {}
    ensures m in s && forall x :: x in s ==> m <= x
    decreases |s|
  {
    var y :| y in s;
    if s == {y} {
      m := y;
    } else {
      var m' := MinWitness(s - {y});
      m := if y < m' then y else m';
      forall x | x in s ensures m <= x {
        if x != y { assert x in s - {y}; }
      }
    }
  }

  /** The keywords a callback runs with: the cached data, then its own
      keywords, then its index as `cb_info` (the PV itself is not
      modelled). */
  function CallKeywords(args: map<string, PyVal>, r: Registered, index: nat): (k: map<string, PyVal>)
    ensures k.Keys == args.Keys + r.kwargs.Keys + {"cb_info"}
    ensures k["cb_info"] == PTuple([PInt(index)])
    ensures forall x :: x in r.kwargs && x != "cb_info" ==> k[x] == r.kwargs[x]
    ensures forall x :: x in args && x !in r.kwargs && x != "cb_info" ==> k[x] == args[x]
  {
    (args + r.kwargs)["cb_info" := PTuple([PInt(index)])]
  }

  /** The calls run_callbacks makes, one per registered index in the
      given order. */
  function CallsFor(args: map<string, PyVal>, cbs: map<nat, Registered>, order: seq<nat>): (r: seq<Call>)
    requires forall j :: 0 <= j < |order| ==> order[j] in cbs
    ensures |r| == |order|
    ensures forall j :: 0 <= j < |order| ==>
      r[j] == Call(cbs[order[j]].handler, order[j], CallKeywords(args, cbs[order[j]], order[j]))
  {
    seq(|order|, j requires 0 <= j < |order| =>
      Call(cbs[order[j]].handler, order[j], CallKeywords(args, cbs[order[j]], order[j])))
  }

  lemma CallsForSnoc(args: map<string, PyVal>, cbs: map<nat, Registered>, order: seq<nat>, k: nat)
    requires forall j :: 0 <= j < |order| ==> order[j] in cbs
    requires k in cbs
    ensures CallsFor(args, cbs, order + [k]) ==
            CallsFor(args, cbs, order) + [Call(cbs[k].handler, k, CallKeywords(args, cbs[k], k))]
  {
    var a := CallsFor(args, cbs, order + [k]);
    var b := CallsFor(args, cbs, order) + [Call(cbs[k].handler, k, CallKeywords(args, cbs[k], k))];
    assert |a| == |b|;
    forall j | 0 <= j < |a| ensures a[j] == b[j] {
      assert (order + [k])[j] == if j < |order| then order[j] else k;
    }
  }

  lemma CallsForPrefixStep(args: map<string, PyVal>, cbs: map<nat, Registered>, order: seq<nat>, j: nat)
    requires forall i :: 0 <= i < |order| ==> order[i] in cbs
    requires j < |order|
    ensures CallsFor(args, cbs, order[..j + 1]) ==
            CallsFor(args, cbs, order[..j]) + [Call(cbs[order[j]].handler, order[j], CallKeywords(args, cbs[order[j]], order[j]))]
  {
    assert order[..j + 1] == order[..j] + [order[j]];
    CallsForSnoc(args, cbs, order[..j], order[j]);
  }

  // ---------------------------------------------------------------------
  // get_with_metadata's choice between the cache and the network.

  /** The type a get requests: the form's type for the native type, except
      that a char type not asked as a string is read as the matching INT
      type, which also rules out the monitor's cached value. */
  function RequestType(form: Form, nt: ChType, asString: bool, useMonitor: bool): (r: (ChType, bool))
    requires IsNative(nt)
  {
    var dt := FieldType(form, nt);
    if !asString && dt in CharTypes then
      (if dt == CHAR then INT else if dt == TIME_CHAR then TIME_INT else CTRL_INT, false)
    else (dt, useMonitor)
  }

  lemma RequestTypeSpec(form: Form, nt: ChType, asString: bool, useMonitor: bool)
    requires IsNative(nt)
    ensures var (dt, mon) := RequestType(form, nt, asString, useMonitor);
      (!asString && FieldType(form, nt) in CharTypes ==>
         NativeType(dt) == Ok(INT) && !mon && dt == FieldType(form, INT)) &&
      (asString || FieldType(form, nt) !in CharTypes ==> dt == FieldType(form, nt) && mon == useMonitor)
  {
    var dt := FieldType(form, nt);
    if !asString && dt in CharTypes {
      GroupingsByNative(dt);
    }
  }

  /** Whether the cached value cannot serve the request: the monitor is not
      to be used, there is no subscription, nothing is cached, or more
      elements are asked for than are cached. `len()` of a cached scalar
      raises TypeError. */
  function NeedsRead(useMonitor: bool, subscribed: bool, cached: PyVal, count: Option<int>): (r: Result<bool>)
    ensures r.Err? <==> useMonitor && subscribed && cached != PNone && count.Some? && !IsIterable(cached)
    ensures r.Ok? ==> (r.value <==>
      !useMonitor || !subscribed || cached == PNone || (count.Some? && count.value > PyLen(cached).value))
  {
    if !useMonitor || !subscribed || cached == PNone then Ok(true)
    else if count.None? then Ok(false)
    else
      var n :- PyLen(cached);
      Ok(count.value > n)
  }

  /** The read a get with these settings makes, if any: KeyError when the
      cached type is not a native type; without a usable cached value
      there is always a read, and a read asks for the requested count. */
  function ReadPlan(form: Form, typeArg: PyVal, asString: bool, useMonitor: bool,
                    subscribed: bool, cached: PyVal, count: Option<int>): (r: Result<Option<ReadRequest>>)
    ensures !(typeArg.PInt? && IsNative(typeArg.i)) ==> r == Err(KeyError)
    ensures r.Err? ==> r.error == KeyError || r.error == TypeError
    ensures r.Ok? && (!useMonitor || !subscribed || cached == PNone) ==> r.value.Some?
    ensures r.Ok? && r.value.Some? ==> r.value.value.count == count
  {
    if !(typeArg.PInt? && IsNative(typeArg.i)) then Err(KeyError)
    else
      var (dt, mon) := RequestType(form, typeArg.i, asString, useMonitor);
      var need :- NeedsRead(mon, subscribed, cached, count);
      Ok(if need then Some(ReadRequest(dt, count)) else None)
  }

  /** The requests a plan sends: none, or its one read. */
  function Planned(plan: Option<ReadRequest>): seq<ReadRequest> {
    if plan.Some? then [plan.value] else []
  }

  /** A get's direct step, told with the cache, answers and read log before
      (`a0`, `answers`, `log`) and after (`a1`, `answers1`, `log1`): the
      planned read (none when the value is cached or monitored), the
      converted answer `info` (nothing without a read), and, unless names
      had to be fetched for an enum asked as a string, the cache gains
      exactly `info`, one answer is used and the read is the only one sent. */
  ghost predicate DirectStep(a0: map<string, PyVal>, answers: seq<ReadResponse>, log: seq<ReadRequest>,
                             count: Option<int>, asString: bool, useMonitor: bool, subscribed: bool,
                             typefull: Option<ChType>, form: Form, plan: Option<ReadRequest>,
                             info: map<string, PyVal>, a1: map<string, PyVal>, answers1: seq<ReadResponse>,
                             log1: seq<ReadRequest>)
    requires USED <= a0.Keys
  {
    match plan
    case None =>
      ReadPlan(form, a0["type"], asString, useMonitor, subscribed, a0["value"], count) == Ok(plan) &&
      info == map[] &&
      (!(asString && InTypes(typefull, EnumTypes)) ==>
         a1 == a0 + info && answers1 == answers[|Planned(plan)|..] && log1 == log + Planned(plan))
    case Some(_) =>
      ReadPlan(form, a0["type"], asString, useMonitor, subscribed, a0["value"], count) == Ok(plan) &&
      answers != [] && ReadResponseToPyepics(typefull, answers[0], NamesArg(a0["enum_strs"])) == Ok(info) &&
      (!(asString && InTypes(typefull, EnumTypes)) ==>
         a1 == a0 + info && answers1 == answers[|Planned(plan)|..] && log1 == log + Planned(plan))
  }

  /** The subscription auto-monitoring asks for, from the cache `a`, the
      monitor setting and the count. */
  function SubscriptionFor(a: map<string, PyVal>, mon: AutoMonitor, count: Option<int>): SubscribeRequest
    requires "typefull" in a
  {
    SubscribeRequest(a["typefull"], count,
                     if mon == Monitor(true) then DEFAULT_SUBSCRIPTION_MASK
                     else if mon.Mask? then mon.mask else 0)
  }

  /** _connection_established told with the state before (`a0` … `flag0`)
      and after (`a1` … `flag1`), for the channel report `ch` of a handle
      that is `up` or not: nothing without channel info, a KeyError and
      nothing for a type that is not native; otherwise the channel's
      entries and access rights cached, the access callbacks told, the
      auto-monitor decided if it was not, and, on success (always, when
      the channel is up), the connected flag raised and the monitor
      subscribed once when wanted. */
  ghost predicate SetUpStep(pv: PV, ch: Option<ChannelInfo>, up: bool,
                            a0: map<string, PyVal>, acc0: seq<(Handler, bool, bool)>, mon0: AutoMonitor,
                            sub0: Option<SubscribeRequest>, subs0: seq<SubscribeRequest>, flag0: bool, r: Result<()>,
                            a1: map<string, PyVal>, acc1: seq<(Handler, bool, bool)>, mon1: AutoMonitor,
                            sub1: Option<SubscribeRequest>, subs1: seq<SubscribeRequest>, flag1: bool)
    requires USED <= a0.Keys
  {
    match ch
    case None =>
      r == Ok(()) &&
      a1 == a0 && acc1 == acc0 && mon1 == mon0 && sub1 == sub0 && subs1 == subs0 && flag1 == flag0
    case Some(info) =>
      if !IsNative(info.nativeType) then
        r == Err(KeyError) &&
        a1 == a0 && acc1 == acc0 && mon1 == mon0 && sub1 == sub0 && subs1 == subs0 && flag1 == flag0
      else
        a1 == PV.ChannelArgs(a0, pv.form, info) + AccessArgs(info.accessRights) &&
        acc1 == acc0 + pv.AccessCalls(info.accessRights) &&
        mon1 == (if mon0 == Undecided
                 then Monitor((if pv.defaultCount.Some? then pv.defaultCount.value else info.nativeCount) < AUTOMONITOR_MAXLENGTH)
                 else mon0) &&
        (up ==> r.Ok?) &&
        (r.Ok? ==>
           var req := SubscriptionFor(a1, mon1, pv.defaultCount);
           flag1 &&
           sub1 == (if MonitorWanted(mon1) && sub0.None? then Some(req) else sub0) &&
           subs1 == subs0 + (if MonitorWanted(mon1) && sub0.None? then [req] else [])) &&
        (r.Err? ==> flag1 == flag0)
  }

  /** A read is made exactly when one of the four conditions holds, with
      char types not asked as strings always read. */
  lemma ReadPlanSpec(form: Form, nt: ChType, asString: bool, useMonitor: bool,
                     subscribed: bool, cached: PyVal, count: Option<int>)
    requires IsNative(nt)
    requires count.Some? && cached != PNone ==> IsIterable(cached)
    ensures var plan := ReadPlan(form, PInt(nt), asString, useMonitor, subscribed, cached, count);
      var charAsInt := !asString && FieldType(form, nt) in CharTypes;
      plan.Ok? &&
      (plan.value.Some? <==>
         charAsInt || !useMonitor || !subscribed || cached == PNone ||
         (count.Some? && count.value > PyLen(cached).value)) &&
      (plan.value.Some? ==>
         (plan.value.value.count == count &&
          (charAsInt ==> NativeType(plan.value.value.dataType) == Ok(INT)) &&
          (!charAsInt ==> plan.value.value.dataType == FieldType(form, nt))))
  {
    RequestTypeSpec(form, nt, asString, useMonitor);
  }

  // ---------------------------------------------------------------------
  // put's normalisation of the value written.

  /** `v.encode()` of one element: text is encoded, anything else has no
      `encode`. */
  function EncodeElement(v: PyVal): Result<PyVal> {
    if !v.PStr? then Err(AttributeError)
    else match EncodeLatin1(v.s)
      case None => Err(UnicodeEncodeError)
      case Some(b) => Ok(PBytes(b))
  }

  /** Text for an enum becomes its index, found in the cached names. */
  function EnumIndex(value: PyVal, typefull: Option<ChType>, enumStrs: PyVal): Result<PyVal> {
    if InTypes(typefull, EnumTypes) && value.PStr? then
      if !(enumStrs.PTuple? || enumStrs.PList?) then Err(AttributeError)
      else match IndexOf(enumStrs.items, value)
        case None => Err(CaprotoValueError)
        case Some(i) => Ok(PInt(i))
    else Ok(value)
  }

  /** Text for a char type becomes its bytes and one NUL; other text and
      any scalar are wrapped in a 1-tuple. */
  function WrapValue(v: PyVal, typefull: Option<ChType>): Result<PyVal> {
    if v.PStr? then
      if InTypes(typefull, CharTypes) then
        match EncodeLatin1(v.s)
        case None => Err(UnicodeEncodeError)
        case Some(b) => Ok(PBytes(b + [0]))
      else Ok(PTuple([v]))
    else if !IsIterable(v) then Ok(PTuple([v]))
    else Ok(v)
  }

  /** A sequence whose first element is text has every element encoded. */
  function EncodeElements(v: PyVal): Result<PyVal> {
    if (v.PList? || v.PTuple? || v.PArray?) && |v.items| > 0 && v.items[0].PStr? then
      var es :- MapR(v.items, EncodeElement);
      Ok(PTuple(es))
    else Ok(v)
  }

  /** What put() writes is always a sequence (scalars are wrapped), and it
      fails only on a malformed names cache, an unknown enum name or text
      that is not Latin-1. */
  function NormalizePut(value: PyVal, typefull: Option<ChType>, enumStrs: PyVal): (r: Result<PyVal>)
    ensures r.Ok? ==> IsIterable(r.value)
    ensures r.Err? ==> r.error == AttributeError || r.error == CaprotoValueError || r.error == UnicodeEncodeError
  {
    var v :- EnumIndex(value, typefull, enumStrs);
    var w :- WrapValue(v, typefull);
    EncodeElements(w)
  }

  /** The cached enum names matter to put only for text put to an enum. */
  lemma PutIgnoresNames(value: PyVal, typefull: Option<ChType>, e1: PyVal, e2: PyVal)
    requires InTypes(typefull, EnumTypes) && value.PStr? ==> e1 == e2
    ensures NormalizePut(value, typefull, e1) == NormalizePut(value, typefull, e2)
  {
  }

  /** Text put to an enum becomes the 1-tuple of the first index holding
      that name, or fails with CaprotoValueError when no name matches. */
  lemma PutEnumText(s: string, t: ChType, names: seq<PyVal>)
    requires t in EnumTypes
    ensures var r := NormalizePut(PStr(s), Some(t), PTuple(names));
      (r.Ok? <==> PStr(s) in names) &&
      (r.Err? ==> r.error == CaprotoValueError) &&
      (r.Ok? ==> exists i :: 0 <= i < |names| && names[i] == PStr(s) && PStr(s) !in names[..i] &&
                            r.value == PTuple([PInt(i)]))
  {
    match IndexOf(names, PStr(s))
    case None =>
    case Some(i) =>
      assert NormalizePut(PStr(s), Some(t), PTuple(names)) == Ok(PTuple([PInt(i)]));
  }

  /** Text put to a char type is its Latin-1 bytes followed by exactly one
      NUL, the only NUL when the text has none. */
  lemma PutCharText(s: string, t: ChType, enumStrs: PyVal)
    requires t in CharTypes
    ensures var r := NormalizePut(PStr(s), Some(t), enumStrs);
      (r.Ok? <==> IsLatin1(s)) &&
      (r.Err? ==> r.error == UnicodeEncodeError) &&
      (r.Ok? ==> r.value.PBytes? && |r.value.bs| == |s| + 1 &&
                 r.value.bs[..|s|] == EncodeLatin1(s).value && r.value.bs[|s|] == 0 &&
                 ((forall k :: 0 <= k < |s| ==> s[k] != 0 as char) ==>
                    CutAtNul(r.value.bs) == EncodeLatin1(s).value))
  {
    assert EnumIndex(PStr(s), Some(t), enumStrs) == Ok(PStr(s));
    if IsLatin1(s) {
      var b := EncodeLatin1(s).value;
      assert WrapValue(PStr(s), Some(t)) == Ok(PBytes(b + [0]));
      assert EncodeElements(PBytes(b + [0])) == Ok(PBytes(b + [0]));
      assert (b + [0])[..|s|] == b;
      if forall k :: 0 <= k < |s| ==> s[k] != 0 as char {
        CutBeforeNul(b, []);
      }
    }
  }

  /** Cutting bytes without NUL followed by a NUL gives those bytes back. */
  lemma {:induction false} CutBeforeNul(b: bytes, rest: bytes)
    requires forall k :: 0 <= k < |b| ==> b[k] != 0
    ensures CutAtNul(b + [0] + rest) == b
    decreases |b|
  {
    if b != [] {
      assert (b + [0] + rest)[1..] == b[1..] + [0] + rest;
      CutBeforeNul(b[1..], rest);
    }
  }

  /** Other text, and any scalar, is put as a 1-tuple (text encoded). */
  lemma PutWrapsScalars(value: PyVal, typefull: Option<ChType>, enumStrs: PyVal)
    requires !InTypes(typefull, EnumTypes) && !InTypes(typefull, CharTypes)
    requires !IsIterable(value) || (value.PStr? && IsLatin1(value.s))
    ensures NormalizePut(value, typefull, enumStrs) ==
      Ok(if value.PStr? then PTuple([PBytes(EncodeLatin1(value.s).value)]) else PTuple([value]))
  {
    if value.PStr? {
      var m := MapR([value], EncodeElement);
      assert m.Ok? && |m.value| == 1 && m.value[0] == PBytes(EncodeLatin1(value.s).value);
      assert m.value == [PBytes(EncodeLatin1(value.s).value)];
    }
  }

  /** Text put to a char type is read back as the same text: the display
      value of a read whose raw bytes start with what was written. */
  lemma CharPutReadRoundTrip(s: string, t: ChType, enumStrs: PyVal, cmd: ReadResponse, rest: bytes,
                             enumStrings: Option<seq<string>>)
    requires t in CharTypes && IsLatin1(s) && forall k :: 0 <= k < |s| ==> s[k] != 0 as char
    requires NormalizePut(PStr(s), Some(t), enumStrs).Ok?
    requires cmd.buffer == NormalizePut(PStr(s), Some(t), enumStrs).value.bs + rest
    requires ReadResponseToPyepics(Some(t), cmd, enumStrings).Ok?
    ensures ReadResponseToPyepics(Some(t), cmd, enumStrings).value["char_value"] == PStr(s)
  {
    PutCharText(s, t, enumStrs);
    var b := EncodeLatin1(s).value;
    assert NormalizePut(PStr(s), Some(t), enumStrs).value.bs == b + [0];
    forall k | 0 <= k < |b| ensures b[k] != 0 {
      assert b[k] == s[k] as int;
    }
    CutBeforeNul(b, rest);
    DecodeEncodeLatin1(s);
  }

  /** An enum name put by text and read back as a string is the same name
      when the names are distinct. */
  lemma EnumPutGetRoundTrip(s: string, t: ChType, names: seq<string>, stringValue: PyVal,
                            nativeCount: PyVal, requestedCount: Option<int>, asNumpy: bool)
    requires t in EnumTypes && s in names
    requires forall a, b :: 0 <= a < b < |names| ==> names[a] != names[b]
    ensures var put := NormalizePut(PStr(s), Some(t), PTuple(Texts(names)));
      put.Ok? && put.value.PTuple? && |put.value.items| == 1 &&
      PyepicsGetValue(put.value.items, stringValue, Some(t), nativeCount, requestedCount,
                      Some(names), true, asNumpy) == Ok(PStr(s))
  {
    var texts := Texts(names);
    var i :| 0 <= i < |names| && names[i] == s;
    assert texts[i] == PStr(s);
    PutEnumText(s, t, texts);
    var j :| 0 <= j < |texts| && texts[j] == PStr(s) && PStr(s) !in texts[..j] &&
             NormalizePut(PStr(s), Some(t), PTuple(texts)).value == PTuple([PInt(j)]);
    assert names[j] == s;
    EnumNameLookup(names, j);
    assert AsIndex(PInt(j)) == Some(j);
    PyepicsGetValueSpec([PInt(j)], stringValue, Some(t), nativeCount, requestedCount, Some(names), true, asNumpy);
    GroupingsByNative(t);
  }

  // ---------------------------------------------------------------------
  // Access rights.

  /** The cache entries an access-rights change sets. */
  function AccessArgs(rights: Rights): (r: map<string, PyVal>)
    ensures r.Keys == {"write_access", "read_access", "access"}
  {
    map["write_access" := PBool(rights == 2 || rights == 3),
        "read_access" := PBool(rights == 1 || rights == 3),
        "access" := PStr(ACCESS_STRS[rights])]
  }

  /** The two flags are the two bits of the rights, and the access string
      names exactly that combination. */
  lemma AccessArgsSpec(rights: Rights)
    ensures var a := AccessArgs(rights);
      var rd := a["read_access"].b;
      var wr := a["write_access"].b;
      rights == (if rd then 1 else 0) + (if wr then 2 else 0) &&
      a["access"] == PStr(if rd && wr then "read/write" else if rd then "read-only"
                          else if wr then "write-only" else "no access")
  {
  }

  // ---------------------------------------------------------------------

  class PV {
    const pvname: string
    const form: Form
    const defaultCount: Option<int>
    const connectionCallbacks: seq<Handler>
    const accessCallbacks: seq<Handler>
    var autoMonitor: AutoMonitor
    var caprotoPv: CaChannel
    var args: map<string, PyVal>
    var callbacks: map<nat, Registered>
    var cbCount: nat
    var connectedFlag: bool
    var connectEvent: bool
    var autoMonitorSub: Option<SubscribeRequest>
    /** The user callbacks run, in order. */
    var calls: seq<Call>
    /** The connection callbacks run, with the connection state passed. */
    var connectionLog: seq<(Handler, bool)>
    /** The access callbacks run, with the read and write flags passed. */
    var accessLog: seq<(Handler, bool, bool)>

    /** The cache keeps the fields the methods look up, the callback counter is past
        every index in use, and only callables are registered. */
    predicate Valid()
      reads this`args, this`callbacks, this`cbCount
    {
      Cached() && CounterAhead(callbacks, cbCount) &&
      forall i :: i in callbacks ==> callbacks[i].handler.isCallable
    }

    /** The cache keeps the fields the methods look up. */
    predicate Cached()
      reads this`args
    {
      USED <= args.Keys
    }

    function Connected(): bool
      reads this, caprotoPv
    {
      caprotoPv.connected && connectEvent
    }

    /** The cached type, `self.typefull`. */
    function Typefull(): Option<ChType>
      reads this`args
      requires Cached()
    {
      TypeArg(args["typefull"])
    }

    /** The read a get with these settings would make from the current
        cache: ReadPlan with the PV's own form and count as defaults. */
    function GetPlan(count: Option<int>, asString: bool, useMonitor: bool, form: Option<Form>): Result<Option<ReadRequest>>
      reads this`args, this`autoMonitorSub
      requires Cached()
    {
      ReadPlan(if form.Some? then form.value else this.form, args["type"], asString, useMonitor,
               autoMonitorSub.Some?, args["value"], if count.Some? then count else defaultCount)
    }

    /** A new handle on a channel. `pvname` is taken already stripped.
        Callbacks given up front are registered at their positions, and
        the counter starts past them. */
    constructor(pvname: string, callback: CallbackArg, form: Form, autoMonitor: AutoMonitor,
                count: Option<int>, connectionCallback: Option<Handler>, accessCallback: Option<Handler>,
                chan: CaChannel)
      ensures Valid()
      ensures this.pvname == pvname && this.form == form && defaultCount == count
      ensures this.autoMonitor == autoMonitor && caprotoPv == chan
      ensures args == InitialArgs(pvname, count)
      ensures callbacks == InitialCallbacks(callback) && cbCount == FirstFreeIndex(callback)
      ensures !connectedFlag && !connectEvent && autoMonitorSub.None?
      ensures connectionCallbacks == (if connectionCallback.Some? then [connectionCallback.value] else [])
      ensures accessCallbacks == (if accessCallback.Some? then [accessCallback.value] else [])
      ensures calls == [] && connectionLog == [] && accessLog == []
    {
      this.pvname := pvname;
      this.form := form;
      defaultCount := count;
      this.autoMonitor := autoMonitor;
      caprotoPv := chan;
      var cbs, n := InitialCallbacks(callback), FirstFreeIndex(callback);
      CounterStartAhead(callback);
      assert CounterAhead(cbs, n) && forall i :: i in cbs ==> cbs[i].handler.isCallable;
      args := InitialArgs(pvname, count);
      callbacks := cbs;
      cbCount := n;
      connectedFlag := false;
      connectEvent := false;
      autoMonitorSub := None;
      connectionCallbacks := if connectionCallback.Some? then [connectionCallback.value] else [];
      accessCallbacks := if accessCallback.Some? then [accessCallback.value] else [];
      calls := [];
      connectionLog := [];
      accessLog := [];
    }

    /** The whole of __init__: the new handle, then, when the channel is
        already connected, the connection step it would otherwise have
        missed. */
    static method Create(pvname: string, callback: CallbackArg, form: Form, autoMonitor: AutoMonitor,
                         count: Option<int>, connectionCallback: Option<Handler>, accessCallback: Option<Handler>,
                         chan: CaChannel) returns (pv: PV, r: Result<()>)
      modifies chan`subscriptions
      ensures fresh(pv) && pv.Valid() && pv.caprotoPv == chan
      ensures pv.pvname == pvname && pv.form == form && pv.defaultCount == count
      ensures pv.callbacks == InitialCallbacks(callback) && pv.cbCount == FirstFreeIndex(callback)
      ensures pv.connectionCallbacks == (if connectionCallback.Some? then [connectionCallback.value] else [])
      ensures pv.accessCallbacks == (if accessCallback.Some? then [accessCallback.value] else [])
      ensures pv.calls == []
      ensures !chan.connected ==>
        r.Ok? && pv.args == InitialArgs(pvname, count) && pv.accessLog == [] && !pv.connectedFlag &&
        pv.autoMonitor == autoMonitor && pv.autoMonitorSub.None? && chan.subscriptions == old(chan.subscriptions) &&
        !pv.connectEvent && pv.connectionLog == [] && !pv.Connected()
      ensures chan.connected ==>
        pv.connectEvent &&
        pv.SetUp(InitialArgs(pvname, count), [], autoMonitor, None, old(chan.subscriptions), false, r) &&
        (r.Ok? <==> chan.channel.None? || IsNative(chan.channel.value.nativeType)) &&
        (r.Ok? ==> pv.Connected() && pv.connectionLog == pv.ConnectionCalls(true)) &&
        (r.Err? ==> r == Err(KeyError) && pv.connectionLog == [])
    {
      pv := new PV(pvname, callback, form, autoMonitor, count, connectionCallback, accessCallback, chan);
      r := pv.CatchUp();
    }

    /** The last step of __init__: when the channel handle is already
        connected, _connection_state_changed runs as if the connection had
        just been reported; otherwise nothing happens. */
    method CatchUp() returns (r: Result<()>)
      requires Valid()
      modifies this`args, this`accessLog, this`autoMonitor, this`autoMonitorSub, this`connectedFlag,
               this`connectEvent, this`connectionLog, this`caprotoPv, caprotoPv`subscriptions
      ensures Valid() && caprotoPv == old(caprotoPv)
      ensures !caprotoPv.connected ==>
        r.Ok? && args == old(args) && accessLog == old(accessLog) && connectedFlag == old(connectedFlag) &&
        autoMonitor == old(autoMonitor) && autoMonitorSub == old(autoMonitorSub) &&
        caprotoPv.subscriptions == old(caprotoPv.subscriptions) && connectEvent == old(connectEvent) &&
        connectionLog == old(connectionLog)
      ensures caprotoPv.connected ==>
        connectEvent &&
        SetUp(old(args), old(accessLog), old(autoMonitor), old(autoMonitorSub), old(caprotoPv.subscriptions),
              old(connectedFlag), r) &&
        (r.Ok? <==> caprotoPv.channel.None? || IsNative(caprotoPv.channel.value.nativeType)) &&
        (r.Ok? ==> Connected() && connectionLog == old(connectionLog) + ConnectionCalls(true)) &&
        (r.Err? ==> r == Err(KeyError) && connectionLog == old(connectionLog))
    {
      if caprotoPv.connected {
        r := ConnectionStateChanged(caprotoPv, true);
      } else {
        r := Ok(());
      }
    }

    /** wait_for_connection with nothing arriving while it waits: success
        when connected; otherwise the signal is cleared and the channel's
        own wait times out (TimeoutError) or, the channel being up, the
        wait for the signal does (CaprotoTimeoutError). */
    method WaitForConnection() returns (r: Result<()>)
      modifies this`connectEvent
      ensures old(Connected()) ==> r.Ok? && connectEvent == old(connectEvent)
      ensures !old(Connected()) ==>
        r == Err(if caprotoPv.connected then CaprotoTimeoutError else TimeoutError) && !connectEvent
    {
      if Connected() {
        return Ok(());
      }
      connectEvent := false;
      if !caprotoPv.connected {
        return Err(TimeoutError);
      }
      r := Err(CaprotoTimeoutError);
    }

    /** _connection_closed */
    method ConnectionClosed()
      modifies this`connectedFlag
      ensures !connectedFlag
    {
      connectedFlag := false;
    }

    /** The access callbacks told about the rights, in order, with the
        read and write flags. */
    function AccessCalls(rights: Rights): seq<(Handler, bool, bool)> {
      seq(|accessCallbacks|, i requires 0 <= i < |accessCallbacks| =>
        (accessCallbacks[i], rights == 1 || rights == 3, rights == 2 || rights == 3))
    }

    /** The connection callbacks told the connection state, in order. */
    function ConnectionCalls(connected: bool): seq<(Handler, bool)> {
      seq(|connectionCallbacks|, i requires 0 <= i < |connectionCallbacks| => (connectionCallbacks[i], connected))
    }

    /** The part of _access_rights_changed after the channel handle is
        adopted: record the flags and the access string, then tell every
        access callback. */
    method RecordAccess(rights: Rights)
      requires Valid()
      modifies this`args, this`accessLog
      ensures Valid()
      ensures args == old(args) + AccessArgs(rights)
      ensures args["type"] == old(args["type"]) && args["typefull"] == old(args["typefull"])
      ensures accessLog == old(accessLog) + AccessCalls(rights)
    {
      var readAccess := rights == 1 || rights == 3;
      var writeAccess := rights == 2 || rights == 3;
      args := args + AccessArgs(rights);
      ghost var log0 := accessLog;
      var i := 0;
      while i < |accessCallbacks|
        modifies this`accessLog
        invariant 0 <= i <= |accessCallbacks|
        invariant accessLog == log0 + AccessCalls(rights)[..i]
      {
        assert AccessCalls(rights)[..i + 1] == AccessCalls(rights)[..i] + [(accessCallbacks[i], readAccess, writeAccess)];
        accessLog := accessLog + [(accessCallbacks[i], readAccess, writeAccess)];
        i := i + 1;
      }
      assert AccessCalls(rights)[..i] == AccessCalls(rights);
    }

    /** _access_rights_changed: adopt the channel handle and record the
        rights. */
    method AccessRightsChanged(pv: CaChannel, rights: Rights)
      requires Valid()
      modifies this`caprotoPv, this`args, this`accessLog
      ensures Valid() && caprotoPv == pv
      ensures args == old(args) + AccessArgs(rights)
      ensures accessLog == old(accessLog) + AccessCalls(rights)
    {
      caprotoPv := pv;
      RecordAccess(rights);
    }

    /** The subscription auto-monitoring asks for: the cached full type,
        the count (the PV's default when none is given), and the default
        mask when monitoring is simply on, else the mask given. */
    function MonitorRequest(count: Option<int>): (req: SubscribeRequest)
      reads this`args, this`autoMonitor
      requires Cached()
      ensures req.count == (if count.Some? then count else defaultCount)
      ensures autoMonitor == Monitor(true) ==> req.mask == DBE_VALUE + DBE_ALARM
      ensures autoMonitor.Mask? ==> req.mask == autoMonitor.mask
    {
      SubscriptionFor(args, autoMonitor, if count.Some? then count else defaultCount)
    }

    /** _check_auto_monitor_sub: subscribe once, when monitoring is
        wanted and no subscription exists. */
    method CheckAutoMonitorSub(count: Option<int>) returns (r: Result<()>)
      requires Valid()
      modifies this`autoMonitorSub, caprotoPv`subscriptions
      ensures Valid()
      ensures !MonitorWanted(autoMonitor) || old(autoMonitorSub).Some? ==>
        r.Ok? && autoMonitorSub == old(autoMonitorSub) && caprotoPv.subscriptions == old(caprotoPv.subscriptions)
      ensures MonitorWanted(autoMonitor) && old(autoMonitorSub).None? ==>
        var req := MonitorRequest(count);
        (caprotoPv.connected ==> r.Ok? && autoMonitorSub == Some(req) &&
                                 caprotoPv.subscriptions == old(caprotoPv.subscriptions) + [req]) &&
        (!caprotoPv.connected ==> r == Err(DisconnectedError) && autoMonitorSub.None? &&
                                  caprotoPv.subscriptions == old(caprotoPv.subscriptions))
    {
      if MonitorWanted(autoMonitor) && autoMonitorSub.None? {
        var req := MonitorRequest(count);
        var sub :- caprotoPv.Subscribe(req.dataType, req.count, req.mask);
        autoMonitorSub := Some(sub);
      }
      r := Ok(());
    }

    /** The cache entries a connection sets from the channel's report. */
    static function ChannelArgs(m: map<string, PyVal>, form: Form, ch: ChannelInfo): (r: map<string, PyVal>)
      requires IsNative(ch.nativeType)
      ensures r.Keys == m.Keys + {"type", "typefull", "nelm", "count"}
      ensures r["type"] == PInt(ch.nativeType) && r["typefull"] == PInt(FieldType(form, ch.nativeType))
      ensures r["nelm"] == PInt(ch.nativeCount) && r["count"] == PInt(ch.nativeCount)
      ensures USED <= m.Keys ==> USED <= r.Keys
    {
      m["type" := PInt(ch.nativeType)]["typefull" := PInt(FieldType(form, ch.nativeType))]
       ["nelm" := PInt(ch.nativeCount)]["count" := PInt(ch.nativeCount)]
    }

    /** The first part of _connection_established: the cache entries and
        access callbacks for the channel, and the auto-monitor decision. */
    method AdoptChannel(info: ChannelInfo)
      requires Valid() && IsNative(info.nativeType)
      modifies this`args, this`accessLog, this`autoMonitor
      ensures Valid()
      ensures args == ChannelArgs(old(args), form, info) + AccessArgs(info.accessRights)
      ensures accessLog == old(accessLog) + AccessCalls(info.accessRights)
      ensures old(autoMonitor) == Undecided ==>
        autoMonitor == Monitor((if defaultCount.Some? then defaultCount.value else info.nativeCount) < AUTOMONITOR_MAXLENGTH)
      ensures old(autoMonitor) != Undecided ==> autoMonitor == old(autoMonitor)
    {
      args := ChannelArgs(args, form, info);
      RecordAccess(info.accessRights);
      if autoMonitor == Undecided {
        var mcount := if defaultCount.Some? then defaultCount.value else info.nativeCount;
        autoMonitor := Monitor(mcount < AUTOMONITOR_MAXLENGTH);
      }
    }

    /** What _connection_established leaves, given the cache, access-call
        log, monitor setting, subscription, subscription log and flag it
        started from: SetUpStep with the channel handle's report and the
        state now. */
    ghost predicate SetUp(a0: map<string, PyVal>, acc0: seq<(Handler, bool, bool)>, mon0: AutoMonitor,
                          sub0: Option<SubscribeRequest>, subs0: seq<SubscribeRequest>, flag0: bool, r: Result<()>)
      reads this`args, this`accessLog, this`autoMonitor, this`autoMonitorSub, this`connectedFlag,
            this`caprotoPv, caprotoPv
      requires USED <= a0.Keys
    {
      SetUpStep(this, caprotoPv.channel, caprotoPv.connected, a0, acc0, mon0, sub0, subs0, flag0, r,
                args, accessLog, autoMonitor, autoMonitorSub, caprotoPv.subscriptions, connectedFlag)
    }

    /** _connection_established: cache the channel's type, count and
        access, decide auto-monitoring if still undecided, subscribe, and
        raise the connected flag. Nothing happens without channel info; a
        type that is not native has no entry in the type table
        (KeyError). */
    method ConnectionEstablished() returns (r: Result<()>)
      requires Valid()
      modifies this`args, this`accessLog, this`autoMonitor, this`autoMonitorSub, this`connectedFlag,
               caprotoPv`subscriptions
      ensures Valid()
      ensures SetUp(old(args), old(accessLog), old(autoMonitor), old(autoMonitorSub), old(caprotoPv.subscriptions),
                    old(connectedFlag), r)
    {
      var ch := caprotoPv.channel;
      if ch.None? {
        return Ok(());
      }
      var info := ch.value;
      if !IsNative(info.nativeType) {
        return Err(KeyError);
      }
      AdoptChannel(info);
      var ok := CheckAutoMonitorSub(None);
      if ok.Err? {
        return Err(ok.error);
      }
      connectedFlag := true;
      r := Ok(());
    }

    /** _connection_state_changed: adopt the channel handle; on connection
        run the setup, then raise the connect signal even if the setup
        failed; then tell every connection callback. */
    method ConnectionStateChanged(pv: CaChannel, connected: bool) returns (r: Result<()>)
      requires Valid()
      modifies this`caprotoPv, this`args, this`accessLog, this`autoMonitor, this`autoMonitorSub,
               this`connectedFlag, this`connectEvent, this`connectionLog, pv`subscriptions
      ensures Valid() && caprotoPv == pv
      ensures !connected ==>
        r.Ok? && connectEvent == old(connectEvent) && args == old(args) && accessLog == old(accessLog) &&
        connectedFlag == old(connectedFlag) && autoMonitor == old(autoMonitor) &&
        autoMonitorSub == old(autoMonitorSub) && pv.subscriptions == old(pv.subscriptions)
      ensures connected ==>
        connectEvent &&
        SetUp(old(args), old(accessLog), old(autoMonitor), old(autoMonitorSub), old(pv.subscriptions),
              old(connectedFlag), r)
      ensures r.Ok? ==> connectionLog == old(connectionLog) + ConnectionCalls(connected)
      ensures r.Err? ==> connectionLog == old(connectionLog)
    {
      caprotoPv := pv;
      r := Ok(());
      if connected {
        r := Connect();
        if r.Err? {
          return;
        }
      }
      TellConnection(connected);
    }

    /** The connected branch of _connection_state_changed: the setup, and
        the connect signal raised whether or not it raised. */
    method Connect() returns (r: Result<()>)
      requires Valid()
      modifies this`args, this`accessLog, this`autoMonitor, this`autoMonitorSub, this`connectedFlag,
               this`connectEvent, caprotoPv`subscriptions
      ensures Valid() && connectEvent
      ensures SetUp(old(args), old(accessLog), old(autoMonitor), old(autoMonitorSub), old(caprotoPv.subscriptions),
                    old(connectedFlag), r)
    {
      r := ConnectionEstablished();
      connectEvent := true;
    }

    /** The loop at the end of _connection_state_changed: every connection
        callback is told the state, in order. */
    method TellConnection(connected: bool)
      modifies this`connectionLog
      ensures connectionLog == old(connectionLog) + ConnectionCalls(connected)
    {
      var i := 0;
      while i < |connectionCallbacks|
        invariant 0 <= i <= |connectionCallbacks|
        invariant connectionLog == old(connectionLog) + ConnectionCalls(connected)[..i]
      {
        assert ConnectionCalls(connected)[..i + 1] == ConnectionCalls(connected)[..i] + [(connectionCallbacks[i], connected)];
        connectionLog := connectionLog + [(connectionCallbacks[i], connected)];
        i := i + 1;
      }
      assert ConnectionCalls(connected)[..i] == ConnectionCalls(connected);
    }

    /** get_ctrlvars: _read_and_update with the control type, then a fresh
        look at the access rights. */
    method GetCtrlvars() returns (r: Result<map<string, PyVal>>)
      requires Valid()
      modifies this`args, this`connectEvent, this`accessLog, caprotoPv`readLog, caprotoPv`responses
      ensures Valid() && args["type"] == old(args["type"]) && Typefull() == old(Typefull())
      ensures !old(Connected()) ==> r.Err? && caprotoPv.readLog == old(caprotoPv.readLog)
      ensures old(Connected()) ==> connectEvent == old(connectEvent)
      ensures old(caprotoPv.readLog) <= caprotoPv.readLog && |caprotoPv.readLog| <= |old(caprotoPv.readLog)| + 1
      ensures r.Ok? ==>
        (old(args["type"]).PInt? && IsNative(old(args["type"]).i) &&
         caprotoPv.readLog == old(caprotoPv.readLog) + [ReadRequest(FieldType(Control, old(args["type"]).i), None)])
      ensures r.Ok? ==>
        old(caprotoPv.responses) != [] && caprotoPv.channel.Some? &&
        Ok(r.value) == ReadResponseToPyepics(Some(FieldType(Control, old(args["type"]).i)), old(caprotoPv.responses)[0],
                                             NamesArg(old(args["enum_strs"]))) &&
        args == old(args) + r.value + AccessArgs(caprotoPv.channel.value.accessRights)
    {
      var ok := WaitForConnection();
      if ok.Err? {
        return Err(ok.error);
      }
      var t := args["type"];
      if !(t.PInt? && IsNative(t.i)) {
        return Err(KeyError);
      }
      var info :- ReadAndUpdate(FieldType(Control, t.i));
      var ch := caprotoPv.channel;
      if ch.None? {
        return Err(AttributeError);
      }
      RecordAccess(ch.value.accessRights);
      r := Ok(info);
    }

    /** _read_and_update: read with the given type, convert the response
        with that type and merge it into the cache. */
    method ReadAndUpdate(dtype: ChType) returns (r: Result<map<string, PyVal>>)
      requires Valid()
      modifies this`args, caprotoPv`readLog, caprotoPv`responses
      ensures Valid() && args["type"] == old(args["type"]) && Typefull() == old(Typefull())
      ensures caprotoPv.connected ==> caprotoPv.readLog == old(caprotoPv.readLog) + [ReadRequest(dtype, None)]
      ensures !caprotoPv.connected ==> r == Err(DisconnectedError) && caprotoPv.readLog == old(caprotoPv.readLog)
      ensures r.Ok? ==> args == old(args) + r.value
      ensures r.Ok? ==>
        old(caprotoPv.responses) != [] &&
        Ok(r.value) == ReadResponseToPyepics(Some(dtype), old(caprotoPv.responses)[0], NamesArg(old(args["enum_strs"])))
      ensures r.Err? ==> args == old(args)
    {
      var cmd :- caprotoPv.Read(dtype, None);
      var info :- ReadResponseToPyepics(Some(dtype), cmd, NamesArg(args["enum_strs"]));
      InfoKeepsTypes(Some(dtype), cmd, NamesArg(args["enum_strs"]));
      args := args + info;
      r := Ok(info);
    }

    /** The `enum_strs` property, through _getarg: a get() first while no
        value is cached, then get_ctrlvars while the names are unset on a
        connected channel. */
    method EnumStrs() returns (r: Result<PyVal>)
      requires Valid()
      modifies this`args, this`connectEvent, this`accessLog, caprotoPv`readLog, caprotoPv`responses
      ensures Valid() && args["type"] == old(args["type"]) && Typefull() == old(Typefull())
      ensures old(caprotoPv.readLog) <= caprotoPv.readLog && |caprotoPv.readLog| <= |old(caprotoPv.readLog)| + 2
      ensures old(args["value"]) != PNone && (old(args["enum_strs"]) != PNone || !old(Connected())) ==>
        r == Ok(args["enum_strs"]) && args == old(args) && caprotoPv.readLog == old(caprotoPv.readLog)
      ensures old(args["value"]) != PNone && old(args["enum_strs"]) == PNone && old(Connected()) && r.Ok? ==>
        old(args["type"]).PInt? && IsNative(old(args["type"]).i) &&
        caprotoPv.readLog == old(caprotoPv.readLog) + [ReadRequest(FieldType(Control, old(args["type"]).i), None)] &&
        old(caprotoPv.responses) != [] && caprotoPv.channel.Some? &&
        var info := ReadResponseToPyepics(Some(FieldType(Control, old(args["type"]).i)), old(caprotoPv.responses)[0],
                                          NamesArg(old(args["enum_strs"])));
        info.Ok? && args == old(args) + info.value + AccessArgs(caprotoPv.channel.value.accessRights)
      ensures old(args["value"]) == PNone && r.Ok? ==>
        old(GetPlan(None, false, true, Some(form))).Ok? &&
        var plan := old(GetPlan(None, false, true, Some(form))).value;
        old(caprotoPv.readLog) + (if plan.Some? then [plan.value] else []) <= caprotoPv.readLog
      ensures r.Ok? ==> r.value == args["enum_strs"]
      decreases 2, 0
    {
      if args["value"] == PNone {
        var v, getStart, getPlan, getInfo := Get(None, false, true, false, true);
        if v.Err? {
          return Err(v.error);
        }
      }
      if args["enum_strs"] == PNone && Connected() {
        var info := GetCtrlvars();
        if info.Err? {
          return Err(info.error);
        }
      }
      r := Ok(args["enum_strs"]);
    }

    /** get_with_metadata asks a lone get() for control data first when
        with_ctrlvars is set and the form is neither control nor native. */
    predicate CtrlFirst(withCtrlvars: bool, form: Option<Form>) {
      var f := if form.Some? then form.value else this.form;
      withCtrlvars && f != Control && f != Native
    }

    /** The names handed to _pyepics_get_value: the `enum_strs` property
        for enums asked as strings, else None. */
    function EnumArg(asString: bool): PyVal
      reads this`args
      requires Cached()
    {
      if asString && InTypes(Typefull(), EnumTypes) then args["enum_strs"] else PNone
    }

    /** The data get_with_metadata holds before it computes the value:
        `md` with the converted answer to the planned read, the first of
        `answers`, merged in. */
    function Merge(md: map<string, PyVal>, plan: Option<ReadRequest>, answers: seq<ReadResponse>): (r: map<string, PyVal>)
      reads this`args
      requires Cached()
      ensures md.Keys <= r.Keys
    {
      MergeWith(args["enum_strs"], md, plan, answers)
    }

    /** Merge with the enum names given rather than taken from the cache. */
    function MergeWith(names: PyVal, md: map<string, PyVal>, plan: Option<ReadRequest>,
                       answers: seq<ReadResponse>): (r: map<string, PyVal>)
      reads this`args
      requires Cached()
      ensures md.Keys <= r.Keys
    {
      if plan.None? || answers == [] then md
      else match ReadResponseToPyepics(Typefull(), answers[0], NamesArg(names))
        case Ok(info) => md + info
        case Err(_) => md
    }

    /** The last steps of get_with_metadata: the value computed from the
        raw elements and display text gathered in `md`. */
    function WithValue(md: map<string, PyVal>, count: Option<int>, enumStrs: PyVal,
                       asString: bool, asNumpy: bool): (r: Result<map<string, PyVal>>)
      reads this`args
      requires Cached()
      ensures r.Ok? ==> r.value.Keys == md.Keys + {"value"}
      ensures r.Ok? <==>
        ("raw_value" in md && "char_value" in md && IsSequence(md["raw_value"]) &&
         PyepicsGetValue(md["raw_value"].items, md["char_value"], Typefull(), args["count"], count,
                         NamesArg(enumStrs), asString, asNumpy).Ok?)
    {
      if "raw_value" !in md || "char_value" !in md then Err(KeyError)
      else if !IsSequence(md["raw_value"]) then Err(AttributeError)
      else
        var value :- PyepicsGetValue(md["raw_value"].items, md["char_value"], Typefull(), args["count"], count,
                                     NamesArg(enumStrs), asString, asNumpy);
        Ok(md["value" := value])
    }

    /** A get that starts from the cache `a0` (or nothing) with `answers`
        queued and `log` already sent: it makes the read ReadPlan gives
        for that cache, `info` is the converted first answer (nothing
        without a read), and, unless names had to be fetched for an enum
        asked as a string, the cache gains exactly `info`, one answer is
        used and the read is the only one sent. */
    ghost predicate DirectPath(a0: map<string, PyVal>, answers: seq<ReadResponse>, log: seq<ReadRequest>,
                               count: Option<int>, asString: bool, useMonitor: bool, form: Form,
                               plan: Option<ReadRequest>, info: map<string, PyVal>)
      reads this`args, this`autoMonitorSub, this`caprotoPv, caprotoPv
      requires Cached() && USED <= a0.Keys
    {
      DirectStep(a0, answers, log, if count.Some? then count else defaultCount, asString, useMonitor,
                 autoMonitorSub.Some?, Typefull(), form, plan, info, args, caprotoPv.responses, caprotoPv.readLog)
    }

    /** A get with control data first, from the cache `a0`: the control
        get's read is sent first, `start` is the control get's result (the
        cache or nothing, merged with its converted answer, plus its
        value), and, unless names had to be fetched, the rest is a
        DirectPath from the cache as the control get left it. */
    ghost predicate ControlPath(a0: map<string, PyVal>, answers: seq<ReadResponse>, log: seq<ReadRequest>,
                                count: Option<int>, asString: bool, useMonitor: bool, form: Form,
                                start: map<string, PyVal>, plan: Option<ReadRequest>, info: map<string, PyVal>)
      reads this`args, this`autoMonitorSub, this`caprotoPv, caprotoPv
      requires Cached() && USED <= a0.Keys
    {
      match ReadPlan(Control, a0["type"], asString, useMonitor, autoMonitorSub.Some?, a0["value"],
                     if count.Some? then count else defaultCount)
      case Err(_) => false
      case Ok(p0) =>
        log + Planned(p0) <= caprotoPv.readLog &&
        "value" in start &&
        start == MergeWith(a0["enum_strs"], if useMonitor then a0 else map[], p0, answers)["value" := start["value"]] &&
        (!(asString && InTypes(Typefull(), EnumTypes)) ==>
           var k := |Planned(p0)|;
           k <= |answers| &&
           DirectPath(MergeWith(a0["enum_strs"], a0, p0, answers), answers[k..], log + Planned(p0),
                      count, asString, useMonitor, form, plan, info))
    }

    /** get_with_metadata's network step: when a read is planned, make it
        and merge the converted response into the cache and into `md`. */
    method FetchIfPlanned(plan: Option<ReadRequest>, md: map<string, PyVal>)
      returns (r: Result<map<string, PyVal>>, ghost info: map<string, PyVal>)
      requires Valid()
      modifies this`args, caprotoPv`readLog, caprotoPv`responses
      ensures Valid() && args["type"] == old(args["type"]) && Typefull() == old(Typefull())
      ensures plan.None? ==>
        r == Ok(md) && info == map[] && args == old(args) && caprotoPv.readLog == old(caprotoPv.readLog) &&
        caprotoPv.responses == old(caprotoPv.responses)
      ensures plan.Some? ==> caprotoPv.readLog == old(caprotoPv.readLog) + [plan.value] || !caprotoPv.connected
      ensures old(caprotoPv.readLog) <= caprotoPv.readLog && |caprotoPv.readLog| <= |old(caprotoPv.readLog)| + 1
      ensures plan.Some? && r.Ok? ==>
        caprotoPv.readLog == old(caprotoPv.readLog) + [plan.value] && old(caprotoPv.responses) != [] &&
        ReadResponseToPyepics(Typefull(), old(caprotoPv.responses)[0], NamesArg(old(args["enum_strs"]))) == Ok(info) &&
        r.value == md + info && args == old(args) + info &&
        caprotoPv.responses == old(caprotoPv.responses)[1..]
      ensures plan.Some? && caprotoPv.connected && old(caprotoPv.responses) == [] ==> r == Err(TimeoutError)
    {
      info := map[];
      if plan.None? {
        return Ok(md), info;
      }
      var cmd :- caprotoPv.Read(plan.value.dataType, plan.value.count);
      var converted :- ReadResponseToPyepics(Typefull(), cmd, NamesArg(args["enum_strs"]));
      InfoKeepsTypes(Typefull(), cmd, NamesArg(args["enum_strs"]));
      info := converted;
      args := args + converted;
      r := Ok(md + converted);
    }

    /** The network step of get_with_metadata: the read ReadPlan gives for
        the cache, if any, merged into `md` and the cache. */
    method PlannedFetch(md: map<string, PyVal>, count: Option<int>, asString: bool, useMonitor: bool, form: Form)
      returns (r: Result<map<string, PyVal>>, ghost plan: Option<ReadRequest>, ghost info: map<string, PyVal>)
      requires Valid()
      modifies this`args, caprotoPv`readLog, caprotoPv`responses
      ensures Valid() && args["type"] == old(args["type"]) && Typefull() == old(Typefull())
      ensures old(caprotoPv.readLog) <= caprotoPv.readLog && |caprotoPv.readLog| <= |old(caprotoPv.readLog)| + 1
      ensures r.Ok? ==>
        r.value == md + info && args == old(args) + info &&
        |Planned(plan)| <= |old(caprotoPv.responses)| &&
        caprotoPv.responses == old(caprotoPv.responses)[|Planned(plan)|..] &&
        caprotoPv.readLog == old(caprotoPv.readLog) + Planned(plan) &&
        DirectPath(old(args), old(caprotoPv.responses), old(caprotoPv.readLog), count, asString, useMonitor, form,
                   plan, info)
    {
      plan, info := None, map[];
      var p :- GetPlan(count, asString, useMonitor, Some(form));
      plan := p;
      var fetched, got :- FetchIfPlanned(p, md);
      info := got;
      if p.None? {
        assert md + map[] == md;
        assert old(args) + map[] == old(args);
      }
      r := Ok(fetched);
    }

    /** get_with_metadata from its starting data `md` on: the planned
        read, the names for enums asked as strings, and the value. */
    method FinishGet(md: map<string, PyVal>, count: Option<int>, asString: bool, asNumpy: bool,
                     useMonitor: bool, form: Form)
      returns (r: Result<map<string, PyVal>>, ghost plan: Option<ReadRequest>, ghost info: map<string, PyVal>)
      requires Valid()
      modifies this`args, this`connectEvent, this`accessLog, caprotoPv`readLog, caprotoPv`responses
      ensures Valid() && args["type"] == old(args["type"]) && Typefull() == old(Typefull())
      ensures old(caprotoPv.readLog) <= caprotoPv.readLog
      ensures !(asString && InTypes(Typefull(), EnumTypes)) ==> |caprotoPv.readLog| <= |old(caprotoPv.readLog)| + 1
      ensures r.Ok? ==>
        old(caprotoPv.readLog) + Planned(plan) <= caprotoPv.readLog &&
        |caprotoPv.readLog| <= |old(caprotoPv.readLog)| + |Planned(plan)| + 2
      ensures r.Ok? ==>
        "value" in r.value && "raw_value" in r.value && "char_value" in r.value && IsSequence(r.value["raw_value"]) &&
        Ok(r.value["value"]) == PyepicsGetValue(r.value["raw_value"].items, r.value["char_value"], Typefull(),
                                                args["count"], count, NamesArg(EnumArg(asString)), asString, asNumpy)
      ensures r.Ok? ==>
        r == WithValue(md + info, count, EnumArg(asString), asString, asNumpy) &&
        r.value == (md + info)["value" := r.value["value"]] &&
        DirectPath(old(args), old(caprotoPv.responses), old(caprotoPv.readLog), count, asString, useMonitor, form,
                   plan, info)
      decreases if asString then 3 else 1, 1
    {
      plan, info := None, map[];
      var fetched, p, got :- PlannedFetch(md, count, asString, useMonitor, form);
      plan, info := p, got;
      r := ComputeValue(fetched, count, asString, asNumpy);
    }

    /** get_with_metadata's last step: the enum names when an enum is asked
        for as a string (nothing read otherwise), then the value computed
        from `md`. */
    method ComputeValue(md: map<string, PyVal>, count: Option<int>, asString: bool, asNumpy: bool)
      returns (r: Result<map<string, PyVal>>)
      requires Valid()
      modifies this`args, this`connectEvent, this`accessLog, caprotoPv`readLog, caprotoPv`responses
      ensures Valid() && args["type"] == old(args["type"]) && Typefull() == old(Typefull())
      ensures old(caprotoPv.readLog) <= caprotoPv.readLog && |caprotoPv.readLog| <= |old(caprotoPv.readLog)| + 2
      ensures !(asString && InTypes(Typefull(), EnumTypes)) ==>
        args == old(args) && caprotoPv.readLog == old(caprotoPv.readLog) &&
        caprotoPv.responses == old(caprotoPv.responses)
      ensures r.Ok? || !(asString && InTypes(Typefull(), EnumTypes)) ==>
        r == WithValue(md, count, EnumArg(asString), asString, asNumpy)
      ensures r.Ok? ==>
        "value" in r.value && "raw_value" in r.value && "char_value" in r.value && IsSequence(r.value["raw_value"]) &&
        Ok(r.value["value"]) == PyepicsGetValue(r.value["raw_value"].items, r.value["char_value"], Typefull(),
                                                args["count"], count, NamesArg(EnumArg(asString)), asString, asNumpy)
      decreases if asString then 3 else 1, 0
    {
      var enumStrs := PNone;
      if asString && InTypes(Typefull(), EnumTypes) {
        enumStrs :- EnumStrs();
      }
      r := WithValue(md, count, enumStrs, asString, asNumpy);
    }

    /** get_with_metadata: wait for the connection, start from the cache
        (or nothing when the monitor is not to be used, or a control read
        first when with_ctrlvars asks for one), go to the network exactly
        when ReadPlan says so, and compute the value. */
    method GetWithMetadata(count: Option<int>, asString: bool, asNumpy: bool, withCtrlvars: bool,
                           useMonitor: bool, form: Option<Form>)
      returns (r: Result<map<string, PyVal>>, ghost start: map<string, PyVal>, ghost plan: Option<ReadRequest>,
               ghost info: map<string, PyVal>)
      requires Valid()
      modifies this`args, this`connectEvent, this`accessLog, caprotoPv`readLog, caprotoPv`responses
      ensures Valid() && args["type"] == old(args["type"]) && Typefull() == old(Typefull())
      ensures !old(Connected()) ==> r.Err? && caprotoPv.readLog == old(caprotoPv.readLog)
      ensures old(caprotoPv.readLog) <= caprotoPv.readLog
      ensures !CtrlFirst(withCtrlvars, form) && !(asString && InTypes(Typefull(), EnumTypes)) ==>
        |caprotoPv.readLog| <= |old(caprotoPv.readLog)| + 1
      ensures r.Ok? && !CtrlFirst(withCtrlvars, form) ==>
        old(caprotoPv.readLog) + Planned(plan) <= caprotoPv.readLog &&
        |caprotoPv.readLog| <= |old(caprotoPv.readLog)| + |Planned(plan)| + 2
      ensures r.Ok? ==>
        "value" in r.value && "raw_value" in r.value && "char_value" in r.value && IsSequence(r.value["raw_value"]) &&
        Ok(r.value["value"]) == PyepicsGetValue(r.value["raw_value"].items, r.value["char_value"], Typefull(),
                                                args["count"], if count.Some? then count else defaultCount,
                                                NamesArg(EnumArg(asString)), asString, asNumpy)
      ensures r.Ok? ==>
        r == WithValue(start + info, if count.Some? then count else defaultCount, EnumArg(asString), asString, asNumpy) &&
        r.value == (start + info)["value" := r.value["value"]]
      ensures r.Ok? && !CtrlFirst(withCtrlvars, form) ==>
        start == old(if useMonitor then args else map[]) &&
        DirectPath(old(args), old(caprotoPv.responses), old(caprotoPv.readLog), count, asString, useMonitor,
                   if form.Some? then form.value else this.form, plan, info)
      ensures r.Ok? && CtrlFirst(withCtrlvars, form) ==>
        ControlPath(old(args), old(caprotoPv.responses), old(caprotoPv.readLog), count, asString, useMonitor,
                    if form.Some? then form.value else this.form, start, plan, info)
      decreases if asString then 3 else 1, if withCtrlvars then 4 else 2
    {
      start, plan, info := map[], None, map[];
      var ok := WaitForConnection();
      if ok.Err? {
        r := Err(ok.error);
        return;
      }
      var form' := if form.Some? then form.value else this.form;
      var count' := if count.Some? then count else defaultCount;
      if withCtrlvars && form' != Control && form' != Native {
        r, start, plan, info := ControlFirst(count', asString, asNumpy, useMonitor, form');
      } else {
        var md := if useMonitor then args else map[];
        start := md;
        r, plan, info := FinishGet(md, count', asString, asNumpy, useMonitor, form');
      }
    }

    /** get_with_metadata with control data asked for first: a lone
        control get_with_metadata (its wait, then its read from the cache
        or nothing with the control type) supplies the starting data. */
    method ControlFirst(count: Option<int>, asString: bool, asNumpy: bool, useMonitor: bool, form: Form)
      returns (r: Result<map<string, PyVal>>, ghost start: map<string, PyVal>, ghost plan: Option<ReadRequest>,
               ghost info: map<string, PyVal>)
      requires Valid()
      modifies this`args, this`connectEvent, this`accessLog, caprotoPv`readLog, caprotoPv`responses
      ensures Valid() && args["type"] == old(args["type"]) && Typefull() == old(Typefull())
      ensures old(caprotoPv.readLog) <= caprotoPv.readLog
      ensures r.Ok? ==>
        r == WithValue(start + info, count, EnumArg(asString), asString, asNumpy) &&
        r.value == (start + info)["value" := r.value["value"]] &&
        ControlPath(old(args), old(caprotoPv.responses), old(caprotoPv.readLog), count, asString, useMonitor, form,
                    start, plan, info)
      ensures r.Ok? ==>
        "value" in r.value && "raw_value" in r.value && "char_value" in r.value && IsSequence(r.value["raw_value"]) &&
        Ok(r.value["value"]) == PyepicsGetValue(r.value["raw_value"].items, r.value["char_value"], Typefull(),
                                                args["count"], count, NamesArg(EnumArg(asString)), asString, asNumpy)
      decreases if asString then 3 else 1, 3
    {
      start, plan, info := map[], None, map[];
      ghost var a0, answers0, log0 := args, caprotoPv.responses, caprotoPv.readLog;
      var md, plan0, info0 :- ControlGet(count, asString, asNumpy, useMonitor);
      start := md;
      ghost var a1, answers1, log1 := args, caprotoPv.responses, caprotoPv.readLog;
      r, plan, info := FinishGet(md, count, asString, asNumpy, useMonitor, form);
      if r.Ok? {
        ControlPathIntro(a0, answers0, log0, count, asString, useMonitor, form, start, plan, info,
                         a1, answers1, log1, plan0, info0);
      }
    }

    /** The lone control get_with_metadata that ControlFirst starts with:
        its wait, then its read from the cache (or nothing) with the
        control type, as a DirectStep from the state it starts in. */
    method ControlGet(count: Option<int>, asString: bool, asNumpy: bool, useMonitor: bool)
      returns (r: Result<map<string, PyVal>>, ghost plan: Option<ReadRequest>, ghost info: map<string, PyVal>)
      requires Valid()
      modifies this`args, this`connectEvent, this`accessLog, caprotoPv`readLog, caprotoPv`responses
      ensures Valid() && args["type"] == old(args["type"]) && Typefull() == old(Typefull())
      ensures autoMonitorSub == old(autoMonitorSub)
      ensures old(caprotoPv.readLog) <= caprotoPv.readLog
      ensures r.Ok? ==>
        old(caprotoPv.readLog) + Planned(plan) <= caprotoPv.readLog &&
        "value" in r.value && r.value == ((if useMonitor then old(args) else map[]) + info)["value" := r.value["value"]] &&
        DirectStep(old(args), old(caprotoPv.responses), old(caprotoPv.readLog),
                   if count.Some? then count else defaultCount, asString, useMonitor, autoMonitorSub.Some?,
                   Typefull(), Control, plan, info, args, caprotoPv.responses, caprotoPv.readLog)
      decreases if asString then 3 else 1, 2
    {
      plan, info := None, map[];
      var ok := WaitForConnection();
      if ok.Err? {
        r := Err(ok.error);
        return;
      }
      var start0 := if useMonitor then args else map[];
      r, plan, info := FinishGet(start0, count, asString, asNumpy, useMonitor, Control);
    }

    /** How a control get followed by a DirectPath from the cache it left
        makes a ControlPath. */
    lemma ControlPathIntro(a0: map<string, PyVal>, answers: seq<ReadResponse>, log: seq<ReadRequest>,
                           count: Option<int>, asString: bool, useMonitor: bool, form: Form,
                           start: map<string, PyVal>, plan: Option<ReadRequest>, info: map<string, PyVal>,
                           a1: map<string, PyVal>, answers1: seq<ReadResponse>, log1: seq<ReadRequest>,
                           plan0: Option<ReadRequest>, info0: map<string, PyVal>)
      requires Cached() && USED <= a0.Keys && USED <= a1.Keys
      requires DirectStep(a0, answers, log, if count.Some? then count else defaultCount, asString, useMonitor,
                          autoMonitorSub.Some?, Typefull(), Control, plan0, info0, a1, answers1, log1)
      requires log + Planned(plan0) <= caprotoPv.readLog
      requires "value" in start && start == ((if useMonitor then a0 else map[]) + info0)["value" := start["value"]]
      requires !(asString && InTypes(Typefull(), EnumTypes)) ==>
        DirectPath(a1, answers1, log1, count, asString, useMonitor, form, plan, info)
      ensures ControlPath(a0, answers, log, count, asString, useMonitor, form, start, plan, info)
    {
      var names := a0["enum_strs"];
      var cnt := if count.Some? then count else defaultCount;
      assert ReadPlan(Control, a0["type"], asString, useMonitor, autoMonitorSub.Some?, a0["value"], cnt) == Ok(plan0);
      assert plan0.None? ==> info0 == map[];
      assert plan0.Some? ==> answers != [] && ReadResponseToPyepics(Typefull(), answers[0], NamesArg(names)) == Ok(info0);
      MergeWithAnswer(names, if useMonitor then a0 else map[], plan0, answers, info0);
      MergeWithAnswer(names, a0, plan0, answers, info0);
    }

    /** Merging the answer to a plan is adding its converted form `info`. */
    lemma MergeWithAnswer(names: PyVal, md: map<string, PyVal>, plan: Option<ReadRequest>, answers: seq<ReadResponse>,
                          info: map<string, PyVal>)
      requires Cached()
      requires plan.None? ==> info == map[]
      requires plan.Some? ==> answers != [] && ReadResponseToPyepics(Typefull(), answers[0], NamesArg(names)) == Ok(info)
      ensures MergeWith(names, md, plan, answers) == md + info
    {
      if plan.None? {
        assert md + info == md;
      }
    }

    /** get: get_with_metadata with the PV's own form, and its value. */
    method Get(count: Option<int>, asString: bool, asNumpy: bool, withCtrlvars: bool, useMonitor: bool)
      returns (r: Result<PyVal>, ghost start: map<string, PyVal>, ghost plan: Option<ReadRequest>,
               ghost info: map<string, PyVal>)
      requires Valid()
      modifies this`args, this`connectEvent, this`accessLog, caprotoPv`readLog, caprotoPv`responses
      ensures Valid() && args["type"] == old(args["type"]) && Typefull() == old(Typefull())
      ensures !old(Connected()) ==> r.Err? && caprotoPv.readLog == old(caprotoPv.readLog)
      ensures old(caprotoPv.readLog) <= caprotoPv.readLog
      ensures !CtrlFirst(withCtrlvars, Some(form)) && !(asString && InTypes(Typefull(), EnumTypes)) ==>
        |caprotoPv.readLog| <= |old(caprotoPv.readLog)| + 1
      ensures r.Ok? ==>
        var md := WithValue(start + info, if count.Some? then count else defaultCount, EnumArg(asString), asString, asNumpy);
        md.Ok? && r.value == md.value["value"]
      ensures r.Ok? && !CtrlFirst(withCtrlvars, Some(form)) ==>
        start == old(if useMonitor then args else map[]) &&
        DirectPath(old(args), old(caprotoPv.responses), old(caprotoPv.readLog), count, asString, useMonitor, form,
                   plan, info)
      ensures r.Ok? && CtrlFirst(withCtrlvars, Some(form)) ==>
        ControlPath(old(args), old(caprotoPv.responses), old(caprotoPv.readLog), count, asString, useMonitor, form,
                    start, plan, info)
      decreases if asString then 3 else 1, 5
    {
      start, plan, info := map[], None, map[];
      var md, s0, p0, i0 :- GetWithMetadata(count, asString, asNumpy, withCtrlvars, useMonitor, Some(form));
      start, plan, info := s0, p0, i0;
      r := Ok(md["value"]);
    }

    /** put: wait for the connection, refuse without write access before
        anything is written, normalise the value, and write it. */
    method Put(value: PyVal, wait: bool, useComplete: bool, withCallback: bool) returns (r: Result<()>)
      requires Valid()
      modifies this`args, this`connectEvent, this`accessLog, caprotoPv`readLog, caprotoPv`responses,
               caprotoPv`writeLog
      ensures Valid()
      ensures !old(Connected()) ==> r.Err? && caprotoPv.writeLog == old(caprotoPv.writeLog)
      ensures old(Connected()) && !Truthy(old(args["write_access"])) ==>
        r == Err(AccessRightsException) && caprotoPv.writeLog == old(caprotoPv.writeLog)
      ensures caprotoPv.writeLog == old(caprotoPv.writeLog) ||
        (old(Connected()) && Truthy(old(args["write_access"])) &&
         |caprotoPv.writeLog| == |old(caprotoPv.writeLog)| + 1 &&
         caprotoPv.writeLog[..|old(caprotoPv.writeLog)|] == old(caprotoPv.writeLog) &&
         var w := caprotoPv.writeLog[|caprotoPv.writeLog| - 1];
         var notify := useComplete || withCallback || wait;
         w.notify == notify && w.wait == (wait && notify) && w.withCallback == (withCallback || useComplete) &&
         Ok(w.value) == NormalizePut(value, Typefull(), args["enum_strs"]) &&
         (notify && useComplete ==> "put_complete" in args && args["put_complete"] == PBool(false)))
      ensures r.Ok? ==> |caprotoPv.writeLog| == |old(caprotoPv.writeLog)| + 1
    {
      var ok := WaitForConnection();
      if ok.Err? {
        return Err(ok.error);
      }
      if !Truthy(args["write_access"]) {
        return Err(AccessRightsException);
      }
      var enumStrs := PNone;
      if InTypes(Typefull(), EnumTypes) && value.PStr? {
        enumStrs :- EnumStrs();
      }
      PutIgnoresNames(value, Typefull(), enumStrs, args["enum_strs"]);
      var v :- NormalizePut(value, Typefull(), enumStrs);
      r := SendPut(v, wait, useComplete, withCallback);
    }

    /** put's last step: clear put_complete when completion is to be
        tracked, then write the normalised value, with notify when
        anything waits on it. */
    method SendPut(v: PyVal, wait: bool, useComplete: bool, withCallback: bool) returns (r: Result<()>)
      requires Valid()
      modifies this`args, caprotoPv`writeLog
      ensures Valid() && Typefull() == old(Typefull()) && args["enum_strs"] == old(args["enum_strs"])
      ensures var notify := useComplete || withCallback || wait;
        (notify && useComplete ==> args == old(args)["put_complete" := PBool(false)]) &&
        (!(notify && useComplete) ==> args == old(args))
      ensures caprotoPv.writeLog == old(caprotoPv.writeLog) ||
        (caprotoPv.connected &&
         |caprotoPv.writeLog| == |old(caprotoPv.writeLog)| + 1 &&
         caprotoPv.writeLog[..|old(caprotoPv.writeLog)|] == old(caprotoPv.writeLog) &&
         var notify := useComplete || withCallback || wait;
         caprotoPv.writeLog[|caprotoPv.writeLog| - 1] == WriteRequest(v, wait && notify, notify, withCallback || useComplete))
      ensures r.Ok? ==> |caprotoPv.writeLog| == |old(caprotoPv.writeLog)| + 1
    {
      var notify := useComplete || withCallback || wait;
      if notify && useComplete {
        args := args["put_complete" := PBool(false)];
      }
      r := caprotoPv.Write(v, wait && notify, notify, withCallback || useComplete);
      assert caprotoPv.connected ==> caprotoPv.writeLog[..|old(caprotoPv.writeLog)|] == old(caprotoPv.writeLog);
    }

    /** add_callback: a callable without an explicit index is stored under
        the counter's value, which is never an index in use; then the
        monitor is checked, control data fetched and the callback run as
        asked. */
    method AddCallback(cb: Handler, index: Option<nat>, kwargs: map<string, PyVal>,
                       withCtrlvars: bool, runNow: bool) returns (r: Result<nat>)
      requires Valid()
      modifies this`args, this`connectEvent, this`accessLog, this`autoMonitorSub, this`callbacks,
               this`cbCount, this`calls, caprotoPv`readLog, caprotoPv`responses, caprotoPv`subscriptions
      ensures Valid()
      ensures !cb.isCallable || index.Some? ==>
        r == Err(CaprotoValueError) && callbacks == old(callbacks) && cbCount == old(cbCount)
      ensures cb.isCallable && index.None? ==>
        old(cbCount) !in old(callbacks) &&
        callbacks == old(callbacks)[old(cbCount) := Registered(cb, kwargs)] &&
        cbCount == old(cbCount) + 1 &&
        (r.Ok? ==> r.value == old(cbCount))
      ensures cb.isCallable && index.None? && !old(Connected()) ==>
        autoMonitorSub == old(autoMonitorSub) && caprotoPv.subscriptions == old(caprotoPv.subscriptions)
      ensures cb.isCallable && index.None? && old(Connected()) && MonitorWanted(autoMonitor) && old(autoMonitorSub).None? ==>
        autoMonitorSub == Some(old(MonitorRequest(None))) &&
        caprotoPv.subscriptions == old(caprotoPv.subscriptions) + [old(MonitorRequest(None))]
      ensures cb.isCallable && index.None? && r.Ok? && withCtrlvars && old(Connected()) ==>
        old(args["type"]).PInt? && IsNative(old(args["type"]).i) &&
        old(caprotoPv.readLog) + [ReadRequest(FieldType(Control, old(args["type"]).i), None)] <= caprotoPv.readLog
      ensures cb.isCallable && index.None? && runNow && !old(Connected()) ==> r.Err?
      ensures !runNow || r.Err? || !Connected() ==> calls == old(calls)
      ensures runNow && r.Ok? && Connected() ==>
        calls == old(calls) + [Call(cb, r.value, CallKeywords(args, Registered(cb, kwargs), r.value))]
    {
      if !cb.isCallable || index.Some? {
        return Err(CaprotoValueError);
      }
      var i := cbCount;
      AddNeverReplaces(callbacks, cbCount, Registered(cb, kwargs));
      callbacks := callbacks[i := Registered(cb, kwargs)];
      cbCount := cbCount + 1;
      var done := AfterAdd(i, withCtrlvars, runNow);
      if done.Err? {
        return Err(done.error);
      }
      r := Ok(i);
    }

    /** add_callback once the callback is stored: the monitor check, the
        control read when asked for, and the immediate run when asked for,
        with the registry left as it is. */
    method AfterAdd(i: nat, withCtrlvars: bool, runNow: bool) returns (r: Result<()>)
      requires Valid() && i in callbacks
      modifies this`args, this`connectEvent, this`accessLog, this`autoMonitorSub, this`calls,
               caprotoPv`readLog, caprotoPv`responses, caprotoPv`subscriptions
      ensures Valid()
      ensures !old(Connected()) ==>
        autoMonitorSub == old(autoMonitorSub) && caprotoPv.subscriptions == old(caprotoPv.subscriptions)
      ensures old(Connected()) && (!MonitorWanted(autoMonitor) || old(autoMonitorSub).Some?) ==>
        autoMonitorSub == old(autoMonitorSub) && caprotoPv.subscriptions == old(caprotoPv.subscriptions)
      ensures old(Connected()) && MonitorWanted(autoMonitor) && old(autoMonitorSub).None? ==>
        autoMonitorSub == Some(old(MonitorRequest(None))) &&
        caprotoPv.subscriptions == old(caprotoPv.subscriptions) + [old(MonitorRequest(None))]
      ensures !(withCtrlvars && old(Connected())) && !runNow ==>
        r.Ok? && args == old(args) && caprotoPv.readLog == old(caprotoPv.readLog)
      ensures r.Ok? && withCtrlvars && old(Connected()) ==>
        old(args["type"]).PInt? && IsNative(old(args["type"]).i) &&
        old(caprotoPv.readLog) + [ReadRequest(FieldType(Control, old(args["type"]).i), None)] <= caprotoPv.readLog
      ensures runNow && !old(Connected()) ==> r.Err?
      ensures !runNow || r.Err? || !Connected() ==> calls == old(calls)
      ensures runNow && r.Ok? && Connected() ==>
        calls == old(calls) + [Call(callbacks[i].handler, i, CallKeywords(args, callbacks[i], i))]
    {
      r := PrepareCallback(withCtrlvars);
      if r.Ok? && runNow {
        ghost var log := caprotoPv.readLog;
        r := RunNow(i);
        assert log <= caprotoPv.readLog;
      }
    }

    /** The connected-only steps of add_callback: the monitor check, and
        the control read when asked for. */
    method PrepareCallback(withCtrlvars: bool) returns (r: Result<()>)
      requires Valid()
      modifies this`args, this`connectEvent, this`accessLog, this`autoMonitorSub,
               caprotoPv`readLog, caprotoPv`responses, caprotoPv`subscriptions
      ensures Valid() && Connected() == old(Connected())
      ensures !old(Connected()) ==>
        r.Ok? && args == old(args) && caprotoPv.readLog == old(caprotoPv.readLog) &&
        autoMonitorSub == old(autoMonitorSub) && caprotoPv.subscriptions == old(caprotoPv.subscriptions)
      ensures old(Connected()) && (!MonitorWanted(autoMonitor) || old(autoMonitorSub).Some?) ==>
        autoMonitorSub == old(autoMonitorSub) && caprotoPv.subscriptions == old(caprotoPv.subscriptions)
      ensures old(Connected()) && MonitorWanted(autoMonitor) && old(autoMonitorSub).None? ==>
        autoMonitorSub == Some(old(MonitorRequest(None))) &&
        caprotoPv.subscriptions == old(caprotoPv.subscriptions) + [old(MonitorRequest(None))]
      ensures !withCtrlvars ==> r.Ok? && args == old(args) && caprotoPv.readLog == old(caprotoPv.readLog)
      ensures r.Ok? && withCtrlvars && old(Connected()) ==>
        old(args["type"]).PInt? && IsNative(old(args["type"]).i) &&
        caprotoPv.readLog == old(caprotoPv.readLog) + [ReadRequest(FieldType(Control, old(args["type"]).i), None)]
    {
      if !Connected() {
        return Ok(());
      }
      var sub := CheckAutoMonitorSub(None);
      assert sub.Ok?;
      if withCtrlvars {
        var info := GetCtrlvars();
        if info.Err? {
          return Err(info.error);
        }
      }
      r := Ok(());
    }

    /** The run_now step of add_callback: get(as_string=True), then the
        new callback alone when still connected. */
    method RunNow(i: nat) returns (r: Result<()>)
      requires Valid() && i in callbacks
      modifies this`args, this`connectEvent, this`accessLog, this`calls, caprotoPv`readLog, caprotoPv`responses
      ensures Valid()
      ensures !old(Connected()) ==> r.Err?
      ensures r.Err? || !Connected() ==> calls == old(calls)
      ensures old(caprotoPv.readLog) <= caprotoPv.readLog
      ensures r.Ok? && Connected() ==>
        calls == old(calls) + [Call(callbacks[i].handler, i, CallKeywords(args, callbacks[i], i))]
    {
      var v, getStart, getPlan, getInfo := Get(None, true, true, false, true);
      if v.Err? {
        return Err(v.error);
      }
      if Connected() {
        RunCallback(i);
      }
      r := Ok(());
    }

    /** remove_callback: an unknown index is ignored. */
    method RemoveCallback(index: nat)
      requires Valid()
      modifies this`callbacks
      ensures Valid()
      ensures callbacks == old(callbacks) - {index}
    {
      callbacks := callbacks - {index};
    }

    method ClearCallbacks()
      requires Valid()
      modifies this`callbacks
      ensures Valid() && callbacks == map[]
    {
      callbacks := map[];
    }

    /** run_callback: an unknown index is ignored; otherwise the callback
        runs with the cached data, its keywords and its index. */
    method RunCallback(index: nat)
      modifies this`calls
      ensures index !in callbacks ==> calls == old(calls)
      ensures index in callbacks && callbacks[index].handler.isCallable ==>
        calls == old(calls) + [Call(callbacks[index].handler, index, CallKeywords(args, callbacks[index], index))]
      ensures index in callbacks && !callbacks[index].handler.isCallable ==> calls == old(calls)
    {
      if index !in callbacks {
        return;
      }
      var entry := callbacks[index];
      if entry.handler.isCallable {
        calls := calls + [Call(entry.handler, index, CallKeywords(args, entry, index))];
      }
    }

    /** run_callbacks: every registered callback, in ascending index
        order. */
    method RunCallbacks()
      requires Valid()
      modifies this`calls
      ensures calls == old(calls) + CallsFor(args, callbacks, SortedKeys(callbacks.Keys))
    {
      var order := SortedKeys(callbacks.Keys);
      RunInOrder(order);
    }

    /** run_callbacks' loop: run_callback for each index of `order`. */
    method RunInOrder(order: seq<nat>)
      requires forall i :: 0 <= i < |order| ==> order[i] in callbacks && callbacks[order[i]].handler.isCallable
      modifies this`calls
      ensures calls == old(calls) + CallsFor(args, callbacks, order)
    {
      var j := 0;
      while j < |order|
        invariant 0 <= j <= |order|
        invariant calls == old(calls) + CallsFor(args, callbacks, order[..j])
      {
        ghost var prev := CallsFor(args, callbacks, order[..j]);
        ghost var c := Call(callbacks[order[j]].handler, order[j], CallKeywords(args, callbacks[order[j]], order[j]));
        RunCallback(order[j]);
        CallsForPrefixStep(args, callbacks, order, j);
        assert (old(calls) + prev) + [c] == old(calls) + (prev + [c]);
        j := j + 1;
      }
      assert order[..j] == order;
    }
  }
}
