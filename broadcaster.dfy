/** The state of one Channel Access UDP endpoint: whether it has registered
    with a repeater, the searches still awaiting an answer, and the counter
    that hands out search ids. */
module Broadcast {
  import opened Common
  import opened Commands
  import ProtocolState

  /** Search ids wrap around at 2**16. */
  const MAX_ID := 0x1_0000

  /** The part of a broadcaster that processing commands changes. */
  datatype BcastState = BcastState(registered: bool, unanswered: map<nat, bytes>)

  /** `SearchRequest.name`: the payload with its NUL padding stripped. */
  function SearchName(c: Command): bytes {
    StripNuls(if c.payload.Some? then c.payload.value else [])
  }

  /** `SearchRequest.cid` is the first header parameter. */
  function RequestCid(c: Command): nat { c.header.parameter1 }

  /** `SearchResponse.cid` is the second header parameter. */
  function ResponseCid(c: Command): nat { c.header.parameter2 }

  /** Broadcaster._process_command: the checks and updates for one command
      sent or received by `role`, given the command classes seen earlier in
      the same datagram. Registration commands are always accepted; only
      an unregistered client sending, or a search without its version
      command earlier in the datagram, is refused. Only a confirmation
      registers, only a search request adds an unanswered search and only
      a search response removes one. */
  function ProcessCommand(ourRole: Role, s: BcastState, role: Role, c: Command, history: seq<CommandKind>)
    : (r: Result<BcastState>)
    ensures r.Err? ==>
      c.kind != RepeaterRegisterRequest && c.kind != RepeaterConfirmResponse &&
      ((role == Client && ourRole == Client && !s.registered) ||
       (c.kind == SearchRequest && VersionRequest !in history) ||
       (c.kind == SearchResponse && VersionResponse !in history))
    ensures r.Ok? ==> r.value.registered == (s.registered || c.kind == RepeaterConfirmResponse)
    ensures r.Ok? && c.kind != SearchRequest && c.kind != SearchResponse ==> r.value.unanswered == s.unanswered
    ensures r.Ok? && c.kind == SearchRequest ==> r.value.unanswered.Keys == s.unanswered.Keys + {RequestCid(c)}
    ensures r.Ok? && c.kind == SearchResponse ==> r.value.unanswered.Keys == s.unanswered.Keys - {ResponseCid(c)}
  {
    if c.kind == RepeaterRegisterRequest then Ok(s)
    else if c.kind == RepeaterConfirmResponse then Ok(s.(registered := true))
    else if role == Client && ourRole == Client && !s.registered then Err(LocalProtocolError)
    else if c.kind == SearchRequest then
      if VersionRequest !in history then Err(ProtocolState.GetException(ourRole, SearchRequest))
      else Ok(s.(unanswered := s.unanswered[RequestCid(c) := SearchName(c)]))
    else if c.kind == SearchResponse then
      if VersionResponse !in history then Err(ProtocolState.GetException(ourRole, SearchResponse))
      else Ok(s.(unanswered := s.unanswered - {ResponseCid(c)}))
    else Ok(s)
  }

  function Kinds(cs: seq<Command>): (ks: seq<CommandKind>)
    ensures |ks| == |cs| && forall i :: 0 <= i < |cs| ==> ks[i] == cs[i].kind
  {
    if cs == [] then [] else [cs[0].kind] + Kinds(cs[1..])
  }

  /** A batch of commands processed in order: the state after the commands
      accepted before the first failure, and that failure if there was one.
      A failure does not undo what the earlier commands changed. */
  function ProcessAll(ourRole: Role, s: BcastState, role: Role, cs: seq<Command>, history: seq<CommandKind>)
    : (r: (BcastState, Option<Error>))
    ensures s.registered ==> r.0.registered
    ensures r.1.Some? ==> cs != []
    ensures !r.0.registered ==> forall i :: 0 <= i < |cs| ==> cs[i].kind != RepeaterConfirmResponse || r.1.Some?
    decreases |cs|
  {
    if cs == [] then (s, None)
    else match ProcessCommand(ourRole, s, role, cs[0], history)
      case Err(e) => (s, Some(e))
      case Ok(next) => ProcessAll(ourRole, next, role, cs[1..], history + [cs[0].kind])
  }

  /** One step of ProcessAll: the first command is checked, and either
      stops the run or leads to the rest. */
  lemma ProcessAllStep(ourRole: Role, s: BcastState, role: Role, cs: seq<Command>, history: seq<CommandKind>)
    requires cs != []
    ensures ProcessCommand(ourRole, s, role, cs[0], history).Err? ==>
      ProcessAll(ourRole, s, role, cs, history) == (s, Some(ProcessCommand(ourRole, s, role, cs[0], history).error))
    ensures ProcessCommand(ourRole, s, role, cs[0], history).Ok? ==>
      ProcessAll(ourRole, s, role, cs, history) ==
      ProcessAll(ourRole, ProcessCommand(ourRole, s, role, cs[0], history).value, role, cs[1..], history + [cs[0].kind])
  {
  }

  /** The datagram of a run of commands grows by each command's bytes. */
  lemma {:induction false} AllBytesSnoc(cs: seq<Command>, c: Command)
    requires forall k :: 0 <= k < |cs| ==> HeaderFits(cs[k].header)
    requires HeaderFits(c.header)
    ensures AllBytes(cs + [c]) == AllBytes(cs) + CommandBytes(c)
  {
    if cs == [] {
      assert [] + [c] == [c];
      assert [c][1..] == [];
    } else {
      assert (cs + [c])[0] == cs[0];
      assert (cs + [c])[1..] == cs[1..] + [c];
      AllBytesSnoc(cs[1..], c);
      var h := CommandBytes(cs[0]);
      assert h + (AllBytes(cs[1..]) + CommandBytes(c)) == (h + AllBytes(cs[1..])) + CommandBytes(c);
    }
  }

  /** ProcessAllStep at position i of a batch. */
  lemma ProcessAllAt(ourRole: Role, s: BcastState, role: Role, cs: seq<Command>, i: nat, history: seq<CommandKind>)
    requires i < |cs|
    ensures ProcessCommand(ourRole, s, role, cs[i], history).Err? ==>
      ProcessAll(ourRole, s, role, cs[i..], history) == (s, Some(ProcessCommand(ourRole, s, role, cs[i], history).error))
    ensures ProcessCommand(ourRole, s, role, cs[i], history).Ok? ==>
      ProcessAll(ourRole, s, role, cs[i..], history) ==
      ProcessAll(ourRole, ProcessCommand(ourRole, s, role, cs[i], history).value, role, cs[i + 1..], history + [cs[i].kind])
  {
    assert cs[i..][0] == cs[i];
    assert cs[i..][1..] == cs[i + 1..];
    ProcessAllStep(ourRole, s, role, cs[i..], history);
  }

  /** The kinds and the bytes of a prefix, one command longer. */
  lemma PrefixStep(cs: seq<Command>, i: nat)
    requires i < |cs| && forall k :: 0 <= k < |cs| ==> HeaderFits(cs[k].header)
    ensures Kinds(cs[..i + 1]) == Kinds(cs[..i]) + [cs[i].kind]
    ensures AllBytes(cs[..i + 1]) == AllBytes(cs[..i]) + CommandBytes(cs[i])
  {
    assert cs[..i + 1] == cs[..i] + [cs[i]];
    KindsAppend(cs[..i], cs[i]);
    AllBytesSnoc(cs[..i], cs[i]);
  }

  class Broadcaster {
    const ourRole: Role
    const theirRole: Role
    const protocolVersion: nat
    var unansweredSearches: map<nat, bytes>
    var registered: bool
    /** The next value `itertools.count` would yield. */
    var searchIdCounter: nat

    function State(): BcastState
      reads this
    {
      BcastState(registered, unansweredSearches)
    }

    /** Broadcaster(our_role, protocol_version): unregistered, no pending
        searches, ids from 0, and the peer in the other role. */
    constructor(ourRole: Role, protocolVersion: nat)
      ensures this.ourRole == ourRole && theirRole != ourRole
      ensures this.protocolVersion == protocolVersion
      ensures !registered && unansweredSearches == map[] && searchIdCounter == 0
    {
      this.ourRole := ourRole;
      theirRole := if ourRole == Client then Server else Client;
      this.protocolVersion := protocolVersion;
      unansweredSearches := map[];
      registered := false;
      searchIdCounter := 0;
    }

    /** _process_command: one command's checks and updates, as `role`'s;
        a rejected command changes nothing. */
    method ProcessOne(role: Role, c: Command, history: seq<CommandKind>) returns (r: Result<()>)
      modifies this`registered, this`unansweredSearches
      ensures var p := ProcessCommand(ourRole, old(State()), role, c, history);
        (p.Err? ==> r == Err(p.error) && State() == old(State())) &&
        (p.Ok? ==> r.Ok? && State() == p.value)
    {
      var step := ProcessCommand(ourRole, State(), role, c, history);
      if step.Err? {
        return Err(step.error);
      }
      registered := step.value.registered;
      unansweredSearches := step.value.unanswered;
      r := Ok(());
    }

    /** send: every command goes through the checks as our own, and the
        datagram is the commands' bytes in order. */
    method Send(commands: seq<Command>) returns (r: Result<bytes>)
      requires forall i :: 0 <= i < |commands| ==> HeaderFits(commands[i].header)
      modifies this`registered, this`unansweredSearches
      ensures (State(), if r.Err? then Some(r.error) else None) ==
              ProcessAll(ourRole, old(State()), ourRole, commands, [])
      ensures r.Ok? ==> r.value == AllBytes(commands)
    {
      var out: bytes := [];
      var history: seq<CommandKind> := [];
      var i := 0;
      while i < |commands|
        invariant 0 <= i <= |commands|
        invariant history == Kinds(commands[..i])
        invariant out == AllBytes(commands[..i])
        invariant ProcessAll(ourRole, State(), ourRole, commands[i..], history) ==
                  ProcessAll(ourRole, old(State()), ourRole, commands, [])
      {
        ProcessAllAt(ourRole, State(), ourRole, commands, i, history);
        var step := ProcessOne(ourRole, commands[i], history);
        if step.Err? {
          return Err(step.error);
        }
        PrefixStep(commands, i);
        out := out + CommandBytes(commands[i]);
        history := history + [commands[i].kind];
        i := i + 1;
      }
      assert commands[i..] == [];
      assert commands[..i] == commands;
      return Ok(out);
    }

    /** process_commands: every received command goes through the checks as
        the peer's. */
    method ProcessCommands(commands: seq<Command>) returns (r: Option<Error>)
      modifies this`registered, this`unansweredSearches
      ensures (State(), r) == ProcessAll(ourRole, old(State()), theirRole, commands, [])
    {
      var history: seq<CommandKind> := [];
      var i := 0;
      while i < |commands|
        invariant 0 <= i <= |commands|
        invariant history == Kinds(commands[..i])
        invariant ProcessAll(ourRole, State(), theirRole, commands[i..], history) ==
                  ProcessAll(ourRole, old(State()), theirRole, commands, [])
      {
        ProcessAllAt(ourRole, State(), theirRole, commands, i, history);
        var step := ProcessOne(theirRole, commands[i], history);
        if step.Err? {
          return Some(step.error);
        }
        assert commands[..i + 1] == commands[..i] + [commands[i]];
        KindsAppend(commands[..i], commands[i]);
        history := history + [commands[i].kind];
        i := i + 1;
      }
      assert commands[i..] == [];
      return None;
    }

    /** new_search_id: the next id from the counter that is not awaiting an
        answer, skipping MAX_ID by restarting the counter at 0. The source
        loops forever when the counter has not passed MAX_ID, MAX_ID is free
        and every id below it is taken; the precondition excludes exactly
        that case. */
    method NewSearchId() returns (id: nat)
      requires searchIdCounter > MAX_ID || MAX_ID in unansweredSearches ||
               exists j :: 0 <= j < MAX_ID && j !in unansweredSearches
      modifies this`searchIdCounter
      ensures id !in unansweredSearches && id != MAX_ID
      ensures searchIdCounter == id + 1
      ensures old(searchIdCounter) <= id ==>
        forall j :: old(searchIdCounter) <= j < id ==> j in unansweredSearches
      ensures id < old(searchIdCounter) ==>
        old(searchIdCounter) <= MAX_ID && MAX_ID !in unansweredSearches &&
        (forall j :: old(searchIdCounter) <= j <= MAX_ID - 1 ==> j in unansweredSearches) &&
        (forall j :: 0 <= j < id ==> j in unansweredSearches)
    {
      ghost var c0 := searchIdCounter;
      ghost var wrapped := false;
      while true
        invariant !wrapped ==> (c0 <= searchIdCounter &&
          forall j :: c0 <= j < searchIdCounter ==> j in unansweredSearches)
        invariant wrapped ==> (c0 <= MAX_ID && MAX_ID !in unansweredSearches &&
          searchIdCounter <= MAX_ID &&
          (forall j :: c0 <= j < MAX_ID ==> j in unansweredSearches) &&
          (forall j :: 0 <= j < searchIdCounter ==> j in unansweredSearches) &&
          exists j :: 0 <= j < MAX_ID && j !in unansweredSearches)
        invariant !wrapped ==> (c0 > MAX_ID || MAX_ID in unansweredSearches ||
          exists j :: 0 <= j < MAX_ID && j !in unansweredSearches)
        decreases if wrapped then 0 else 1, |KeysFrom(unansweredSearches.Keys, searchIdCounter)|
      {
        var i := searchIdCounter;
        searchIdCounter := searchIdCounter + 1;
        if i in unansweredSearches {
          KeysFromStep(unansweredSearches.Keys, i);
          continue;
        }
        if i == MAX_ID {
          searchIdCounter := 0;
          wrapped := true;
          continue;
        }
        return i;
      }
    }

    /** search: a fresh id, then a VersionRequest of priority 0 and a
        SearchRequest for the name, to travel in one datagram. The header
        fields are 32 and 16 bits wide; larger numbers are truncated. */
    method Search(name: PyVal) returns (r: Result<(Command, Command)>)
      requires searchIdCounter > MAX_ID || MAX_ID in unansweredSearches ||
               exists j :: 0 <= j < MAX_ID && j !in unansweredSearches
      modifies this`searchIdCounter
      ensures r.Ok? <==> NewSearchRequest(name, (searchIdCounter - 1) % U32, protocolVersion % U16).Ok?
      ensures r.Ok? ==> r.value == (NewVersionRequest(0, protocolVersion % U16).value,
                                    NewSearchRequest(name, (searchIdCounter - 1) % U32, protocolVersion % U16).value)
      ensures r.Ok? ==> RequestCid(r.value.1) == (searchIdCounter - 1) % U32
      ensures searchIdCounter - 1 !in unansweredSearches && searchIdCounter - 1 != MAX_ID
      ensures old(searchIdCounter) <= searchIdCounter - 1 ==>
        forall j :: old(searchIdCounter) <= j < searchIdCounter - 1 ==> j in unansweredSearches
      ensures searchIdCounter - 1 < old(searchIdCounter) ==>
        old(searchIdCounter) <= MAX_ID && MAX_ID !in unansweredSearches &&
        (forall j :: old(searchIdCounter) <= j <= MAX_ID - 1 ==> j in unansweredSearches) &&
        (forall j :: 0 <= j < searchIdCounter - 1 ==> j in unansweredSearches)
    {
      var cid := NewSearchId();
      var version := NewVersionRequest(0, protocolVersion % U16);
      var search := NewSearchRequest(name, cid % U32, protocolVersion % U16);
      if search.Err? {
        return Err(search.error);
      }
      r := Ok((version.value, search.value));
    }

    /** disconnect: forget the repeater registration. */
    method Disconnect()
      modifies this`registered
      ensures !registered
    {
      registered := false;
    }
  }

  /** The keys at or above a bound, whose number shrinks while the id counter
      steps over keys. */
  function KeysFrom(keys: set<nat>, from: nat): set<nat> {
    set k | k in keys && k >= from
  }

  lemma KeysFromStep(keys: set<nat>, i: nat)
    requires i in keys
    ensures |KeysFrom(keys, i + 1)| < |KeysFrom(keys, i)|
  {
    assert KeysFrom(keys, i + 1) == KeysFrom(keys, i) - {i};
  }

  lemma KindsAppend(cs: seq<Command>, c: Command)
    ensures Kinds(cs + [c]) == Kinds(cs) + [c.kind]
  {
  }

  // ---------------------------------------------------------------------
  // Properties of command processing.

  /** Until a repeater confirms, a client rejects every client-role command
      other than the register request, with a local protocol error. */
  lemma UnregisteredClientRejects(s: BcastState, c: Command, history: seq<CommandKind>)
    requires !s.registered
    requires c.kind != RepeaterRegisterRequest && c.kind != RepeaterConfirmResponse
    ensures ProcessCommand(Client, s, Client, c, history) == Err(LocalProtocolError)
  {
  }

  /** Registration only ever turns on while processing, and it ends up on
      exactly when it was on before or a RepeaterConfirmResponse was
      accepted. */
  lemma {:induction false} RegisteredAfterBatch(ourRole: Role, s: BcastState, role: Role, cs: seq<Command>, history: seq<CommandKind>)
    ensures s.registered ==> ProcessAll(ourRole, s, role, cs, history).0.registered
    ensures !s.registered && RepeaterConfirmResponse !in Kinds(cs) ==> !ProcessAll(ourRole, s, role, cs, history).0.registered
    decreases |cs|
  {
    if cs != [] {
      match ProcessCommand(ourRole, s, role, cs[0], history)
      case Err(_) =>
      case Ok(next) =>
        assert Kinds(cs[1..]) == Kinds(cs)[1..];
        RegisteredAfterBatch(ourRole, next, role, cs[1..], history + [cs[0].kind]);
    }
  }

  /** Every rejection is a protocol error, local or remote. */
  lemma {:induction false} BatchErrorsAreProtocolErrors(ourRole: Role, s: BcastState, role: Role, cs: seq<Command>, history: seq<CommandKind>)
    ensures ProcessAll(ourRole, s, role, cs, history).1.Some? ==>
      ProcessAll(ourRole, s, role, cs, history).1.value in {LocalProtocolError, RemoteProtocolError}
    decreases |cs|
  {
    if cs != [] {
      match ProcessCommand(ourRole, s, role, cs[0], history)
      case Err(_) =>
      case Ok(next) => BatchErrorsAreProtocolErrors(ourRole, next, role, cs[1..], history + [cs[0].kind]);
    }
  }

  /** Only search requests and responses touch the unanswered searches. */
  lemma {:induction false} UnansweredOnlyBySearches(ourRole: Role, s: BcastState, role: Role, cs: seq<Command>, history: seq<CommandKind>)
    requires SearchRequest !in Kinds(cs) && SearchResponse !in Kinds(cs)
    ensures ProcessAll(ourRole, s, role, cs, history).0.unanswered == s.unanswered
    decreases |cs|
  {
    if cs != [] {
      assert Kinds(cs[1..]) == Kinds(cs)[1..];
      assert cs[0].kind == Kinds(cs)[0];
      match ProcessCommand(ourRole, s, role, cs[0], history)
      case Err(_) =>
      case Ok(next) => UnansweredOnlyBySearches(ourRole, next, role, cs[1..], history + [cs[0].kind]);
    }
  }

  /** A search request alone in its datagram is rejected, once registration
      is not the obstacle, and nothing is recorded. */
  lemma SearchNeedsVersion(ourRole: Role, s: BcastState, role: Role, q: Command)
    requires q.kind == SearchRequest
    requires !(role == Client && ourRole == Client && !s.registered)
    ensures ProcessAll(ourRole, s, role, [q], []) == (s, Some(ProtocolState.GetException(ourRole, SearchRequest)))
  {
  }

  /** The pair of commands `search` builds, sent together, is accepted and
      records the request's cid against its name. */
  lemma SearchDatagramAccepted(ourRole: Role, s: BcastState, v: Command, q: Command)
    requires v.kind == VersionRequest && q.kind == SearchRequest
    requires ourRole == Server || s.registered
    ensures ProcessAll(ourRole, s, ourRole, [v, q], []) ==
      (s.(unanswered := s.unanswered[RequestCid(q) := SearchName(q)]), None)
  {
    assert ProcessCommand(ourRole, s, ourRole, v, []) == Ok(s);
    assert [v, q][1..] == [q];
    assert [] + [v.kind] == [VersionRequest];
    var t := s.(unanswered := s.unanswered[RequestCid(q) := SearchName(q)]);
    assert ProcessCommand(ourRole, s, ourRole, q, [VersionRequest]) == Ok(t);
    assert [q][1..] == [];
    assert ProcessAll(ourRole, s, ourRole, [v, q], []) == ProcessAll(ourRole, s, ourRole, [q], [VersionRequest]);
    assert ProcessAll(ourRole, s, ourRole, [q], [VersionRequest]) == ProcessAll(ourRole, t, ourRole, [], [VersionRequest, SearchRequest]);
  }

  /** The answer to a recorded search, received after a VersionResponse in
      the same datagram, removes the search from the unanswered table. */
  lemma SearchResponseAnswers(ourRole: Role, s: BcastState, role: Role, v: Command, a: Command)
    requires v.kind == VersionResponse && a.kind == SearchResponse
    requires !(role == Client && ourRole == Client && !s.registered)
    ensures ProcessAll(ourRole, s, role, [v, a], []) ==
      (s.(unanswered := s.unanswered - {ResponseCid(a)}), None)
    ensures ResponseCid(a) !in ProcessAll(ourRole, s, role, [v, a], []).0.unanswered
  {
    assert ProcessCommand(ourRole, s, role, v, []) == Ok(s);
    assert [v, a][1..] == [a];
    assert [] + [v.kind] == [VersionResponse];
    var t := s.(unanswered := s.unanswered - {ResponseCid(a)});
    assert ProcessCommand(ourRole, s, role, a, [VersionResponse]) == Ok(t);
    assert [a][1..] == [];
    assert ProcessAll(ourRole, s, role, [v, a], []) == ProcessAll(ourRole, s, role, [a], [VersionResponse]);
    assert ProcessAll(ourRole, s, role, [a], [VersionResponse]) == ProcessAll(ourRole, t, role, [], [VersionResponse, SearchResponse]);
  }
}
