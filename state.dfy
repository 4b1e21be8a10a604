/** The Channel Access protocol state machines: constant transition tables
    for virtual circuits and channels, per role, driven by command classes,
    and the state-triggered transition that ties a channel to its circuit. */
module ProtocolState {
  import opened Common
  import opened Commands

  datatype StateName =
    | SendVersionRequest | AwaitVersionResponse | SendVersionResponse
    | Connected | Error | Closed | Idle
    | SendCreateChanRequest | AwaitCreateChanResponse | SendCreateChanResponse
    | MustClose | NeedCircuit

  /** A state per role: the `states` dictionary, always keyed by both roles. */
  datatype RoleStates = RoleStates(client: StateName, server: StateName) {
    function Get(role: Role): StateName {
      if role == Client then client else server
    }
    function Set(role: Role, s: StateName): (r: RoleStates)
      ensures r.Get(role) == s && r.Get(OtherRole(role)) == Get(OtherRole(role))
    {
      if role == Client then RoleStates(s, server) else RoleStates(client, s)
    }
  }

  lemma SetGetSame(rs: RoleStates, role: Role)
    ensures rs.Set(role, rs.Get(role)) == rs
  {
  }

  /** COMMAND_TRIGGERED_CIRCUIT_TRANSITIONS; None where the table has no
      entry (the server side has no ERROR row at all). Each role stays
      within its own circuit states, nothing leaves ERROR, an error
      response leads to ERROR from every other state, and only an error
      response does. */
  function CircuitTransition(role: Role, s: StateName, k: CommandKind): (r: Option<StateName>)
    ensures r.Some? ==>
      r.value in (if role == Client then {SendVersionRequest, AwaitVersionResponse, Connected, Error}
                  else {Idle, SendVersionResponse, Connected, Error})
    ensures s == Error ==> r.None?
    ensures r.Some? ==> (r.value == Error <==> k == ErrorResponse)
    ensures k == ErrorResponse ==>
      (r.Some? <==> s in (if role == Client then {SendVersionRequest, AwaitVersionResponse, Connected}
                          else {Idle, SendVersionResponse, Connected}))
  {
    match (role, s)
    case (Client, SendVersionRequest) =>
      (match k
       case EchoRequest | EchoResponse => Some(SendVersionRequest)
       case VersionRequest => Some(AwaitVersionResponse)
       case VersionResponse => Some(Connected)
       case ErrorResponse => Some(Error)
       case _ => None)
    case (Client, AwaitVersionResponse) =>
      (match k
       case EchoRequest | EchoResponse | VersionRequest | HostNameRequest | ClientNameRequest =>
         Some(AwaitVersionResponse)
       case VersionResponse => Some(Connected)
       case ErrorResponse => Some(Error)
       case _ => None)
    case (Client, Connected) =>
      (match k
       case EchoRequest | EchoResponse | HostNameRequest | ClientNameRequest | AccessRightsResponse =>
         Some(Connected)
       case VersionRequest => Some(AwaitVersionResponse)
       case VersionResponse => Some(Connected)
       case ErrorResponse => Some(Error)
       case _ => None)
    case (Server, Idle) =>
      (match k
       case VersionResponse => Some(Connected)
       case VersionRequest => Some(SendVersionResponse)
       case EchoRequest | EchoResponse => Some(Idle)
       case ErrorResponse => Some(Error)
       case _ => None)
    case (Server, SendVersionResponse) =>
      (match k
       case VersionRequest | EchoRequest | EchoResponse | HostNameRequest | ClientNameRequest =>
         Some(SendVersionResponse)
       case VersionResponse => Some(Connected)
       case ErrorResponse => Some(Error)
       case _ => None)
    case (Server, Connected) =>
      (match k
       case VersionRequest => Some(SendVersionResponse)
       case VersionResponse | HostNameRequest | ClientNameRequest | AccessRightsResponse
          | EchoRequest | EchoResponse => Some(Connected)
       case ErrorResponse => Some(Error)
       case _ => None)
    case _ => None
  }

  /** The channel rows shared by both roles, from CONNECTED on. */
  function ChannelTail(s: StateName, k: CommandKind): Option<StateName> {
    match s
    case Connected =>
      (match k
       case ReadNotifyRequest | WriteNotifyRequest | ReadNotifyResponse | WriteNotifyResponse
          | EventAddRequest | EventCancelRequest | EventAddResponse | EventCancelResponse =>
         Some(Connected)
       case ClearChannelRequest => Some(MustClose)
       case ServerDisconnResponse => Some(Closed)
       case ErrorResponse => Some(Error)
       case _ => None)
    case MustClose =>
      (match k
       case ClearChannelResponse | ServerDisconnResponse => Some(Closed)
       case ErrorResponse => Some(Error)
       case _ => None)
    case _ => None
  }

  /** COMMAND_TRIGGERED_CHANNEL_TRANSITIONS. Each role stays within its
      own channel states, ERROR and CLOSED have no rows, an error response
      leads to ERROR from every other state and only an error response
      does, and only a disconnection or a clear-channel response closes. */
  function ChannelTransition(role: Role, s: StateName, k: CommandKind): (r: Option<StateName>)
    ensures r.Some? ==>
      r.value in (if role == Client then {AwaitCreateChanResponse, Connected, MustClose, Closed, Error}
                  else {SendCreateChanResponse, Connected, MustClose, Closed, Error})
    ensures s == Error || s == Closed ==> r.None?
    ensures r.Some? ==> (r.value == Error <==> k == ErrorResponse)
    ensures k == ErrorResponse ==>
      (r.Some? <==> s in (if role == Client then {SendCreateChanRequest, AwaitCreateChanResponse, Connected, MustClose}
                          else {Idle, SendCreateChanResponse, Connected, MustClose}))
    ensures r == Some(Closed) ==> k == ServerDisconnResponse || k == ClearChannelResponse
  {
    match (role, s)
    case (Client, SendCreateChanRequest) =>
      (match k
       case CreateChanRequest => Some(AwaitCreateChanResponse)
       case ErrorResponse => Some(Error)
       case _ => None)
    case (Client, AwaitCreateChanResponse) =>
      (match k
       case CreateChanResponse => Some(Connected)
       case AccessRightsResponse => Some(AwaitCreateChanResponse)
       case ErrorResponse => Some(Error)
       case _ => None)
    case (Server, Idle) =>
      (match k
       case CreateChanRequest => Some(SendCreateChanResponse)
       case ErrorResponse => Some(Error)
       case _ => None)
    case (Server, SendCreateChanResponse) =>
      (match k
       case CreateChanResponse => Some(Connected)
       case AccessRightsResponse => Some(SendCreateChanResponse)
       case ErrorResponse => Some(Error)
       case _ => None)
    case (_, Connected) => ChannelTail(s, k)
    case (_, MustClose) => ChannelTail(s, k)
    case _ => None
  }

  /** STATE_TRIGGERED_TRANSITIONS, the same for both roles: (channel state,
      circuit state) pairs and what they become. */
  function StateTriggered(role: Role, channel: StateName, circuit: StateName): (r: Option<(StateName, StateName)>)
    ensures r.Some? <==> channel == NeedCircuit && circuit == Connected
    ensures r.Some? ==> r.value == (SendCreateChanRequest, Connected)
  {
    if channel == NeedCircuit && circuit == Connected then Some((SendCreateChanRequest, Connected)) else None
  }

  /** get_exception: requests are the client's fault and responses the
      server's; the error is local when we are the party at fault. */
  function GetException(ourRole: Role, k: CommandKind): (e: Error)
    ensures e == LocalProtocolError <==> ourRole == RoleOf(k)
    ensures e == LocalProtocolError || e == RemoteProtocolError
  {
    var partyAtFault := if DirectionOf(k) == Request then Client else Server;
    if ourRole == partyAtFault then LocalProtocolError else RemoteProtocolError
  }

  /** The outcome of _fire_command_triggered_transitions on one state. */
  function Fire(entry: Option<StateName>, role: Role, k: CommandKind, s: StateName): (r: Result<StateName>)
    ensures r.Ok? <==> entry.Some?
    ensures r.Ok? ==> r.value == entry.value
    ensures r.Err? ==> r.error == GetException(role, k)
  {
    if entry.Some? then Ok(entry.value) else Err(GetException(role, k))
  }

  /** The channel state after the state-triggered transition, given the
      circuit's state. */
  function AfterTrigger(role: Role, channel: StateName, circuit: StateName): StateName {
    match StateTriggered(role, channel, circuit)
    case Some(p) => p.0
    case None => channel
  }

  /** A channel's states after the state-triggered transition for one
      role; a second firing changes nothing. */
  function Triggered(role: Role, s: RoleStates, circuit: StateName): (r: RoleStates)
    ensures r.Get(OtherRole(role)) == s.Get(OtherRole(role))
  {
    s.Set(role, AfterTrigger(role, s.Get(role), circuit))
  }

  /** Firing the state-triggered transition again changes nothing: the only
      entry leaves a state that does not match it. */
  lemma TriggeredIdempotent(role: Role, s: RoleStates, circuit: StateName)
    ensures Triggered(role, Triggered(role, s, circuit), circuit) == Triggered(role, s, circuit)
  {
    var r := Triggered(role, s, circuit);
    assert r.Get(role) != NeedCircuit || circuit != Connected;
    SetGetSame(r, role);
  }

  class CircuitState {
    var states: RoleStates
    var channels: seq<ChannelState>

    /** A new circuit: the client sends a version request first, the server
        waits idle. */
    constructor(channels: seq<ChannelState>)
      ensures states == RoleStates(SendVersionRequest, Idle)
      ensures this.channels == channels
    {
      states := RoleStates(SendVersionRequest, Idle);
      this.channels := channels;
    }

    /** The circuits of the channels, which the state-triggered transitions
        write to. */
    function ChannelCircuits(): set<CircuitState>
      reads this
    {
      set c | c in channels :: c.circuit
    }

    /** CircuitState.process_command_type: fire the table entry for this
        role, state and command class (an error, with nothing changed, when
        there is none), then fire every channel's state-triggered
        transition. */
    method ProcessCommandType(role: Role, k: CommandKind) returns (r: Result<()>)
      modifies this, (set c | c in channels), ChannelCircuits()
      ensures channels == old(channels)
      ensures r.Ok? <==> CircuitTransition(role, old(states.Get(role)), k).Some?
      ensures r.Err? ==> r.error == GetException(role, k)
      ensures r.Err? ==> (states == old(states) &&
        forall c :: c in channels ==> c.states == old(c.states))
      ensures r.Ok? ==> states == old(states).Set(role, CircuitTransition(role, old(states.Get(role)), k).value)
      ensures forall o :: o in old(ChannelCircuits()) && o != this ==> o.states == old(o.states)
      ensures r.Ok? ==> forall c :: c in channels ==>
        c.states == Triggered(role, old(c.states), c.circuit.states.Get(role))
    {
      var entry := CircuitTransition(role, states.Get(role), k);
      var fired := Fire(entry, role, k, states.Get(role));
      if fired.Err? {
        return Err(fired.error);
      }
      states := states.Set(role, fired.value);
      FireChannelsTriggered(role);
      return Ok(());
    }

    /** The loop of process_command_type over the channels: each one's
        state-triggered transition. The circuits keep their states, so a
        channel listed twice ends as if fired once. */
    method FireChannelsTriggered(role: Role)
      modifies (set c | c in channels), ChannelCircuits()
      ensures channels == old(channels)
      ensures forall o :: o in old(ChannelCircuits()) ==> o.states == old(o.states)
      ensures forall c :: c in channels ==>
        c.states == Triggered(role, old(c.states), old(c.circuit.states.Get(role)))
    {
      ghost var circuits := ChannelCircuits();
      var i := 0;
      while i < |channels|
        invariant 0 <= i <= |channels|
        invariant channels == old(channels)
        invariant forall o :: o in circuits ==> o.states == old(o.states)
        invariant forall c :: c in channels ==>
          c.states == old(c.states) || c.states == Triggered(role, old(c.states), old(c.circuit.states.Get(role)))
        invariant forall j :: 0 <= j < i ==>
          channels[j].states == Triggered(role, old(channels[j].states), old(channels[j].circuit.states.Get(role)))
      {
        assert channels[i].circuit in circuits;
        TriggeredIdempotent(role, old(channels[i].states), old(channels[i].circuit.states.Get(role)));
        channels[i].FireStateTriggered(role);
        i := i + 1;
      }
    }
  }

  class ChannelState {
    var states: RoleStates
    const circuit: CircuitState

    /** A new channel: the client has a create-channel request to send, the
        server waits idle. */
    constructor(circuit: CircuitState)
      ensures states == RoleStates(SendCreateChanRequest, Idle)
      ensures this.circuit == circuit
    {
      states := RoleStates(SendCreateChanRequest, Idle);
      this.circuit := circuit;
    }

    /** _fire_command_triggered_transitions on the channel table. */
    method FireCommandTriggered(role: Role, k: CommandKind) returns (r: Result<()>)
      modifies this
      ensures r.Ok? <==> ChannelTransition(role, old(states.Get(role)), k).Some?
      ensures r.Err? ==> r.error == GetException(role, k) && states == old(states)
      ensures r.Ok? ==> states == old(states).Set(role, ChannelTransition(role, old(states.Get(role)), k).value)
    {
      var fired := Fire(ChannelTransition(role, states.Get(role), k), role, k, states.Get(role));
      if fired.Err? {
        return Err(fired.error);
      }
      states := states.Set(role, fired.value);
      return Ok(());
    }

    /** _fire_state_triggered_transitions: looks the pair (own state, circuit
        state) up; the only entry rewrites the circuit's state to the value
        it already has, so only the channel's state can change. */
    method FireStateTriggered(role: Role)
      modifies this, circuit`states
      ensures circuit.states == old(circuit.states)
      ensures states == Triggered(role, old(states), circuit.states.Get(role))
    {
      var t := StateTriggered(role, states.Get(role), circuit.states.Get(role));
      if t.Some? {
        states := states.Set(role, t.value.0);
        circuit.states := circuit.states.Set(role, t.value.1);
        SetGetSame(old(circuit.states), role);
      } else {
        SetGetSame(states, role);
      }
    }

    /** ChannelState.process_command_type: the command-triggered transition,
        then the state-triggered one. */
    method ProcessCommandType(role: Role, k: CommandKind) returns (r: Result<()>)
      modifies this, circuit`states
      ensures circuit.states == old(circuit.states)
      ensures r.Ok? <==> ChannelTransition(role, old(states.Get(role)), k).Some?
      ensures r.Err? ==> r.error == GetException(role, k) && states == old(states)
      ensures r.Ok? ==>
        states == Triggered(role, old(states).Set(role, ChannelTransition(role, old(states.Get(role)), k).value),
                            circuit.states.Get(role))
    {
      r := FireCommandTriggered(role, k);
      if r.Ok? {
        FireStateTriggered(role);
      }
    }
  }

  // ---------------------------------------------------------------------
  // Runs of the tables.

  /** The state after a sequence of commands, or the first rejection. */
  function RunChannel(role: Role, s: StateName, ks: seq<CommandKind>): Result<StateName>
    decreases |ks|
  {
    if ks == [] then Ok(s)
    else
      var next :- Fire(ChannelTransition(role, s, ks[0]), role, ks[0], s);
      RunChannel(role, next, ks[1..])
  }

  function RunCircuit(role: Role, s: StateName, ks: seq<CommandKind>): Result<StateName>
    decreases |ks|
  {
    if ks == [] then Ok(s)
    else
      var next :- Fire(CircuitTransition(role, s, ks[0]), role, ks[0], s);
      RunCircuit(role, next, ks[1..])
  }

  function InitialChannel(): RoleStates { RoleStates(SendCreateChanRequest, Idle) }
  function InitialCircuit(): RoleStates { RoleStates(SendVersionRequest, Idle) }

  /** One accepted command, then the rest. */
  lemma RunChannelCons(role: Role, s: StateName, ks: seq<CommandKind>, t: StateName)
    requires ks != [] && ChannelTransition(role, s, ks[0]) == Some(t)
    ensures RunChannel(role, s, ks) == RunChannel(role, t, ks[1..])
  {
  }

  /** The client opens a channel with a create request and its response. */
  lemma ClientChannelOpens()
    ensures RunChannel(Client, InitialChannel().client, [CreateChanRequest, CreateChanResponse]) == Ok(Connected)
  {
    var a := [CreateChanRequest, CreateChanResponse];
    assert ChannelTransition(Client, SendCreateChanRequest, CreateChanRequest) == Some(AwaitCreateChanResponse);
    RunChannelCons(Client, SendCreateChanRequest, a, AwaitCreateChanResponse);
    assert a[1..] == [CreateChanResponse];
    assert ChannelTransition(Client, AwaitCreateChanResponse, CreateChanResponse) == Some(Connected);
    RunChannelCons(Client, AwaitCreateChanResponse, a[1..], Connected);
    assert a[1..][1..] == [];
  }

  /** Clearing a connected channel passes through MUST_CLOSE to CLOSED. */
  lemma ChannelCloses(role: Role)
    ensures RunChannel(role, Connected, [ClearChannelRequest, ClearChannelResponse]) == Ok(Closed)
  {
    var b := [ClearChannelRequest, ClearChannelResponse];
    assert ChannelTransition(role, Connected, ClearChannelRequest) == Some(MustClose);
    RunChannelCons(role, Connected, b, MustClose);
    assert b[1..] == [ClearChannelResponse];
    assert ChannelTransition(role, MustClose, ClearChannelResponse) == Some(Closed);
    RunChannelCons(role, MustClose, b[1..], Closed);
    assert b[1..][1..] == [];
  }

  /** The server's side of opening a channel, with an access-rights update
      before the create response. */
  lemma ServerChannelOpens()
    ensures RunChannel(Server, InitialChannel().server, [CreateChanRequest, AccessRightsResponse, CreateChanResponse]) == Ok(Connected)
  {
    var last := [CreateChanResponse];
    assert RunChannel(Server, SendCreateChanResponse, last) == Ok(Connected) by {
      assert ChannelTransition(Server, SendCreateChanResponse, CreateChanResponse) == Some(Connected);
      RunChannelCons(Server, SendCreateChanResponse, last, Connected);
      assert last[1..] == [];
    }
    var tail := [AccessRightsResponse] + last;
    assert RunChannel(Server, SendCreateChanResponse, tail) == Ok(Connected) by {
      assert ChannelTransition(Server, SendCreateChanResponse, AccessRightsResponse) == Some(SendCreateChanResponse);
      RunChannelCons(Server, SendCreateChanResponse, tail, SendCreateChanResponse);
      assert tail[1..] == last;
    }
    var c := [CreateChanRequest] + tail;
    assert ChannelTransition(Server, Idle, CreateChanRequest) == Some(SendCreateChanResponse);
    RunChannelCons(Server, Idle, c, SendCreateChanResponse);
    assert c[1..] == tail;
    assert c == [CreateChanRequest, AccessRightsResponse, CreateChanResponse];
  }

  /** CLOSED and ERROR accept no command at all, for either role, on a
      channel; CLOSED and ERROR accept none on a circuit either. */
  lemma TerminalStates(role: Role, k: CommandKind)
    ensures ChannelTransition(role, Closed, k).None? && ChannelTransition(role, Error, k).None?
    ensures CircuitTransition(role, Closed, k).None? && CircuitTransition(role, Error, k).None?
  {
  }

  /** Once in a terminal state, any further command is rejected with the
      error get_exception picks, whatever follows. */
  lemma TerminalRejects(role: Role, s: StateName, ks: seq<CommandKind>)
    requires s == Closed || s == Error
    requires ks != []
    ensures RunChannel(role, s, ks) == Err(GetException(role, ks[0]))
    ensures RunCircuit(role, s, ks) == Err(GetException(role, ks[0]))
  {
    TerminalStates(role, ks[0]);
  }

  /** A client circuit reaches CONNECTED on a VersionResponse and ERROR on an
      ErrorResponse from each of its live states. */
  lemma ClientCircuitVersionAndError(s: StateName)
    requires s in {SendVersionRequest, AwaitVersionResponse, Connected}
    ensures CircuitTransition(Client, s, VersionResponse) == Some(Connected)
    ensures CircuitTransition(Client, s, ErrorResponse) == Some(Error)
  {
  }

  /** An ErrorResponse moves every live channel to ERROR. */
  lemma ChannelErrorResponse(role: Role, s: StateName)
    requires ChannelTransition(role, s, CreateChanResponse).Some? || ChannelTransition(role, s, CreateChanRequest).Some? ||
             s == Connected || s == MustClose
    ensures ChannelTransition(role, s, ErrorResponse) == Some(Error)
  {
  }

  /** No channel entry leads to NEED_CIRCUIT and no channel starts there, so
      the state-triggered transition never fires on a channel driven only by
      the command tables. */
  lemma {:induction false} NeedCircuitUnreachable(role: Role, s: StateName, ks: seq<CommandKind>)
    requires s != NeedCircuit
    ensures RunChannel(role, s, ks).Ok? ==> RunChannel(role, s, ks).value != NeedCircuit
    ensures RunChannel(role, s, ks).Ok? ==>
      forall c :: AfterTrigger(role, RunChannel(role, s, ks).value, c) == RunChannel(role, s, ks).value
    decreases |ks|
  {
    if ks != [] {
      var e := ChannelTransition(role, s, ks[0]);
      if e.Some? {
        assert e.value != NeedCircuit;
        NeedCircuitUnreachable(role, e.value, ks[1..]);
      }
    }
  }

  /** Running two command sequences one after the other is running their
      concatenation. */
  lemma {:induction false} RunChannelAppend(role: Role, s: StateName, ks: seq<CommandKind>, ls: seq<CommandKind>)
    ensures RunChannel(role, s, ks + ls) ==
      (match RunChannel(role, s, ks)
       case Ok(t) => RunChannel(role, t, ls)
       case Err(e) => Err(e))
    decreases |ks|
  {
    if ks != [] {
      assert (ks + ls)[0] == ks[0];
      assert (ks + ls)[1..] == ks[1..] + ls;
      var e := ChannelTransition(role, s, ks[0]);
      if e.Some? {
        RunChannelAppend(role, e.value, ks[1..], ls);
      }
    } else {
      assert ks + ls == ls;
    }
  }
}
