/** Channel Access command framing: the 16-byte message header and its
    24-byte extended form (big-endian), the command classes of each role,
    string and data payload padding, the incremental bytestream parser and
    the datagram parser, and the consistency checks of Message.__init__. */
module Commands {
  import opened Common

  datatype Role = Client | Server
  datatype Direction = Request | Response

  function OtherRole(r: Role): (o: Role)
    ensures o != r
  {
    if r == Client then Server else Client
  }

  const HEADER_SIZE := 16
  const EXTENDED_HEADER_SIZE := 24
  const MAX_STRING_SIZE := 40
  /** The `reply` flag of a search request that asks for no negative reply. */
  const NO_REPLY := 5

  const U16 := 0x1_0000
  const U32 := 0x1_0000_0000

  // ---------------------------------------------------------------------
  // Big-endian integers.

  function Be16(n: nat): (r: bytes)
    requires n < U16
    ensures |r| == 2
  {
    [n / 256, n % 256]
  }

  function Be32(n: nat): (r: bytes)
    requires n < U32
    ensures |r| == 4
  {
    [n / 0x100_0000, (n / 0x1_0000) % 256, (n / 256) % 256, n % 256]
  }

  function Get16(b: bytes, i: nat): nat
    requires i + 2 <= |b|
  {
    b[i] as int * 256 + b[i + 1]
  }

  function Get32(b: bytes, i: nat): nat
    requires i + 4 <= |b|
  {
    ((b[i] as int * 256 + b[i + 1]) * 256 + b[i + 2]) * 256 + b[i + 3]
  }

  lemma Get16Be16(n: nat)
    requires n < U16
    ensures Get16(Be16(n), 0) == n
  {
  }

  lemma Get32Be32(n: nat)
    requires n < U32
    ensures Get32(Be32(n), 0) == n
  {
    var b := Be32(n);
    assert b[0] as int * 256 + b[1] == n / 0x1_0000;
    assert (n / 0x1_0000) * 256 + b[2] == n / 256;
    assert (n / 256) * 256 + b[3] == n;
  }

  // ---------------------------------------------------------------------
  // Headers.

  /** The fields of MessageHeader / ExtendedMessageHeader. */
  datatype Header = Header(command: nat, payloadSize: nat, dataType: nat,
                           dataCount: nat, parameter1: nat, parameter2: nat)

  /** Field ranges a header can carry at all (extended sizes are 32-bit). */
  predicate HeaderFits(h: Header) {
    h.command < U16 && h.dataType < U16 && h.parameter1 < U32 && h.parameter2 < U32 &&
    h.payloadSize < U32 && h.dataCount < U32
  }

  /** A header needs the extended form when its payload size or data count
      does not fit the 16-bit fields, the value 0xFFFF of the payload size
      being reserved as the extended-header marker. */
  predicate NeedsExtended(h: Header) {
    h.payloadSize >= 0xFFFF || h.dataCount >= U16
  }

  function EncodeHeader(h: Header): (r: bytes)
    requires HeaderFits(h)
    ensures |r| == (if NeedsExtended(h) then EXTENDED_HEADER_SIZE else HEADER_SIZE)
  {
    if !NeedsExtended(h) then
      Be16(h.command) + Be16(h.payloadSize) + Be16(h.dataType) + Be16(h.dataCount) +
      Be32(h.parameter1) + Be32(h.parameter2)
    else
      Be16(h.command) + Be16(0xFFFF) + Be16(h.dataType) + Be16(0) +
      Be32(h.parameter1) + Be32(h.parameter2) + Be32(h.payloadSize) + Be32(h.dataCount)
  }

  /** MessageHeader.from_buffer: the first 16 bytes, so every field is
      within its width and the sizes are the 16-bit ones. */
  function DecodeHeader(b: bytes): (h: Header)
    requires |b| >= HEADER_SIZE
    ensures HeaderFits(h) && h.payloadSize < U16 && h.dataCount < U16
  {
    Header(Get16(b, 0), Get16(b, 2), Get16(b, 4), Get16(b, 6), Get32(b, 8), Get32(b, 12))
  }

  /** ExtendedMessageHeader.from_buffer: the first 24 bytes, the two marker
      fields skipped. */
  function DecodeExtendedHeader(b: bytes): Header
    requires |b| >= EXTENDED_HEADER_SIZE
  {
    Header(Get16(b, 0), Get32(b, 16), Get16(b, 4), Get32(b, 20), Get32(b, 8), Get32(b, 12))
  }

  /** The extended-header sentinel of read_from_bytestream. */
  predicate IsExtendedMarker(h: Header) {
    h.payloadSize == 0xFFFF && h.dataCount == 0
  }

  lemma DecodeEncodeHeader(h: Header, rest: bytes)
    requires HeaderFits(h)
    ensures var b := EncodeHeader(h) + rest;
      |b| >= HEADER_SIZE &&
      (!NeedsExtended(h) ==> DecodeHeader(b) == h && !IsExtendedMarker(DecodeHeader(b))) &&
      (NeedsExtended(h) ==> IsExtendedMarker(DecodeHeader(b)) && |b| >= EXTENDED_HEADER_SIZE &&
                            DecodeExtendedHeader(b) == h)
  {
    var b := EncodeHeader(h) + rest;
    Get16Be16(h.command);
    Get16Be16(h.dataType);
    Get32Be32(h.parameter1);
    Get32Be32(h.parameter2);
    assert Get16(b, 0) == Get16(Be16(h.command), 0);
    assert Get16(b, 4) == Get16(Be16(h.dataType), 0);
    assert Get32(b, 8) == Get32(Be32(h.parameter1), 0);
    assert Get32(b, 12) == Get32(Be32(h.parameter2), 0);
    if !NeedsExtended(h) {
      Get16Be16(h.payloadSize);
      Get16Be16(h.dataCount);
      assert Get16(b, 2) == Get16(Be16(h.payloadSize), 0);
      assert Get16(b, 6) == Get16(Be16(h.dataCount), 0);
    } else {
      Get16Be16(0xFFFF);
      Get16Be16(0);
      Get32Be32(h.payloadSize);
      Get32Be32(h.dataCount);
      assert Get16(b, 2) == Get16(Be16(0xFFFF), 0);
      assert Get16(b, 6) == Get16(Be16(0), 0);
      assert Get32(b, 16) == Get32(Be32(h.payloadSize), 0);
      assert Get32(b, 20) == Get32(Be32(h.dataCount), 0);
    }
  }

  // ---------------------------------------------------------------------
  // Command classes. Commands[CLIENT] holds the *Request classes,
  // Commands[SERVER] the *Response classes, each keyed by its ID.

  datatype CommandKind =
    | VersionRequest | EventAddRequest | EventCancelRequest | ReadRequest
    | WriteRequest | SearchRequest | EventsOffRequest | EventsOnRequest
    | ReadSyncRequestRequest | ClearChannelRequest | ReadNotifyRequest
    | CreateChanRequest | WriteNotifyRequest | ClientNameRequest
    | HostNameRequest | EchoRequest | RepeaterRegisterRequest
    | VersionResponse | EventAddResponse | EventCancelResponse | ReadResponse
    | SearchResponse | ErrorResponse | ClearChannelResponse | RsrvIsUpResponse
    | NotFoundResponse | ReadNotifyResponse | RepeaterConfirmResponse
    | CreateChanResponse | WriteNotifyResponse | AccessRightsResponse
    | EchoResponse | CreateChFailResponse | ServerDisconnResponse

  function Id(k: CommandKind): nat {
    match k
    case VersionRequest => 0        case VersionResponse => 0
    case EventAddRequest => 1       case EventAddResponse => 1
    case EventCancelRequest => 2    case EventCancelResponse => 2
    case ReadRequest => 3           case ReadResponse => 3
    case WriteRequest => 4
    case SearchRequest => 6         case SearchResponse => 6
    case EventsOffRequest => 8
    case EventsOnRequest => 9
    case ReadSyncRequestRequest => 10
    case ErrorResponse => 11
    case ClearChannelRequest => 12  case ClearChannelResponse => 12
    case RsrvIsUpResponse => 13
    case NotFoundResponse => 14
    case ReadNotifyRequest => 15    case ReadNotifyResponse => 15
    case RepeaterConfirmResponse => 17
    case CreateChanRequest => 18    case CreateChanResponse => 18
    case WriteNotifyRequest => 19   case WriteNotifyResponse => 19
    case ClientNameRequest => 20
    case HostNameRequest => 21
    case AccessRightsResponse => 22
    case EchoRequest => 23          case EchoResponse => 23
    case RepeaterRegisterRequest => 24
    case CreateChFailResponse => 26
    case ServerDisconnResponse => 27
  }

  /** The role whose table holds the class: CLIENT for requests. */
  function RoleOf(k: CommandKind): Role {
    match k
    case VersionRequest | EventAddRequest | EventCancelRequest | ReadRequest
       | WriteRequest | SearchRequest | EventsOffRequest | EventsOnRequest
       | ReadSyncRequestRequest | ClearChannelRequest | ReadNotifyRequest
       | CreateChanRequest | WriteNotifyRequest | ClientNameRequest
       | HostNameRequest | EchoRequest | RepeaterRegisterRequest => Client
    case VersionResponse | EventAddResponse | EventCancelResponse | ReadResponse
       | SearchResponse | ErrorResponse | ClearChannelResponse | RsrvIsUpResponse
       | NotFoundResponse | ReadNotifyResponse | RepeaterConfirmResponse
       | CreateChanResponse | WriteNotifyResponse | AccessRightsResponse
       | EchoResponse | CreateChFailResponse | ServerDisconnResponse => Server
  }

  /** DIRECTION, set from the table that holds the class. */
  function DirectionOf(k: CommandKind): (d: Direction)
    ensures d == Request <==> RoleOf(k) == Client
  {
    if RoleOf(k) == Client then Request else Response
  }

  function HasPayload(k: CommandKind): bool {
    k in {EventAddRequest, WriteRequest, SearchRequest, CreateChanRequest,
          WriteNotifyRequest, ClientNameRequest, HostNameRequest,
          EventAddResponse, ReadResponse, SearchResponse, ErrorResponse,
          ReadNotifyResponse}
  }

  /** `Commands[role][id]`, None for a missing key. */
  function Lookup(role: Role, id: nat): Option<CommandKind> {
    if role == Client then ClientLookup(id) else ServerLookup(id)
  }

  /** The CLIENT table. */
  function ClientLookup(id: nat): Option<CommandKind> {
    match id
    case 0 => Some(VersionRequest)     case 1 => Some(EventAddRequest)
    case 2 => Some(EventCancelRequest) case 3 => Some(ReadRequest)
    case 4 => Some(WriteRequest)       case 6 => Some(SearchRequest)
    case 8 => Some(EventsOffRequest)   case 9 => Some(EventsOnRequest)
    case 10 => Some(ReadSyncRequestRequest)
    case 12 => Some(ClearChannelRequest)
    case 15 => Some(ReadNotifyRequest) case 18 => Some(CreateChanRequest)
    case 19 => Some(WriteNotifyRequest) case 20 => Some(ClientNameRequest)
    case 21 => Some(HostNameRequest)   case 23 => Some(EchoRequest)
    case 24 => Some(RepeaterRegisterRequest)
    case _ => None
  }

  /** The SERVER table. */
  function ServerLookup(id: nat): Option<CommandKind> {
    match id
    case 0 => Some(VersionResponse)    case 1 => Some(EventAddResponse)
    case 2 => Some(EventCancelResponse) case 3 => Some(ReadResponse)
    case 6 => Some(SearchResponse)     case 11 => Some(ErrorResponse)
    case 12 => Some(ClearChannelResponse) case 13 => Some(RsrvIsUpResponse)
    case 14 => Some(NotFoundResponse)  case 15 => Some(ReadNotifyResponse)
    case 17 => Some(RepeaterConfirmResponse) case 18 => Some(CreateChanResponse)
    case 19 => Some(WriteNotifyResponse) case 22 => Some(AccessRightsResponse)
    case 23 => Some(EchoResponse)      case 26 => Some(CreateChFailResponse)
    case 27 => Some(ServerDisconnResponse)
    case _ => None
  }

  /** The table is exactly the classes of the role keyed by their IDs: every
      class is found under its own ID, and whatever is found has that ID and
      role, so no two classes of one role share an ID. */
  lemma LookupCharacterised(role: Role, id: nat, k: CommandKind)
    ensures Lookup(RoleOf(k), Id(k)) == Some(k)
    ensures Lookup(role, id) == Some(k) ==> Id(k) == id && RoleOf(k) == role
  {
    LookupFinds(k);
    LookupSound(role, id);
  }

  lemma LookupFinds(k: CommandKind)
    ensures Lookup(RoleOf(k), Id(k)) == Some(k)
  {
    if RoleOf(k) == Client {
    } else {
    }
  }

  lemma LookupSound(role: Role, id: nat)
    ensures Lookup(role, id).Some? ==> Id(Lookup(role, id).value) == id && RoleOf(Lookup(role, id).value) == role
  {
    if role == Client {
      LookupSoundClient(id);
    } else {
      LookupSoundServer(id);
    }
  }

  lemma LookupSoundClient(id: nat)
    ensures ClientLookup(id).Some? ==> Id(ClientLookup(id).value) == id && RoleOf(ClientLookup(id).value) == Client
  {
  }

  lemma LookupSoundServer(id: nat)
    ensures ServerLookup(id).Some? ==> Id(ServerLookup(id).value) == id && RoleOf(ServerLookup(id).value) == Server
  {
    if id < 14 {
      LookupSoundServerLow(id);
    } else {
      LookupSoundServerHigh(id);
    }
  }

  lemma LookupSoundServerLow(id: nat)
    requires id < 14
    ensures ServerLookup(id).Some? ==> Id(ServerLookup(id).value) == id && RoleOf(ServerLookup(id).value) == Server
  {
  }

  lemma LookupSoundServerHigh(id: nat)
    requires id >= 14
    ensures ServerLookup(id).Some? ==> Id(ServerLookup(id).value) == id && RoleOf(ServerLookup(id).value) == Server
  {
  }

  // ---------------------------------------------------------------------
  // Messages.

  /** A command as received: its class, its header and, for classes with a
      payload, the payload bytes. */
  datatype Command = Command(kind: CommandKind, header: Header, payload: Option<bytes>)

  /** Message.__bytes__: the header followed by the payload, if any. */
  function CommandBytes(c: Command): bytes
    requires HeaderFits(c.header)
  {
    EncodeHeader(c.header) + (if c.payload.Some? then c.payload.value else [])
  }

  /** The checks of Message.__init__, as written: the header's payload size
      must be 0 without a payload and the payload's length with one; a header
      whose command is not the class ID was meant to raise CaprotoTypeError,
      but building that message reads the misspelt attribute
      `header.commmand`, so AttributeError is raised instead. */
  function MessageInitAsWritten(classId: nat, h: Header, payload: Option<bytes>): (r: Result<()>)
    ensures r.Ok? <==> (payload.None? ==> h.payloadSize == 0) &&
                       (payload.Some? ==> h.payloadSize == |payload.value|) &&
                       h.command == classId
  {
    if payload.None? && h.payloadSize != 0 then Err(CaprotoValueError)
    else if payload.Some? && h.payloadSize != |payload.value| then Err(CaprotoValueError)
    else if h.command != classId then Err(AttributeError)
    else Ok(())
  }

  /** Message.__init__ with the error message built from `header.command`. */
  function MessageInit(classId: nat, h: Header, payload: Option<bytes>): (r: Result<()>)
    ensures r.Ok? <==> (payload.None? ==> h.payloadSize == 0) &&
                       (payload.Some? ==> h.payloadSize == |payload.value|) &&
                       h.command == classId
    ensures r.Err? ==> r.error == CaprotoValueError || r.error == CaprotoTypeError
    ensures (r.Err? && (payload.None? ==> h.payloadSize == 0) &&
             (payload.Some? ==> h.payloadSize == |payload.value|)) ==> r.error == CaprotoTypeError
  {
    if payload.None? && h.payloadSize != 0 then Err(CaprotoValueError)
    else if payload.Some? && h.payloadSize != |payload.value| then Err(CaprotoValueError)
    else if h.command != classId then Err(CaprotoTypeError)
    else Ok(())
  }

  /** A header carrying another class's command makes Message.__init__ raise
      AttributeError as written, CaprotoTypeError as intended. */
  lemma MessageInitWrongCommand()
    ensures MessageInitAsWritten(0, Header(6, 0, 0, 0, 0, 0), None) == Err(AttributeError)
    ensures MessageInit(0, Header(6, 0, 0, 0, 0, 0), None) == Err(CaprotoTypeError)
  {
  }

  // ---------------------------------------------------------------------
  // Message.from_wire.

  /** The keys of DBR_TYPES: every channel type code that has a DBR
      structure. GR_STRING (21) and CTRL_STRING (28) have none. */
  predicate IsDbrId(t: nat) {
    t <= 38 && t != 21 && t != 28
  }

  const DBR_STRING_ID := 0
  /** The size of DBR_INT, the structure SearchResponse reads its payload as. */
  const DBR_INT_SIZE := 2

  /** from_wire as written: the base method and the SearchResponse override
      (see FromWire), and the EventAddResponse override, which keeps an empty
      payload as None and otherwise reads the undefined name `dbr_type`. */
  function FromWireAsWritten(kind: CommandKind, h: Header, p: bytes): (r: Result<Option<bytes>>)
    ensures kind == EventAddResponse && p != [] ==> r == Err(NameError)
    ensures kind != EventAddResponse ==> r == FromWire(kind, h, p)
    ensures r.Ok? ==> r == FromWire(kind, h, p)
  {
    if kind == EventAddResponse && p != [] then Err(NameError)
    else FromWire(kind, h, p)
  }

  /** from_wire: what a received command keeps as its payload. A class
      without a payload keeps None. SearchResponse reads its payload as a
      DBR_INT, whose buffer must hold 2 bytes. An empty EventAddResponse
      payload is kept as None. Every other payload goes through
      `from_buffer(DBR_TYPES[data_type], ...)`: an unknown data type is a
      KeyError, and a DBR_STRING payload is limited to 40 bytes and
      NUL-padded to them. The ctypes structure itself is not built: the
      command keeps the bytes it was built from. EventAddResponse takes the
      data type from its header, like every other class. */
  function FromWire(kind: CommandKind, h: Header, p: bytes): (r: Result<Option<bytes>>)
    ensures !HasPayload(kind) ==> r == Ok(None)
    ensures HasPayload(kind) && kind == SearchResponse ==>
      r == (if |p| < DBR_INT_SIZE then Err(ValueError) else Ok(Some(p)))
    ensures kind == EventAddResponse && p == [] ==> r == Ok(None)
    ensures HasPayload(kind) && kind != SearchResponse && !(kind == EventAddResponse && p == []) ==>
      (r.Err? <==> !IsDbrId(h.dataType) || (h.dataType == DBR_STRING_ID && |p| > MAX_STRING_SIZE)) &&
      (!IsDbrId(h.dataType) ==> r == Err(KeyError)) &&
      (r.Err? && IsDbrId(h.dataType) ==> r.error == CaprotoValueError) &&
      (r.Ok? && h.dataType != DBR_STRING_ID ==> r == Ok(Some(p))) &&
      (r.Ok? && h.dataType == DBR_STRING_ID ==>
         r.value.Some? && |r.value.value| == MAX_STRING_SIZE && r.value.value[..|p|] == p)
  {
    if !HasPayload(kind) then Ok(None)
    else if kind == SearchResponse then
      if |p| < DBR_INT_SIZE then Err(ValueError) else Ok(Some(p))
    else if kind == EventAddResponse && p == [] then Ok(None)
    else if !IsDbrId(h.dataType) then Err(KeyError)
    else
      var b :- FromBuffer(h.dataType == DBR_STRING_ID, p);
      Ok(Some(b))
  }

  /** Every non-empty EventAddResponse payload makes from_wire raise
      NameError as written, while reading it with the header's data type
      accepts it. */
  lemma EventAddResponseAsWritten(h: Header, p: bytes)
    requires p != [] && IsDbrId(h.dataType) && h.dataType != DBR_STRING_ID
    ensures FromWireAsWritten(EventAddResponse, h, p) == Err(NameError)
    ensures FromWire(EventAddResponse, h, p) == Ok(Some(p))
  {
  }

  /** The payload bytes a command carries on the wire. */
  function PayloadBytes(c: Command): bytes {
    if c.payload.Some? then c.payload.value else []
  }

  /** A command that Message.__init__ accepts for its class and role, with a
      header that can be encoded, and that is not a CreateChanRequest with an
      empty payload (which the parsers treat specially). */
  predicate Framed(c: Command, role: Role) {
    HeaderFits(c.header) &&
    RoleOf(c.kind) == role &&
    (HasPayload(c.kind) <==> c.payload.Some?) &&
    MessageInit(Id(c.kind), c.header, c.payload).Ok? &&
    !(c.kind == CreateChanRequest && c.header.payloadSize == 0)
  }

  /** A framed command whose payload from_wire keeps as it is. */
  predicate WellFormed(c: Command, role: Role) {
    Framed(c, role) && FromWire(c.kind, c.header, PayloadBytes(c)) == Ok(c.payload)
  }

  // ---------------------------------------------------------------------
  // Incremental parsing of a TCP bytestream.

  datatype Parsed = NeedData | Parsed(command: Command)

  /** read_from_bytestream: either NEED_DATA with the data untouched, or
      one command and the bytes after it. The CreateChanRequest special case
      reads 16 payload bytes for a header announcing none. An unknown
      command ID is a KeyError; from_wire's errors pass through. */
  function ReadFromBytestream(data: bytes, role: Role): (r: Result<(bytes, Parsed)>)
    ensures r.Ok? && r.value.1.NeedData? ==> r.value.0 == data
    ensures r.Ok? && r.value.1.Parsed? ==>
      |r.value.0| + HEADER_SIZE <= |data| && r.value.0 == data[|data| - |r.value.0|..]
    ensures |data| < HEADER_SIZE ==> r == Ok((data, NeedData))
    ensures r.Err? ==> r.error in {KeyError, ValueError, CaprotoValueError}
  {
    if |data| < HEADER_SIZE then Ok((data, NeedData))
    else
      var std := DecodeHeader(data);
      if IsExtendedMarker(std) && |data| < EXTENDED_HEADER_SIZE then Ok((data, NeedData))
      else
        var headerSize := if IsExtendedMarker(std) then EXTENDED_HEADER_SIZE else HEADER_SIZE;
        var h := if IsExtendedMarker(std) then DecodeExtendedHeader(data) else std;
        match Lookup(role, h.command)
        case None => Err(KeyError)
        case Some(kind) =>
          var payloadSize := if kind == CreateChanRequest && h.payloadSize == 0 then 16 else h.payloadSize;
          var total := headerSize + payloadSize;
          if |data| < total then Ok((data, NeedData))
          else
            var payload :- FromWire(kind, h, data[headerSize..total]);
            Ok((data[total..], Parsed(Command(kind, h, payload))))
  }

  /** The command from_wire builds from a framed command's header and
      payload bytes, or its error. */
  function Rebuilt(c: Command): Result<Command> {
    var p :- FromWire(c.kind, c.header, PayloadBytes(c));
    Ok(Command(c.kind, c.header, p))
  }

  /** Parsing the bytes of a framed command, followed by anything, gives
      exactly from_wire's verdict on its payload: its error, or the command
      it builds together with exactly the bytes that follow. */
  lemma ReadFramedBytes(c: Command, role: Role, rest: bytes)
    requires Framed(c, role)
    ensures var r := ReadFromBytestream(CommandBytes(c) + rest, role);
      (Rebuilt(c).Err? ==> r == Err(Rebuilt(c).error)) &&
      (Rebuilt(c).Ok? ==> r == Ok((rest, Parsed(Rebuilt(c).value))))
  {
    var hb := EncodeHeader(c.header);
    var pb := PayloadBytes(c);
    DecodeEncodeHeader(c.header, pb + rest);
    var data := CommandBytes(c) + rest;
    assert data == hb + (pb + rest);
    LookupCharacterised(role, c.header.command, c.kind);
    var total := |hb| + |pb|;
    assert data[|hb|..total] == pb;
    assert data[total..] == rest;
    ReadWithHeader(data, role, c.header, |hb|, c.kind);
  }

  /** Once the header at the front of `data` is known to be `h`, of
      `headerSize` bytes, naming class `kind`, and the payload it announces
      is all there, parsing gives from_wire's verdict on that payload and
      the bytes after it. */
  lemma ReadWithHeader(data: bytes, role: Role, h: Header, headerSize: nat, kind: CommandKind)
    requires |data| >= HEADER_SIZE
    requires headerSize == (if IsExtendedMarker(DecodeHeader(data)) then EXTENDED_HEADER_SIZE else HEADER_SIZE)
    requires (if IsExtendedMarker(DecodeHeader(data)) then |data| >= EXTENDED_HEADER_SIZE && DecodeExtendedHeader(data) == h
              else DecodeHeader(data) == h)
    requires Lookup(role, h.command) == Some(kind) && !(kind == CreateChanRequest && h.payloadSize == 0)
    requires headerSize + h.payloadSize <= |data|
    ensures var p := FromWire(kind, h, data[headerSize..headerSize + h.payloadSize]);
      ReadFromBytestream(data, role) ==
        (if p.Err? then Err(p.error) else Ok((data[headerSize + h.payloadSize..], Parsed(Command(kind, h, p.value)))))
  {
  }

  /** Parsing the bytes of a well-formed command, followed by anything,
      gives back that command and exactly the bytes that follow it. */
  lemma ReadCommandBytes(c: Command, role: Role, rest: bytes)
    requires WellFormed(c, role)
    ensures ReadFromBytestream(CommandBytes(c) + rest, role) == Ok((rest, Parsed(c)))
  {
    ReadFramedBytes(c, role, rest);
  }

  /** A framed command with a payload whose data type has no DBR structure
      cannot be read back: parsing its bytes is a KeyError (SearchResponse,
      which does not read the data type, and an empty EventAddResponse
      aside). */
  lemma ReadUnknownDataType(c: Command, role: Role, rest: bytes)
    requires Framed(c, role) && HasPayload(c.kind) && !IsDbrId(c.header.dataType)
    requires c.kind != SearchResponse && !(c.kind == EventAddResponse && PayloadBytes(c) == [])
    ensures ReadFromBytestream(CommandBytes(c) + rest, role) == Err(KeyError)
  {
    ReadFramedBytes(c, role, rest);
  }

  /** Every proper prefix of a framed command's bytes is reported as
      incomplete, with the data untouched. */
  lemma ReadCommandPrefix(c: Command, role: Role, n: nat)
    requires Framed(c, role) && n < |CommandBytes(c)|
    ensures ReadFromBytestream(CommandBytes(c)[..n], role) == Ok((CommandBytes(c)[..n], NeedData))
  {
    var hb := EncodeHeader(c.header);
    var pb := if c.payload.Some? then c.payload.value else [];
    var p := CommandBytes(c)[..n];
    if n >= HEADER_SIZE {
      DecodeEncodeHeader(c.header, pb);
      assert DecodeHeader(p) == DecodeHeader(CommandBytes(c)) by {
        assert p[..HEADER_SIZE] == CommandBytes(c)[..HEADER_SIZE];
      }
      if NeedsExtended(c.header) && n >= EXTENDED_HEADER_SIZE {
        assert DecodeExtendedHeader(p) == DecodeExtendedHeader(CommandBytes(c)) by {
          assert p[..EXTENDED_HEADER_SIZE] == CommandBytes(c)[..EXTENDED_HEADER_SIZE];
        }
      }
      LookupCharacterised(role, c.header.command, c.kind);
    }
  }

  /** A CreateChanRequest header announcing an empty payload is read with a
      16-byte payload all the same: kept as it is, or NUL-padded to 40 bytes
      for the DBR_STRING data type; a data type without a DBR structure is
      a KeyError. */
  lemma CreateChanZeroPayload(h: Header, payload: bytes, rest: bytes)
    requires HeaderFits(h) && !NeedsExtended(h)
    requires h.command == Id(CreateChanRequest) && h.payloadSize == 0 && |payload| == 16
    ensures !IsDbrId(h.dataType) ==> ReadFromBytestream(EncodeHeader(h) + payload + rest, Client) == Err(KeyError)
    ensures IsDbrId(h.dataType) && h.dataType != DBR_STRING_ID ==>
            ReadFromBytestream(EncodeHeader(h) + payload + rest, Client) ==
            Ok((rest, Parsed(Command(CreateChanRequest, h, Some(payload)))))
    ensures h.dataType == DBR_STRING_ID ==>
            ReadFromBytestream(EncodeHeader(h) + payload + rest, Client) ==
            Ok((rest, Parsed(Command(CreateChanRequest, h, Some(payload + Zeros(24))))))
  {
    DecodeEncodeHeader(h, payload + rest);
    assert EncodeHeader(h) + payload + rest == EncodeHeader(h) + (payload + rest);
    var data := EncodeHeader(h) + payload + rest;
    assert data[HEADER_SIZE..HEADER_SIZE + 16] == payload;
    assert data[HEADER_SIZE + 16..] == rest;
  }

  // ---------------------------------------------------------------------
  // Datagrams.

  /** The commands read_datagram produces from what is left of a datagram:
      repeatedly a 16-byte header (too short a remainder is the ValueError of
      ctypes' from_buffer), then, for a class with a payload, up to
      payload_size bytes, which from_wire turns into the command's payload.
      Extended headers are not recognised here. */
  function DatagramCommands(b: bytes, role: Role): (r: Result<seq<Command>>)
    ensures r.Ok? ==> forall i :: 0 <= i < |r.value| ==>
      Lookup(role, r.value[i].header.command) == Some(r.value[i].kind) &&
      HeaderFits(r.value[i].header) && r.value[i].header.payloadSize < U16
    ensures r.Ok? ==> |r.value| <= |b| / HEADER_SIZE
    decreases |b|
  {
    if b == [] then Ok([])
    else if |b| < HEADER_SIZE then Err(ValueError)
    else
      var h := DecodeHeader(b);
      var after := b[HEADER_SIZE..];
      match Lookup(role, h.command)
      case None => Err(KeyError)
      case Some(kind) =>
        var cut := if HasPayload(kind) then (if h.payloadSize <= |after| then h.payloadSize else |after|) else 0;
        var payload :- FromWire(kind, h, after[..cut]);
        var more :- DatagramCommands(after[cut..], role);
        Ok([Command(kind, h, payload)] + more)
  }

  function PrependAll(done: seq<Command>, r: Result<seq<Command>>): Result<seq<Command>> {
    if r.Ok? then Ok(done + r.value) else r
  }

  lemma PrependAllSnoc(done: seq<Command>, c: Command, r: Result<seq<Command>>)
    ensures PrependAll(done, PrependAll([c], r)) == PrependAll(done + [c], r)
  {
    if r.Ok? {
      assert (done + [c]) + r.value == done + ([c] + r.value);
    }
  }

  /** read_datagram: parses every command of a datagram, in order. */
  method ReadDatagram(data: bytes, role: Role) returns (r: Result<seq<Command>>)
    ensures r == DatagramCommands(data, role)
  {
    var barray := data;
    var commands: seq<Command> := [];
    assert PrependAll([], DatagramCommands(data, role)) == DatagramCommands(data, role) by {
      if DatagramCommands(data, role).Ok? {
        assert [] + DatagramCommands(data, role).value == DatagramCommands(data, role).value;
      }
    }
    while barray != []
      invariant PrependAll(commands, DatagramCommands(barray, role)) == DatagramCommands(data, role)
      decreases |barray|
    {
      if |barray| < HEADER_SIZE {
        return Err(ValueError);
      }
      ghost var before := barray;
      var header := DecodeHeader(barray);
      barray := barray[HEADER_SIZE..];
      var cls := Lookup(role, header.command);
      if cls.None? {
        return Err(KeyError);
      }
      var payloadBytes: bytes := [];
      if HasPayload(cls.value) {
        var cut := if header.payloadSize <= |barray| then header.payloadSize else |barray|;
        payloadBytes := barray[..cut];
        barray := barray[cut..];
      }
      var payload := FromWire(cls.value, header, payloadBytes);
      if payload.Err? {
        return Err(payload.error);
      }
      var command := Command(cls.value, header, payload.value);
      assert DatagramCommands(before, role) == PrependAll([command], DatagramCommands(barray, role));
      PrependAllSnoc(commands, command, DatagramCommands(barray, role));
      commands := commands + [command];
    }
    assert commands + [] == commands;
    return Ok(commands);
  }

  function AllBytes(cs: seq<Command>): bytes
    requires forall i :: 0 <= i < |cs| ==> HeaderFits(cs[i].header)
  {
    if cs == [] then [] else CommandBytes(cs[0]) + AllBytes(cs[1..])
  }

  /** One well-formed command with a standard header at the front of a
      datagram is parsed as itself, and parsing goes on after its bytes. */
  lemma DatagramStep(c: Command, role: Role, rest: bytes)
    requires WellFormed(c, role) && !NeedsExtended(c.header)
    ensures DatagramCommands(CommandBytes(c) + rest, role) ==
            PrependAll([c], DatagramCommands(rest, role))
  {
    var pb := if c.payload.Some? then c.payload.value else [];
    DecodeEncodeHeader(c.header, pb + rest);
    var b := CommandBytes(c) + rest;
    assert b == EncodeHeader(c.header) + (pb + rest);
    assert b[HEADER_SIZE..] == pb + rest;
    LookupCharacterised(role, c.header.command, c.kind);
    assert (pb + rest)[|pb|..] == rest;
    assert (pb + rest)[..|pb|] == pb;
  }

  predicate AllWellFormedStd(cs: seq<Command>, role: Role) {
    forall i :: 0 <= i < |cs| ==> WellFormed(cs[i], role) && !NeedsExtended(cs[i].header)
  }

  /** A datagram made of well-formed commands with standard headers parses
      back into exactly those commands. */
  lemma {:induction false} DatagramRoundTrip(cs: seq<Command>, role: Role)
    requires AllWellFormedStd(cs, role)
    ensures forall i :: 0 <= i < |cs| ==> HeaderFits(cs[i].header)
    ensures DatagramCommands(AllBytes(cs), role) == Ok(cs)
  {
    AllWellFormedStdFit(cs, role);
    if cs != [] {
      WellFormedStdTail(cs, role);
      DatagramRoundTrip(cs[1..], role);
      var c, tail := cs[0], AllBytes(cs[1..]);
      assert DatagramCommands(CommandBytes(c) + tail, role) == Ok([c] + cs[1..]) by {
        DatagramStep(c, role, tail);
      }
      assert [c] + cs[1..] == cs;
    }
  }

  lemma AllWellFormedStdFit(cs: seq<Command>, role: Role)
    requires AllWellFormedStd(cs, role)
    ensures forall i :: 0 <= i < |cs| ==> HeaderFits(cs[i].header)
  {
    forall i | 0 <= i < |cs| ensures HeaderFits(cs[i].header) {
      assert WellFormed(cs[i], role);
    }
  }

  lemma WellFormedStdTail(cs: seq<Command>, role: Role)
    requires cs != [] && AllWellFormedStd(cs, role)
    ensures AllWellFormedStd(cs[1..], role)
  {
    forall i | 0 <= i < |cs[1..]| ensures WellFormed(cs[1..][i], role) && !NeedsExtended(cs[1..][i].header) {
      assert cs[1..][i] == cs[i + 1];
    }
  }

  // ---------------------------------------------------------------------
  // Payload construction.

  /** ensure_bytes: bytes unchanged, text UTF-8 encoded, anything else a
      CaprotoTypeError. */
  function EnsureBytes(s: PyVal): (r: Result<bytes>)
    ensures r.Ok? <==> s.PBytes? || s.PStr?
    ensures s.PBytes? ==> r == Ok(s.bs)
    ensures s.PStr? ==> r == Ok(Utf8Encode(s.s))
  {
    match s
    case PBytes(b) => Ok(b)
    case PStr(t) => Ok(Utf8Encode(t))
    case _ => Err(CaprotoTypeError)
  }

  /** ASCII text gives the same bytes as the library's Latin-1 codec. */
  lemma EnsureBytesAscii(t: string)
    requires IsAscii(t)
    ensures EnsureBytes(PStr(t)) == Ok(EncodeLatin1(t).value)
  {
    AsciiUtf8IsLatin1(t);
  }

  /** padded_len: the length rounded up to a multiple of 8, for strings of
      at most 40 bytes. */
  function PaddedLen(s: bytes): (r: Result<nat>)
    ensures r.Err? <==> |s| > MAX_STRING_SIZE
    ensures r.Err? ==> r.error == CaprotoValueError
    ensures r.Ok? ==> r.value % 8 == 0 && |s| <= r.value < |s| + 8 && r.value <= MAX_STRING_SIZE
  {
    if |s| > MAX_STRING_SIZE then Err(CaprotoValueError)
    else Ok(8 * ((|s| + 7) / 8))
  }

  /** from_buffer for DBR_STRING: at most 40 bytes, NUL-padded to exactly 40.
      Other DBR types are read by ctypes and pass through. */
  function FromBuffer(isDbrString: bool, buffer: bytes): (r: Result<bytes>)
    ensures isDbrString ==> (r.Ok? <==> |buffer| <= MAX_STRING_SIZE)
    ensures isDbrString && r.Ok? ==>
      |r.value| == MAX_STRING_SIZE && r.value[..|buffer|] == buffer &&
      forall k :: |buffer| <= k < MAX_STRING_SIZE ==> r.value[k] == 0
    ensures !isDbrString ==> r == Ok(buffer)
  {
    if !isDbrString then Ok(buffer)
    else if |buffer| > MAX_STRING_SIZE then Err(CaprotoValueError)
    else Ok(buffer + Zeros(MAX_STRING_SIZE - |buffer|))
  }

  /** padded_string_payload: the name as bytes, NUL-padded to its padded
      length (a DBR_STRING cut to that size). */
  function PaddedStringPayload(name: PyVal): (r: Result<(nat, bytes)>)
    ensures r.Ok? ==> r.value.0 == |r.value.1| && r.value.0 % 8 == 0 && r.value.0 <= MAX_STRING_SIZE
    ensures r.Ok? ==> EnsureBytes(name).Ok?
    ensures r.Ok? ==>
      var b := EnsureBytes(name).value;
      |b| <= |r.value.1| && r.value.1[..|b|] == b &&
      forall k :: |b| <= k < r.value.0 ==> r.value.1[k] == 0
  {
    var b :- EnsureBytes(name);
    var size :- PaddedLen(b);
    var dbrString := FromBuffer(true, b).value;
    Ok((size, dbrString[..size]))
  }

  /** `bytes(payload).rstrip(b'\x00')`, how SearchRequest and
      CreateChanRequest give back their name. */
  function StripNuls(b: bytes): (r: bytes)
    ensures |r| <= |b| && r == b[..|r|]
    ensures r == [] || r[|r| - 1] != 0
    ensures forall k :: |r| <= k < |b| ==> b[k] == 0
  {
    if b == [] || b[|b| - 1] != 0 then b else StripNuls(b[..|b| - 1])
  }

  predicate NoTrailingNul(b: bytes) {
    b == [] || b[|b| - 1] != 0
  }

  /** Text or bytes without trailing NULs survive padding: the `name`
      property of the payload gives their bytes back. */
  lemma PaddedPayloadStrips(name: PyVal)
    ensures PaddedStringPayload(name).Ok? && NoTrailingNul(EnsureBytes(name).value) ==>
              StripNuls(PaddedStringPayload(name).value.1) == EnsureBytes(name).value
  {
    if PaddedStringPayload(name).Ok? && NoTrailingNul(EnsureBytes(name).value) {
      StripTrailingZeros(EnsureBytes(name).value, PaddedStringPayload(name).value.1);
    }
  }

  /** A name without trailing NULs survives padding: stripping the padded
      payload gives the name back. */
  lemma {:induction false} PaddedNameRoundTrip(name: bytes)
    requires |name| <= MAX_STRING_SIZE && (name == [] || name[|name| - 1] != 0)
    ensures PaddedStringPayload(PBytes(name)).Ok?
    ensures StripNuls(PaddedStringPayload(PBytes(name)).value.1) == name
  {
    var p := PaddedStringPayload(PBytes(name)).value.1;
    StripTrailingZeros(name, p);
  }

  lemma {:induction false} StripTrailingZeros(name: bytes, p: bytes)
    requires |name| <= |p| && p[..|name|] == name && (name == [] || name[|name| - 1] != 0)
    requires forall k :: |name| <= k < |p| ==> p[k] == 0
    ensures StripNuls(p) == name
    decreases |p|
  {
    if |p| > |name| {
      assert p[|p| - 1] == 0;
      var q := p[..|p| - 1];
      assert q[..|name|] == name;
      StripTrailingZeros(name, q);
    } else {
      assert p == name;
    }
  }

  function RoundUp8(n: nat): (r: nat)
    ensures r % 8 == 0 && n <= r < n + 8
  {
    if n % 8 == 0 then n else 8 * ((n + 7) / 8)
  }

  /** data_payload: the elements' bytes joined (one element when the count
      is 1; otherwise the count must equal the number of elements, an
      `assert` in the source), zero-padded to a multiple of 8. Each element
      is given as the bytes of its DBR structure, of the type's size. */
  function DataPayload(elements: seq<bytes>, dataCount: nat, elemSize: nat): (r: Result<(nat, bytes)>)
    requires forall i :: 0 <= i < |elements| ==> |elements[i]| == elemSize
    requires dataCount == 1 ==> |elements| == 1
    ensures r.Err? <==> dataCount != 1 && dataCount != |elements|
    ensures r.Err? ==> r.error == AssertionError
    ensures r.Ok? ==>
      var (size, payload) := r.value;
      size == RoundUp8(dataCount * elemSize) && |payload| == size &&
      payload[..dataCount * elemSize] == Concat(elements) &&
      forall k :: dataCount * elemSize <= k < size ==> payload[k] == 0
  {
    if dataCount != 1 && dataCount != |elements| then Err(AssertionError)
    else
      var raw := if dataCount != 1 then Concat(elements) else elements[0];
      ConcatUniformLength(elements, elemSize);
      assert dataCount == 1 ==> Concat(elements) == elements[0] by {
        if dataCount == 1 { assert Concat(elements[1..]) == []; }
      }
      var size := dataCount * elemSize;
      if size % 8 != 0 then
        var padded := RoundUp8(size);
        Ok((padded, raw + Zeros(padded - |raw|)))
      else Ok((size, raw))
  }

  // ---------------------------------------------------------------------
  // Constructors used by the broadcaster.

  /** VersionRequest(priority, version): the priority must lie in [0, 100);
      it travels as the data type and the version as the data count. */
  function NewVersionRequest(priority: int, version: nat): (r: Result<Command>)
    requires version < U16
    ensures r.Ok? <==> 0 <= priority < 100
    ensures r.Err? ==> r.error == CaprotoValueError
    ensures r.Ok? ==> WellFormed(r.value, Client) && r.value.kind == VersionRequest &&
                      r.value.header.dataType == priority && r.value.header.dataCount == version
  {
    if !(0 <= priority < 100) then Err(CaprotoValueError)
    else Ok(Command(VersionRequest, Header(Id(VersionRequest), 0, priority, version, 0, 0), None))
  }

  /** SearchRequest(name, cid, version): the padded name as payload, the cid
      as first parameter (read back as `cid`) and the NO_REPLY flag. */
  function NewSearchRequest(name: PyVal, cid: nat, version: nat): (r: Result<Command>)
    requires cid < U32 && version < U16
    ensures r.Ok? <==> (name.PBytes? || name.PStr?) && |EnsureBytes(name).value| <= MAX_STRING_SIZE
    ensures r.Ok? ==> WellFormed(r.value, Client) && r.value.kind == SearchRequest &&
                      r.value.header.parameter1 == cid && r.value.header.dataCount == version &&
                      r.value.header.dataType == NO_REPLY
    ensures r.Ok? ==> r.value.payload == Some(PaddedStringPayload(name).value.1)
    ensures r.Ok? && NoTrailingNul(EnsureBytes(name).value) ==>
              StripNuls(r.value.payload.value) == EnsureBytes(name).value
  {
    PaddedPayloadStrips(name);
    var (size, payload) :- PaddedStringPayload(name);
    Ok(Command(SearchRequest, Header(Id(SearchRequest), size, NO_REPLY, version, cid, cid), Some(payload)))
  }
}
