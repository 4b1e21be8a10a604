# caproto's Channel Access core, in Dafny

caproto is a Python implementation of the EPICS Channel Access protocol,
version 13. This project models the seven deterministic parts of it. It
leaves out the sockets, threads and clocks around them.

- **DBR type algebra** (`dbr.dfy`, module `Dbr`). The `ChannelType` codes and the groupings
  by value type. `promote_type`, `native_type` and the `_native_map` they build. The
  enum strings of `DBR_GR_ENUM`.
- **Value conversion** (`data.dfy`, module `Data`). `convert_values` and its enum, char
  and string branches. numpy's casts are an opaque marker.
- **Command framing** (`commands.dfy`, module `Commands`):
  - the 16- and 24-byte headers and the command tables by role;
  - the checks of `Message.__init__`;
  - the incremental bytestream parser and the datagram loop;
  - padding arithmetic and the payload builders.
- **Protocol state machines** (`state.dfy`, module `ProtocolState`):
  - the circuit and channel transition tables per role and the state-triggered transition;
  - the `ChannelState` and `CircuitState` objects that fire them;
  - `get_exception`.
- **UDP broadcaster** (`broadcaster.dfy`, module `Broadcast`). The `Broadcaster` object:
  - its repeater registration flag;
  - the rule that a search needs a version command earlier in the same batch;
  - the table of unanswered searches;
  - search-id allocation.
- **Search-result cache** (`search_results.dfy`, module `SearchCache`). The client's
  `SearchResults` object:
  - two mirrored indices (name to addresses in insertion order, address to names);
  - expiry of cached answers;
  - the pending-search tables.
- **pyepics compatibility layer**:
  - the pure translation of read responses into pyepics dictionaries and values
    (`pyepics_translate.dfy`, module `PyepicsTranslate`);
  - the `PV` handle with its cache, callback registry, connection flags, auto-monitor
    subscription, `get` and `put` (`pyepics_pv.dfy`, module `PyepicsPv`);
  - the batch helpers `caput_many` and `caget_many` (`pyepics_batch.dfy`, module
    `PyepicsBatch`).

`common.dfy` (module `Common`) holds the shared vocabulary:
- bytes, `Option` and `Result`;
- the exception classes the code raises;
- a small datatype of the Python values the library passes around untyped;
- the Latin-1 codec the library uses for strings (`STR_ENC`);
- UTF-8 for `str.encode()`.

Objects whose attributes the Python code updates in place are Dafny classes, and their
methods state the whole new state:
- `ChannelState`, `CircuitState`;
- `Broadcaster`;
- `SearchResults`;
- `PV` and the channel handle it talks to.

Loops in the source are loops here:
- `read_datagram`;
- the channel loop of `CircuitState.process_command_type`;
- `send` and `process_commands`;
- `new_search_id`;
- `mark_server_disconnected`, `get_cached_search_result`, `search`, `cancel` and
  `split_cached_results`;
- the callback loops of `PV`;
- `caput_many`.

Each loop is proved against a function, and the source's promises are proved as lemmas
about that function.

Environment values become parameters:
- the current time and the expiry threshold of the cache;
- the ids of new searches;
- the answers of the network (a queue of read responses, whether writes are answered,
  whether the channel is connected);
- the outcome of each `caput_many` PV.

## Model

| member | source | states |
|---|---|---|
| Common.PyLen | caproto/threading/pyepics_compat.py:466 | `len()` succeeds exactly on iterable values (a scalar raises TypeError) |
| Common.PyIndex | caproto/threading/pyepics_compat.py:136-140 | Python indexing: defined exactly for -len <= i < len, negative indices count from the end |
| Common.CutAtNul | caproto/threading/pyepics_compat.py:91-93 | the result is a prefix of the bytes, holds no NUL, and is followed by a NUL when shorter than the input |
| Common.IndexOf | caproto/threading/pyepics_compat.py:540 | `list.index`: None exactly when absent; otherwise an index holding the value with no earlier occurrence |
| Common.MapR | caproto/threading/pyepics_compat.py:555 | a comprehension whose element may raise: succeeds iff every element does, keeps length and order, and otherwise reports the first failing element's error |
| Common.EncodeLatin1 | caproto/threading/pyepics_compat.py:548 | `encode('latin-1')` succeeds exactly on text below U+0100, one byte per character equal to its code |
| Common.DecodeLatin1 | caproto/threading/pyepics_compat.py:93 | `decode('latin-1')` is total, one character per byte with the byte's value |
| Common.DecodeEncodeLatin1 | caproto/threading/pyepics_compat.py:93 | decoding the encoding of Latin-1 text gives the text back |
| Common.EncodeDecodeLatin1 | caproto/threading/pyepics_compat.py:93 | encoding the decoding of bytes gives the bytes back |
| Common.DecodeLatin1Injective | caproto/threading/pyepics_compat.py:93 | distinct byte strings decode to distinct texts |
| Common.Utf8Char | caproto/_commands.py:37 | one character is 1 to 4 bytes, one byte (its code) exactly below U+0080 |
| Common.Utf8Encode | caproto/_commands.py:37 | UTF-8 never shortens text |
| Common.AsciiUtf8IsLatin1 | caproto/_commands.py:33-39 | on ASCII text UTF-8 and Latin-1 give the same bytes |
| Common.Zeros | caproto/_commands.py:49-51 | n NUL bytes |
| Common.ConcatUniformLength | caproto/_commands.py:78 | joining n byte strings of width w gives n*w bytes |
| Common.ConcatAppend | caproto/_commands.py:78 | joining one more part appends its bytes |
| Dbr.ToChType | caproto/_dbr.py:78-123 | `ChannelType(n)` succeeds exactly for the codes 0 to 38 and keeps the code |
| Dbr.NativeMap | caproto/_dbr.py:646-660 | `_native_map` sends every key to a native type, or a special type to itself |
| Dbr.NativeType | caproto/_dbr.py:166-168 | `native_type` succeeds exactly for the codes 0..38 other than GR_STRING and CTRL_STRING, and agrees with `_native_map` |
| Dbr.InitPromoteNative | caproto/_dbr.py:646-653 | while `_native_map` is filled, promoting a native type with at most one flag lands at its block offset, and the map sends the result back to the native type |
| Dbr.NativeMapKeysFromInit | caproto/_dbr.py:646-660 | every key of `_native_map` is a special type mapped to itself or a promotion of the native type it maps to |
| Dbr.PromoteTooManyFlags | caproto/_dbr.py:180-181 | more than one of use_status/use_time/use_ctrl/use_gr is a ValueError for any type |
| Dbr.PromoteErrors | caproto/_dbr.py:171-188 | codes outside the enumeration are a ValueError; GR_STRING and CTRL_STRING, having no native type, are a KeyError |
| Dbr.PromoteSpecialUnchanged | caproto/_dbr.py:182-184 | special types come back unchanged |
| Dbr.PromoteNative | caproto/_dbr.py:192-204 | a native type with at most one flag promotes to the block the flag selects (STRING's exceptions included), and native_type of the result is the native type |
| Dbr.PromoteDemotesFirst | caproto/_dbr.py:186-188 | promoting a promoted variant gives the same as promoting its native type |
| Dbr.PromoteIdempotent | caproto/_dbr.py:171-204 | promoting a result again with the same flag changes nothing |
| Dbr.PromotePutAcktAsWritten | caproto/_dbr.py:615-616 | with `special_types` as written, PUT_ACKT with use_time is a ValueError while PUT_ACKS comes back unchanged; with PUT_ACKT exempt it comes back unchanged |
| Dbr.PromoteAsWrittenAgrees | caproto/_dbr.py:615-616 | the written and the corrected promote_type agree on every type but PUT_ACKT |
| Dbr.FieldType | caproto/threading/pyepics_compat.py:449 | `field_types[key][nt]`: a type whose native type is nt, nt itself for the native key |
| Dbr.GroupingsByNative | caproto/_dbr.py:628-641 | every char type has native type CHAR, every enum type ENUM, every string type but CTRL_STRING STRING |
| Dbr.FieldTypeGroupings | caproto/_dbr.py:628-641 | the native, time and control types of CHAR, STRING and ENUM are in their groupings; STS_CHAR is not a char type |
| Dbr.EnumStrs | caproto/_dbr.py:505-509 | exactly the first no_str slots (none for a negative count), in order, each cut at its first NUL; a count above 16 fails |
| Dbr.EpicsTimestampToUnix | caproto/_dbr.py:207-210 | the EPICS epoch offset plus the seconds plus the nanoseconds rounded down to microseconds |
| Dbr.PromoteType | caproto/_dbr.py:171-204 | more than one flag is a ValueError; every failure is a ValueError or a KeyError; every result is a key of `_native_map` |
| Dbr.PromoteTypeAsWritten | caproto/_dbr.py:615-616 | more than one flag is a ValueError; on every type but PUT_ACKT it is the corrected promote_type |
| Data.Elements | caproto/_data.py:25-32 | the elements a `for` loop visits: the items of a list, tuple or array, one per character or byte of text or bytes |
| Data.EncodeStr | caproto/_data.py:26 | `v.encode(latin-1)` succeeds exactly for Latin-1 text and decodes back to it |
| Data.ConvertValuesAsWritten | caproto/_data.py:95-134 | as written, every non-native target (STSACK_STRING and CLASS_NAME included) is a ValueError |
| Data.ConvertValues | caproto/_data.py:95-134 | non-native targets other than STSACK_STRING and CLASS_NAME are refused; those two convert only from themselves |
| Data.SpecialToItselfAsWritten | caproto/_data.py:112-118 | as written, STSACK_STRING to itself is refused by the native-type guard; the corrected conversion wraps and passes the values through |
| Data.ConvertAgreesOnNative | caproto/_data.py:112-113 | both definitions agree on every native target |
| Data.ScalarIsWrapped | caproto/_data.py:120-123 | a value without a length converts as its one-element tuple |
| Data.EnumToIndex | caproto/_data.py:29-30 | ENUM to a non-STRING native type with names: succeeds iff every value is a name, giving each value's first index, in order |
| Data.EnumWithoutNames | caproto/_data.py:31-32 | ENUM to a non-STRING native type without names gives one 0 per value |
| Data.EnumToStringRoundTrip | caproto/_data.py:26-27 | ENUM to STRING encodes each name, and decoding gives the names back |
| Data.StringToEnum | caproto/_data.py:53-69 | STRING to ENUM with names gives the bytes form when it is a name, else the text form when it is, else ValueError |
| Data.StringToEnumWithoutNames | caproto/_data.py:70-71 | STRING to ENUM without names, or with an empty list of them, gives 0 |
| Data.StringToStringKeepsText | caproto/_data.py:75-86 | STRING to STRING keeps byte strings and encodes text, element by element, keeping the length |
| Data.CharBytes | caproto/_data.py:35-49 | CHAR bytes to CHAR give the array of byte values; to STRING the bytes unchanged |
| Data.ConvertEnumValues | caproto/_data.py:22-32 | a list with one item per value (a lone text or bytes counting as one); with names and a non-STRING target each item is an index into them; it fails only when encoding to STRING or looking a value up among names |
| Data.ConvertCharValues | caproto/_data.py:35-49 | fails exactly on text that is not Latin-1; to STRING, bytes are kept and text is encoded to bytes that decode back to it |
| Data.ConvertStringValues | caproto/_data.py:52-86 | to ENUM with a non-empty list of names the result is one of the names; to STRING a list holding no text, only bytes |
| Commands.OtherRole | caproto/_broadcaster.py:37-42 | the other role differs from the role |
| Commands.Get16Be16 | caproto.py:42-50 | decoding a big-endian 16-bit field gives the number back |
| Commands.Get32Be32 | caproto.py:42-60 | decoding a big-endian 32-bit field gives the number back |
| Commands.EncodeHeader | caproto.py:42-60 | a header is 24 bytes when its size or count needs the extended form, else 16 |
| Commands.DecodeEncodeHeader | caproto/_commands.py:105-117 | reading an encoded header, followed by anything, gives the header back, through the extended form exactly when size 0xFFFF and count 0 mark it |
| Commands.DecodeHeader | caproto/_commands.py:90 | a 16-byte header: every field within its width, size and count below 2**16 |
| Commands.DirectionOf | caproto/_commands.py:640-649 | a class is a request exactly when the CLIENT table holds it |
| Commands.LookupCharacterised | caproto/_commands.py:640-649 | every class is found under its own ID in its role's table, and whatever a table holds carries that ID and role |
| Commands.LookupFinds | caproto/_commands.py:640-649 | every class is found under its own ID |
| Commands.LookupSound | caproto/_commands.py:640-649 | whatever a table finds carries the ID and role looked up |
| Commands.LookupSoundClient | caproto/_commands.py:640-649 | the same for the CLIENT table |
| Commands.LookupSoundServer | caproto/_commands.py:640-649 | the same for the SERVER table |
| Commands.LookupSoundServerLow | caproto/_commands.py:640-649 | the same for SERVER IDs below 14 |
| Commands.LookupSoundServerHigh | caproto/_commands.py:640-649 | the same for SERVER IDs from 14 on |
| Commands.MessageInitAsWritten | caproto/_commands.py:143-158 | as written: accepted iff the payload matches the size and the command is the class ID; a wrong command raises AttributeError |
| Commands.MessageInit | caproto/_commands.py:143-158 | accepted iff a missing payload has size 0, a present one has exactly its size, and the command is the class ID; errors are CaprotoValueError for sizes and CaprotoTypeError for the command |
| Commands.MessageInitWrongCommand | caproto/_commands.py:152-156 | a header of another class: AttributeError as written, CaprotoTypeError as intended |
| Commands.ReadFromBytestream | caproto/_commands.py:105-135 | NEED_DATA with the data untouched (always with fewer than 16 bytes), or one command and what follows it; an unknown command is a KeyError, and from_wire's KeyError, ValueError and CaprotoValueError pass through |
| Commands.ReadCommandBytes | caproto/_commands.py:105-135 | the bytes of a well-formed command (one from_wire reads back unchanged) followed by anything parse as that command and the rest |
| Commands.ReadCommandPrefix | caproto/_commands.py:126-135 | every proper prefix of a framed command's bytes is NEED_DATA, untouched |
| Commands.FromWire | caproto/_commands.py:164-176 | no payload for classes without one; a SearchResponse needs the two bytes of a DBR_INT; an empty EventAddResponse payload is None; otherwise a KeyError exactly for a data type outside DBR_TYPES, and a CaprotoValueError exactly for a DBR_STRING payload over 40 bytes, which is otherwise NUL-padded to 40 with the input as prefix |
| Commands.EventAddResponseAsWritten | caproto/_commands.py:359-368 | as written, a non-empty EventAddResponse payload of a known non-string type is a NameError; the intended reading keeps the payload |
| Commands.FromWireAsWritten | caproto/_commands.py:359-368 | a non-empty EventAddResponse payload is a NameError; every other class, and every success, is the corrected from_wire |
| Commands.ReadFramedBytes | caproto/_commands.py:105-135 | the bytes of a framed command followed by anything parse as the command from_wire rebuilds, with its error otherwise |
| Commands.ReadUnknownDataType | caproto/_commands.py:173-174 | a framed command whose class reads its payload by data type, with a data type outside DBR_TYPES, is a KeyError |
| Commands.CreateChanZeroPayload | caproto/_commands.py:121-124 | a CreateChanRequest announcing size 0 is read with the next 16 bytes as its payload: a KeyError for an unknown data type, NUL-padded to 40 bytes for DBR_STRING, else those bytes |
| Commands.ReadDatagram | caproto/_commands.py:85-102 | the loop returns every command of the datagram in order, each payload read by from_wire, or the first failure |
| Commands.DatagramCommands | caproto/_commands.py:85-102 | every command found is the class its role's table gives for its header's ID, with a 16-byte header; there are at most as many commands as 16-byte headers fit in the datagram |
| Commands.PrependAllSnoc | caproto/_commands.py:85-102 | the commands found so far accumulate one at a time |
| Commands.DatagramStep | caproto/_commands.py:85-102 | a well-formed command at the front of a datagram is read and the loop continues on the rest |
| Commands.DatagramRoundTrip | caproto/_commands.py:85-102 | a datagram made of well-formed commands with standard headers parses back to exactly those commands |
| Commands.AllWellFormedStdFit | caproto/_commands.py:85-102 | every such command has a header that fits |
| Commands.WellFormedStdTail | caproto/_commands.py:85-102 | the rest of such a run is such a run |
| Commands.EnsureBytes | caproto/_commands.py:33-39 | bytes unchanged, text UTF-8 encoded, anything else a CaprotoTypeError |
| Commands.EnsureBytesAscii | caproto/_commands.py:33-39 | on ASCII text, the same bytes as Latin-1 |
| Commands.PaddedLen | caproto/_commands.py:55-61 | over 40 bytes is a CaprotoValueError; otherwise the smallest multiple of 8 at least the length |
| Commands.FromBuffer | caproto/_commands.py:42-52 | DBR_STRING: accepted iff at most 40 bytes, then NUL-padded to exactly 40 with the input as prefix; other types unchanged |
| Commands.PaddedStringPayload | caproto/_commands.py:64-68 | the name's bytes NUL-padded to its padded length, which is reported with it |
| Commands.StripNuls | caproto/_commands.py:231 | `rstrip(b'\0')`: the longest prefix not ending in NUL, with only NULs after it |
| Commands.PaddedNameRoundTrip | caproto/_commands.py:64-68 | a name without trailing NULs survives padding and stripping |
| Commands.StripTrailingZeros | caproto/_commands.py:231 | stripping a name padded with NULs gives the name |
| Commands.RoundUp8 | caproto/_commands.py:79 | the smallest multiple of 8 at least n |
| Commands.DataPayload | caproto/_commands.py:71-82 | count other than 1 and the number of values is an AssertionError; otherwise size is count times the element size rounded up to 8, and the payload is the joined elements zero-padded to it |
| Commands.NewVersionRequest | caproto/_commands.py:199-204 | accepted exactly for priorities 0 to 99, giving a well-formed VersionRequest carrying priority and version |
| Commands.NewSearchRequest | caproto/_commands.py:219-232 | accepted exactly for text or bytes up to 40 bytes, giving a well-formed SearchRequest with NO_REPLY, the version, the cid and the padded name, whose NULs stripped give back a name without trailing NULs |
| Commands.PaddedPayloadStrips | caproto/_commands.py:225-231 | stripping NULs from a padded name payload gives back the name's bytes when they do not end in NUL |
| ProtocolState.RoleStates.Set | caproto/_state.py:196 | the role's state becomes s and the other role's is kept |
| ProtocolState.SetGetSame | caproto/_state.py:196 | writing back a role's own state changes nothing |
| ProtocolState.StateTriggered | caproto/_state.py:169-177 | an entry exists exactly for (NEED_CIRCUIT, CONNECTED), giving (SEND_CREATE_CHAN_REQUEST, CONNECTED) |
| ProtocolState.CircuitTransition | caproto/_state.py:22-54 | each role stays within its own circuit states; nothing leaves ERROR; an ErrorResponse leads to ERROR from exactly the live states, and only an ErrorResponse leads there |
| ProtocolState.ChannelTransition | caproto/_state.py:96-167 | each role stays within its own channel states; nothing leaves ERROR or CLOSED; an ErrorResponse leads to ERROR from exactly the live states, and only it does; only ServerDisconnResponse or ClearChannelResponse closes |
| ProtocolState.GetException | caproto/_state.py:231-254 | LocalProtocolError exactly when our role is the one that sends the command class, else RemoteProtocolError |
| ProtocolState.Fire | caproto/_state.py:187-196 | a table entry is taken; a missing one is the error get_exception picks |
| ProtocolState.Triggered | caproto/_state.py:207-211 | the state-triggered step leaves the other role's state alone |
| ProtocolState.TriggeredIdempotent | caproto/_state.py:169-177 | firing the state-triggered transition twice is firing it once |
| ProtocolState.CircuitState.constructor | caproto/_state.py:221-223 | a new circuit starts at (SEND_VERSION_REQUEST, IDLE) with its channels |
| ProtocolState.CircuitState.ProcessCommandType | caproto/_state.py:225-228 | the circuit moves to the table entry or raises leaving every state as it was; on success each channel then takes its state-triggered step |
| ProtocolState.CircuitState.FireChannelsTriggered | caproto/_state.py:227-228 | every channel of the circuit takes its state-triggered step, circuits untouched |
| ProtocolState.ChannelState.constructor | caproto/_state.py:203-205 | a new channel starts at (SEND_CREATE_CHAN_REQUEST, IDLE) on its circuit |
| ProtocolState.ChannelState.FireCommandTriggered | caproto/_state.py:187-196 | the channel moves to the table entry for (role, state, command), or raises and stays |
| ProtocolState.ChannelState.FireStateTriggered | caproto/_state.py:207-211 | the channel takes the state-triggered step for its circuit's state, the circuit untouched |
| ProtocolState.ChannelState.ProcessCommandType | caproto/_state.py:213-215 | the command-triggered transition, then the state-triggered one |
| ProtocolState.RunChannelCons | caproto/_state.py:96-167 | an accepted command, then the rest |
| ProtocolState.ClientChannelOpens | caproto/_state.py:97-104 | a client channel reaches CONNECTED through a create request and its response |
| ProtocolState.ChannelCloses | caproto/_state.py:107-124 | a connected channel closes through MUST_CLOSE on a clear request and its response |
| ProtocolState.ServerChannelOpens | caproto/_state.py:131-145 | a server channel reaches CONNECTED through a create request, an access-rights update and the create response |
| ProtocolState.TerminalStates | caproto/_state.py:125-130 | CLOSED and ERROR have no entries in any table |
| ProtocolState.TerminalRejects | caproto/_state.py:125-130 | from CLOSED or ERROR the first command is rejected with get_exception's error |
| ProtocolState.ClientCircuitVersionAndError | caproto/_state.py:23-54 | a client circuit reaches CONNECTED on a VersionResponse and ERROR on an ErrorResponse from each live state |
| ProtocolState.ChannelErrorResponse | caproto/_state.py:96-167 | an ErrorResponse moves every live channel state to ERROR |
| ProtocolState.NeedCircuitUnreachable | caproto/_state.py:96-177 | no run of commands leads a channel into NEED_CIRCUIT, so the state-triggered transition never fires from the tables |
| ProtocolState.RunChannelAppend | caproto/_state.py:96-167 | running two sequences in turn is running their concatenation |
| Broadcast.Kinds | caproto/_broadcaster.py:148 | the history is the command classes, in order |
| Broadcast.ProcessCommand | caproto/_broadcaster.py:113-148 | registration commands are never refused; a refusal means an unregistered client sending, or a search without its version command earlier in the batch; registration turns on only by a confirmation; only a search request adds its cid to the unanswered searches and only a search response removes its cid |
| Broadcast.ProcessAll | caproto/_broadcaster.py:102-111 | registration never turns off; a failure needs a command; a batch holding a confirmation leaves the broadcaster registered unless it fails |
| Broadcast.ProcessAllStep | caproto/_broadcaster.py:102-111 | a batch stops at its first rejected command and otherwise goes on with the updated state |
| Broadcast.ProcessAllAt | caproto/_broadcaster.py:102-111 | the same step at any position of a batch |
| Broadcast.AllBytesSnoc | caproto/_broadcaster.py:73-76 | the datagram grows by each command's bytes |
| Broadcast.PrefixStep | caproto/_broadcaster.py:69-77 | history and bytes of a batch prefix grow one command at a time |
| Broadcast.Broadcaster.constructor | caproto/_broadcaster.py:32-49 | unregistered, no unanswered searches, counter at 0, their role the other role |
| Broadcast.Broadcaster.ProcessOne | caproto/_broadcaster.py:113-148 | one command's checks and updates, as `_process_command` defines them |
| Broadcast.Broadcaster.Send | caproto/_broadcaster.py:53-77 | every command is checked as ours in order with the batch history; on success the bytes are the commands' bytes joined in order |
| Broadcast.Broadcaster.ProcessCommands | caproto/_broadcaster.py:102-111 | every received command is checked as theirs in order, stopping at the first rejection |
| Broadcast.Broadcaster.NewSearchId | caproto/_broadcaster.py:152-161 | the id is not awaiting an answer and is never MAX_ID; it is the first free id from the counter on, or after wrapping to 0, and the counter moves past it |
| Broadcast.Broadcaster.Search | caproto/_broadcaster.py:163-182 | accepted exactly when the SearchRequest can be built; then the pair is NewVersionRequest(0, version) and NewSearchRequest(name, id, version) for the fresh id, which is not pending, is not MAX_ID, and is the first free one from the counter on or after wrapping |
| Broadcast.Broadcaster.Disconnect | caproto/_broadcaster.py:203-204 | the registration is forgotten |
| Broadcast.KeysFromStep | caproto/_broadcaster.py:156-160 | the ids in use at or above the counter shrink as it passes one |
| Broadcast.KindsAppend | caproto/_broadcaster.py:148 | one more command appends its class to the history |
| Broadcast.UnregisteredClientRejects | caproto/_broadcaster.py:129-134 | an unregistered client rejects every client-role command except a register request or confirmation |
| Broadcast.RegisteredAfterBatch | caproto/_broadcaster.py:127-128 | registration never turns off while processing, and turns on only through a RepeaterConfirmResponse |
| Broadcast.BatchErrorsAreProtocolErrors | caproto/_broadcaster.py:113-148 | every rejection is a local or remote protocol error |
| Broadcast.UnansweredOnlyBySearches | caproto/_broadcaster.py:135-146 | only search requests and responses touch the unanswered searches |
| Broadcast.SearchNeedsVersion | caproto/_broadcaster.py:135-140 | a search request alone in its batch is rejected and changes nothing |
| Broadcast.SearchDatagramAccepted | caproto/_broadcaster.py:135-140 | the version and search pair `search` builds is accepted and records cid to name |
| Broadcast.SearchResponseAnswers | caproto/_broadcaster.py:141-146 | a search response after a VersionResponse is accepted and removes its cid |
| SearchCache.LookupKeys | caproto/client/search_results.py:283 | a dictionary lookup finds exactly the keys present |
| SearchCache.ContainsSpec | caproto/client/search_results.py:282-283 | a name's dictionary is non-empty exactly when some address is found in it |
| SearchCache.DictSetSpec | caproto/client/search_results.py:306 | `d[a] = v` adds a, maps it to v and keeps keys distinct |
| SearchCache.DictPopSpec | caproto/client/search_results.py:301 | `d.pop(a, None)` removes a only, changes no other value, and keeps keys distinct |
| SearchCache.Keep | caproto/client/search_results.py:330-338 | expiry keeps exactly the live entries |
| SearchCache.FirstMarker | caproto/client/search_results.py:330-335 | the address of the first connected-channel marker, if any |
| SearchCache.LastLive | caproto/client/search_results.py:330-335 | the address of the last live entry, if any |
| SearchCache.CachedAddress | caproto/client/search_results.py:324-343 | an answer exists iff some entry is live; it is a live address, a marker's when there is one |
| SearchCache.ScanStep | caproto/client/search_results.py:330-338 | one more entry of the lookup loop: kept if live, and it becomes the answer exactly when live and no marker came before |
| SearchCache.DisconnectStep | caproto/client/search_results.py:299-301 | one name visited by the disconnect loop keeps the keys distinct and the indices mirrored apart from the names still to visit |
| SearchCache.ForgottenClears | caproto/client/search_results.py:298-301 | once every name listed for the address has dropped it, no name keeps the address |
| SearchCache.KeepPreservesAnswer | caproto/client/search_results.py:330-343 | dropping the dead entries first is idempotent and changes neither the marker, the last live entry, nor the answer |
| SearchCache.PruneAllSpec | caproto/client/search_results.py:421-424 | after looking names up in turn, each looked-up name holds only its live entries and every other name its old ones |
| SearchCache.PruneAll | caproto/client/search_results.py:421-424 | the names on record afterwards are the old ones and the names looked up |
| SearchCache.NeedsSearch | caproto/client/search_results.py:421-425 | the names with no cached answer, in input order |
| SearchCache.CachedAt | caproto/client/search_results.py:421-427 | the names cached at an address, in input order |
| SearchCache.Grouping | caproto/client/search_results.py:422-429 | every address of the grouping holds at least one name, and only names that were asked for |
| SearchCache.SplitPartition | caproto/client/search_results.py:407-429 | every name is in exactly one place: needing a search, or cached at one address |
| SearchCache.GroupingSpec | caproto/client/search_results.py:422-429 | each address of the grouping holds exactly the names cached there |
| SearchCache.SplitSnoc | caproto/client/search_results.py:421-427 | one more name extends the pruning, the names to search and the grouping |
| SearchCache.SplitStep | caproto/client/search_results.py:421-427 | one step of the loop, with the answer unchanged by earlier pruning |
| SearchCache.MirroredMark | caproto/client/search_results.py:304-314 | recording a name at an address on both sides keeps the indices mirrored |
| SearchCache.MirroredShrink | caproto/client/search_results.py:330-338 | dropping addresses from a name keeps the indices mirrored |
| SearchCache.MirroredForget | caproto/client/search_results.py:316-321 | forgetting a pair on both sides keeps the indices mirrored |
| SearchCache.CancelAsWritten | caproto/client/search_results.py:265-280 | as written, cancel forgets the names but leaves the unanswered searches as they were |
| SearchCache.CancelAsWrittenKeepsPending | caproto/client/search_results.py:275-280 | a search followed by its cancel leaves it pending |
| SearchCache.SearchResults.constructor | caproto/client/search_results.py:96-115 | empty indices and tables, mirrored |
| SearchCache.SearchResults.Contains | caproto/client/search_results.py:282-283 | `name in results` exactly when some address is on record for it |
| SearchCache.SearchResults.Mark | caproto/client/search_results.py:304-313 | the stamp is set for the pair on the name side and the name listed on the address side; the indices stay mirrored |
| SearchCache.SearchResults.MarkNameFound | caproto/client/search_results.py:304-307 | the same with the time found |
| SearchCache.SearchResults.MarkChannelCreated | caproto/client/search_results.py:310-313 | the same with the connected-channel marker |
| SearchCache.SearchResults.MarkChannelDisconnected | caproto/client/search_results.py:316-321 | the pair is forgotten on both sides, everything else kept, indices mirrored |
| SearchCache.SearchResults.MarkServerDisconnected | caproto/client/search_results.py:298-301 | the address leaves the reverse index and no name keeps it, indices mirrored |
| SearchCache.SearchResults.ForgetNames | caproto/client/search_results.py:299-301 | the loop pops the address from every listed name's entries |
| SearchCache.SearchResults.GetCachedSearchResult | caproto/client/search_results.py:324-343 | the expired entries are deleted; the answer is CachedAddress of the old entries, or CaprotoKeyError when there is none |
| SearchCache.SearchResults.ReceivedSearchResponse | caproto/client/search_results.py:346-371 | a pending cid is retired and gives its name and queue; a known answered cid is DuplicateSearchResponse; either way the name's entries get the address stamped with the time and the address lists the name, nothing else changed; an unknown cid is UnknownSearchResponse and changes nothing |
| SearchCache.SearchResults.ItemsToRetry | caproto/client/search_results.py:373-388 | every pending item without a threshold; otherwise exactly those not retired and not resent since the deadline |
| SearchCache.SearchResults.Search | caproto/client/search_results.py:391-405 | each name gets its own new pending item, never sent, under its id, in both tables and by name; items under other ids and other names' searches unchanged |
| SearchCache.SearchResults.Cancel | caproto/client/search_results.py:265-280 | each cancelled name's latest search is forgotten by name and no longer pending; every other name keeps its search and every other pending item is unchanged |
| SearchCache.SearchResults.Clear | caproto/client/search_results.py:289-295 | every index and table emptied |
| SearchCache.SearchResults.SplitCachedResults | caproto/client/search_results.py:407-429 | the names needing a search and the grouping by cached address, with every name looked up |
| PyepicsTranslate.Texts | caproto/threading/pyepics_compat.py:108-113 | one text value per name, in order |
| PyepicsTranslate.DecodeAll | caproto/threading/pyepics_compat.py:66-68 | one Latin-1 decoding per byte string, in order |
| PyepicsTranslate.ParseDbrMetadata | caproto/threading/pyepics_compat.py:40-80 | only metadata keys are produced |
| PyepicsTranslate.ParseDbrMetadataSpec | caproto/threading/pyepics_compat.py:40-80 | exactly the attributes present are copied (the scalar ones unchanged), units and enum strings decoded, the timestamp split in seconds and nanoseconds |
| PyepicsTranslate.Scalarify | caproto/threading/pyepics_compat.py:120-123 | the single element exactly when count is 1 and the type neither CHAR nor STRING (IndexError when there is none); otherwise the data as an array |
| PyepicsTranslate.ReadResponseToPyepics | caproto/threading/pyepics_compat.py:83-117 | on success the dictionary holds the value, the display value and the raw value, which is the response's data as an array |
| PyepicsTranslate.EnumLabel | caproto/threading/pyepics_compat.py:104-109 | an in-range index gives its name, an out-of-range one '' |
| PyepicsTranslate.EnumDisplay | caproto/threading/pyepics_compat.py:100-113 | None per element when no names are known; otherwise succeeds iff every element is an index; one element is unwrapped |
| PyepicsTranslate.ReadResponseKeys | caproto/threading/pyepics_compat.py:83-117 | the keys are exactly the parsed metadata's plus `raw_value`, `value` and `char_value`, and the parsed metadata is copied unchanged |
| PyepicsTranslate.ReadResponseErrors | caproto/threading/pyepics_compat.py:83-117 | conversion fails exactly for an announced single element that is missing, or an enum element that is not an index |
| PyepicsTranslate.CharValueStopsAtNul | caproto/threading/pyepics_compat.py:91-93 | for char types the display value is the text before the first NUL and holds no NUL |
| PyepicsTranslate.StringValueDecoded | caproto/threading/pyepics_compat.py:94-99 | for string types the value and the display value are the decoded strings |
| PyepicsTranslate.Shown | caproto/threading/pyepics_compat.py:100-113 | one display per enum index |
| PyepicsTranslate.EnumValueDisplayed | caproto/threading/pyepics_compat.py:100-113 | for enum types each element shows its name, '' when out of range, None without names, unwrapped when single |
| PyepicsTranslate.EnumName | caproto/threading/pyepics_compat.py:138-143 | an index gives its name by Python indexing, '' when out of range |
| PyepicsTranslate.PyepicsGetValueSpec | caproto/threading/pyepics_compat.py:126-157 | the display text for string types whatever as_string says, and for char types asked as strings; enums asked as strings give each element's name ('' out of range), bare when alone, or CaprotoValueError without names, or an error for a non-index element; otherwise the elements, a lone one bare unless a count was asked |
| PyepicsTranslate.PyepicsGetValue | caproto/threading/pyepics_compat.py:126-157 | fails only for an enum asked as a string; neither a string type nor asked as a string: the elements, a lone one bare when the native count is 1 and no count was asked |
| PyepicsTranslate.EnumNameLookup | caproto/threading/pyepics_compat.py:138-143 | with distinct names, the name of index i is found again at i |
| PyepicsPv.CaChannel.constructor | caproto/threading/client.py:801-823 | a channel handle with the given connection, report and queued answers, nothing sent yet |
| PyepicsPv.CaChannel.Read | caproto/threading/client.py:974-1005 | DisconnectedError when not connected; else the request is logged and the next answer returned, TimeoutError when none comes |
| PyepicsPv.CaChannel.Write | caproto/threading/client.py:1007-1036 | DisconnectedError when not connected; else the request is logged and fails with TimeoutError exactly when waited for and unanswered |
| PyepicsPv.CaChannel.Subscribe | caproto/threading/client.py:1038-1052 | DisconnectedError when not connected; else the subscription is logged and returned |
| PyepicsPv.InitialArgs | caproto/threading/pyepics_compat.py:227-233 | the cache holds the name, nelm -1, and no value, write access or enum strings yet |
| PyepicsPv.InitialArgsFields | caproto/threading/pyepics_compat.py:188-195 | the initial cache holds exactly the PV's attribute names |
| PyepicsPv.InfoKeepsTypes | caproto/threading/pyepics_compat.py:472 | a converted response never carries the type codes, so merging it keeps them |
| PyepicsPv.TypesNotMetadata | caproto/threading/pyepics_compat.py:40-80 | `type` and `typefull` are not metadata keys |
| PyepicsPv.InitialCallbacks | caproto/threading/pyepics_compat.py:247-253 | a list puts each callable at its position, a single callable goes to 0, nothing else is registered |
| PyepicsPv.FirstFreeIndex | caproto/threading/pyepics_compat.py:247-253 | every index the constructor registers lies below it |
| PyepicsPv.AddNeverReplaces | caproto/threading/pyepics_compat.py:685-686 | with the counter past every index in use, adding registers one new index, replaces nothing and keeps the counter ahead |
| PyepicsPv.CounterAsWrittenReplaces | caproto/threading/pyepics_compat.py:247-262 | as written the counter starts at 0, so after a list of two callbacks the first add replaces the first of them |
| PyepicsPv.CounterStartAhead | caproto/threading/pyepics_compat.py:247-262 | starting the counter at the first free index keeps it ahead |
| PyepicsPv.SortedKeys | caproto/threading/pyepics_compat.py:647 | `sorted(keys)`: the same keys, strictly ascending |
| PyepicsPv.SortedCons | caproto/threading/pyepics_compat.py:647 | the least index in front of the others sorted gives all of them sorted |
| PyepicsPv.MinExists | caproto/threading/pyepics_compat.py:647 | a non-empty set of indices has a least element |
| PyepicsPv.MinWitness | caproto/threading/pyepics_compat.py:647 | the least element, found by induction |
| PyepicsPv.CallKeywords | caproto/threading/pyepics_compat.py:666-668 | the cached data, overridden by the callback's keywords, with `cb_info` holding the index |
| PyepicsPv.CallsFor | caproto/threading/pyepics_compat.py:640-648 | one call per index of the order, with its handler and keywords |
| PyepicsPv.CallsForSnoc | caproto/threading/pyepics_compat.py:647-648 | one more index appends its call |
| PyepicsPv.CallsForPrefixStep | caproto/threading/pyepics_compat.py:647-648 | the calls of a prefix grow one index at a time |
| PyepicsPv.RequestTypeSpec | caproto/threading/pyepics_compat.py:449-458 | char types not asked as strings are read as the matching INT type with the monitor off; otherwise the form's type with the monitor as asked |
| PyepicsPv.NeedsRead | caproto/threading/pyepics_compat.py:460-466 | a read is needed iff the monitor is off, there is no subscription, nothing is cached, or more is asked for than cached; `len` of a cached scalar raises TypeError |
| PyepicsPv.ReadPlan | caproto/threading/pyepics_compat.py:449-472 | a non-native cached type is a KeyError and every failure a KeyError or TypeError; without the monitor, a subscription or a cached value a read is always made; a read asks for the requested count |
| PyepicsPv.ReadPlanSpec | caproto/threading/pyepics_compat.py:449-472 | a read is made exactly when a char type is read as INT or one of the four conditions holds, with the requested count and type |
| PyepicsPv.PutIgnoresNames | caproto/threading/pyepics_compat.py:537-555 | the cached enum names matter only for text put to an enum |
| PyepicsPv.PutEnumText | caproto/threading/pyepics_compat.py:537-543 | text put to an enum becomes the 1-tuple of its first index, or CaprotoValueError when it is no name |
| PyepicsPv.PutCharText | caproto/threading/pyepics_compat.py:545-548 | text put to a char type is its Latin-1 bytes and exactly one trailing NUL, the first NUL when the text has none |
| PyepicsPv.CutBeforeNul | caproto/threading/pyepics_compat.py:91-93 | bytes without NUL followed by a NUL are cut back to themselves |
| PyepicsPv.PutWrapsScalars | caproto/threading/pyepics_compat.py:549-555 | other text, and any scalar, is put as a 1-tuple, text encoded |
| PyepicsPv.CharPutReadRoundTrip | caproto/threading/pyepics_compat.py:545-548 | text put to a char type is read back as the same display text |
| PyepicsPv.EnumPutGetRoundTrip | caproto/threading/pyepics_compat.py:537-543 | an enum name put by text and read back as a string is the same name when names are distinct |
| PyepicsPv.AccessArgs | caproto/threading/pyepics_compat.py:616-621 | sets exactly write_access, read_access and access |
| PyepicsPv.AccessArgsSpec | caproto/threading/pyepics_compat.py:616-621 | the two flags are the two bits of the rights and the access string names that combination |
| PyepicsPv.NormalizePut | caproto/threading/pyepics_compat.py:537-555 | what is written is always a sequence; it fails only with AttributeError (malformed names), CaprotoValueError (unknown enum name) or UnicodeEncodeError (text not Latin-1) |
| PyepicsPv.PV.constructor | caproto/threading/pyepics_compat.py:200-259 | everything `__init__` sets up before looking at the channel handle: the initial cache and callbacks, the counter past them, the connected flag and signal unset, no subscription, nothing called or logged |
| PyepicsPv.PV.Create | caproto/threading/pyepics_compat.py:200-263 | the whole of `__init__`: the constructor's state, then, on a channel handle already connected, the connection step: the signal raised, SetUp from the initial cache, success exactly when there is no channel info or its type is native, and on success the PV connected and every connection callback told; on a disconnected handle nothing more |
| PyepicsPv.PV.CatchUp | caproto/threading/pyepics_compat.py:261-263 | a connected handle runs _connection_state_changed(connected) with its SetUp, the signal raised and the callbacks told on success; otherwise nothing changes |
| PyepicsPv.PV.WaitForConnection | caproto/threading/pyepics_compat.py:274-301 | success when connected; otherwise the signal is cleared and the wait times out |
| PyepicsPv.PV.ConnectionClosed | caproto/threading/pyepics_compat.py:303-305 | the connected flag drops |
| PyepicsPv.PV.RecordAccess | caproto/threading/pyepics_compat.py:616-627 | the access entries are merged and every access callback is told the read and write flags, in order |
| PyepicsPv.PV.AccessRightsChanged | caproto/threading/pyepics_compat.py:613-627 | the channel handle is adopted and the rights recorded |
| PyepicsPv.PV.MonitorRequest | caproto/threading/pyepics_compat.py:335-341 | the cached type, the count or default count, the default mask when monitoring is on, else the mask given |
| PyepicsPv.PV.CheckAutoMonitorSub | caproto/threading/pyepics_compat.py:332-343 | subscribes exactly once, when monitoring is wanted and there is no subscription |
| PyepicsPv.PV.ChannelArgs | caproto/threading/pyepics_compat.py:316-322 | the cache gets the native type, the full type of the form, and the count |
| PyepicsPv.PV.AdoptChannel | caproto/threading/pyepics_compat.py:307-327 | the channel's entries and access are cached; an undecided auto-monitor is decided by the count against AUTOMONITOR_MAXLENGTH |
| PyepicsPv.PV.ConnectionEstablished | caproto/threading/pyepics_compat.py:307-330 | SetUp: nothing without channel info, KeyError and nothing changed for a non-native type; otherwise the channel entries and access rights cached, the access callbacks told, an undecided auto-monitor decided, and, always when the channel is up, the flag raised and the monitor subscribed once when wanted |
| PyepicsPv.PV.ConnectionStateChanged | caproto/threading/pyepics_compat.py:345-367 | the handle is adopted; on connection the SetUp step runs and the signal is raised even if it failed; on disconnection nothing else changes; on success every connection callback is told the state, in order, and on failure none is |
| PyepicsPv.PV.Connect | caproto/threading/pyepics_compat.py:355-363 | the SetUp step, then the signal raised whatever its outcome |
| PyepicsPv.PV.TellConnection | caproto/threading/pyepics_compat.py:365-367 | every connection callback is told the state, in order |
| PyepicsPv.PV.GetCtrlvars | caproto/threading/pyepics_compat.py:589-596 | a control-type read whose converted answer is returned and merged into the cache, then the access entries refreshed from the channel |
| PyepicsPv.PV.ReadAndUpdate | caproto/threading/pyepics_compat.py:580-587 | one read of the type; the converted first answer is merged into the cache and returned, the type codes kept |
| PyepicsPv.PV.EnumStrs | caproto/threading/pyepics_compat.py:934-945 | the `enum_strs` property through `_getarg`: a get() first while no value is cached, whose planned read is logged; then, while the names are unset on a connected channel, one control read whose answer and the access entries are merged into the cache; otherwise nothing read and the cache unchanged; the result is the cached names |
| PyepicsPv.PV.WithValue | caproto/threading/pyepics_compat.py:480-484 | the value computed from the raw value and display text of `md` |
| PyepicsPv.PV.FetchIfPlanned | caproto/threading/pyepics_compat.py:462-473 | no plan: nothing read and `md` returned; a plan: exactly that read logged (when connected), and on success the first queued answer converted, merged into both the cache and `md`, and consumed; a connected channel with no answer is a TimeoutError |
| PyepicsPv.PV.PlannedFetch | caproto/threading/pyepics_compat.py:449-473 | the read ReadPlan decides for the cache, if any; on success its converted answer merged into both the cache and `md`, one answer used per read, and the read the only one sent (DirectPath) |
| PyepicsPv.PV.GetWithMetadata | caproto/threading/pyepics_compat.py:384-488 | fails before any read when disconnected; without a control read first, the starting data is the cache or nothing, the read is exactly the one ReadPlan decides (plus at most the names' reads for enums as strings), the answer is merged into the cache, and the result is WithValue of the start merged with the answer (DirectPath); with control data first, the control get_with_metadata's own read and merge come first and its result is the start (ControlPath); the value is _pyepics_get_value of the result's raw value and text |
| PyepicsPv.PV.FinishGet | caproto/threading/pyepics_compat.py:449-484 | from starting data `md`: the read ReadPlan decides for the cache, its answer merged into the cache and `md` (DirectPath), then the value computed from the merged data |
| PyepicsPv.PV.ComputeValue | caproto/threading/pyepics_compat.py:475-484 | without an enum asked as a string nothing is read and the cache is kept; the result is WithValue of `md` with the names fetched when needed; its value is _pyepics_get_value of its raw value and text |
| PyepicsPv.PV.ControlFirst | caproto/threading/pyepics_compat.py:439-444 | the control get_with_metadata runs as a whole get of its own: its planned read, its answer merged into the cache and into the cache or nothing; that result, value included, is the start, and the outer get then makes the read the updated cache calls for and merges it (ControlPath) |
| PyepicsPv.PV.ControlGet | caproto/threading/pyepics_compat.py:439-444 | the lone control get_with_metadata: after the wait, the read ReadPlan decides for the control form, merged into the cache and into the cache or nothing (DirectStep), the subscription untouched |
| PyepicsPv.PV.ControlPathIntro | caproto/threading/pyepics_compat.py:439-444 | a control get followed by a direct get from the cache it left is a ControlPath |
| PyepicsPv.PV.MergeWithAnswer | caproto/threading/pyepics_compat.py:469-473 | merging the answer to a plan adds exactly its converted form |
| PyepicsPv.PV.Get | caproto/threading/pyepics_compat.py:490-523 | get_with_metadata with the PV's own form; the value it returns is the `value` entry of WithValue on the start merged with the answer, the start and read being those of DirectPath or, with control data first, ControlPath |
| PyepicsPv.PV.Put | caproto/threading/pyepics_compat.py:525-578 | fails before any write when disconnected or without write access; otherwise writes the normalised value with notify and wait as derived, clearing put_complete when used; a successful put made exactly one write |
| PyepicsPv.PV.SendPut | caproto/threading/pyepics_compat.py:557-578 | put_complete cleared exactly when completion is tracked, nothing else cached changed; the write, if made, is exactly one request of the value with wait, notify and callback as derived |
| PyepicsPv.PV.AddCallback | caproto/threading/pyepics_compat.py:672-697 | a non-callable or an explicit index is a CaprotoValueError and changes nothing; otherwise the callback goes under the counter's value, a new index, which is returned; only when connected is the monitor subscribed (once, when wanted) and, with with_ctrlvars, the control read sent; with run_now a disconnected PV fails at the get, and after the get the new callback runs once exactly when still connected |
| PyepicsPv.PV.AfterAdd | caproto/threading/pyepics_compat.py:688-696 | with the callback stored: only when connected is the monitor subscribed (once, when wanted) and, with with_ctrlvars, the control read sent; without either step and without run_now nothing is read; with run_now a disconnected PV fails, and the callback runs once exactly when connected after the get |
| PyepicsPv.PV.PrepareCallback | caproto/threading/pyepics_compat.py:688-692 | nothing when disconnected; when connected the monitor subscribed once when wanted, and with with_ctrlvars exactly one control read of the native type |
| PyepicsPv.PV.RunNow | caproto/threading/pyepics_compat.py:693-696 | get(as_string=True) first, failing when disconnected; then the callback runs once exactly when still connected |
| PyepicsPv.PV.RemoveCallback | caproto/threading/pyepics_compat.py:699-701 | the index is removed; an unknown one is ignored |
| PyepicsPv.PV.ClearCallbacks | caproto/threading/pyepics_compat.py:703-705 | no callback remains |
| PyepicsPv.PV.RunCallback | caproto/threading/pyepics_compat.py:650-670 | an unknown index or a non-callable does nothing; otherwise one call with its keywords |
| PyepicsPv.PV.RunCallbacks | caproto/threading/pyepics_compat.py:640-648 | every callback runs once, in ascending index order (only callables are ever registered) |
| PyepicsPv.PV.RunInOrder | caproto/threading/pyepics_compat.py:647-648 | the loop makes one call per index of the order |
| PyepicsBatch.PutStatus | caproto/threading/pyepics_compat.py:1125-1132 | 1 on success, -1 on a timeout, any other error propagates |
| PyepicsBatch.CaputStatuses | caproto/threading/pyepics_compat.py:1112-1143 | on success the name and value lists had equal length and there is one status per PV, each 1 or -1 |
| PyepicsBatch.AsStatuses | caproto/threading/pyepics_compat.py:1134-1135 | anything but 1 reported as -1 |
| PyepicsBatch.CompletionStatuses | caproto/threading/pyepics_compat.py:1141-1143 | 1 exactly for a PV connected with its put complete |
| PyepicsBatch.CaputStatusesSpec | caproto/threading/pyepics_compat.py:1112-1143 | mismatched lists are a CaprotoValueError; otherwise one status per PV, 1 or -1, tracking the put (or with 'all' its completion), and the first non-timeout error propagates |
| PyepicsBatch.CaputMany | caproto/threading/pyepics_compat.py:1092-1143 | the method computes exactly those statuses |
| PyepicsBatch.PutEach | caproto/threading/pyepics_compat.py:1124-1132 | the loop appends each PV's status, stopping at the first propagating error |
| PyepicsBatch.ToStatuses | caproto/threading/pyepics_compat.py:1134-1135 | the loop computes the statuses without 'all' |
| PyepicsBatch.ToCompletion | caproto/threading/pyepics_compat.py:1141-1143 | the loop computes the statuses with 'all' |
| PyepicsBatch.ReadingNames | caproto/threading/pyepics_compat.py:1073-1076 | the reading's enum names decoded one by one, None without names |
| PyepicsBatch.FinalGet | caproto/threading/pyepics_compat.py:1067-1088 | only a PV that was read can fail; a read PV's value, neither a string type nor asked as a string, is the reading's elements, a lone one bare when the native count is 1 and no count was asked |
| PyepicsBatch.CagetManySpec | caproto/threading/pyepics_compat.py:1035-1089 | a timeout error when asked to raise with a PV pending; otherwise one value per PV in order, None for pending ones |
| PyepicsBatch.CagetMany | caproto/threading/pyepics_compat.py:1035-1089 | on success one value per PV, None for each pending one; without raising, a failure needs a PV that was read |
| PyepicsBatch.CagetManyEnumName | caproto/threading/pyepics_compat.py:1067-1088 | an enum PV read as a string gives the name its index selects |

## Left out

- Sockets, threads, locks, `Event` waits and clocks are left out. Waits become given
  outcomes, the connect signal is a flag, and times are integer parameters.
- Floating-point timeouts and the `1.0 + log10(count)` default are left out.
- numpy is left out: dtype casts and byte swapping become an opaque marker.
- `as_namespace` and `_getinfo` formatting are left out.
- `__on_changes` (the monitor callback of `PV`) and the write-completion callback
  closure of `put` are left out. Only whether a callback is attached is recorded.
- `PV.get_timevars`, `force_connect`, `connect` and `reconnect` are left out, as are
  `caget` and `cainfo`. They are thin wrappers around modelled methods. `_getarg` is
  modelled for `enum_strs` only.
- `PyepicsPv.PV.constructor`: `pvname.strip()` is taken as already applied.
- `PyepicsPv.PV.Create`: the channel handle is a parameter. `context.get_pvs`, the default
  context and the CaprotoRuntimeError for a missing context are not modelled. The two
  hooks `get_pvs` registers are the methods `ConnectionStateChanged` and `AccessRightsChanged`.
- `PyepicsPv.PV.GetWithMetadata`: for an enum asked as a string, the names may be fetched
  between the read and the value. Then the contract states the planned read, the converted
  answer and the value, but not the cache and answer queue the names' reads leave behind.
- `PyepicsPv.PV.ControlFirst`: the same gap for an enum asked as a string, in both the control
  get and the outer one.
- `PyepicsPv.PV.Get`: the same gap as `GetWithMetadata`.
- The PV itself in `cb_info` is left out. Only the index is passed.
- `PyepicsPv.PV.EnumStrs`: after the leading get() only its planned read is stated, not
  the state it leaves behind.
- `PyepicsBatch.CaputStatusesSpec`: CaprotoTimeoutError is counted as a TimeoutError, as
  caproto's own timeout error derives from it in the threading client.
- `PyepicsBatch.CaputMany`: the `wait` argument has three cases: 'each', 'all' and anything
  else. The polling loop of 'all' is replaced by each PV's final completion.
- Access rights are modelled as the two flag bits READ and WRITE, as
  `_access_rights_changed` uses them.
- `PyepicsTranslate.ReadResponseKeys`: the enum names are read from `enum_strings`, the
  metadata attribute the translation uses.
- `Broadcast.Broadcaster.constructor`: the ValueError for a role other than CLIENT or SERVER
  cannot arise, because the role type has exactly those two values.
- `Broadcast.Broadcaster.NewSearchId` and `Broadcast.Broadcaster.Search`: the precondition
  excludes the one state in which the counter loop never ends: the counter at or below
  MAX_ID, MAX_ID itself free, and every id below MAX_ID awaiting an answer.
- `Broadcaster.recv` and `register` are left out. They are socket wrappers around the
  modelled datagram reader and command checks.
- `SearchCache.SearchResults.Search`: the ids are a parameter. The threading client draws
  them from a randomly started counter.
- `SearchCache.SearchResults.Search`: `_searches_by_name` maps each name to its search's id,
  not to the search item as caproto/client/search_results.py:404 stores it. That is the
  corrected reading of the Findings row on `cancel`.
- `SearchCache.SearchResults.ItemsToRetry`: the items to resend are returned as a map from id
  to item. The order of the list the source builds, which follows the unanswered table, is
  not modelled.
- The unresponsive-server tracking of `SearchResults` is left out: `mark_server_alive`,
  `new_server_found`, `get_next_unresponsive_server` and `_update_unresponsive_server_list`.
  It is driven by beacon timing.
- `_constants.py`, `_headers.py`, `field_types` and `VALID_CHANNEL_MARKER` are not part of this model:
  - MAX_ID is 2**16, the wrap-around tests/test_hub.py:20-29 checks;
  - the header layouts follow caproto.py:42-60;
  - `field_types[key][nt]` is promote_type of nt with the key's flag;
  - the connected-channel marker is a distinct stamp.
- Only VersionRequest and SearchRequest are built. The other command classes appear
  as kinds with their IDs and payload rule.
- `Commands.FromWire`, `Commands.ReadFromBytestream` and `Commands.ReadDatagram`: ctypes'
  ValueError for a payload shorter than its data type's DBR structure is not modelled,
  because the sizes of the `_dbr_types` structures depend on the platform's C layout
  (`c_long`, natural alignment). A command keeps its payload bytes, not a ctypes structure.
- The DBR ctypes structures are left out, apart from the enum strings of `DBR_GR_ENUM`.
  `timestamp_to_epics` is left out as well.
- `Dbr.EpicsTimestampToUnix` is stated over reals with the nanoseconds rounded down to
  microseconds. The binary floating point of the source is not modelled.
- `char_types` is assigned twice in `_dbr.py`. The second assignment, at line 641, is in force.

## Findings

| source | as written | input that shows it | evidently intended | confidence | as-written member | corrected member |
|---|---|---|---|---|---|---|
| caproto/_commands.py:156 | the class check reads `header.commmand`, a misspelt attribute | a VersionRequest class built from a header whose command is 6 | CaprotoTypeError naming the wrong command | high, not executed | Commands.MessageInitAsWritten, Commands.MessageInitWrongCommand | Commands.MessageInit |
| caproto/_dbr.py:615-616 | `special_types` lists PUT_ACKS twice and leaves out PUT_ACKT | promote_type(PUT_ACKT, use_time=True) | PUT_ACKT comes back unchanged like the other special types | high, not executed | Dbr.PromoteTypeAsWritten, Dbr.PromotePutAcktAsWritten | Dbr.PromoteType, Dbr.PromoteAsWrittenAgrees |
| caproto/client/search_results.py:275-280 | `_searches_by_name` holds the search item, and cancel pops `_unanswered_searches[item]` instead of the item's id | search('pv') with id 7, then cancel('pv') | the cancelled search is no longer pending | medium, not executed | SearchCache.CancelAsWritten, SearchCache.CancelAsWrittenKeepsPending | SearchCache.SearchResults.Search, SearchCache.SearchResults.Cancel |
| caproto/_data.py:112-118 | the native-type guard runs first, so STSACK_STRING and CLASS_NAME targets never reach their own check | convert_values(v, STSACK_STRING, STSACK_STRING) | a special type converts to itself | medium, not executed | Data.ConvertValuesAsWritten, Data.SpecialToItselfAsWritten | Data.ConvertValues, Data.ConvertAgreesOnNative |
| caproto/threading/pyepics_compat.py:247-262 | callbacks given to the constructor take indices 0..n-1 while `_cb_count` starts at 0 | PV(name, callback=[f, g]), then add_callback(h) | new indices never replace a registered callback | high, not executed | PyepicsPv.CounterAsWrittenReplaces | PyepicsPv.AddNeverReplaces, PyepicsPv.CounterStartAhead |
| caproto/_commands.py:360-368 | `EventAddResponse.from_wire` passes `dbr_type`, a name defined nowhere in the module, to from_buffer | an EventAddResponse with data type 1 and an 8-byte payload | the payload read with `DBR_TYPES[header.data_type]`, as the base class does | high, not executed | Commands.FromWireAsWritten, Commands.EventAddResponseAsWritten | Commands.FromWire |
