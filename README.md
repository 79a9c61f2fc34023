# east-online-server: the workers and the packet codec in Dafny

The east-online server runs a gate worker and one worker per map. The gate
accepts TCP connections, waits for a `Hello` packet, authenticates its token
and hands the connection to the worker of the player's map. A map worker keeps
a tile grid, the registry of connected players and its own queue of scheduled
jobs. Each job it handles — accepting a player, dropping one, reading a packet,
writing or broadcasting a message, one movement tick — becomes changes to that
state and new jobs on the queue. Packets travel as a little-endian u16 length
prefix followed by a body that starts with a little-endian u16 kind.

This project models:

- the byte codec: decoding incoming packets, encoding the `Pong` packet, the
  length-prefix framer for outgoing packets, and the header checks of the
  packet reader;
- the job queue, as a bag of `(due, job)` entries;
- the map worker, as a class whose `tiles`, `streams` and `queue` fields its
  handlers update;
- the gate worker, as a class whose `streams` vector, `queue` and `channels`
  its handlers update.

The model proves:

- the codec round-trips;
- the reader's rejections and its acceptance range;
- the 300 ms movement cooldown rule;
- the map worker's headline invariant. The registry records tile `p` for id `k`
  exactly when `k` stands on tile `p`, under its own id, and so on one tile
  only. Every handler keeps this invariant, and Accept keeps it provided the id
  is not registered yet;
- each handler's complete effect on the state, including its error paths;
- one movement chain per actor: at most one Move tick of an actor is ever
  queued, once the Move request rule is corrected as described under
  "## Findings".

Abstractions:

- Sockets are opaque natural numbers.
- Every socket result, the clock, and the gate's authentication service and
  database are parameters.
- Time is an integer number of milliseconds.

Files, one module each:

- `results.dfy`: Option, Result and Outcome. Outcome is a handler's result:
  done, failed with a message, or panicked.
- `wire.dfy`: bytes, little-endian integers, i64 two's complement.
- `text.dfy`: decimal and `{:?}` rendering, lossy UTF-8.
- `model.dfy`: positions, directions, map definitions.
- `packet.dfy`, `io.dfy`, `writer.dfy`, `reader.dfy`: the codec, socket handles and I/O errors.
- `schedule.dfy`: the job queue.
- `handoff.dfy`: the connection handoff the gate sends a map worker.
- `actor.dfy`: the actor and its movement state.
- `map_worker.dfy`: the map worker.
- `gate_worker.dfy`: the gate worker.

Where the two worker files use types that the files beside them describe
differently, the model follows the workers:

- tiles carry an `actors` map;
- the map worker's `Job` has a `Move(id, duration)` variant;
- `Incoming` has a `Move { direction }` packet;
- the map worker sends `Hello`, `Move` and `Stop` messages.

The codec models only the packets that the codec files implement: `Hello` and
`Ping` in, `Pong` out.

## Model

| member | source | states |
|---|---|---|
| Wire.U16 | src/net/packet/incoming.rs:17 | two bytes read as a u16 are their little-endian value |
| Wire.Le16 | src/net/io/writer.rs:13 | `to_le_bytes` of a u16 is two bytes that read back as that u16 |
| Wire.ToLe | src/net/packet/outgoing.rs:10 | a little-endian encoding has exactly the requested number of bytes |
| Wire.FromLeToLe | src/net/packet/outgoing.rs:10 | decoding the little-endian bytes of a value that fits recovers the value |
| Wire.ToLeFromLe | src/net/packet/incoming.rs:31 | encoding back what a byte sequence decodes to gives the same bytes |
| Wire.Bits64 | src/net/packet/outgoing.rs:10 | the two's complement image of an i64 is below 2^64, and below 2^63 exactly for non-negative values |
| Wire.I64Le | src/net/packet/outgoing.rs:10 | `i64::to_le_bytes` is 8 bytes |
| Wire.I64FromLe | src/net/packet/incoming.rs:31 | `i64::from_le_bytes` gives the i64 whose two's complement image is the bytes' little-endian value |
| Wire.I64RoundTrip | src/net/packet/outgoing.rs:10 | `from_le_bytes(to_le_bytes(t)) == t` for every i64 |
| Wire.I64BytesRoundTrip | src/net/packet/incoming.rs:31 | every 8 bytes are the encoding of the i64 they decode to |
| Wire.I64LeInjective | src/net/packet/outgoing.rs:10 | distinct i64 values have distinct encodings |
| Text.Decimal | src/net/io/reader.rs:26 | the decimal rendering of n is a non-empty digit string whose value, most significant digit first, is n, with no leading zero unless n is 0 |
| Text.DecimalInjective | src/net/packet/incoming.rs:34 | distinct numbers render differently, so a message naming a kind or size names exactly that one |
| Text.ByteList | src/net/packet/incoming.rs:14 | `{:?}` of a byte slice is bracketed, `[]` exactly for no bytes, with one comma between each two entries, so one entry per byte |
| Text.JoinBytesCommas | src/net/packet/incoming.rs:14 | the entry list of n bytes holds exactly n - 1 commas, since no digit is a comma |
| Text.DigitsSplit | src/net/packet/incoming.rs:14 | a digit run followed by nothing or a comma is read back uniquely |
| Text.JoinBytesInjective | src/net/packet/incoming.rs:14 | equal entry lists come from equal byte lists: each entry's digits name its byte |
| Text.ByteListInjective | src/net/packet/incoming.rs:14 | equal `{:?}` renderings come from equal byte slices, so the rendering lists the bytes' decimal values |
| Text.Utf8Lossy | src/net/packet/incoming.rs:23 | lossy decoding gives one character per byte, each ASCII byte as itself |
| Packet.Deserialize | src/net/packet/incoming.rs:12-36 | under 2 bytes fails; kind 1 succeeds; kind 2 fails with under 8 body bytes and succeeds with 8; any other kind fails; a Hello has kind 1 and a Ping kind 2; nothing decodes to Move |
| Packet.ShortBufferRejected | src/net/packet/incoming.rs:13-15 | a buffer under 2 bytes is refused as too short, listing its bytes |
| Packet.HelloDecodes | src/net/packet/incoming.rs:21-24 | kind 1 always decodes, to the lossy text of the body, and an empty body to the empty token |
| Packet.AsciiBytes | src/net/packet/incoming.rs:23 | the byte image of an ASCII string has its length |
| Packet.HelloAsciiRoundTrip | src/net/packet/incoming.rs:22-24 | an ASCII token sent as kind 1 decodes to the same token |
| Packet.PingShortRejected | src/net/packet/incoming.rs:26-28 | kind 2 with fewer than 8 body bytes is refused as too short |
| Packet.PingDecodes | src/net/packet/incoming.rs:30-32 | kind 2 with an 8-byte body decodes to the i64 of that body |
| Packet.PingRoundTrip | src/net/packet/incoming.rs:25-33 | `deserialize([2, 0] ++ le64(t)) == Ping(t)` |
| Packet.UnknownKindRejected | src/net/packet/incoming.rs:34 | any other kind is refused, naming the kind |
| Packet.Serialize | src/net/packet/outgoing.rs:7-13 | a Pong is 10 bytes: kind 1, then bytes that decode to its timestamp |
| Packet.SerializeInjective | src/net/packet/outgoing.rs:9-11 | distinct Pongs serialize differently |
| Writer.Frame | src/net/io/writer.rs:8-13 | fails with "outgoing packet too large" exactly when the body exceeds 65535 bytes; otherwise the body is kept unchanged after a 2-byte prefix that decodes to its length |
| Writer.GetPacketBuf | src/net/io/writer.rs:5-13 | a Pong always frames, into 12 bytes: a prefix that decodes to 10, then its serialization |
| Writer.PongFrame | src/net/io/writer.rs:5-13 | a framed Pong always succeeds: 12 bytes starting 10, 0, 1, 0, then the timestamp |
| Reader.Lift | src/net/io/reader.rs:41-42 | a decode result carried over with its value, or its message as an `Other` I/O error |
| Reader.TryReadPacket | src/net/io/reader.rs:12-43 | a header read error propagates; under 2 header bytes is UnexpectedEof; a success means a declared size of 1..=8096, a successful body read, and the decoding of those bytes |
| Reader.ZeroSizeRejected | src/net/io/reader.rs:23-28 | a declared size 0 is refused as "zero size packet, 0" |
| Reader.TooLargeRejected | src/net/io/reader.rs:30-35 | a declared size over 8096 is refused as "too large packet, n" |
| Reader.HeaderAccepted | src/net/io/reader.rs:37-42 | past the header the body read's error propagates, or its bytes, however many, are decoded |
| Reader.FramePassesHeader | src/net/io/reader.rs:21-35 | a frame the writer makes around 1..=8096 bytes passes the header checks and yields the decoding of that body |
| Reader.FramedPingReadBack | src/net/io/reader.rs:12-43 | a framed, encoded ping reads back as that ping |
| Schedule.HeadExists | src/map/worker.rs:72-74 | every non-empty queue has an entry due no later than all others |
| Schedule.Instant | src/map/worker.rs:118 | `Schedule::instant(job)` carries the job, due at the moment it is pushed |
| Schedule.IsFirstUrgent | src/map/worker.rs:72 | urgent exactly when the queue is not empty and its head, whichever minimal entry that is, is due by now |
| Schedule.UrgentIffHeadDue | src/map/worker.rs:72 | the queue is urgent exactly when its head is due |
| Schedule.InstantIsUrgent | src/map/worker.rs:118-120 | a job pushed as instant makes the queue urgent at once |
| MapActor.NewMovable | src/map/actor.rs:24-30 | a new movement state is Idle, last moved at creation time |
| MapActor.NewActor | src/map/actor.rs:10-17 | a new actor keeps its id and starts Idle, last moved at creation time |
| MapWorker.FromPlacable | src/map/worker.rs:44 | a defined tile keeps its rotation and starts empty |
| MapWorker.Grid | src/map/worker.rs:41-45 | the collected grid has exactly the listed positions, all empty, the last entry for a position deciding its tile |
| MapWorker.GridSnoc | src/map/worker.rs:41-45 | inserting the last entry into the grid of the earlier ones yields the grid of the whole list: its keys, empty tiles and last-entry-wins rule |
| MapWorker.Step | src/map/worker.rs:227-246 | one tile along x or z, on the same level |
| MapWorker.Steer | src/map/worker.rs:319-338 | the same direction changes nothing; another is taken, and a cycle starts exactly when the actor was Idle, is heading somewhere, and 300 ms have passed since it last moved |
| MapWorker.CooldownCoalesces | src/map/worker.rs:329-333 | within 300 ms of the last move no request starts a cycle |
| MapWorker.RedirectStartsNothing | src/map/worker.rs:331 | a redirect while moving starts no second cycle |
| MapWorker.NewActorWaitsOutCooldown | src/map/worker.rs:100 | in the first 300 ms after Accept a move request only turns the actor |
| MapWorker.Place | src/map/worker.rs:102 | inserting an actor changes only its own tile's actor map |
| MapWorker.Unplace | src/map/worker.rs:129-131 | removing an actor changes only its own tile's actor map |
| MapWorker.OneTilePerActor | src/map/worker.rs:96-295 | in agreement, an id stands on at most one tile |
| MapWorker.AcceptKeepsAgreement | src/map/worker.rs:96-104 | placing a fresh id and registering it there keeps the agreement |
| MapWorker.DropKeepsAgreement | src/map/worker.rs:127-131 | unregistering an id and taking it off its tile keeps the agreement |
| MapWorker.SteerKeepsAgreement | src/map/worker.rs:317-327 | changing a registered actor's movement state keeps the agreement |
| MapWorker.RelocateKeepsAgreement | src/map/worker.rs:263-279 | moving an actor to another tile and updating its registry entry keeps the agreement |
| MapWorker.ReacceptBreaksAgreement | src/map/worker.rs:96-104 | accepting an id that is already registered leaves a stale actor on its old tile |
| MapWorker.Roster | src/map/worker.rs:106-110 | the roster has every registered id with its position |
| MapWorker.LookupFailure | src/map/worker.rs:207-212 | the stream, tile and actor lookups succeed exactly when the id is registered at a tile it stands on; the stream is looked up first, then the tile, then the actor: an unregistered id fails with "no stream", a missing tile with "no tile", a missing actor with "no actor" |
| MapWorker.LookupFailsOnlyWhenUnregistered | src/map/worker.rs:207-212 | in agreement, the stream/tile/actor lookups fail only with "no stream" |
| MapWorker.AddOthersKeepsOneChain | src/map/worker.rs:94-343 | queueing entries that are not Move ticks keeps every actor to at most one chain |
| MapWorker.AddTickKeepsOneChain | src/map/worker.rs:335-339 | queueing a tick for an actor with none queued leaves it exactly one |
| MapWorker.RescheduleKeepsOneChain | src/map/worker.rs:284-293 | a tick that announces its move and queues the next tick keeps its actor to one chain |
| MapWorker.PopKeepsOneChain | src/map/worker.rs:72-84 | popping an entry keeps the chains apart, and popping an actor's tick leaves it none queued |
| MapWorker.AsWrittenStartsSecondChain | src/map/worker.rs:329-339 | as written, an Idle actor whose tick is still queued at its due time starts a second chain on a new direction request |
| MapWorker.SteeredKeepsOneChain | src/map/worker.rs:329-339 | with the pending-tick check, a Move request keeps every actor to at most one chain |
| MapWorker.SameDirectionIsNoOp | src/map/worker.rs:319-321 | a Move request for the current direction changes no tile and queues nothing |
| MapWorker.DropOnFailure | src/map/worker.rs:168-178 | a write queues at most one entry, exactly when it failed other than would-block, and that entry is an instant Drop of the key with the error's message |
| MapWorker.BroadcastDropsAdd | src/map/worker.rs:186-202 | each further key tried adds exactly its own Drop, if any |
| MapWorker.WriteEach | src/map/worker.rs:186-202 | the write loop over every stream collects exactly the Drops of the keys whose write failed hard |
| MapWorker.BroadcastDropsExactly | src/map/worker.rs:183-205 | a broadcast Drop exists exactly for each key whose write failed hard, with that error |
| MapWorker.Worker.FromMap | src/map/worker.rs:37-51 | keeps the map's id and name; the grid has exactly the listed positions; empty registry and queue; agreement holds |
| MapWorker.Worker.SelectJob | src/map/worker.rs:71-87 | a head due by now is popped first; otherwise a handoff becomes Accept, a ready registered id Readable, and nothing comes off the queue before it is due; no Accept is ever queued; a popped tick leaves its actor with no other tick queued |
| MapWorker.Worker.Accept | src/map/worker.rs:96-125 | at a tile: places the new actor, registers it, and queues one instant Hello whose roster is the whole registry with the newcomer; otherwise "wrong position" and nothing changes; a fresh id keeps the agreement |
| MapWorker.Worker.Drop | src/map/worker.rs:127-141 | unregisters the id and takes it off its recorded tile; an unknown id is "drop failed" with no change; keeps the agreement |
| MapWorker.Worker.Readable | src/map/worker.rs:142-154 | unknown id is "stream not found"; would-block queues nothing; a hard error queues an instant Drop with its message; a packet queues an instant Incoming |
| MapWorker.Worker.HandlePacket | src/map/worker.rs:306-343 | a Move request fails with the first failing lookup, or updates the actor per `Steer` and queues a 300 ms Move only if a cycle starts and no tick of the actor is queued (the corrected rule of "## Findings"); other packets do nothing; keeps every actor to one chain |
| MapWorker.Worker.Incoming | src/map/worker.rs:155-163 | always succeeds; a failed packet handler queues exactly one instant Drop carrying its message |
| MapWorker.Worker.Write | src/map/worker.rs:164-182 | an unknown id is a silent no-op; an unframeable message fails; otherwise at most the one Drop of a hard write failure is queued |
| MapWorker.Worker.Broadcast | src/map/worker.rs:183-205 | writes to every registered id regardless of earlier failures, queueing exactly the Drops of hard failures |
| MapWorker.Worker.MoveTick | src/map/worker.rs:206-296 | a failed lookup changes nothing; Idle or no tile ahead queues one Stop broadcast at the current position; otherwise moves the actor one tile, stamps it, updates the registry, and queues a Move broadcast and the next tick at now + duration; keeps the agreement, and one chain per actor when the tick being handled was the actor's only one |
| MapWorker.Worker.Advance | src/map/worker.rs:263-293 | the actor, stamped with now, moves to the next tile on the grid and in the registry; the move is announced and the next tick queued at now + duration |
| MapWorker.Worker.HandleJob | src/map/worker.rs:94-298 | every job keeps the agreement (an Accept provided its id is fresh) and the grid's positions, and every actor to at most one chain (a tick provided it is not queued beside another) |
| MapWorker.Worker.RunOnce | src/map/worker.rs:61-69 | one loop iteration keeps the agreement when a handed-off id is fresh, and always keeps every actor to at most one movement chain |
| GateWorker.MapOf | src/gate/worker.rs:176-182 | the stored map id, "map_0000" when none is stored, or the query's error |
| GateWorker.BodyText | src/gate/worker.rs:196 | the failure text of a non-201 reply: its body, or the error of reading it |
| GateWorker.Admit | src/gate/worker.rs:152-198 | an unreachable service or a status other than 201 fails with its error or the response body; a success means status 201, a parsed token, a found user and its map |
| GateWorker.AdmittedToStoredOrFallbackMap | src/gate/worker.rs:165-192 | an authenticated, stored user is admitted to its stored map, or to "map_0000" |
| GateWorker.UnknownUserRefused | src/gate/worker.rs:172-173 | an authenticated token for an unknown user is refused as "user not found" |
| GateWorker.RemoveAt | src/gate/worker.rs:94 | `Vec::remove` keeps earlier entries, shifts later ones down by one, and removes exactly that one connection |
| GateWorker.RemovalShiftsLaterIndices | src/gate/worker.rs:94 | after a removal, an index past it names the following connection |
| GateWorker.RemovalPanic | src/gate/worker.rs:94 | the `Vec::remove` panic message names the index in decimal right after "removal index (is " |
| GateWorker.RemovalPanicNamesIndex | src/gate/worker.rs:94 | different indices give different panic messages |
| GateWorker.Accepted | src/gate/worker.rs:86-91 | only an Accept brings in a connection, exactly one |
| GateWorker.Worker.constructor | src/gate/worker.rs:37-45 | no connections, no jobs, no channels |
| GateWorker.Worker.AddChannel | src/gate/worker.rs:47-49 | registers or replaces one map's channel |
| GateWorker.Worker.SelectJob | src/gate/worker.rs:61-77 | a head due by now is popped first; otherwise a connection becomes Accept, a ready index in range Readable, and nothing comes off the queue before it is due |
| GateWorker.Worker.Accept | src/gate/worker.rs:86-91 | appends the connection, leaving earlier indices as they were |
| GateWorker.Worker.Drop | src/gate/worker.rs:93-98 | removes the connection at the index, shifting later ones; out of range it panics and nothing changes |
| GateWorker.Worker.Readable | src/gate/worker.rs:100-112 | index out of range is "stream not found"; would-block queues nothing; a hard error queues an instant Drop; a packet queues an instant Incoming |
| GateWorker.Worker.HandlePacket | src/gate/worker.rs:146-201 | a Hello queues one instant Send to the admitted user and map or fails with the reason; other packets are ignored |
| GateWorker.Worker.Incoming | src/gate/worker.rs:113-121 | always succeeds; a refused Hello queues exactly one instant Drop with the reason |
| GateWorker.Worker.Send | src/gate/worker.rs:122-136 | always removes the connection; appends it with the user id at the origin to the map's channel only when that channel is registered |
| GateWorker.Worker.HandleJob | src/gate/worker.rs:84-138 | channels only grow, and only an Accept brings a connection in |
| GateWorker.Worker.RunOnce | src/gate/worker.rs:51-59 | one loop iteration brings in at most the connection the listener offered |

## Findings

| source | as written | input that shows it | evidently intended | confidence | as-written member | corrected member |
|---|---|---|---|---|---|---|
| src/map/worker.rs:329-339 | a Move request starts a new tick chain when the actor is Idle, cooled down and now heading somewhere, without looking for a tick of that actor still queued | actor u last moved at 300, so its next tick is due at 600; it asks for Idle at 400; a Right request handled at 600, before that tick is popped (the packet was read at 599, so its Incoming is due first), finds u Idle and cooled down and queues a second tick; from then on u moves two tiles per 300 ms | one tile per cooldown window: a request made while a tick is still queued only changes the direction, which that tick then carries out | not executed | MapWorker.AsWrittenStartsSecondChain | MapWorker.Worker.HandlePacket |

The worker class uses the corrected rule. `Steer` still states the source's
direction rule, and `Steered` adds the pending-tick check. Every handler,
`SelectJob` and `RunOnce` keep `OneChainEach` (at most one queued tick per actor).

## Left out

- Socket readiness (`wait_for_readable`), the listener, and the `tokio::select!` race are not modelled as concurrency. The race is an `Event` parameter. A ready map id that is not registered selects nothing, and neither does a ready gate index out of range.
- The queue's ordering and its tie-break among equal due times are not modelled. Any entry with the smallest due time can be popped.
- The wait for the head's due time (`wait_for_first`) is not modelled separately. Time is the `now` each selection is given, and a head is popped once it is due at that `now`.
- The workers read `Instant::now()` twice in a Move tick and once per handler. These become one integer `now` per job.
- The socket reads and writes (`try_read_buf`, `try_write`) and `peer_addr` are not modelled. Their results are parameters.
- The gate's HTTP authentication call, JSON parsing, MySQL connection and queries are not modelled. They are the `Oracle` parameter.
- The mpsc send of a handoff (src/gate/worker.rs:130-132) waits for space and can fail. Here it always succeeds, as an append to `channels[map_id]`.
- The byte layout of the map worker's messages (Hello, Move, Stop) is not part of the shown code. Handlers that send take an encoder parameter, and only its length matters for framing.
- `Move { direction }` has no wire layout in the packet decoder, so it is a packet variant with no byte form.
- Text.Utf8Lossy: maps every non-ASCII byte to U+FFFD. It does not decode multi-byte UTF-8 sequences. The Hello round trip is stated for ASCII tokens.
- Packet.Deserialize: for a kind-2 body longer than 8 bytes, it reads the first 8, and its contract leaves that case unstated. `clone_into_array` comes from an external crate, so Packet.PingDecodes is stated for 8-byte bodies only.
- Println/eprintln logging is not modelled. Neither is `handle_job` errors being only printed.
- Position coordinates are unbounded integers. `Vector3` has fixed-width fields in a crate that is not shown, so overflow of a step at the coordinate limits is not modelled.
- A tile's placed object is not modelled, and neither are the unfinished `Keeper` types, the bootstrap in src/main.rs (map download and process start), src/db/mod.rs or src/env.rs.
- MapWorker.Worker.Accept: an id that is already registered is re-registered at the new tile, and its old tile keeps the stale actor. The agreement is therefore promised only for fresh ids. MapWorker.ReacceptBreaksAgreement exhibits the case.
- GateWorker.Worker.HandleJob: it does not state which channel a removed connection went to. Worker.Send states that for the one job that routes connections.
