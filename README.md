# RoomMarket client: room resolution and message envelopes

This project models the client side of the z4 RoomMarket protocol as the
game-engine plugin in `src/lib.rs` implements it, and proves what its
handlers and envelope helpers promise.

- **State.** The `RoomMarket` resource holds the market URL, the game
  identifier, the contract binding, the last room list fetched from the
  market, and optionally the room being joined (`waiting`). That room records
  its players, its sequencer and its WebSocket address as they are resolved.
  In the model this is the class `Client.RoomMarket`.
- **Four per-tick systems.** Each is a method of that class. It takes one
  abstract input, updates the fields in place and returns the outbound calls
  it makes:
  - `fetch_room_market` polls the market.
  - `handle_room_market` replaces the room list with the market's answer.
  - `fetch_room_status` asks the RoomMarket contract for `roomInfo(room)`.
  - `handle_room_status` is the two-phase resolver. A `roomInfo` answer naming
    a sequencer records the players and the sequencer and calls `sequencers`.
    A `sequencers` answer records the sequencer's address.
- **Inputs.** A receive outcome (`Got`, `Empty`, `Closed`), the wallet's answer
  already decoded into ABI tokens, and which timers fired.
- **Specification functions.** Each method is proved against a step function
  of module `Rooms`. The protocol's properties are proved about those
  functions: a per-step contract, plus lemmas over whole runs of ticks.
- **Envelope helpers.** `build_request`, `parse_response` and `ws_connect` are
  functions over a JSON value datatype (module `Envelope`).
- **Foreign collaborators.** Two of them are passed as function parameters:
  - `rpc`: the generic JSON-RPC request constructor, `rpc_request`.
  - `toHex`: the hex rendering of a 20-byte peer id, `PeerId::to_hex`.

Modules: `Wrappers` (Option, Result), `Json` (the JSON value), `Abi` (ABI
tokens and their accessors), `Envelope`, `Rooms` (step functions and lemmas),
`Client` (the class).

Where the code and the protocol's intended design differ, the model follows
the code:
- `parse_response` aborts when `result` is present but is not an array. The
  model makes this a precondition; the intended design wants a typed error.
- A request built by `build_request` carries no `result` entry, so
  `parse_response` rejects it. There is no request/response round trip;
  `BuiltRequestIsNotAResponse` states this.
- `fetch_room_market` does not check whether a `room_market` request is
  already outstanding.
- The `sequencers` call always takes exactly one address.
- Nothing stops `websocket` from being set before `sequencer`.

## Model

| member | source | states |
|---|---|---|
| `Envelope.BuildRequest` | src/lib.rs:207-214 | The request is the object from `rpc_request(0, method, params, room)`. It gains exactly one new or overwritten key, `peer`, whose value is the hex of the peer id. Every other key keeps its value. |
| `Envelope.ParseResponse` | src/lib.rs:218-234 | Succeeds exactly when the parsed value is an object with a `result` key, and then returns the `result` array. `gid` is the `u64` under `gid`, or 0 when it is missing or of the wrong type. `method` is the string under `method`, or "" likewise. Every other input gives "Invalid". The precondition is that `result`, when present, is an array (the unwrap). |
| `Envelope.WsConnect` | src/lib.rs:242-246 | Opens the given URL with one initial frame: `build_request("connect", [], peer, room)`, so its `peer` key is the hex of the peer id. `wasm::ws_connect` at src/lib.rs:255-259 is identical. |
| `Envelope.ParseResponseEnvelope` | src/lib.rs:223-228 | A response envelope `{gid, method, result}` with a `u64` gid parses back to exactly that gid, method and result. |
| `Envelope.BuiltRequestIsNotAResponse` | src/lib.rs:207-233 | When `rpc_request` supplies no `result` key, `parse_response` rejects the built request with "Invalid". |
| `Envelope.ParseResponseRejects` | src/lib.rs:219-233 | Text that is not JSON, and `{"gid":7,"method":"roomInfo"}` (no `result`), both give "Invalid". |
| `Rooms.DecodeAllElementwise` | src/lib.rs:101 | Decoding `Vec<PendingRoom>` succeeds exactly when every element decodes as a `PendingRoom`. On success it yields those rooms in the same order and number. |
| `Rooms.MarketStep` | src/lib.rs:98-111 | For one connection, the room list becomes the decoded answer when the connection is a `room_market` one whose answer decodes. Otherwise the list is unchanged. The connection is despawned exactly when it is a `room_market` one that answered an error or closed. |
| `Rooms.HandleMarketRooms` | src/lib.rs:97-104 | After the loop, the room list is exactly the list from the last `room_market` answer that decodes, with no merge. When no answer decodes, the list is unchanged. |
| `Rooms.HandleMarketDespawned` | src/lib.rs:105-110 | An entity is despawned if and only if it owns a `room_market` connection that answered an error or closed. |
| `Rooms.HandleMarketIgnoresOtherTags` | src/lib.rs:97-98 | Connections tagged with any other method neither change the rooms nor get despawned. |
| `Rooms.MarketAnswerExample` | src/lib.rs:99-103 | The answer `[{"room":5,"players":["0x01"]}]` replaces any prior list with exactly one room 5, players `["0x01"]`, and no sequencer or websocket. |
| `Rooms.PlayersHex` | src/lib.rs:153-167 | Gives the hex of each player token, with the same length and order. A token that is not an address gives the hex of the zero address. |
| `Rooms.StatusStep` | src/lib.rs:144-200 | With no waiting room: nothing changes and no call is made. Otherwise the room id is kept. A call is made if and only if a `roomInfo` answer names a non-zero sequencer, and then it is a single `sequencers` call. The sequencer changes only on such an answer. A recorded sequencer or address is never cleared. |
| `Rooms.RoomInfoUnassigned` | src/lib.rs:168-169 | A `roomInfo` answer whose sequencer is zero or not an address leaves the waiting room unchanged and makes no call. |
| `Rooms.RoomInfoAssigned` | src/lib.rs:153-182 | A `roomInfo` answer with a non-zero sequencer sets `players` to the hex of each player token, in the same order. It sets `sequencer` to `Some(hex(sequencer))`. It keeps `room` and `websocket`. It makes exactly one `sequencers` call, to the contract address, with that address as its only argument. |
| `Rooms.SequencersAnswer` | src/lib.rs:184-190 | A `sequencers` answer sets `websocket` to `Some(infos[1])` when that token is a string, else `Some("")`. Nothing else changes and no call is made. |
| `Rooms.StatusIgnored` | src/lib.rs:191-198 | An unknown method tag, `Empty` and `Closed` change nothing and make no call. |
| `Rooms.ResolutionProgress` | src/lib.rs:144-200 | Over any sequence of wallet answers, the waiting room keeps its room id. A resolved sequencer or address is never lost. The sequencer changes only if some answer named a non-zero one. Every call made is a `sequencers` call with a non-zero address. No call is made if and only if no answer named a non-zero sequencer. |
| `Client.RoomMarket.constructor` | src/lib.rs:59-66 | `RoomMarket::default()`: empty URL, game and room list, no waiting room, and an unbound contract at the zero address. |
| `Client.RoomMarket.FetchRoomMarket` | src/lib.rs:70-88 | Makes a request if and only if both `url` and `game` are non-empty. The request is to `url`, method `room_market`, group 4, params `[game]`, with header `peer` set to the zero address. |
| `Client.RoomMarket.HandleRoomMarket` | src/lib.rs:92-114 | The new room list and the despawned entities are those of `Rooms.HandleMarket` over the connections in order; no other field changes. |
| `Client.RoomMarket.HandleConnection` | src/lib.rs:98-111 | One pass of the loop body: its effect is `Rooms.MarketStep`. |
| `Client.RoomMarket.FetchRoomStatus` | src/lib.rs:118-140 | No waiting room: nothing is called or ticked. Contract unbound: nothing is called, and ticking stops at the first timer that fires. Otherwise every timer is ticked, and there is exactly one `roomInfo(room)` call per fired timer, to the contract address. |
| `Client.RoomMarket.HandleRoomStatus` | src/lib.rs:144-200 | The new waiting room and the calls made are those of `Rooms.StatusStep`; no other field changes. |

## Left out

- Engine plugin registration, `Commands`, entity queries and despawning are
  modelled as data. Connections are a sequence of values, and despawning
  means returning the entity.
- Timers are left out; `Timer::from_seconds` uses `f32`. Each timer firing
  is a boolean input. The model counts how many timers were ticked, but not
  their clock state.
- The HTTP, WebSocket and wallet transports are modelled as data.
  `jsonrpc`, `wallet.call` and `WsClient.connect` become returned call
  records. Their receives become `Recv` inputs.
- ABI encoding and decoding are left out. A `roomInfo` call records its
  argument token, not the encoded bytes. A wallet answer arrives already
  decoded into tokens, and the bytes of an unknown method are never looked at.
- Turning text into JSON (`from_str`, `to_text`) and JSON into text
  (`to_string`) are left out. `Envelope.ParseResponse` takes the parse
  outcome, where `None` means the text is not JSON.
  `Envelope.BuildRequest` returns the JSON value before it is turned into
  text. The fallback to the empty string when `to_string` fails is not
  modelled.
- `rpc_request`'s field layout and `PeerId::to_hex` are not visible, so they
  are function parameters. Deriving the peer id from a `PeerKey` is also not
  modelled: the helpers take the peer id.
- What `Contract::is_empty` inspects is not visible. The model stands for it
  with a `bound` flag.
- Binding the contract address from a chain registry is not done in this
  file and is not part of this model.
- JSON numbers are integers; floating-point JSON numbers are not modelled.
- Decoding `PendingRoom` follows serde's derived rules. An object needs
  `room` and `players`, a missing optional field reads as `None`, and
  unknown keys are ignored. An array needs exactly the four fields in order.
- Panics are preconditions, not modelled behaviour: indexing
  `infos[0]`, `infos[2]` and `infos[1]`, and the `result` unwrap.
- `Envelope.ParseResponse`: the abort on a non-array `result` is a
  precondition, not a typed error.
- `Client.RoomMarket.HandleRoomStatus`: when no room is waiting, the wallet's
  answer stays in its channel. This is not modelled, because the outcome is
  an input.
- Logging (`info!`, `error!`) and `examples/client.rs` are left out. The
  latter is a receive-and-print loop with no protocol logic.
