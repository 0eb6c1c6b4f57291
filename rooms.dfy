/**
 * The room-resolution protocol of the RoomMarket client, as functions on
 * values: one function per handler step and the properties the handlers
 * promise.  The class in client.dfy runs the same steps on its fields and is
 * proved against these functions.
 *
 * Inputs the engine supplies are taken as values: each HTTP connection's
 * receive outcome, the wallet's receive outcome already decoded into ABI
 * tokens, and `toHex`, the hex rendering of a peer id.
 */
module Rooms {
  import opened Wrappers
  import Json
  import opened Abi
  import Envelope

  type RoomId = Envelope.RoomId

  /** An engine entity owning one connection; despawning it drops the connection. */
  type Entity = nat

  const INIT_ROOM_MARKET_GROUP: RoomId := 4
  const ROOM_MARKET: string := "room_market"
  const ROOM_INFO: string := "roomInfo"
  const SEQUENCERS: string := "sequencers"
  /** The anonymous caller tag of the market request: the zero address. */
  const ZERO_PEER_HEX: string := "0x0000000000000000000000000000000000000000"

  /** A room offered by the market; also the session state of the room being joined. */
  datatype PendingRoom = PendingRoom(room: Json.U64, players: seq<string>,
                                     sequencer: Option<string>, websocket: Option<string>)

  /** The RoomMarket contract binding: its address, and whether an ABI is bound (`!is_empty()`). */
  datatype Contract = Contract(address: H160, bound: bool) {
    predicate IsEmpty() { !bound }
  }

  /** A non-blocking receive: a completed value, nothing yet, or a closed channel. */
  datatype Recv<+T> = Got(value: T) | Empty | Closed

  /** An HTTP connection entity with the method tag of its request and what `recv()` gives this tick. */
  datatype HttpConnection = HttpConnection(entity: Entity, tag: string, recv: Recv<Result<Json.Value, string>>)

  /** The wallet's answer: the method tag of the call and its output decoded into tokens. */
  type WalletRecv = Recv<(string, seq<Token>)>

  /** An outbound call: a JSON-RPC request over HTTP, or a contract call through the wallet. */
  datatype Call =
    | JsonRpc(url: string, name: string, group: RoomId, params: Json.Value, headers: seq<(string, Json.Value)>)
    | WalletCall(to: H160, name: string, args: seq<Token>)

  // ---------------------------------------------------------------------------
  // Decoding the market's answer: `serde_json::from_value::<Vec<PendingRoom>>`
  // ---------------------------------------------------------------------------

  /** A `Vec<String>`: an array of strings. */
  function DecodeStrings(v: Json.Value): Option<seq<string>> {
    if v.Array? && forall i :: 0 <= i < |v.items| ==> v.items[i].Str? then
      Some(seq(|v.items|, i requires 0 <= i < |v.items| && v.items[i].Str? => v.items[i].s))
    else None
  }

  /** An `Option<String>`: `null` is `None`, a string is `Some`, anything else fails. */
  function DecodeOptString(v: Json.Value): Option<Option<string>> {
    match v
    case Null => Some(None)
    case Str(s) => Some(Some(s))
    case _ => None
  }

  /** The four fields of a room; an absent optional field (`None` here) reads as `None`. */
  function DecodeFields(room: Json.Value, players: Json.Value,
                        sequencer: Option<Json.Value>, websocket: Option<Json.Value>): Option<PendingRoom> {
    var r := Json.AsU64(room);
    var ps := DecodeStrings(players);
    var s := if sequencer.Some? then DecodeOptString(sequencer.value) else Some(None);
    var w := if websocket.Some? then DecodeOptString(websocket.value) else Some(None);
    if r.Some? && ps.Some? && s.Some? && w.Some? then Some(PendingRoom(r.value, ps.value, s.value, w.value))
    else None
  }

  /**
   * One `PendingRoom`: an object with `room` and `players` (other keys are
   * ignored), or an array of exactly the four fields in declaration order.
   */
  function DecodeRoom(v: Json.Value): Option<PendingRoom> {
    match v
    case Object(m) =>
      if "room" in m && "players" in m then
        DecodeFields(m["room"], m["players"],
                     if "sequencer" in m then Some(m["sequencer"]) else None,
                     if "websocket" in m then Some(m["websocket"]) else None)
      else None
    case Array(a) =>
      if |a| == 4 then DecodeFields(a[0], a[1], Some(a[2]), Some(a[3])) else None
    case _ => None
  }

  /** A `Vec<PendingRoom>`: every element must decode. */
  function DecodeAll(items: seq<Json.Value>): Option<seq<PendingRoom>> {
    if items == [] then Some([])
    else match (DecodeRoom(items[0]), DecodeAll(items[1..]))
      case (Some(room), Some(rest)) => Some([room] + rest)
      case _ => None
  }

  /** A list of rooms decodes exactly when every element does, element by element and in order. */
  lemma {:induction false} DecodeAllElementwise(items: seq<Json.Value>)
    ensures DecodeAll(items).Some? <==> forall i :: 0 <= i < |items| ==> DecodeRoom(items[i]).Some?
    ensures DecodeAll(items).Some? ==> |DecodeAll(items).value| == |items|
    ensures DecodeAll(items).Some? ==>
      forall i :: 0 <= i < |items| ==> Some(DecodeAll(items).value[i]) == DecodeRoom(items[i])
  {
    if items != [] {
      DecodeAllElementwise(items[1..]);
      assert forall i :: 0 < i < |items| ==> items[1..][i - 1] == items[i];
    }
  }

  function DecodeRooms(v: Json.Value): Option<seq<PendingRoom>> {
    if v.Array? then DecodeAll(v.items) else None
  }

  // ---------------------------------------------------------------------------
  // handle_room_market
  // ---------------------------------------------------------------------------

  /** The effect of one tick of the market handler: the room list and the entities despawned. */
  datatype MarketTick = MarketTick(rooms: seq<PendingRoom>, despawned: seq<Entity>)

  /** The rooms a connection delivers: a `room_market` answer that decodes. */
  function Delivered(c: HttpConnection): Option<seq<PendingRoom>> {
    if c.tag == ROOM_MARKET && c.recv.Got? && c.recv.value.Success? then DecodeRooms(c.recv.value.value)
    else None
  }

  /** A `room_market` connection that answered with an error or closed. */
  predicate Despawns(c: HttpConnection) {
    c.tag == ROOM_MARKET && (c.recv.Closed? || (c.recv.Got? && c.recv.value.Failure?))
  }

  /** The handler's body for one connection. */
  function MarketStep(rooms: seq<PendingRoom>, c: HttpConnection): (t: MarketTick)
    ensures t.rooms == Delivered(c).GetOr(rooms)
    ensures t.despawned == if Despawns(c) then [c.entity] else []
  {
    if c.tag != ROOM_MARKET then MarketTick(rooms, [])
    else match c.recv
      case Got(Success(value)) =>
        (match DecodeRooms(value)
         case Some(decoded) => MarketTick(decoded, [])
         case None => MarketTick(rooms, []))
      case Got(Failure(_)) => MarketTick(rooms, [c.entity])
      case Empty => MarketTick(rooms, [])
      case Closed => MarketTick(rooms, [c.entity])
  }

  /** The handler over all connections, in query order. */
  function HandleMarket(rooms: seq<PendingRoom>, conns: seq<HttpConnection>): MarketTick
    decreases |conns|
  {
    if conns == [] then MarketTick(rooms, [])
    else
      var t := MarketStep(rooms, conns[0]);
      var rest := HandleMarket(t.rooms, conns[1..]);
      MarketTick(rest.rooms, t.despawned + rest.despawned)
  }

  /** One step of the handler from position `i` of the connection list. */
  lemma HandleMarketFrom(rooms: seq<PendingRoom>, conns: seq<HttpConnection>, i: nat)
    requires i < |conns|
    ensures var t := MarketStep(rooms, conns[i]);
            var rest := HandleMarket(t.rooms, conns[i + 1..]);
            HandleMarket(rooms, conns[i..]) == MarketTick(rest.rooms, t.despawned + rest.despawned)
  {
  }

  /** Reference definition: the rooms delivered by the last connection that delivers any. */
  function LastDelivered(conns: seq<HttpConnection>): Option<seq<PendingRoom>>
    decreases |conns|
  {
    if conns == [] then None
    else match Delivered(conns[|conns| - 1])
      case Some(rs) => Some(rs)
      case None => LastDelivered(conns[..|conns| - 1])
  }

  lemma {:induction false} LastDeliveredCons(c: HttpConnection, cs: seq<HttpConnection>)
    ensures LastDelivered([c] + cs) == if LastDelivered(cs).Some? then LastDelivered(cs) else Delivered(c)
    decreases |cs|
  {
    var all := [c] + cs;
    if cs == [] {
      assert all[..|all| - 1] == [];
    } else {
      assert all[|all| - 1] == cs[|cs| - 1];
      assert all[..|all| - 1] == [c] + cs[..|cs| - 1];
      LastDeliveredCons(c, cs[..|cs| - 1]);
    }
  }

  /**
   * The room list is replaced wholesale by the last answer that decodes, and
   * is left as it was when no answer decodes; there is no merge.
   */
  lemma {:induction false} HandleMarketRooms(rooms: seq<PendingRoom>, conns: seq<HttpConnection>)
    ensures HandleMarket(rooms, conns).rooms == LastDelivered(conns).GetOr(rooms)
    decreases |conns|
  {
    if conns != [] {
      var t := MarketStep(rooms, conns[0]);
      HandleMarketRooms(t.rooms, conns[1..]);
      LastDeliveredCons(conns[0], conns[1..]);
      assert [conns[0]] + conns[1..] == conns;
    }
  }

  /** Exactly the `room_market` connections that failed or closed are despawned. */
  lemma {:induction false} HandleMarketDespawned(rooms: seq<PendingRoom>, conns: seq<HttpConnection>, e: Entity)
    ensures e in HandleMarket(rooms, conns).despawned <==>
      exists i :: 0 <= i < |conns| && Despawns(conns[i]) && conns[i].entity == e
    decreases |conns|
  {
    if conns != [] {
      var t := MarketStep(rooms, conns[0]);
      HandleMarketDespawned(t.rooms, conns[1..], e);
      if exists i :: 0 <= i < |conns| && Despawns(conns[i]) && conns[i].entity == e {
        var i :| 0 <= i < |conns| && Despawns(conns[i]) && conns[i].entity == e;
        if i > 0 {
          assert conns[1..][i - 1] == conns[i];
        }
      }
      if exists i :: 0 <= i < |conns[1..]| && Despawns(conns[1..][i]) && conns[1..][i].entity == e {
        var i :| 0 <= i < |conns[1..]| && Despawns(conns[1..][i]) && conns[1..][i].entity == e;
        assert conns[i + 1] == conns[1..][i];
      }
    }
  }

  /** Connections tagged with another method are untouched and change nothing. */
  lemma {:induction false} HandleMarketIgnoresOtherTags(rooms: seq<PendingRoom>, conns: seq<HttpConnection>)
    requires forall i :: 0 <= i < |conns| ==> conns[i].tag != ROOM_MARKET
    ensures HandleMarket(rooms, conns) == MarketTick(rooms, [])
    decreases |conns|
  {
    if conns != [] {
      assert conns[0].tag != ROOM_MARKET;
      HandleMarketIgnoresOtherTags(rooms, conns[1..]);
    }
  }

  /** A market answer `[{"room":5,"players":["0x01"]}]` becomes the whole room list. */
  lemma MarketAnswerExample(rooms: seq<PendingRoom>, e: Entity)
    ensures HandleMarket(rooms, [HttpConnection(e, ROOM_MARKET, Got(Success(
              Json.Array([Json.Object(map["room" := Json.Number(5), "players" := Json.Array([Json.Str("0x01")])])]))))])
            == MarketTick([PendingRoom(5, ["0x01"], None, None)], [])
  {
    var entry := Json.Object(map["room" := Json.Number(5), "players" := Json.Array([Json.Str("0x01")])]);
    var names := DecodeStrings(Json.Array([Json.Str("0x01")]));
    assert names.Some? && |names.value| == 1 && names.value[0] == "0x01";
    assert names.value == ["0x01"];
    assert DecodeRoom(entry) == Some(PendingRoom(5, ["0x01"], None, None));
    var decoded := DecodeAll([entry]);
    DecodeAllElementwise([entry]);
    assert decoded.Some? && decoded.value[0] == PendingRoom(5, ["0x01"], None, None);
    assert decoded.value == [PendingRoom(5, ["0x01"], None, None)];
  }

  // ---------------------------------------------------------------------------
  // handle_room_status
  // ---------------------------------------------------------------------------

  /** The effect of one tick of the status handler: the session state and the wallet calls made. */
  datatype StatusTick = StatusTick(waiting: Option<PendingRoom>, calls: seq<Call>)

  /** The source indexes `infos[0]`, `infos[2]` of a `roomInfo` answer and `infos[1]` of a `sequencers` answer. */
  predicate WellFormedAnswer(recv: WalletRecv) {
    recv.Got? ==>
      (recv.value.0 == ROOM_INFO ==> |recv.value.1| >= 3) &&
      (recv.value.0 == SEQUENCERS ==> |recv.value.1| >= 2)
  }

  /** The sequencer address of a `roomInfo` answer; a token that is not an address reads as zero. */
  function SequencerOf(infos: seq<Token>): H160
    requires |infos| >= 3
  {
    IntoAddress(infos[2]).GetOr(ZERO_ADDRESS)
  }

  /** A `roomInfo` answer that names a non-zero sequencer. */
  predicate AssignsSequencer(recv: WalletRecv) {
    recv.Got? && recv.value.0 == ROOM_INFO && |recv.value.1| >= 3 && SequencerOf(recv.value.1) != ZERO_ADDRESS
  }

  /** The `sequencers` call issued for a resolved sequencer address. */
  predicate IsSequencersCall(c: Call, contract: Contract) {
    c.WalletCall? && c.to == contract.address && c.name == SEQUENCERS &&
    |c.args| == 1 && c.args[0].Address? && c.args[0].addr != ZERO_ADDRESS
  }

  /** Each player token as a peer-id hex string, in order; a non-address token reads as the zero address. */
  function PlayersHex(tokens: seq<Token>, toHex: H160 -> string): (players: seq<string>)
    ensures |players| == |tokens|
    ensures forall i :: 0 <= i < |tokens| ==> players[i] == toHex(IntoAddress(tokens[i]).GetOr(ZERO_ADDRESS))
  {
    if tokens == [] then []
    else [toHex(IntoAddress(tokens[0]).GetOr(ZERO_ADDRESS))] + PlayersHex(tokens[1..], toHex)
  }

  /**
   * One tick of the two-phase resolver.  A `roomInfo` answer with a non-zero
   * sequencer records the players and the sequencer and calls `sequencers`
   * once; a `sequencers` answer records the reachable address.
   */
  function StatusStep(waiting: Option<PendingRoom>, contract: Contract, recv: WalletRecv,
                      toHex: H160 -> string): (t: StatusTick)
    requires waiting.Some? ==> WellFormedAnswer(recv)
    ensures waiting.None? ==> t == StatusTick(None, [])
    ensures t.waiting.Some? <==> waiting.Some?
    ensures waiting.Some? ==> t.waiting.value.room == waiting.value.room
    ensures t.calls != [] <==> waiting.Some? && AssignsSequencer(recv)
    ensures |t.calls| <= 1 && forall c :: c in t.calls ==> IsSequencersCall(c, contract)
    ensures waiting.Some? && t.waiting.value.sequencer != waiting.value.sequencer ==> AssignsSequencer(recv)
    ensures waiting.Some? && waiting.value.sequencer.Some? ==> t.waiting.value.sequencer.Some?
    ensures waiting.Some? && waiting.value.websocket.Some? ==> t.waiting.value.websocket.Some?
  {
    if waiting.None? then StatusTick(waiting, [])
    else match recv
      case Got((name, infos)) =>
        if name == ROOM_INFO then
          var players := PlayersHex(IntoArray(infos[0]).GetOr([]), toHex);
          var sequencer := SequencerOf(infos);
          if sequencer != ZERO_ADDRESS then
            StatusTick(Some(waiting.value.(players := players, sequencer := Some(toHex(sequencer)))),
                       [WalletCall(contract.address, SEQUENCERS, [Address(sequencer)])])
          else StatusTick(waiting, [])
        else if name == SEQUENCERS then
          StatusTick(Some(waiting.value.(websocket := Some(IntoString(infos[1]).GetOr("")))), [])
        else StatusTick(waiting, [])
      case Empty => StatusTick(waiting, [])
      case Closed => StatusTick(waiting, [])
  }

  /** An unassigned room (zero or non-address sequencer) changes nothing and calls nothing. */
  lemma RoomInfoUnassigned(w: PendingRoom, contract: Contract, infos: seq<Token>, toHex: H160 -> string)
    requires |infos| >= 3 && SequencerOf(infos) == ZERO_ADDRESS
    ensures StatusStep(Some(w), contract, Got((ROOM_INFO, infos)), toHex) == StatusTick(Some(w), [])
  {
  }

  /**
   * A non-zero sequencer records the players' hex ids (same length and order)
   * and the sequencer's, keeps the room and the address, and issues exactly
   * one `sequencers` call carrying that address.
   */
  lemma RoomInfoAssigned(w: PendingRoom, contract: Contract, infos: seq<Token>, toHex: H160 -> string)
    requires |infos| >= 3 && SequencerOf(infos) != ZERO_ADDRESS
    ensures var t := StatusStep(Some(w), contract, Got((ROOM_INFO, infos)), toHex);
      && t.waiting.Some?
      && t.waiting.value.room == w.room
      && t.waiting.value.websocket == w.websocket
      && t.waiting.value.sequencer == Some(toHex(SequencerOf(infos)))
      && (var tokens := IntoArray(infos[0]).GetOr([]);
          |t.waiting.value.players| == |tokens| &&
          forall i :: 0 <= i < |tokens| ==>
            t.waiting.value.players[i] == toHex(IntoAddress(tokens[i]).GetOr(ZERO_ADDRESS)))
      && t.calls == [WalletCall(contract.address, SEQUENCERS, [Address(SequencerOf(infos))])]
  {
  }

  /** A `sequencers` answer records `infos[1]` if it is a string, else the empty string, and nothing else. */
  lemma SequencersAnswer(w: PendingRoom, contract: Contract, infos: seq<Token>, toHex: H160 -> string)
    requires |infos| >= 2
    ensures StatusStep(Some(w), contract, Got((SEQUENCERS, infos)), toHex)
         == StatusTick(Some(w.(websocket := Some(if infos[1].String? then infos[1].s else ""))), [])
  {
  }

  /** Unknown method tags, no data yet and a closed channel change nothing. */
  lemma StatusIgnored(w: PendingRoom, contract: Contract, recv: WalletRecv, toHex: H160 -> string)
    requires recv.Got? ==> recv.value.0 != ROOM_INFO && recv.value.0 != SEQUENCERS
    ensures StatusStep(Some(w), contract, recv, toHex) == StatusTick(Some(w), [])
  {
  }

  /** The resolver over a sequence of ticks. */
  function RunStatus(waiting: Option<PendingRoom>, contract: Contract, recvs: seq<WalletRecv>,
                     toHex: H160 -> string): StatusTick
    requires waiting.Some? ==> forall i :: 0 <= i < |recvs| ==> WellFormedAnswer(recvs[i])
    decreases |recvs|
  {
    if recvs == [] then StatusTick(waiting, [])
    else
      var t := StatusStep(waiting, contract, recvs[0], toHex);
      var rest := RunStatus(t.waiting, contract, recvs[1..], toHex);
      StatusTick(rest.waiting, t.calls + rest.calls)
  }

  /**
   * Over any run the session keeps its room, never loses a resolved
   * sequencer or address, changes its sequencer only if some `roomInfo`
   * answer named a non-zero one, and issues only `sequencers` calls, one per
   * such answer.
   */
  lemma {:induction false} ResolutionProgress(w: PendingRoom, contract: Contract, recvs: seq<WalletRecv>,
                                              toHex: H160 -> string)
    requires forall i :: 0 <= i < |recvs| ==> WellFormedAnswer(recvs[i])
    ensures var t := RunStatus(Some(w), contract, recvs, toHex);
      && t.waiting.Some?
      && t.waiting.value.room == w.room
      && (w.sequencer.Some? ==> t.waiting.value.sequencer.Some?)
      && (w.websocket.Some? ==> t.waiting.value.websocket.Some?)
      && (t.waiting.value.sequencer != w.sequencer ==>
            exists i :: 0 <= i < |recvs| && AssignsSequencer(recvs[i]))
      && (forall c :: c in t.calls ==> IsSequencersCall(c, contract))
      && (t.calls == [] <==> forall i :: 0 <= i < |recvs| ==> !AssignsSequencer(recvs[i]))
    decreases |recvs|
  {
    if recvs != [] {
      var s := StatusStep(Some(w), contract, recvs[0], toHex);
      assert forall i :: 0 <= i < |recvs[1..]| ==> recvs[1..][i] == recvs[i + 1];
      ResolutionProgress(s.waiting.value, contract, recvs[1..], toHex);
      var t := RunStatus(Some(w), contract, recvs, toHex);
      if t.waiting.value.sequencer != w.sequencer {
        if s.waiting.value.sequencer != w.sequencer {
          assert AssignsSequencer(recvs[0]);
        } else {
          var i :| 0 <= i < |recvs[1..]| && AssignsSequencer(recvs[1..][i]);
          assert AssignsSequencer(recvs[i + 1]);
        }
      }
    }
  }
}
