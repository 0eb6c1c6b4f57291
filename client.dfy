/**
 * The `RoomMarket` resource and the four per-tick systems that act on it.
 * Each system is a method: it reads or updates the fields in place and
 * returns the calls it makes (HTTP JSON-RPC requests, wallet contract calls)
 * and the entities it despawns.  Each is proved against the step functions
 * of module Rooms, where the protocol's properties are proved.
 */
module Client {
  import opened Wrappers
  import Json
  import opened Abi
  import opened Rooms

  class RoomMarket {
    var contract: Contract
    var url: string
    var game: string
    var rooms: seq<PendingRoom>
    var waiting: Option<PendingRoom>

    /** `RoomMarket::default()`, the resource the plugin inserts. */
    constructor ()
      ensures contract == Contract(ZERO_ADDRESS, false)
      ensures url == "" && game == "" && rooms == [] && waiting == None
    {
      contract := Contract(ZERO_ADDRESS, false);
      url, game := "", "";
      rooms, waiting := [], None;
    }

    /**
     * `fetch_room_market`: with both the market URL and the game configured,
     * one `room_market` request to the URL in group 4 with params `[game]`
     * and the zero address as `peer`; otherwise nothing.
     */
    method FetchRoomMarket() returns (calls: seq<Call>)
      ensures calls != [] <==> url != "" && game != ""
      ensures calls != [] ==> calls == [JsonRpc(url, ROOM_MARKET, INIT_ROOM_MARKET_GROUP,
                                                 Json.Array([Json.Str(game)]),
                                                 [("peer", Json.Str(ZERO_PEER_HEX))])]
    {
      calls := [];
      if url != "" && game != "" {
        calls := [JsonRpc(url, ROOM_MARKET, INIT_ROOM_MARKET_GROUP,
                          Json.Array([Json.Str(game)]), [("peer", Json.Str(ZERO_PEER_HEX))])];
      }
    }

    /**
     * `handle_room_market`: for each connection in turn, a `room_market`
     * answer that decodes replaces the room list, an error or a closed
     * channel despawns the connection, and everything else is left alone.
     */
    method HandleRoomMarket(connections: seq<HttpConnection>) returns (despawned: seq<Entity>)
      modifies this`rooms
      ensures MarketTick(rooms, despawned) == HandleMarket(old(rooms), connections)
    {
      despawned := [];
      var i := 0;
      while i < |connections|
        invariant 0 <= i <= |connections|
        invariant HandleMarket(old(rooms), connections)
               == MarketTick(HandleMarket(rooms, connections[i..]).rooms,
                             despawned + HandleMarket(rooms, connections[i..]).despawned)
      {
        ghost var before := rooms;
        var dropped := HandleConnection(connections[i]);
        HandleMarketFrom(before, connections, i);
        despawned := despawned + dropped;
        i := i + 1;
      }
    }

    /** The body of the `handle_room_market` loop for one connection; returns the entities it despawns. */
    method HandleConnection(connection: HttpConnection) returns (dropped: seq<Entity>)
      modifies this`rooms
      ensures MarketTick(rooms, dropped) == MarketStep(old(rooms), connection)
    {
      dropped := [];
      if connection.tag == ROOM_MARKET {
        match connection.recv {
          case Got(Success(value)) =>
            var decoded := DecodeRooms(value);
            if decoded.Some? {
              rooms := decoded.value;
            }
          case Got(Failure(_)) =>
            dropped := [connection.entity];
          case Empty =>
          case Closed =>
            dropped := [connection.entity];
        }
      }
    }

    /**
     * `fetch_room_status`: while a room is waiting, every timer that fires
     * asks the contract for `roomInfo(room)`.  An unbound contract ends the
     * system at the first firing timer, so the timers after it are not
     * ticked; `ticked` counts the timers that were.
     */
    method FetchRoomStatus(fired: seq<bool>) returns (calls: seq<Call>, ticked: nat)
      ensures waiting.None? ==> calls == [] && ticked == 0
      ensures contract.IsEmpty() ==> calls == []
      ensures waiting.Some? && !contract.IsEmpty() ==>
        ticked == |fired| && |calls| == multiset(fired)[true] &&
        forall c :: c in calls ==> c == WalletCall(contract.address, ROOM_INFO, [Uint(waiting.value.room)])
      ensures waiting.Some? && contract.IsEmpty() ==>
        ticked <= |fired| && forall j :: 0 <= j < ticked - 1 ==> !fired[j]
      ensures waiting.Some? && contract.IsEmpty() ==>
        if true in fired then 0 < ticked && fired[ticked - 1] else ticked == |fired|
    {
      calls, ticked := [], 0;
      if waiting.Some? {
        var i := 0;
        while i < |fired|
          invariant 0 <= i <= |fired| && ticked == i
          invariant forall c :: c in calls ==> c == WalletCall(contract.address, ROOM_INFO, [Uint(waiting.value.room)])
          invariant contract.IsEmpty() ==> calls == [] && forall j :: 0 <= j < i ==> !fired[j]
          invariant !contract.IsEmpty() ==> |calls| == multiset(fired[..i])[true]
        {
          assert fired[..i + 1] == fired[..i] + [fired[i]];
          ticked := ticked + 1;
          if fired[i] {
            var roomId := waiting.value.room;
            if contract.IsEmpty() {
              return;
            }
            calls := calls + [WalletCall(contract.address, ROOM_INFO, [Uint(roomId)])];
          }
          i := i + 1;
        }
        assert fired[..i] == fired;
      }
    }

    /**
     * `handle_room_status`: while a room is waiting, apply the wallet's
     * answer to it in place and return the contract call it triggers.
     */
    method HandleRoomStatus(recv: WalletRecv, toHex: H160 -> string) returns (calls: seq<Call>)
      requires waiting.Some? ==> WellFormedAnswer(recv)
      modifies this`waiting
      ensures StatusTick(waiting, calls) == StatusStep(old(waiting), contract, recv, toHex)
    {
      calls := [];
      if waiting.Some? {
        match recv {
          case Got((name, infos)) =>
            if name == ROOM_INFO {
              var players := PlayersHex(IntoArray(infos[0]).GetOr([]), toHex);
              var sequencer := IntoAddress(infos[2]).GetOr(ZERO_ADDRESS);
              if sequencer != ZERO_ADDRESS {
                var sequencerHex := toHex(sequencer);
                var room := waiting.value;
                room := room.(players := players);
                room := room.(sequencer := Some(sequencerHex));
                waiting := Some(room);
                calls := calls + [WalletCall(contract.address, SEQUENCERS, [Address(sequencer)])];
              }
            } else if name == SEQUENCERS {
              var ws := IntoString(infos[1]).GetOr("");
              waiting := Some(waiting.value.(websocket := Some(ws)));
            }
          case Empty =>
          case Closed =>
        }
      }
    }
  }
}
