/**
 * The message envelope: the `connect` request a client sends first on a
 * session socket, and the response envelope it reads back.
 *
 * Two collaborators are not visible and are taken as parameters:
 * `rpc`, the generic JSON-RPC request constructor (`rpc_request`), and
 * `toHex`, the hex rendering of a peer id (`PeerId::to_hex`).  A peer id is
 * 20 bytes, the same width as an address.
 */
module Envelope {
  import opened Wrappers
  import opened Json
  import Abi

  type RoomId = U64

  /** `rpc_request(id, method, params, gid)`. */
  type RpcRequest = (U64, string, seq<Value>, RoomId) -> Value

  /** What `parse_response` extracts: the group id, the method name and the result array. */
  datatype Response = Response(gid: RoomId, name: string, result: seq<Value>)

  /** What `ws_connect` asks the socket client to do: open `url`, then send `initial` first. */
  datatype WsOpen = WsOpen(url: string, initial: Option<Value>)

  const INVALID: string := "Invalid"

  /**
   * `build_request`: the request object from `rpc(0, name, params, room)`
   * with the `peer` entry set to the hex of the sender's peer id.
   * The source unwraps `as_object_mut`, so `rpc` must produce an object.
   */
  function BuildRequest(name: string, params: seq<Value>, peer: Abi.H160, room: RoomId,
                        rpc: RpcRequest, toHex: Abi.H160 -> string): (msg: Value)
    requires rpc(0, name, params, room).Object?
    ensures msg.Object?
    ensures msg.fields.Keys == rpc(0, name, params, room).fields.Keys + {"peer"}
    ensures msg.fields["peer"] == Str(toHex(peer))
    ensures forall k :: k in msg.fields && k != "peer" ==> msg.fields[k] == rpc(0, name, params, room).fields[k]
  {
    var request := rpc(0, name, params, room);
    Object(request.fields["peer" := Str(toHex(peer))])
  }

  /** The source's `parse_response` unwraps `result` as an array whenever the key is present. */
  predicate ResultIsArray(parsed: Option<Value>) {
    parsed.Some? && Get(parsed.value, "result").Some? ==> Get(parsed.value, "result").value.Array?
  }

  /**
   * `parse_response` on the outcome of parsing the message text as JSON
   * (`None` when the text is not JSON).  It succeeds exactly when the value
   * has a `result` entry; `gid` falls back to 0 and `method` to the empty
   * string when missing or of the wrong type.  Every failure is "Invalid".
   */
  function ParseResponse(parsed: Option<Value>): (r: Result<Response, string>)
    requires ResultIsArray(parsed)
    ensures r.Success? <==> parsed.Some? && parsed.value.Object? && "result" in parsed.value.fields
    ensures r.Failure? ==> r.error == INVALID
    ensures r.Success? ==> r.value.result == parsed.value.fields["result"].items
    ensures r.Success? ==>
      (if "gid" in parsed.value.fields && parsed.value.fields["gid"].Number? && 0 <= parsed.value.fields["gid"].n < U64_LIMIT
       then r.value.gid == parsed.value.fields["gid"].n else r.value.gid == 0)
    ensures r.Success? ==>
      (if "method" in parsed.value.fields && parsed.value.fields["method"].Str?
       then r.value.name == parsed.value.fields["method"].s else r.value.name == "")
  {
    match parsed
    case None => Failure(INVALID)
    case Some(values) =>
      if Get(values, "result").Some? then
        var gid := AsU64(Index(values, "gid")).GetOr(0);
        var name := AsStr(Index(values, "method")).GetOr("");
        var tmp := Index(values, "result").items;
        Success(Response(gid, name, tmp))
      else
        Failure(INVALID)
  }

  /** `ws::ws_connect` and `wasm::ws_connect`: open `url` with a `connect` request as the first frame. */
  function WsConnect(url: string, peer: Abi.H160, room: RoomId,
                     rpc: RpcRequest, toHex: Abi.H160 -> string): (c: WsOpen)
    requires rpc(0, "connect", [], room).Object?
    ensures c.url == url && c.initial.Some?
    ensures c.initial.value == BuildRequest("connect", [], peer, room, rpc, toHex)
    ensures c.initial.value.Object? && c.initial.value.fields["peer"] == Str(toHex(peer))
  {
    WsOpen(url, Some(BuildRequest("connect", [], peer, room, rpc, toHex)))
  }

  /** A response envelope as the session server writes it: `{"gid", "method", "result"}`. */
  function ResponseEnvelope(resp: Response): Value {
    Object(map["gid" := Number(resp.gid), "method" := Str(resp.name), "result" := Array(resp.result)])
  }

  /** Parsing a well-formed response envelope gives back exactly its group, method and result. */
  lemma ParseResponseEnvelope(resp: Response)
    ensures ResultIsArray(Some(ResponseEnvelope(resp)))
    ensures ParseResponse(Some(ResponseEnvelope(resp))) == Success(resp)
  {
  }

  /**
   * There is no request/response round trip: a request is built without a
   * `result` entry unless `rpc` supplies one, so `parse_response` rejects it.
   */
  lemma BuiltRequestIsNotAResponse(name: string, params: seq<Value>, peer: Abi.H160, room: RoomId,
                                   rpc: RpcRequest, toHex: Abi.H160 -> string)
    requires rpc(0, name, params, room).Object?
    requires "result" !in rpc(0, name, params, room).fields
    ensures ResultIsArray(Some(BuildRequest(name, params, peer, room, rpc, toHex)))
    ensures ParseResponse(Some(BuildRequest(name, params, peer, room, rpc, toHex))) == Failure(INVALID)
  {
  }

  /** Text that is not JSON, or JSON without `result` such as `{"gid":7,"method":"roomInfo"}`, is "Invalid". */
  lemma ParseResponseRejects()
    ensures ParseResponse(None) == Failure(INVALID)
    ensures ParseResponse(Some(Object(map["gid" := Number(7), "method" := Str("roomInfo")]))) == Failure(INVALID)
  {
  }
}
