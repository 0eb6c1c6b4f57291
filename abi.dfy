/**
 * Decoded Ethereum ABI tokens, as the contract decoder hands them to the
 * room-status handler, and the three accessors the handler uses on them.
 * Encoding and decoding bytes is not part of this model.
 */
module Abi {
  import opened Wrappers

  /** A 20-byte Ethereum address. */
  type H160 = bv160

  const ZERO_ADDRESS: H160 := 0

  datatype Token =
    | Address(addr: H160)
    | FixedBytes(fixedBytes: seq<bv8>)
    | Bytes(bytes: seq<bv8>)
    | Int(int256: nat)
    | Uint(uint256: nat)
    | Bool(b: bool)
    | String(s: string)
    | FixedArray(fixedItems: seq<Token>)
    | Array(items: seq<Token>)
    | Tuple(members: seq<Token>)

  /** `Token::into_address`. */
  function IntoAddress(t: Token): Option<H160> {
    if t.Address? then Some(t.addr) else None
  }

  /** `Token::into_array`: both the fixed-size and the dynamic array yield their elements. */
  function IntoArray(t: Token): Option<seq<Token>> {
    match t
    case FixedArray(ts) => Some(ts)
    case Array(ts) => Some(ts)
    case _ => None
  }

  /** `Token::into_string`. */
  function IntoString(t: Token): Option<string> {
    if t.String? then Some(t.s) else None
  }
}
