/**
 * The text codecs did-whisper calls, kept abstract: Node's UTF-8
 * `Buffer` conversions and the bs58 package.
 */
module Encoding {
  import opened Wrappers
  import opened Bytes
  import Js

  datatype Codecs = Codecs(
    /** `new Buffer(string)` */
    utf8Encode: string -> seq<byte>,
    /** `buffer.toString()` */
    utf8Decode: seq<byte> -> string,
    /** `bs58.encode(buffer)` */
    base58Encode: seq<byte> -> string,
    /** `bs58.decode(value)`; None where it throws */
    base58Decode: Js.Value -> Option<seq<byte>>)
}
