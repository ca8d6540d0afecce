# did-whisper in Dafny

did-whisper encrypts a message for the owner of a DID (decentralized
identifier) without any prior key exchange. It looks up the owner's DID
document and takes the Ed25519 key of the document's first authentication
entry. It converts that key to a Curve25519 box key pair with libsodium and
seals the message in an anonymous sealed box. The recipient opens the box
with the same conversion applied to the private key in their own, locally
held copy of the document.

This project models the bookkeeping in `lib/index.js` around those
library calls:

- the sizes of the buffers handed to libsodium;
- which key of the document is selected;
- how the DID client's `(error, result)` reply is classified;
- how the lookup options are merged with the local defaults;
- how the envelope `{expiration, keyId, cipher}` is assembled.

The cryptography stays abstract.

Modules:

- `Wrappers`: `Option` and `Result`. A `Failure` stands for a thrown
  exception or a rejected promise.
- `Js`: the JavaScript semantics the code relies on. It covers truthiness
  (`!doc`, `!result.found`) and property reads that throw a TypeError on
  `null`/`undefined` (`doc.authentication[0].publicKey[0]`). It also covers
  object spread (`{location: 'local', mode: 'test', ...options}`). Objects
  keep their keys in insertion order.
- `Bytes`: the byte type that `Buffer` contents are made of.
- `Sodium`: the four sodium-native calls. Each one is an opaque function
  value in a `Primitives` record. The type `Sodium` keeps only the records
  whose outputs have the sizes libsodium promises; nothing else about the
  cryptography is assumed. The fill methods write into a buffer the caller
  allocated. Their `requires` is sodium-native's demand on the buffer size,
  so verifying the callers proves that `lib/index.js` sizes every buffer
  correctly.
- `Encoding`: the UTF-8 `Buffer` conversions and bs58, as opaque functions.
- `DidWhisper`: the operations of `lib/index.js`. Where the source fills
  buffers in place (`encryptMessage`, `decryptMessage`, `cipherKeysFor`), the
  model is a method over arrays. Each such method is specified by a function
  of its inputs. `DerivedKeys` specifies `CipherKeysFor`, and
  `DerivedKeysForDid` specifies `CipherKeysForDid`.

Parameters stand in for what the model cannot see:

- `client`: the DID client's answer for the options it is sent (network).
- `sodium`: libsodium.
- `codecs`: Buffer and bs58.
- `randomness`: the randomness libsodium draws internally for the ephemeral
  key of a sealed box.

Behaviour of the code that is easy to miss:

- `authKeysFor` always reads `privateKey.privateKeyBase58`. So
  `encryptForDid` fails with a TypeError for a recipient document that has
  no private key, although sealing needs only the public key.
- Both `encryptForDid` and `decryptForDid` look the document up with the
  local defaults `location: 'local'`, `mode: 'test'`.
- `decryptMessage` never reports a box that fails to verify. It returns
  whatever string the buffer holds.
- `encryptForDid` returns `expiration` exactly as given: `expiration` is
  passed through without conversion.
- Nothing derives a DID from a key id.

## Model

| member | source | states |
|---|---|---|
| `DidWhisper.GetDidDoc` | lib/index.js:147-166 | classifies the client's reply to the options with ClassifyReply: rejects exactly when the reply's `error` is truthy, with that error, and otherwise resolves to `null` or to `result.doc`. `callback` and `veres` are under Left out. |
| `DidWhisper.ClassifyReply` | lib/index.js:153-163 | rejects exactly when `error` is truthy, with that error. A falsy `result`, or one whose `found` is falsy, resolves to `null`. Otherwise it resolves to `result.doc`. Reading `found`/`doc` never throws. |
| `DidWhisper.LocalOptions` | lib/index.js:132-134 | `location` is `'local'` and `mode` is `'test'` only when the caller's options lack that own key; a key present with value `undefined` still overrides. Every other key reads as in the caller's options. `location`, `mode` come first (in insertion order, see Left out) and keys stay unique. |
| `DidWhisper.GetLocalDidDoc` | lib/index.js:132-134 | getDidDoc of the options merged over the local defaults: rejects exactly when the reply to the merged options has a truthy `error`, and otherwise resolves to `null` or to that reply's `result.doc` |
| `DidWhisper.DidOptions` | lib/index.js:132-134 | for `cipherKeysForDid({did})` (lines 17 and 50) the client is sent exactly `{location: 'local', mode: 'test', did}`, in this order |
| `DidWhisper.AuthKeysFor` | lib/index.js:112-120 | reads only `doc.authentication[0].publicKey[0]`. `keyId` is that key's `id` unchanged. The public key is the bs58 decoding of `publicKeyBase58`, the secret key that of `privateKey.privateKeyBase58`. It fails with TypeError when one of these paths hits null/undefined and with Base58Error when a decode throws, checked in source order. |
| `DidWhisper.DerivedKeys` | lib/index.js:86-105 | propagates authKeysFor's error. It succeeds exactly when both conversions succeed. The `keyId` is authKeysFor's, unchanged. The public key has `crypto_box_PUBLICKEYBYTES` (32) bytes and is the converted Ed25519 public key; the secret key has `crypto_box_SECRETKEYBYTES` (32) bytes. |
| `DidWhisper.CipherKeysFor` | lib/index.js:86-105 | converting into freshly allocated 32-byte buffers yields exactly `DerivedKeys(doc)` |
| `DidWhisper.DerivedKeysForDid` | lib/index.js:70-78 | a rejected lookup propagates. The result is `null` exactly when the fetched document is falsy; otherwise it is `cipherKeysFor(doc)`. |
| `DidWhisper.CipherKeysForDid` | lib/index.js:70-78 | returns exactly `DerivedKeysForDid(options)` |
| `DidWhisper.CipherLength` | lib/index.js:31 | the cipher buffer is `crypto_box_SEALBYTES` longer than the message. The size `decryptMessage` computes back from it is the message's byte length. |
| `DidWhisper.PlaintextLength` | lib/index.js:56 | the plaintext buffer is `crypto_box_SEALBYTES` shorter than the cipher. A cipher shorter than that makes `new Buffer` throw a RangeError. |
| `DidWhisper.EncryptMessage` | lib/index.js:29-35 | the buffer returned has exactly the message's UTF-8 byte length plus `crypto_box_SEALBYTES` and holds the sealed box. It is a freshly allocated buffer. `null` keys fail with TypeError; a throwing seal fails with SodiumError. |
| `DidWhisper.DecryptMessage` | lib/index.js:55-61 | a short cipher fails with RangeError before the keys are touched. `null` keys fail with TypeError. Only a throwing open fails. An opened box yields the UTF-8 decoding of its plaintext. An unverified box is not reported as an error. |
| `DidWhisper.EncryptForDid` | lib/index.js:16-21 | the envelope holds `expiration` unchanged, the `keyId` of the derived keys, and the base58 text of the sealed message under the derived public key. Lookup errors propagate, and `null` keys fail with TypeError. |
| `DidWhisper.DecryptForDid` | lib/index.js:49-53 | opens the cipher with the keys derived for the DID, with decryptMessage's error order (lookup, RangeError, TypeError for `null` keys, SodiumError). Once keys are derived and the cipher is long enough, it fails exactly when the open throws, so a box that does not verify still yields a string. |
| `DidWhisper.SealedMessageRoundTrip` | lib/index.js:29-61 | if libsodium opens what it sealed for the key pair and the message survives UTF-8, then decryptMessage of encryptMessage's output yields the message. A throwing seal is the only failure. |
| `DidWhisper.WhisperRoundTrip` | lib/index.js:16-53 | with the same client answer for both lookups, decryptForDid recovers the message from encryptForDid's envelope. The envelope exists exactly when keys are derived and sealing succeeds, and its expiration is the argument. |
| `Js.LookupSpread` | lib/index.js:133 | in `{...target, ...source}` every own key of source wins and every other key reads as in target |
| `Js.SpreadKeepsTargetKeys` | lib/index.js:133 | spreading keeps target's keys, in order, as a prefix of the result's keys (in insertion order, see Left out) |
| `Js.Get` | lib/index.js:113-118 | a property read `v.k` or `v[i]` throws a TypeError exactly when `v` is `null` or `undefined` |
| `Js.PathAppend` | lib/index.js:113 | reading a chained path equals reading the first part and then the rest, with a TypeError anywhere ending the chain |
| `Sodium.BoxSeal` | lib/index.js:32 | for a cipher buffer of message length + `crypto_box_SEALBYTES`, it succeeds exactly when the native seal does, and the buffer then holds the sealed box |
| `Sodium.BoxSealOpen` | lib/index.js:57-58 | for a message buffer of cipher length − `crypto_box_SEALBYTES`, it reports throwing and verifying as the native call does. When the box verified, the buffer holds its plaintext; otherwise nothing is said about the buffer. |
| `Sodium.PkToCurve25519` | lib/index.js:94-95 | for a 32-byte output buffer, it holds the converted public key when the native conversion succeeds |
| `Sodium.SkToCurve25519` | lib/index.js:97-98 | for a 32-byte output buffer, it holds the converted secret key when the native conversion succeeds |

## Left out

- sodium-native internals: sealing, opening and the Ed25519 to Curve25519 conversion (section 4.1 of RFC 7748) are foreign code. The model fixes only their output sizes. Which inputs make them throw, and what a failed open writes, are not modelled.
- bs58 and UTF-8: `bs58.encode`/`bs58.decode`, `new Buffer(string)` and `buffer.toString()` are foreign code, kept opaque. Which inputs bs58 rejects is not modelled, and neither is the replacement of lone surrogates by UTF-8.
- `saveMessage` (lib/index.js:37-40): an HTTP POST through axios, which is I/O.
- getDidDoc's client: the default to the `veres` client when `options.client` is missing is not modelled, and neither is the extra `callback` property sent to `client.info`. The Promise wrapping is not modelled either. The client is a function from the options sent to the `(error, result)` reply.
- Asynchrony: each await is a sequential call, and nothing else about it is modelled.
- JavaScript values: numbers are integers, so NaN and fractions are not modelled. Reading a named property of a primitive or an array gives `undefined` in the model (a string's `length`, say). Reading an index of a string gives `undefined` in the model, where JavaScript returns the character. Reading an index of a non-array object gives `undefined` too.
- Js.Spread: array-index keys (`"0"`, `"1"`, ...) keep plain insertion order in the model, where JavaScript lists them first, in ascending order. Lookups are not affected, only the order of keys.
- DidWhisper.LocalOptions: its claim that `location` and `mode` are the first keys does not hold in JavaScript for options with an array-index key, which JavaScript lists before them; the client is then sent the keys in a different order than the model says.
- Js.SpreadKeepsTargetKeys: target's keys are a prefix of the result only in the model's insertion order; in JavaScript an array-index key of source comes before them.
- Arguments of the wrong JavaScript type are not modelled. `message` is a string and `cipher` is a byte sequence; the source would accept any value, and `new Buffer(5)`, for one, allocates five bytes.
- Buffers returned by the key conversion are modelled by their contents. Nothing writes to them afterwards, so aliasing does not arise.
- `new Buffer(n)` with n < 0 is modelled as a RangeError, as current Node.js versions throw.
- The code does not convert expiration values, derive a DID from a key id, treat the secret key as optional or select a key by its id, so the model does none of these either.
