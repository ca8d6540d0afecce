/**
 * did-whisper: encrypt a message for the owner of a DID with an anonymous
 * sealed box, under the Curve25519 key converted from the Ed25519
 * authentication key of the owner's DID document, and decrypt it again.
 *
 * Everything here follows lib/index.js. The network (the DID client), the
 * native library (sodium-native) and the codecs (Buffer, bs58) are
 * parameters: `client`, `sodium`, `codecs`. A thrown exception or rejected
 * promise is a `Failure`.
 */
module DidWhisper {
  import opened Wrappers
  import opened Bytes
  import Js
  import opened Sodium
  import opened Encoding

  /** What an operation can throw or reject with. */
  datatype Error =
    | TypeError                 // a property read on null or undefined
    | RangeError                // `new Buffer(n)` with n < 0
    | Base58Error               // bs58.decode threw
    | SodiumError               // a sodium-native call threw
    | Rejected(reason: Js.Value) // the DID client reported an error

  /** `{keyId, publicKey, secretKey}`: Ed25519 keys from authKeysFor, Curve25519 keys from cipherKeysFor. */
  datatype KeyPair = KeyPair(keyId: Js.Value, publicKey: seq<byte>, secretKey: seq<byte>)

  /** `{expiration, keyId, cipher}`, the object encryptForDid resolves with. */
  datatype Envelope = Envelope(expiration: Js.Value, keyId: Js.Value, cipher: string)

  /** The `(error, result)` pair the DID client passes to its callback. */
  datatype FetchReply = FetchReply(error: Js.Value, result: Js.Value)

  /** The DID client's `info` call: the reply it gives for the options it is sent. */
  type Client = seq<Js.Property> -> FetchReply

  // ---------------------------------------------------------------------
  // Fetching the DID document

  /** The classification done by the callback of getDidDoc. */
  function ClassifyReply(reply: FetchReply): (r: Result<Js.Value, Error>)
    ensures r.Failure? <==> Js.Truthy(reply.error)
    ensures r.Failure? ==> r.error == Rejected(reply.error)
    ensures !Js.Truthy(reply.error) && !Js.Truthy(reply.result) ==> r == Success(Js.Null)
    ensures !Js.Truthy(reply.error) && Js.Truthy(reply.result) ==>
      var found := Js.Path(reply.result, [Js.Key("found")]);
      var doc := Js.Path(reply.result, [Js.Key("doc")]);
      found.Some? && doc.Some? &&
      r == if Js.Truthy(found.value) then Success(doc.value) else Success(Js.Null)
  {
    if Js.Truthy(reply.error) then Failure(Rejected(reply.error))
    else if !Js.Truthy(reply.result) || !Js.Truthy(Js.Get(reply.result, Js.Key("found")).value) then Success(Js.Null)
    else Success(Js.Get(reply.result, Js.Key("doc")).value)
  }

  /** getDidDoc: the client's reply to the options it is sent, classified. */
  function GetDidDoc(options: seq<Js.Property>, client: Client): (r: Result<Js.Value, Error>)
    ensures r.Failure? <==> Js.Truthy(client(options).error)
    ensures r.Failure? ==> r.error == Rejected(client(options).error)
    ensures r.Success? ==> r.value == Js.Null || Js.Path(client(options).result, [Js.Key("doc")]) == Some(r.value)
  {
    ClassifyReply(client(options))
  }

  /** The defaults of getLocalDidDoc. */
  const LocalDefaults: seq<Js.Property> :=
    [Js.Property("location", Js.Str("local")), Js.Property("mode", Js.Str("test"))]

  /** `{location: 'local', mode: 'test', ...options}` */
  function LocalOptions(options: seq<Js.Property>): (r: seq<Js.Property>)
    requires Js.Unique(options)
    ensures Js.Unique(r)
    ensures Js.Lookup(r, "location")
         == if "location" in Js.Keys(options) then Js.Lookup(options, "location") else Some(Js.Str("local"))
    ensures Js.Lookup(r, "mode")
         == if "mode" in Js.Keys(options) then Js.Lookup(options, "mode") else Some(Js.Str("test"))
    ensures forall k :: k != "location" && k != "mode" ==> Js.Lookup(r, k) == Js.Lookup(options, k)
    ensures ["location", "mode"] <= Js.Keys(r)
  {
    var r := Js.Spread(LocalDefaults, options);
    assert Js.Keys(LocalDefaults) == ["location", "mode"];
    Js.SpreadUnique(LocalDefaults, options);
    Js.SpreadKeepsTargetKeys(LocalDefaults, options);
    SpreadLookups(LocalDefaults, options);
    DefaultsLookups();
    r
  }

  lemma DefaultsLookups()
    ensures forall k :: k != "location" && k != "mode" ==> Js.Lookup(LocalDefaults, k) == None
  {
    assert Js.Keys(LocalDefaults) == ["location", "mode"];
    forall k | k != "location" && k != "mode" ensures Js.Lookup(LocalDefaults, k) == None {
      Js.LookupFound(LocalDefaults, k);
    }
  }

  lemma SpreadLookups(target: seq<Js.Property>, source: seq<Js.Property>)
    requires Js.Unique(source)
    ensures forall q :: Js.Lookup(Js.Spread(target, source), q)
                     == if q in Js.Keys(source) then Js.Lookup(source, q) else Js.Lookup(target, q)
    ensures forall q :: Js.Lookup(source, q).Some? <==> q in Js.Keys(source)
  {
    forall q
      ensures Js.Lookup(Js.Spread(target, source), q)
           == if q in Js.Keys(source) then Js.Lookup(source, q) else Js.Lookup(target, q)
      ensures Js.Lookup(source, q).Some? <==> q in Js.Keys(source)
    {
      Js.LookupSpread(target, source, q);
      Js.LookupFound(source, q);
    }
  }

  /** getLocalDidDoc: getDidDoc with the options merged over the local defaults. */
  function GetLocalDidDoc(options: seq<Js.Property>, client: Client): (r: Result<Js.Value, Error>)
    requires Js.Unique(options)
    ensures r.Failure? <==> Js.Truthy(client(LocalOptions(options)).error)
    ensures r.Failure? ==> r.error == Rejected(client(LocalOptions(options)).error)
    ensures r.Success? ==>
      r.value == Js.Null || Js.Path(client(LocalOptions(options)).result, [Js.Key("doc")]) == Some(r.value)
  {
    GetDidDoc(LocalOptions(options), client)
  }

  // ---------------------------------------------------------------------
  // Keys

  /** `doc.authentication[0].publicKey[0]` */
  const AuthKeyPath: seq<Js.Step> := [Js.Key("authentication"), Js.Index(0), Js.Key("publicKey"), Js.Index(0)]

  /** `authKey.privateKey.privateKeyBase58` */
  const PrivateKeyPath: seq<Js.Step> := [Js.Key("privateKey"), Js.Key("privateKeyBase58")]

  function Read(v: Js.Value, step: Js.Step): Result<Js.Value, Error> {
    match Js.Get(v, step)
    case None => Failure(TypeError)
    case Some(w) => Success(w)
  }

  function Decode58(v: Js.Value, codecs: Codecs): Result<seq<byte>, Error> {
    match codecs.base58Decode(v)
    case None => Failure(Base58Error)
    case Some(bytes) => Success(bytes)
  }

  function ReadPath(v: Js.Value, steps: seq<Js.Step>): Result<Js.Value, Error> {
    match Js.Path(v, steps)
    case None => Failure(TypeError)
    case Some(w) => Success(w)
  }

  /**
   * The Ed25519 key pair of the first key of the first authentication
   * entry of doc: its `id` unchanged, its `publicKeyBase58` and its
   * `privateKey.privateKeyBase58` decoded. The private key is always read,
   * so a document without one fails with a TypeError. No other part of doc
   * is read.
   */
  function AuthKeysFor(doc: Js.Value, codecs: Codecs): (r: Result<KeyPair, Error>)
    ensures
      var id := Js.Path(doc, AuthKeyPath + [Js.Key("id")]);
      var pub := Js.Path(doc, AuthKeyPath + [Js.Key("publicKeyBase58")]);
      var priv := Js.Path(doc, AuthKeyPath + PrivateKeyPath);
      && (pub.None? ==> r == Failure(TypeError))
      && (pub.Some? && codecs.base58Decode(pub.value).None? ==> r == Failure(Base58Error))
      && (pub.Some? && codecs.base58Decode(pub.value).Some? && priv.None? ==> r == Failure(TypeError))
      && ((pub.Some? && codecs.base58Decode(pub.value).Some? && priv.Some? && codecs.base58Decode(priv.value).None?)
          ==> r == Failure(Base58Error))
      && (r.Success? <==> pub.Some? && codecs.base58Decode(pub.value).Some? && priv.Some? && codecs.base58Decode(priv.value).Some?)
      && (r.Success? ==>
            && id == Some(r.value.keyId)
            && codecs.base58Decode(pub.value) == Some(r.value.publicKey)
            && codecs.base58Decode(priv.value) == Some(r.value.secretKey))
  {
    Js.PathAppend(doc, AuthKeyPath, [Js.Key("id")]);
    Js.PathAppend(doc, AuthKeyPath, [Js.Key("publicKeyBase58")]);
    Js.PathAppend(doc, AuthKeyPath, PrivateKeyPath);
    var authKey :- ReadPath(doc, AuthKeyPath);
    var keyId :- Read(authKey, Js.Key("id"));
    // authKey is neither null nor undefined from here on, so its reads cannot throw
    var publicKeyBase58 := Js.Get(authKey, Js.Key("publicKeyBase58")).value;
    var publicKey :- Decode58(publicKeyBase58, codecs);
    var privateKey := Js.Get(authKey, Js.Key("privateKey")).value;
    var privateKeyBase58 :- Read(privateKey, Js.Key("privateKeyBase58"));
    var secretKey :- Decode58(privateKeyBase58, codecs);
    Success(KeyPair(keyId, publicKey, secretKey))
  }

  /**
   * The Curve25519 key pair cipherKeysFor returns for doc, as a value: the
   * key id of authKeysFor carried over unchanged, and the two converted keys.
   */
  function DerivedKeys(doc: Js.Value, sodium: Sodium, codecs: Codecs): (r: Result<KeyPair, Error>)
    ensures AuthKeysFor(doc, codecs).Failure? ==> r == Failure(AuthKeysFor(doc, codecs).error)
    ensures AuthKeysFor(doc, codecs).Success? ==>
      var signing := AuthKeysFor(doc, codecs).value;
      && (r.Success? <==> sodium.pkToCurve25519(signing.publicKey).Some? && sodium.skToCurve25519(signing.secretKey).Some?)
      && (r.Failure? ==> r.error == SodiumError)
      && (r.Success? ==>
            && r.value.keyId == signing.keyId
            && Some(r.value.publicKey) == sodium.pkToCurve25519(signing.publicKey)
            && Some(r.value.secretKey) == sodium.skToCurve25519(signing.secretKey))
    ensures r.Success? ==> |r.value.publicKey| == BoxPublicKeyBytes && |r.value.secretKey| == BoxSecretKeyBytes
  {
    var signing :- AuthKeysFor(doc, codecs);
    match sodium.pkToCurve25519(signing.publicKey)
    case None => Failure(SodiumError)
    case Some(publicKey) =>
      match sodium.skToCurve25519(signing.secretKey)
      case None => Failure(SodiumError)
      case Some(secretKey) => Success(KeyPair(signing.keyId, publicKey, secretKey))
  }

  /** cipherKeysFor: converts the signing keys into freshly allocated buffers of the box key sizes. */
  method CipherKeysFor(doc: Js.Value, sodium: Sodium, codecs: Codecs) returns (r: Result<KeyPair, Error>)
    ensures r == DerivedKeys(doc, sodium, codecs)
  {
    var signing :- AuthKeysFor(doc, codecs);
    var cipherKeyPublic := new byte[BoxPublicKeyBytes];
    var ok := PkToCurve25519(cipherKeyPublic, signing.publicKey, sodium);
    if !ok {
      return Failure(SodiumError);
    }
    var cipherKeySecret := new byte[BoxSecretKeyBytes];
    ok := SkToCurve25519(cipherKeySecret, signing.secretKey, sodium);
    if !ok {
      return Failure(SodiumError);
    }
    return Success(KeyPair(signing.keyId, cipherKeyPublic[..], cipherKeySecret[..]));
  }

  /**
   * `{did}`, the options encryptForDid and decryptForDid pass to
   * cipherKeysForDid. The DID client is then sent the two local defaults
   * first, then the DID.
   */
  function DidOptions(did: Js.Value): (options: seq<Js.Property>)
    ensures Js.Unique(options)
    ensures LocalOptions(options)
         == [Js.Property("location", Js.Str("local")), Js.Property("mode", Js.Str("test")), Js.Property("did", did)]
  {
    var options := [Js.Property("did", did)];
    var d := LocalDefaults;
    assert Js.Put(d[1..], "did", did) == [d[1]] + Js.Put(d[2..], "did", did);
    assert Js.Spread(d, options) == Js.Spread(Js.Put(d, "did", did), []);
    assert LocalOptions(options) == Js.Spread(d, options);
    options
  }

  /** What cipherKeysForDid resolves with, as a value; `None` is `null`. */
  function DerivedKeysForDid(options: seq<Js.Property>, client: Client, sodium: Sodium, codecs: Codecs)
    : (r: Result<Option<KeyPair>, Error>)
    requires Js.Unique(options)
    ensures GetLocalDidDoc(options, client).Failure? ==> r == Failure(GetLocalDidDoc(options, client).error)
    ensures GetLocalDidDoc(options, client).Success? ==>
      var doc := GetLocalDidDoc(options, client).value;
      && (r == Success(None) <==> !Js.Truthy(doc))
      && (Js.Truthy(doc) ==> r == match DerivedKeys(doc, sodium, codecs)
                                 case Success(keys) => Success(Some(keys))
                                 case Failure(e) => Failure(e))
  {
    var doc :- GetLocalDidDoc(options, client);
    if !Js.Truthy(doc) then Success(None)
    else
      var keys :- DerivedKeys(doc, sodium, codecs);
      Success(Some(keys))
  }

  method CipherKeysForDid(options: seq<Js.Property>, client: Client, sodium: Sodium, codecs: Codecs)
    returns (r: Result<Option<KeyPair>, Error>)
    requires Js.Unique(options)
    ensures r == DerivedKeysForDid(options, client, sodium, codecs)
  {
    var doc :- GetLocalDidDoc(options, client);
    if !Js.Truthy(doc) {
      return Success(None);
    }
    var keys :- CipherKeysFor(doc, sodium, codecs);
    return Success(Some(keys));
  }

  // ---------------------------------------------------------------------
  // Sealing and opening

  /** Size of the buffer encryptMessage allocates for a message of n bytes. */
  function CipherLength(n: nat): (c: nat)
    ensures c >= SealBytes
    ensures PlaintextLength(c) == Success(n)
  {
    n + SealBytes
  }

  /** Size of the buffer decryptMessage allocates; `new Buffer` throws a RangeError below zero. */
  function PlaintextLength(c: nat): (r: Result<nat, Error>)
    ensures r.Failure? <==> c < SealBytes
    ensures r.Failure? ==> r.error == RangeError
    ensures r.Success? ==> r.value + SealBytes == c
  {
    if c < SealBytes then Failure(RangeError) else Success(c - SealBytes)
  }

  /**
   * encryptMessage: the UTF-8 bytes of message sealed into a buffer exactly
   * crypto_box_SEALBYTES longer. `keys` is `None` for `null`.
   */
  method EncryptMessage(message: string, keys: Option<KeyPair>, sodium: Sodium, codecs: Codecs, randomness: seq<byte>)
    returns (r: Result<array<byte>, Error>)
    ensures keys.None? ==> r == Failure(TypeError)
    ensures keys.Some? ==>
      var sealed := sodium.seal(codecs.utf8Encode(message), keys.value.publicKey, randomness);
      && (r.Success? <==> sealed.Some?)
      && (r.Failure? ==> r.error == SodiumError)
      && (r.Success? ==> r.value[..] == sealed.value)
    ensures r.Success? ==> r.value.Length == |codecs.utf8Encode(message)| + SealBytes
    ensures r.Success? ==> fresh(r.value)
  {
    var plain := codecs.utf8Encode(message);
    var cipher := new byte[CipherLength(|plain|)];
    if keys.None? {
      return Failure(TypeError);
    }
    var ok := BoxSeal(cipher, plain, keys.value.publicKey, randomness, sodium);
    if !ok {
      return Failure(SodiumError);
    }
    return Success(cipher);
  }

  /**
   * decryptMessage: opens cipher into a buffer crypto_box_SEALBYTES shorter
   * and returns it as a UTF-8 string. Whether the box verified is not
   * looked at: when it did not, the result is some string the model does
   * not determine, never an error.
   */
  method DecryptMessage(cipher: seq<byte>, keys: Option<KeyPair>, sodium: Sodium, codecs: Codecs)
    returns (r: Result<string, Error>)
    ensures |cipher| < SealBytes ==> r == Failure(RangeError)
    ensures |cipher| >= SealBytes && keys.None? ==> r == Failure(TypeError)
    ensures |cipher| >= SealBytes && keys.Some? ==>
      var outcome := sodium.sealOpen(cipher, keys.value.publicKey, keys.value.secretKey);
      && (r.Failure? <==> outcome.Threw?)
      && (r.Failure? ==> r.error == SodiumError)
    ensures keys.Some? && sodium.sealOpen(cipher, keys.value.publicKey, keys.value.secretKey).Opened? ==>
      r == Success(codecs.utf8Decode(sodium.sealOpen(cipher, keys.value.publicKey, keys.value.secretKey).plaintext))
  {
    var size :- PlaintextLength(|cipher|);
    var message := new byte[size];
    if keys.None? {
      return Failure(TypeError);
    }
    var threw, verified := BoxSealOpen(message, cipher, keys.value.publicKey, keys.value.secretKey, sodium);
    if threw {
      return Failure(SodiumError);
    }
    // `verified` is deliberately not inspected
    return Success(codecs.utf8Decode(message[..]));
  }

  // ---------------------------------------------------------------------
  // The DID-level operations

  /**
   * encryptForDid: seals message under the key derived from the DID
   * document of did and returns `{expiration, keyId, cipher}` with the
   * expiration passed through untouched and the cipher in base58.
   */
  method EncryptForDid(did: Js.Value, message: string, expiration: Js.Value,
                       client: Client, sodium: Sodium, codecs: Codecs, randomness: seq<byte>)
    returns (r: Result<Envelope, Error>)
    ensures r.Success? ==> r.value.expiration == expiration
    ensures DerivedKeysForDid(DidOptions(did), client, sodium, codecs).Failure? ==>
      r == Failure(DerivedKeysForDid(DidOptions(did), client, sodium, codecs).error)
    ensures DerivedKeysForDid(DidOptions(did), client, sodium, codecs) == Success(None) ==> r == Failure(TypeError)
    ensures
      var keys := DerivedKeysForDid(DidOptions(did), client, sodium, codecs);
      keys.Success? && keys.value.Some? ==>
        match sodium.seal(codecs.utf8Encode(message), keys.value.value.publicKey, randomness)
        case None => r == Failure(SodiumError)
        case Some(sealed) => r == Success(Envelope(expiration, keys.value.value.keyId, codecs.base58Encode(sealed)))
  {
    var cipherKeys :- CipherKeysForDid(DidOptions(did), client, sodium, codecs);
    var cipher :- EncryptMessage(message, cipherKeys, sodium, codecs, randomness);
    return Success(Envelope(expiration, cipherKeys.value.keyId, codecs.base58Encode(cipher[..])));
  }

  /** decryptForDid: opens cipher with the keys derived from the DID document of did. */
  method DecryptForDid(did: Js.Value, cipher: seq<byte>, client: Client, sodium: Sodium, codecs: Codecs)
    returns (r: Result<string, Error>)
    ensures
      var keys := DerivedKeysForDid(DidOptions(did), client, sodium, codecs);
      && (keys.Failure? ==> r == Failure(keys.error))
      && (keys.Success? && |cipher| < SealBytes ==> r == Failure(RangeError))
      && (keys == Success(None) && |cipher| >= SealBytes ==> r == Failure(TypeError))
      && (keys.Success? && keys.value.Some? ==>
            var outcome := sodium.sealOpen(cipher, keys.value.value.publicKey, keys.value.value.secretKey);
            && (|cipher| >= SealBytes && outcome.Threw? ==> r == Failure(SodiumError))
            && (|cipher| >= SealBytes ==> (r.Failure? <==> outcome.Threw?))
            && (outcome.Opened? ==> r == Success(codecs.utf8Decode(outcome.plaintext))))
  {
    var keys := CipherKeysForDid(DidOptions(did), client, sodium, codecs);
    if keys.Failure? {
      return Failure(keys.error);
    }
    var recipientKeys := keys.value;
    r := DecryptMessage(cipher, recipientKeys, sodium, codecs);
  }

  // ---------------------------------------------------------------------
  // Round trips

  /**
   * decryptMessage opens what encryptMessage sealed: provided libsodium
   * opens, under this key pair, what it sealed under its public half, and
   * the message survives the UTF-8 round trip.
   */
  method SealedMessageRoundTrip(message: string, keys: KeyPair, sodium: Sodium, codecs: Codecs, randomness: seq<byte>)
    returns (plain: Result<string, Error>)
    requires codecs.utf8Decode(codecs.utf8Encode(message)) == message
    requires var sealed := sodium.seal(codecs.utf8Encode(message), keys.publicKey, randomness);
      sealed.Some? ==> sodium.sealOpen(sealed.value, keys.publicKey, keys.secretKey) == Opened(codecs.utf8Encode(message))
    ensures sodium.seal(codecs.utf8Encode(message), keys.publicKey, randomness).Some? ==> plain == Success(message)
    ensures sodium.seal(codecs.utf8Encode(message), keys.publicKey, randomness).None? ==> plain == Failure(SodiumError)
  {
    var cipher :- EncryptMessage(message, Some(keys), sodium, codecs, randomness);
    plain := DecryptMessage(cipher[..], Some(keys), sodium, codecs);
  }

  /**
   * decryptForDid opens the cipher of the envelope encryptForDid produced
   * for the same DID, when the client answers both lookups alike: both
   * derive the same key pair from the same document. Assumed: libsodium
   * opens what it sealed for that pair, and UTF-8 and base58 round-trip.
   */
  method WhisperRoundTrip(did: Js.Value, message: string, expiration: Js.Value,
                          client: Client, sodium: Sodium, codecs: Codecs, randomness: seq<byte>)
    returns (envelope: Result<Envelope, Error>, plain: Result<string, Error>)
    requires codecs.utf8Decode(codecs.utf8Encode(message)) == message
    requires forall bytes :: codecs.base58Decode(Js.Str(codecs.base58Encode(bytes))) == Some(bytes)
    requires var keys := DerivedKeysForDid(DidOptions(did), client, sodium, codecs);
      keys.Success? && keys.value.Some? ==>
        var sealed := sodium.seal(codecs.utf8Encode(message), keys.value.value.publicKey, randomness);
        sealed.Some? ==>
          sodium.sealOpen(sealed.value, keys.value.value.publicKey, keys.value.value.secretKey)
            == Opened(codecs.utf8Encode(message))
    ensures envelope.Success? ==> plain == Success(message)
    ensures envelope.Success? ==> envelope.value.expiration == expiration
    ensures var keys := DerivedKeysForDid(DidOptions(did), client, sodium, codecs);
      envelope.Success? <==>
        (keys.Success? && keys.value.Some?
         && sodium.seal(codecs.utf8Encode(message), keys.value.value.publicKey, randomness).Some?)
  {
    envelope := EncryptForDid(did, message, expiration, client, sodium, codecs, randomness);
    if envelope.Failure? {
      return envelope, Failure(envelope.error);
    }
    var cipher := codecs.base58Decode(Js.Str(envelope.value.cipher));
    plain := DecryptForDid(did, cipher.value, client, sodium, codecs);
  }
}
