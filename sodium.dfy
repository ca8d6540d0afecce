/**
 * The four sodium-native calls did-whisper makes, kept abstract.
 *
 * Each native routine is a function value inside `Primitives`; the model
 * says nothing about the cryptography (sealed boxes, the Ed25519 to
 * Curve25519 map of section 4.1 of RFC 7748), only what sizes the outputs
 * have. The calls write into a caller-allocated buffer, and sodium-native
 * refuses a buffer of the wrong size; that demand is the `requires` of
 * each fill method below.
 */
module Sodium {
  import opened Wrappers
  import opened Bytes

  /** crypto_box_SEALBYTES: ephemeral public key (32) plus authentication tag (16). */
  const SealBytes: nat := 48
  /** crypto_box_PUBLICKEYBYTES */
  const BoxPublicKeyBytes: nat := 32
  /** crypto_box_SECRETKEYBYTES */
  const BoxSecretKeyBytes: nat := 32

  /** What crypto_box_seal_open reports: the plaintext, `false` (box did not verify), or an exception. */
  datatype OpenOutcome = Opened(plaintext: seq<byte>) | Unverified | Threw

  /**
   * The native routines. `seal` takes the randomness libsodium draws for
   * its ephemeral key pair as an argument; `None` means the call throws.
   */
  datatype Primitives = Primitives(
    seal: (seq<byte>, seq<byte>, seq<byte>) -> Option<seq<byte>>,
    sealOpen: (seq<byte>, seq<byte>, seq<byte>) -> OpenOutcome,
    pkToCurve25519: seq<byte> -> Option<seq<byte>>,
    skToCurve25519: seq<byte> -> Option<seq<byte>>)

  /** The only facts assumed of libsodium: the sizes of what it produces. */
  ghost predicate Lawful(p: Primitives) {
    && (forall m, pk, rnd :: p.seal(m, pk, rnd).Some? ==> |p.seal(m, pk, rnd).value| == |m| + SealBytes)
    && (forall c, pk, sk :: p.sealOpen(c, pk, sk).Opened? ==> |p.sealOpen(c, pk, sk).plaintext| + SealBytes == |c|)
    && (forall k :: p.pkToCurve25519(k).Some? ==> |p.pkToCurve25519(k).value| == BoxPublicKeyBytes)
    && (forall k :: p.skToCurve25519(k).Some? ==> |p.skToCurve25519(k).value| == BoxSecretKeyBytes)
  }

  type Sodium = p: Primitives | Lawful(p)
    witness Primitives((m, pk, rnd) => None, (c, pk, sk) => Threw, k => None, k => None)

  /** Writes `bytes` into `out`, as the native code does with its result. */
  method Fill(out: array<byte>, bytes: seq<byte>)
    requires out.Length == |bytes|
    modifies out
    ensures out[..] == bytes
  {
    forall i | 0 <= i < out.Length {
      out[i] := bytes[i];
    }
  }

  /** crypto_box_seal(c, m, pk); returns false where sodium-native throws. */
  method BoxSeal(c: array<byte>, m: seq<byte>, pk: seq<byte>, randomness: seq<byte>, lib: Sodium)
    returns (ok: bool)
    requires c.Length == |m| + SealBytes
    modifies c
    ensures ok == lib.seal(m, pk, randomness).Some?
    ensures ok ==> c[..] == lib.seal(m, pk, randomness).value
  {
    var sealed := lib.seal(m, pk, randomness);
    ok := sealed.Some?;
    if ok {
      Fill(c, sealed.value);
    }
  }

  /**
   * crypto_box_seal_open(m, c, pk, sk). `verified` is the boolean the
   * native call returns; when it is false, nothing is said about `m`.
   */
  method BoxSealOpen(m: array<byte>, c: seq<byte>, pk: seq<byte>, sk: seq<byte>, lib: Sodium)
    returns (threw: bool, verified: bool)
    requires m.Length + SealBytes == |c|
    modifies m
    ensures threw <==> lib.sealOpen(c, pk, sk).Threw?
    ensures verified <==> lib.sealOpen(c, pk, sk).Opened?
    ensures verified ==> m[..] == lib.sealOpen(c, pk, sk).plaintext
  {
    var outcome := lib.sealOpen(c, pk, sk);
    threw, verified := outcome.Threw?, outcome.Opened?;
    if verified {
      Fill(m, outcome.plaintext);
    }
  }

  /** crypto_sign_ed25519_pk_to_curve25519(x25519Pk, ed25519Pk); false where it throws. */
  method PkToCurve25519(x25519Pk: array<byte>, ed25519Pk: seq<byte>, lib: Sodium) returns (ok: bool)
    requires x25519Pk.Length == BoxPublicKeyBytes
    modifies x25519Pk
    ensures ok == lib.pkToCurve25519(ed25519Pk).Some?
    ensures ok ==> x25519Pk[..] == lib.pkToCurve25519(ed25519Pk).value
  {
    var converted := lib.pkToCurve25519(ed25519Pk);
    ok := converted.Some?;
    if ok {
      Fill(x25519Pk, converted.value);
    }
  }

  /** crypto_sign_ed25519_sk_to_curve25519(x25519Sk, ed25519Sk); false where it throws. */
  method SkToCurve25519(x25519Sk: array<byte>, ed25519Sk: seq<byte>, lib: Sodium) returns (ok: bool)
    requires x25519Sk.Length == BoxSecretKeyBytes
    modifies x25519Sk
    ensures ok == lib.skToCurve25519(ed25519Sk).Some?
    ensures ok ==> x25519Sk[..] == lib.skToCurve25519(ed25519Sk).value
  {
    var converted := lib.skToCurve25519(ed25519Sk);
    ok := converted.Some?;
    if ok {
      Fill(x25519Sk, converted.value);
    }
  }
}
