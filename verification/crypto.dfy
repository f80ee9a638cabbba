/**
 The cryptographic library calls, kept abstract. SHA-256 is an arbitrary function to
 32-byte strings: nothing below assumes that it is injective, and every soundness result
 computes two distinct byte strings with one digest instead. Ed25519 (section 5.1 of
 RFC 8032) is an arbitrary check that accepts what the notary's own key signs.
 */
module Crypto {
  import opened ByteStrings

  type DigestFn = f: Bytes -> Bytes | forall b :: |f(b)| == 32
    witness (b: Bytes) => ZERO32

  datatype Hash = Hash(f: DigestFn) {
    function Of(b: Bytes): (d: Bytes)
      ensures |d| == 32
    {
      f(b)
    }
  }

  predicate Collides(h: Hash, a: Bytes, b: Bytes) {
    a != b && h.Of(a) == h.Of(b)
  }

  /** `check(pub, msg, sig)`, the digest, and the notary's key pair. */
  datatype CryptoSuite = CryptoSuite(
    hash: Hash,
    check: (Bytes, Bytes, Bytes) -> bool,
    sign: Bytes -> Bytes,
    pub: Bytes)
  {
    /** `ed25519.Verify`: the key has signed the message. */
    predicate Verifies(key: Bytes, msg: Bytes, sig: Bytes): (ok: bool)
      ensures ok == check(key, msg, sig)
    {
      check(key, msg, sig)
    }
  }

  ghost predicate HonestSignaturesVerify(c: CryptoSuite) {
    forall m :: c.check(c.pub, m, c.sign(m))
  }

  type Suite = c: CryptoSuite | HonestSignaturesVerify(c)
    witness CryptoSuite(Hash((b: Bytes) => ZERO32), (p: Bytes, m: Bytes, s: Bytes) => true, (m: Bytes) => [], [])

  function Signature(c: Suite, m: Bytes): (s: Bytes)
    ensures c.check(c.pub, m, s)
  {
    c.sign(m)
  }

  /** "nal-notary-1": the key id of the notary, repeated as a constant in graph, seal and verify. */
  const NOTARY_KEY: Bytes := [110, 97, 108, 45, 110, 111, 116, 97, 114, 121, 45, 49]

  /** A signer or a verify-only signer: it knows one public key under one key id. */
  datatype Verifier = Verifier(keyId: Bytes, pub: Bytes)

  /** `Signer.Verify`: an unknown key id is rejected before any signature is checked. */
  predicate Accepts(c: Suite, v: Verifier, msg: Bytes, sig: Bytes, keyId: Bytes) {
    keyId == v.keyId && c.check(v.pub, msg, sig)
  }

  /** The server's own signer. */
  function NotaryVerifier(c: Suite): Verifier {
    Verifier(NOTARY_KEY, c.pub)
  }
}
