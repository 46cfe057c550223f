/**
 * The cryptographic collaborators of the submission form, kept abstract:
 * SHA-1 (FIPS 180-4), HMAC-SHA1 (RFC 2104), the application secret, and the
 * `dumps`/`loads` pair of the signing module that carries the category token.
 * They are fields of a record so that every operation is stated for every
 * choice of them; `Sound` collects the only facts the model relies on.
 */
module Crypto {
  import opened Wrappers

  datatype Crypto = Crypto(
    /** hex digest of SHA-1 over a string */
    sha1Hex: string -> string,
    /** raw digest of SHA-1 over a string (the derived HMAC key) */
    sha1Digest: string -> string,
    /** hex digest of HMAC-SHA1 under a key, over a message */
    hmacSha1Hex: (string, string) -> string,
    /** the application secret, SECRET_KEY */
    secretKey: string,
    /** signing.dumps: sign a value into an opaque token */
    dumps: string -> string,
    /** signing.loads: the signed value, or None when the signature is bad */
    loads: string -> Option<string>)
  {
    /**
     * Hex digests of SHA-1 and HMAC-SHA1 are 40 characters long (160 bits),
     * and a token produced by `dumps` verifies and decodes to its value.
     */
    ghost predicate Sound()
    {
      && (forall m :: |sha1Hex(m)| == 40)
      && (forall k, m :: |hmacSha1Hex(k, m)| == 40)
      && (forall v :: loads(dumps(v)) == Some(v))
    }

    /**
     * `salted_hmac(key_salt, value).hexdigest()`: HMAC-SHA1 keyed with the
     * SHA-1 digest of the salt followed by the secret.
     */
    function SaltedHmacHex(keySalt: string, value: string): string
    {
      hmacSha1Hex(sha1Digest(keySalt + secretKey), value)
    }
  }
}
