/** Stand-ins for bcrypt and for the HMAC inside a JSON Web Token.

    bcrypt reads at most its first 72 bytes of input and ignores the rest.
    The model counts characters instead: tokens are ASCII, so for them the
    two agree, while a password with non-ASCII characters is cut at 72
    characters here where bcrypt cuts it at 72 UTF-8 bytes. Hash is
    deterministic: bcrypt's random salt and its cost factor are not
    modelled. A password matches a hash exactly when the two agree on the
    part bcrypt reads (MatchesIffSamePrefix). */
module Crypto {

  /** The most bytes of its input bcrypt reads. */
  const BCRYPT_MAX_BYTES: nat := 72

  /** The part of p that bcrypt reads. */
  function Read72(p: string): (r: string)
    ensures |r| == if |p| <= BCRYPT_MAX_BYTES then |p| else BCRYPT_MAX_BYTES
    ensures r <= p
  {
    if |p| <= BCRYPT_MAX_BYTES then p else p[..BCRYPT_MAX_BYTES]
  }

  /** bcrypt.hash(p, 10). */
  function Hash(p: string): (h: string)
    ensures |h| > 0
  {
    "$2b$10$" + Read72(p)
  }

  /** bcrypt.compare(p, h). */
  predicate Matches(p: string, h: string) {
    h == Hash(p)
  }

  lemma HashMatches(p: string)
    ensures Matches(p, Hash(p))
  {
  }

  /** A value matches another's hash exactly when the two agree on their
      first 72 characters (or are equal, when shorter). */
  lemma MatchesIffSamePrefix(p: string, q: string)
    ensures Matches(p, Hash(q)) <==> Read72(p) == Read72(q)
  {
    if Matches(p, Hash(q)) {
      assert Hash(p)[7..] == Read72(p) && Hash(q)[7..] == Read72(q);
    }
  }

  /** Two values of at least 72 characters that share their first 72
      match each other's hash, whatever follows. */
  lemma LongValuesShareHash(p: string, q: string)
    requires |p| >= BCRYPT_MAX_BYTES && |q| >= BCRYPT_MAX_BYTES
    requires p[..BCRYPT_MAX_BYTES] == q[..BCRYPT_MAX_BYTES]
    ensures Matches(p, Hash(q)) && Matches(q, Hash(p))
  {
  }

  /** A hash that reads all of its input, as bcrypt over a SHA-256 digest
      of the value does; the digest is taken here to be collision-free. */
  function HashWhole(p: string): (h: string)
    ensures |h| > 0
  {
    "$2b$10$sha256:" + p
  }

  predicate MatchesWhole(p: string, h: string) {
    h == HashWhole(p)
  }

  /** Under the whole-value hash a value matches only its own hash. */
  lemma MatchesWholeIffEqual(p: string, q: string)
    ensures MatchesWhole(p, HashWhole(q)) <==> p == q
  {
    if MatchesWhole(p, HashWhole(q)) {
      assert HashWhole(p)[14..] == p && HashWhole(q)[14..] == q;
    }
  }

  /** The signature of a message under a key: every character of the
      message counts. */
  function Mac(key: string, message: string): string
  {
    "hs256:" + key + "." + message
  }
}
