/** The secrets the account backend handles, kept abstract: password digests
    (bcrypt in the system, an ideal collision-free digest here), random tokens
    (32 random bytes rendered as lower-case hex) and signed session tokens
    (JSON Web Tokens, RFC 7519, treated as opaque strings). */
module Credentials {
  import opened Wrappers
  import Text

  /** A stored password digest. Only `Verify` looks inside it. */
  datatype PasswordHash = Digest(secret: string)

  /** `bcrypt.hash(password, salt)`; salting and the cost factor are not modelled. */
  function Hash(password: string): PasswordHash {
    Digest(password)
  }

  /** `bcrypt.compare(password, hash)`. */
  predicate Verify(password: string, hash: PasswordHash) {
    hash.secret == password
  }

  /** A digest verifies the password it was made from, and no other. */
  lemma VerifyHash(p: string, q: string)
    ensures Verify(p, Hash(p))
    ensures Verify(q, Hash(p)) <==> q == p
  {
  }

  newtype byte = x: int | 0 <= x < 256

  function HexDigit(d: int): (c: char)
    requires 0 <= d < 16
    ensures Text.IsAsciiDigit(c) || ('a' <= c <= 'f')
  {
    if d < 10 then ('0' as int + d) as char else ('a' as int + d - 10) as char
  }

  predicate IsHexDigit(c: char) { Text.IsAsciiDigit(c) || ('a' <= c <= 'f') }

  function HexValue(c: char): (d: int)
    requires IsHexDigit(c)
    ensures 0 <= d < 16 && HexDigit(d) == c
  {
    if Text.IsAsciiDigit(c) then c as int - '0' as int else c as int - 'a' as int + 10
  }

  /** `buffer.toString('hex')`: two lower-case hex digits per byte. */
  function HexEncode(bytes: seq<byte>): (r: string)
    ensures |r| == 2 * |bytes|
    ensures forall k :: 0 <= k < |r| ==> IsHexDigit(r[k])
  {
    if bytes == [] then []
    else [HexDigit(bytes[0] as int / 16), HexDigit(bytes[0] as int % 16)] + HexEncode(bytes[1..])
  }

  function HexDecode(s: string): seq<byte>
    requires |s| % 2 == 0
    requires forall k :: 0 <= k < |s| ==> IsHexDigit(s[k])
  {
    if s == [] then []
    else [(16 * HexValue(s[0]) + HexValue(s[1])) as byte] + HexDecode(s[2..])
  }

  /** The hex rendering loses nothing: it decodes back to the random bytes. */
  lemma {:induction false} HexRoundTrip(bytes: seq<byte>)
    ensures HexDecode(HexEncode(bytes)) == bytes
  {
    if bytes != [] {
      var s := HexEncode(bytes);
      assert s[2..] == HexEncode(bytes[1..]);
      HexRoundTrip(bytes[1..]);
    }
  }

  /** What `crypto.randomBytes(32).toString('hex')` yields, given the bytes. */
  function RandomToken(entropy: seq<byte>): (token: string)
    requires |entropy| == 32
    ensures |token| == 64
    ensures forall k :: 0 <= k < |token| ==> IsHexDigit(token[k])
  {
    HexEncode(entropy)
  }

  /** The payload the backend signs into a session token. */
  datatype Claims = Claims(userId: int, role: string)

  /** The signing key in use: `sign` is `jwt.sign` and `decode` is `jwt.verify`,
      which fails on a bad signature, a malformed token or an expired one. */
  datatype Jwt = Jwt(sign: Claims -> string, decode: string -> Option<Claims>)

  /** A key whose tokens decode to what was signed and, being three base64url
      segments joined by dots, contain no space. */
  ghost predicate SoundKey(jwt: Jwt) {
    forall c :: jwt.decode(jwt.sign(c)) == Some(c) && ' ' !in jwt.sign(c)
  }
}
