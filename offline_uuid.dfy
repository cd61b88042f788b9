/** The UUID of a player in offline mode (`offlineUUID`,
  * server/login/handlers.go): the MD5 digest of "OfflinePlayer:" followed
  * by the name, stamped as a name-based UUID of version 3 with the variant
  * of RFC 4122 (sections 4.1.3 and 4.1.1). MD5 itself is a foreign library
  * and is given as a function from bytes to a 16-byte digest. */
module OfflineUuid {
  /** Bytes are 8-bit vectors here, as the stamps are bit operations. */
  type Digest = s: seq<bv8> | |s| == 16 witness [0, 0, 0, 0, 0, 0, 0, 0, 0, 0, 0, 0, 0, 0, 0, 0]

  /** The UUID version written into byte 6. */
  const Version: bv8 := 3

  const PrefixText: string := "OfflinePlayer:"

  /** The bytes hashed before the name: "OfflinePlayer:" is ASCII, one
    * byte per character. */
  function Prefix(): (r: seq<bv8>)
    ensures |r| == 14
  {
    seq(|PrefixText|, i requires 0 <= i < |PrefixText| => ((PrefixText[i] as int) % 256) as bv8)
  }

  /** `(b & 0x0f) | uint8((version & 0xf) << 4)`: the high nibble becomes
    * the version, the low nibble is kept. */
  function StampVersion(b: bv8): (r: bv8)
    ensures r >> 4 == 3 && r & 0x0f == b & 0x0f
  {
    (b & 0x0f) | ((Version & 0xf) << 4)
  }

  /** `(b & 0x3f) | 0x80`: the two high bits become 1 0, the low six bits
    * are kept. */
  function StampVariant(b: bv8): (r: bv8)
    ensures r >> 6 == 2 && r & 0x3f == b & 0x3f
  {
    (b & 0x3f) | 0x80
  }

  /** What `offlineUUID` promises of its result `u` for the digest `d`:
    * every byte but 6 and 8 is the digest's, byte 6 carries version 3 over
    * the digest's low nibble, and byte 8 the variant bits 1 0 over the
    * digest's low six bits. */
  predicate IsNameUuid(u: seq<bv8>, d: Digest)
  {
    |u| == 16 &&
    (forall i :: 0 <= i < 16 && i != 6 && i != 8 ==> u[i] == d[i]) &&
    u[6] >> 4 == 3 && u[6] & 0x0f == d[6] & 0x0f &&
    u[8] >> 6 == 2 && u[8] & 0x3f == d[8] & 0x3f
  }

  /** `offlineUUID`: the digest is copied into a 16-byte array whose bytes
    * 6 and 8 are then overwritten in place. */
  method OfflineUuid(name: seq<bv8>, md5: seq<bv8> -> Digest) returns (u: seq<bv8>)
    ensures IsNameUuid(u, md5(Prefix() + name))
  {
    var s := md5(Prefix() + name);
    var a := new bv8[16];
    for i := 0 to 16
      invariant forall k :: 0 <= k < i ==> a[k] == s[k]
    {
      a[i] := s[i];
    }
    a[6] := StampVersion(a[6]);
    a[8] := StampVariant(a[8]);
    u := a[..];
  }

  /** The conditions pin the UUID down: two results for the same digest are
    * equal, so the UUID depends on the name alone. */
  lemma NameUuidUnique(u1: seq<bv8>, u2: seq<bv8>, d: Digest)
    requires IsNameUuid(u1, d) && IsNameUuid(u2, d)
    ensures u1 == u2
  {
    NibblesDetermine(u1[6], u2[6]);
    HighBitsDetermine(u1[8], u2[8]);
    forall i | 0 <= i < 16
      ensures u1[i] == u2[i]
    {
    }
  }

  /** A byte is its high nibble and its low nibble. */
  lemma NibblesDetermine(x: bv8, y: bv8)
    requires x >> 4 == y >> 4 && x & 0x0f == y & 0x0f
    ensures x == y
  {
  }

  /** A byte is its two high bits and its six low bits. */
  lemma HighBitsDetermine(x: bv8, y: bv8)
    requires x >> 6 == y >> 6 && x & 0x3f == y & 0x3f
    ensures x == y
  {
  }

  /** A digest that already carries the version and the variant is left as
    * it is. */
  lemma StampsIdempotent(d: Digest)
    requires d[6] >> 4 == 3 && d[8] >> 6 == 2
    ensures IsNameUuid(d, d)
  {
  }
}
