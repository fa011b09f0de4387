/**
 * The byte order used when the runtime stores a 32-bit word into guest
 * memory (`LittleEndian::write_u32`): least significant byte first.
 */
module LittleEndian {
  import opened Ints

  /** The four bytes of `v`, least significant first. */
  function EncodeU32(v: u32): (r: seq<u8>)
    ensures |r| == 4
    ensures DecodeU32(r) == v
  {
    var q1 := v / 0x100;
    var q2 := q1 / 0x100;
    var q3 := q2 / 0x100;
    [v % 0x100, q1 % 0x100, q2 % 0x100, q3 % 0x100]
  }

  /** The `u32` whose little-endian encoding is `s`. */
  function DecodeU32(s: seq<u8>): (v: u32)
    requires |s| == 4
  {
    s[0] as int + 0x100 * (s[1] as int + 0x100 * (s[2] as int + 0x100 * s[3] as int))
  }

  /** One step of base-256 place value: `a + 256 * q` has low byte `a` and the rest `q`. */
  lemma PlaceValue(a: u8, q: nat)
    ensures (a + 0x100 * q) % 0x100 == a && (a + 0x100 * q) / 0x100 == q
  {
  }

  /** Decoding is injective on four-byte windows: encoding the decoded value gives the bytes back. */
  lemma EncodeDecode(s: seq<u8>)
    requires |s| == 4
    ensures EncodeU32(DecodeU32(s)) == s
  {
    var q2: nat := s[2] as int + 0x100 * s[3] as int;
    var q1: nat := s[1] as int + 0x100 * q2;
    PlaceValue(s[0], q1);
    PlaceValue(s[1], q2);
    PlaceValue(s[2], s[3]);
    PlaceValue(s[3], 0);
  }
}
