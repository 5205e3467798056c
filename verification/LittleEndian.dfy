/** Python's struct formats "<H" and "<I" on byte sequences. */
module LittleEndian {
  import opened Bytes

  function Word(a: int, b: int, c: int, d: int): int {
    a + 0x100 * b + 0x1_0000 * c + 0x100_0000 * d
  }

  function U16(s: seq<u8>, at: nat): u16
    requires at + 2 <= |s|
  {
    Word(s[at], s[at + 1], 0, 0)
  }

  function U32(s: seq<u8>, at: nat): u32
    requires at + 4 <= |s|
  {
    Word(s[at], s[at + 1], s[at + 2], s[at + 3])
  }

  /** The lowest byte comes first. */
  lemma WordIs(s: seq<u8>, at: nat)
    ensures at + 2 <= |s| ==> U16(s, at) as int == s[at] as int + 256 * s[at + 1] as int
    ensures at + 4 <= |s| ==>
              U32(s, at) as int
              == s[at] as int + 256 * s[at + 1] as int + 65536 * s[at + 2] as int + 16777216 * s[at + 3] as int
  {
  }

  function Bytes4(v: u32): (r: seq<u8>)
    ensures |r| == 4 && U32(r, 0) == v
  {
    var b := v / 0x100;
    var c := b / 0x100;
    var d := c / 0x100;
    [v % 0x100, b % 0x100, c % 0x100, d]
  }

  /** `write_u32`, where it does not raise. */
  function PutU32(s: seq<u8>, at: nat, v: u32): (r: seq<u8>)
    requires at + 4 <= |s|
    ensures |r| == |s| && U32(r, at) == v
    ensures forall i :: 0 <= i < |s| && !(at <= i < at + 4) ==> r[i] == s[i]
  {
    s[..at] + Bytes4(v) + s[at + 4..]
  }

  lemma LowByte(a: u8, e: u8, x: int, y: int)
    requires a + 0x100 * x == e + 0x100 * y
    ensures a == e && x == y
  {
  }

  lemma WordIsInjective(a: u8, b: u8, c: u8, d: u8, e: u8, f: u8, g: u8, h: u8)
    requires Word(a, b, c, d) == Word(e, f, g, h)
    ensures a == e && b == f && c == g && d == h
  {
    LowByte(a, e, b + 0x100 * c + 0x1_0000 * d, f + 0x100 * g + 0x1_0000 * h);
    LowByte(b, f, c + 0x100 * d, g + 0x100 * h);
    LowByte(c, g, d, h);
  }

  lemma U32Bytes(s: seq<u8>, t: seq<u8>, at: nat)
    requires at + 4 <= |s| && at + 4 <= |t| && U32(s, at) == U32(t, at)
    ensures s[at] == t[at] && s[at + 1] == t[at + 1] && s[at + 2] == t[at + 2] && s[at + 3] == t[at + 3]
  {
    hide Word;
    WordIsInjective(s[at], s[at + 1], s[at + 2], s[at + 3], t[at], t[at + 1], t[at + 2], t[at + 3]);
  }
}
