/** Bytes, little-endian words and in-place block writes, as used by every shared region. */
module Bytes {

  type Byte = b: int | 0 <= b < 256

  const U32_LIMIT := 0x1_0000_0000

  /** Rounds up to the next multiple of eight. */
  function Align8(n: nat): (r: nat)
    ensures n <= r < n + 8 && r % 8 == 0
  {
    (n + 7) / 8 * 8
  }

  function Le32(n: nat): (s: seq<Byte>)
    ensures |s| == 4
  {
    [n % 0x100, n / 0x100 % 0x100, n / 0x1_0000 % 0x100, n / 0x100_0000 % 0x100]
  }

  function FromLe32(s: seq<Byte>): (n: nat)
    requires |s| == 4
    ensures n < U32_LIMIT
  {
    s[0] as int + 0x100 * (s[1] as int) + 0x1_0000 * (s[2] as int) + 0x100_0000 * (s[3] as int)
  }

  lemma Le32RoundTrip(n: nat)
    ensures FromLe32(Le32(n)) == n % U32_LIMIT
  {
    assert n / 0x1_0000 == n / 0x100 / 0x100;
    assert n / 0x100_0000 == n / 0x1_0000 / 0x100;
    assert n / U32_LIMIT == n / 0x100_0000 / 0x100;
  }

  function Le16(n: nat): (s: seq<Byte>)
    ensures |s| == 2
  {
    [n % 0x100, n / 0x100 % 0x100]
  }

  function FromLe16(s: seq<Byte>): nat
    requires |s| == 2
  {
    s[0] as int + 0x100 * (s[1] as int)
  }

  lemma Le16RoundTrip(n: nat)
    requires n < 0x1_0000
    ensures FromLe16(Le16(n)) == n
  {
  }

  function Zeros(n: nat): (s: seq<Byte>)
    ensures |s| == n
    ensures forall i :: 0 <= i < n ==> s[i] == 0
  {
    seq(n, _ => 0)
  }

  /** The contents of a region after a block has been copied into it. */
  function Overwrite(data: seq<Byte>, at: nat, block: seq<Byte>): (d: seq<Byte>)
    requires at + |block| <= |data|
    ensures |d| == |data|
  {
    data[..at] + block + data[at + |block|..]
  }

  lemma OverwriteAt(data: seq<Byte>, at: nat, block: seq<Byte>)
    requires at + |block| <= |data|
    ensures var d := Overwrite(data, at, block);
      && d[at..at + |block|] == block
      && forall i :: 0 <= i < at || at + |block| <= i < |data| ==> d[i] == data[i]
  {
  }

  /** A number below 256 survives a trip through a bit vector; sixteen at a time. */
  lemma ByteRoundTrip(n: nat)
    requires n < 0x100
    ensures (n as bv8) as int == n
  {
    if n < 0x40 {
      if n < 0x10 {} else if n < 0x20 {} else if n < 0x30 {}
    } else if n < 0x80 {
      if n < 0x50 {} else if n < 0x60 {} else if n < 0x70 {}
    } else if n < 0xC0 {
      if n < 0x90 {} else if n < 0xA0 {} else if n < 0xB0 {}
    } else {
      if n < 0xD0 {} else if n < 0xE0 {} else if n < 0xF0 {}
    }
  }
}
