/** Bytes and their lowercase hexadecimal rendering, Go's `fmt.Sprintf("%x", b)`.
    Every content hash the server publishes reaches the client, the record store
    and the blob store's object names through this rendering. */
module HexCodec {

  newtype byte = x: int | 0 <= x < 256

  /** One of `[0-9a-f]`, the alphabet `%x` writes. */
  predicate IsHexDigit(c: char) {
    '0' <= c <= '9' || 'a' <= c <= 'f'
  }

  function Nibble(d: int): (c: char)
    requires 0 <= d < 16
    ensures IsHexDigit(c)
  {
    if d < 10 then (('0' as int) + d) as char else (('a' as int) + d - 10) as char
  }

  /** `%x` of a byte string: two lowercase digits per byte, high nibble first. */
  function Hex(bs: seq<byte>): (r: string)
    ensures |r| == 2 * |bs|
    ensures forall i :: 0 <= i < |r| ==> IsHexDigit(r[i])
  {
    if |bs| == 0 then ""
    else [Nibble(bs[0] as int / 16), Nibble(bs[0] as int % 16)] + Hex(bs[1..])
  }

  lemma NibbleInjective(a: int, b: int)
    requires 0 <= a < 16 && 0 <= b < 16
    requires Nibble(a) == Nibble(b)
    ensures a == b
  {
  }

  /** Distinct byte strings render to distinct hex strings, so a rendered hash
      names its content as well as the hash itself does. */
  lemma {:induction false} HexInjective(a: seq<byte>, b: seq<byte>)
    requires Hex(a) == Hex(b)
    ensures a == b
  {
    if |a| > 0 {
      var x, y := a[0] as int, b[0] as int;
      assert Hex(a)[0] == Nibble(x / 16) && Hex(b)[0] == Nibble(y / 16);
      assert Hex(a)[1] == Nibble(x % 16) && Hex(b)[1] == Nibble(y % 16);
      NibbleInjective(x / 16, y / 16);
      NibbleInjective(x % 16, y % 16);
      assert Hex(a)[2..] == Hex(a[1..]);
      assert Hex(b)[2..] == Hex(b[1..]);
      HexInjective(a[1..], b[1..]);
      assert a == [a[0]] + a[1..];
      assert b == [b[0]] + b[1..];
    }
  }
}
