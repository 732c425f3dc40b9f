/** JavaScript's 32-bit integer view of numbers: the bitwise operators `|`, `&`, `<<`
    and `>>` first convert their operands with ToInt32 (the value modulo 2^32, read as a
    signed two's-complement number) and yield a signed 32-bit result. */
module Int32 {
  const Two32: int := 0x1_0000_0000
  const Two31: int := 0x8000_0000

  /** ToUint32: the value modulo 2^32. */
  function ToUint32(x: int): (r: int)
    ensures 0 <= r < Two32
    ensures (x - r) % Two32 == 0
  {
    x % Two32
  }

  /** ToInt32: the value modulo 2^32, in the signed range. */
  function ToInt32(x: int): (r: int)
    ensures -Two31 <= r < Two31
    ensures (x - r) % Two32 == 0
    ensures -Two31 <= x < Two31 ==> r == x
  {
    (x + Two31) % Two32 - Two31
  }

  /** `(x >> 8*k) & 0xff`: byte `k` (0 the lowest) of the 32-bit view of `x`. */
  function Byte(x: int, k: nat): (r: int)
    requires k < 4
    ensures 0 <= r < 256
  {
    var u := ToUint32(x);
    if k == 0 then u % 0x100
    else if k == 1 then u / 0x100 % 0x100
    else if k == 2 then u / 0x1_0000 % 0x100
    else u / 0x100_0000
  }

  /** Numbers congruent modulo 2^32 have the same signed 32-bit view. */
  lemma ToInt32Congruent(x: int, y: int)
    requires (x - y) % Two32 == 0
    ensures ToInt32(x) == ToInt32(y)
  {
    var k := (x - y) / Two32;
    assert x + Two31 == (y + Two31) + k * Two32;
  }

  /** Both views of a number agree on its 32 bits. */
  lemma ToInt32Uint32(x: int)
    ensures ToUint32(ToInt32(x)) == ToUint32(x)
  {
  }

  /** Four bytes packed high to low, in the signed view: `a << 24 | r << 16 | g << 8 | b`. */
  function Pack(a: int, r: int, g: int, b: int): (v: int)
    requires 0 <= a < 256 && 0 <= r < 256 && 0 <= g < 256 && 0 <= b < 256
    ensures -Two31 <= v < Two31
  {
    ToInt32(a * 0x100_0000 + r * 0x1_0000 + g * 0x100 + b)
  }

  /** Unpacking the bytes of a packed number gives the bytes back. */
  lemma PackBytes(a: int, r: int, g: int, b: int)
    requires 0 <= a < 256 && 0 <= r < 256 && 0 <= g < 256 && 0 <= b < 256
    ensures Byte(Pack(a, r, g, b), 3) == a && Byte(Pack(a, r, g, b), 2) == r
    ensures Byte(Pack(a, r, g, b), 1) == g && Byte(Pack(a, r, g, b), 0) == b
  {
    var u := a * 0x100_0000 + r * 0x1_0000 + g * 0x100 + b;
    assert 0 <= u < Two32;
    assert ToUint32(Pack(a, r, g, b)) == u by {
      ToInt32Uint32(u);
    }
    assert u / 0x100 == a * 0x1_0000 + r * 0x100 + g;
    assert u / 0x1_0000 == a * 0x100 + r;
    assert u / 0x100_0000 == a;
  }

  /** `x & 0x00ffffff`: the low three bytes. */
  function Low24(x: int): (r: int)
    ensures 0 <= r < 0x100_0000
  {
    ToUint32(x) % 0x100_0000
  }

  lemma Low24Bytes(x: int)
    ensures Low24(x) == Byte(x, 2) * 0x1_0000 + Byte(x, 1) * 0x100 + Byte(x, 0)
  {
    var u := ToUint32(x);
    var q := u / 0x100;
    LowBytesSplit(u);
    LowByteSplit(q);
    assert u / 0x1_0000 == q / 0x100;
  }

  /** The low three bytes of `n` are its low byte below the next two. */
  lemma LowBytesSplit(n: nat)
    ensures n % 0x100_0000 == (n / 0x100 % 0x1_0000) * 0x100 + n % 0x100
  {
    var q := n / 0x100;
    var r := (q % 0x1_0000) * 0x100 + n % 0x100;
    assert n == q * 0x100 + n % 0x100;
    assert q == (q / 0x1_0000) * 0x1_0000 + q % 0x1_0000;
    assert n == (q / 0x1_0000) * 0x100_0000 + r;
    assert 0 <= r < 0x100_0000;
  }

  /** The low two bytes of `n` are its low byte below the next one. */
  lemma LowByteSplit(n: nat)
    ensures n % 0x1_0000 == (n / 0x100 % 0x100) * 0x100 + n % 0x100
  {
    var q := n / 0x100;
    assert n == (q / 0x100) * 0x1_0000 + ((q % 0x100) * 0x100 + n % 0x100);
  }
}
