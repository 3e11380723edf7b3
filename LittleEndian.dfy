/** The byte-level primitives of the little-endian output writer that the
    channel's messages are built with: writeByte, writeShort, writeInt,
    writeBool and writeBytes append to a growing byte buffer, lowest byte
    first, keeping only as many low-order bits of the value as the field is
    wide (the truncation of Java's narrowing casts). `Unsigned` reads such a
    field back. */
module LittleEndian {

  newtype byte = b: int | 0 <= b < 256

  /** Java's `short` and `int`. */
  type int16 = x: int | -0x8000 <= x < 0x8000
  type int32 = x: int | -0x8000_0000 <= x < 0x8000_0000

  function Pow256(n: nat): (r: int)
    ensures r >= 1
  {
    if n == 0 then 1 else 256 * Pow256(n - 1)
  }

  /** The value of a little-endian field: first byte least significant. */
  function Unsigned(bs: seq<byte>): (r: int)
    ensures 0 <= r < Pow256(|bs|)
  {
    if bs == [] then 0 else bs[0] as int + 256 * Unsigned(bs[1..])
  }

  /** The two's-complement reading of an n-byte field. */
  function Signed(bs: seq<byte>): (r: int)
    requires |bs| > 0
    ensures -Pow256(|bs|) / 2 <= r < Pow256(|bs|) / 2
    ensures r % Pow256(|bs|) == Unsigned(bs)
  {
    var u, p := Unsigned(bs), Pow256(|bs|);
    assert p == 256 * Pow256(|bs| - 1);
    if u < p / 2 then
      DivModUnique(u, p, 0, u);
      u
    else
      DivModUnique(u - p, p, -1, u);
      u - p
  }

  /** The n low-order bytes of x, least significant first. */
  function Field(x: int, n: nat): (r: seq<byte>)
    ensures |r| == n
    ensures Unsigned(r) == x % Pow256(n)
    decreases n
  {
    if n == 0 then []
    else
      var rest := Field(x / 256, n - 1);
      ModSplit(x, Pow256(n - 1));
      [(x % 256) as byte] + rest
  }

  /** writeByte: the low 8 bits of x. */
  function Byte(x: int): (r: seq<byte>)
    ensures |r| == 1 && r[0] as int == x % 256
  {
    Field(x, 1)
  }

  /** writeShort: the low 16 bits of x, low byte first. */
  function Short(x: int): (r: seq<byte>)
    ensures |r| == 2 && Unsigned(r) == x % 0x1_0000
  {
    Field(x, 2)
  }

  /** writeInt: the low 32 bits of x, low byte first. */
  function Int(x: int): (r: seq<byte>)
    ensures |r| == 4 && Unsigned(r) == x % 0x1_0000_0000
  {
    Field(x, 4)
  }

  /** writeBool: one byte, 1 for true and 0 for false. */
  function Bool(b: bool): (r: seq<byte>)
    ensures |r| == 1 && (r[0] == 1 <==> b) && (r[0] == 0 <==> !b)
  {
    if b then [1] else [0]
  }

  /** Reading a field back and writing it again gives the same bytes. */
  lemma {:induction false} FieldOfUnsigned(bs: seq<byte>)
    ensures Field(Unsigned(bs), |bs|) == bs
  {
    if bs != [] {
      var u := Unsigned(bs);
      assert u % 256 == bs[0] as int && u / 256 == Unsigned(bs[1..]) by {
        DivModUnique(u, 256, Unsigned(bs[1..]), bs[0] as int);
      }
      FieldOfUnsigned(bs[1..]);
    }
  }

  /** Fields of one width are equal when they hold the same value. */
  lemma UnsignedInjective(a: seq<byte>, b: seq<byte>)
    requires |a| == |b| && Unsigned(a) == Unsigned(b)
    ensures a == b
  {
    FieldOfUnsigned(a);
    FieldOfUnsigned(b);
  }

  /** A field of a value that fits reads back as that value: the
      two's-complement reading inverts a field of n bytes for every value
      of an n-byte signed type. */
  lemma SignedField(x: int, n: nat)
    requires n > 0
    requires -Pow256(n) / 2 <= x < Pow256(n) / 2
    ensures Signed(Field(x, n)) == x
  {
    var p := Pow256(n);
    assert p == 256 * Pow256(n - 1);
    if x < 0 {
      DivModUnique(x, p, -1, x + p);
    } else {
      DivModUnique(x, p, 0, x);
    }
  }

  lemma DivModUnique(u: int, d: int, q: int, m: int)
    requires d > 0 && u == d * q + m && 0 <= m < d
    ensures u / d == q && u % d == m
  {
    var q', m' := u / d, u % d;
    assert d * (q - q') == m' - m;
    if q > q' {
      MulAtLeast(d, q - q');
    } else if q < q' {
      MulAtLeast(d, q' - q);
    }
  }

  lemma MulAtLeast(d: int, k: int)
    requires d > 0 && k >= 1
    ensures d * k >= d
  {
  }

  /** Splitting off the lowest byte of a residue modulo 256 * p. */
  lemma ModSplit(u: int, p: int)
    requires p > 0
    ensures u % (256 * p) == u % 256 + 256 * ((u / 256) % p)
  {
    var q, r := u / 256, u % 256;
    var a, b := q / p, q % p;
    assert u == (256 * p) * a + (256 * b + r);
    DivModUnique(u, 256 * p, a, 256 * b + r);
  }
}
