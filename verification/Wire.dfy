/** Fixed-width integers, little-endian fields and the shared option type. */
module Wire {
  type Byte = x: int | 0 <= x < 0x100
  type U16 = x: int | 0 <= x < 0x1_0000
  type U32 = x: int | 0 <= x < 0x1_0000_0000
  type U64 = x: int | 0 <= x < 0x1_0000_0000_0000_0000
  type U128 = x: int | 0 <= x < 0x1_0000_0000_0000_0000_0000_0000_0000_0000

  const U32_MAX: nat := 0xFFFF_FFFF
  const U64_MAX: nat := 0xFFFF_FFFF_FFFF_FFFF

  datatype Option<+T> = None | Some(value: T)

  function Pow256(width: nat): (p: nat)
    ensures 0 < p
  {
    if width == 0 then 1 else 256 * Pow256(width - 1)
  }

  /** The `width` low bytes of `n`, least significant first. */
  function ToLe(n: nat, width: nat): (bytes: seq<Byte>)
    ensures |bytes| == width
    decreases width, n
  {
    if width == 0 then [] else [n % 256] + ToLe(n / 256, width - 1)
  }

  function FromLe(bytes: seq<Byte>): (n: nat)
    ensures n < Pow256(|bytes|)
  {
    if |bytes| == 0 then 0 else bytes[0] + 256 * FromLe(bytes[1..])
  }

  lemma {:induction false} DecodeEncodeLe(n: nat, width: nat)
    requires n < Pow256(width)
    ensures FromLe(ToLe(n, width)) == n
  {
    if width == 0 {
    } else {
      DecodeEncodeLe(n / 256, width - 1);
      assert ToLe(n, width)[1..] == ToLe(n / 256, width - 1);
    }
  }

  lemma {:induction false} EncodeDecodeLe(bytes: seq<Byte>)
    ensures ToLe(FromLe(bytes), |bytes|) == bytes
  {
    if |bytes| == 0 {
    } else {
      var rest := FromLe(bytes[1..]);
      EncodeDecodeLe(bytes[1..]);
      assert FromLe(bytes) % 256 == bytes[0] && FromLe(bytes) / 256 == rest;
    }
  }

  /** Two values that fit the width and share an encoding are equal. */
  lemma EncodeLeInjective(a: nat, b: nat, width: nat)
    requires a < Pow256(width) && b < Pow256(width)
    requires ToLe(a, width) == ToLe(b, width)
    ensures a == b
  {
    DecodeEncodeLe(a, width);
    DecodeEncodeLe(b, width);
  }

  lemma AtLeast(k: int, d: nat)
    requires 1 <= k
    ensures k * d >= d
  {
    assert k * d == (k - 1) * d + d;
  }

  lemma Quotient(n: int, d: nat, q: int, r: int)
    requires 0 < d && n == q * d + r && 0 <= r < d
    ensures n / d == q
  {
    var (p, s) := (n / d, n % d);
    assert (p - q) * d == p * d - q * d == r - s;
    if p > q { AtLeast(p - q, d); }
    if q > p {
      assert (q - p) * d == -((p - q) * d);
      AtLeast(q - p, d);
    }
  }

  /** Dividing by 256 and then by `d` is dividing by both at once. */
  lemma Shifts(n: nat, d: nat)
    requires 0 < d
    ensures n / (256 * d) == n / 256 / d
  {
    var (q, r) := (n / 256 / d, n / 256 % d);
    assert n / 256 == q * d + r;
    assert q * (256 * d) == 256 * (q * d);
    Quotient(n, 256 * d, q, 256 * r + n % 256);
  }

  /** The byte at place `i` is the number's digit for 256 to the power `i`. */
  lemma {:induction false} Digits(n: nat, width: nat, i: nat)
    requires i < width
    ensures ToLe(n, width)[i] == n / Pow256(i) % 256
    decreases i
  {
    if i > 0 {
      Digits(n / 256, width - 1, i - 1);
      Shifts(n, Pow256(i - 1));
    }
  }

  lemma FieldWidths()
    ensures Pow256(2) == 0x1_0000
    ensures Pow256(4) == 0x1_0000_0000
    ensures Pow256(8) == 0x1_0000_0000_0000_0000
    ensures Pow256(16) == 0x1_0000_0000_0000_0000_0000_0000_0000_0000
  {
    assert Pow256(4) == 0x1_0000_0000;
    assert Pow256(8) == 256 * (256 * (256 * (256 * Pow256(4))));
    assert Pow256(12) == 256 * (256 * (256 * (256 * Pow256(8))));
    assert Pow256(16) == 256 * (256 * (256 * (256 * Pow256(12))));
  }
}
