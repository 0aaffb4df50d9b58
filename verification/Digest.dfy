/** The order-independent row digest: per bucket a row count, an XOR and a sum of row hashes. */
module Digest {
  import opened Files
  import opened Arithmetic
  import opened Encoding

  const HashSize := 32
  const CountLimit := 0x1_0000_0000_0000_0000

  /** A bucket's state; `sum` is the number its bytes write. */
  datatype Acc = Acc(rows: nat, xor: seq<bv8>, sum: nat)

  function Wrap(n: nat, p: nat): nat
    requires p > 0
  {
    n % p
  }

  function XorWith(xor: seq<bv8>, hash: Bytes): seq<bv8>
    requires |xor| == |hash|
  {
    seq(|xor|, i requires 0 <= i < |xor| => XorByte(xor[i], hash[i]))
  }

  function XorByte(x: bv8, b: Byte): bv8 {
    x ^ b as bv8
  }

  function Accumulate(a: Acc, hash: Bytes): (r: Acc)
    requires |a.xor| == |hash|
    ensures |r.xor| == |a.xor|
  {
    Acc(Wrap(a.rows + 1, CountLimit), XorWith(a.xor, hash), Wrap(a.sum + ReadBigEndian(hash), Power256(|hash|)))
  }

  const Zero := Acc(0, seq(HashSize, _ => 0), 0)

  // ---------------------------------------------------------------- the carry loop

  lemma {:induction false} ReadPrepended(b: Byte, rest: Bytes)
    ensures ReadBigEndian([b] + rest) == b * Power256(|rest|) + ReadBigEndian(rest)
    decreases |rest|
  {
    var all := [b] + rest;
    if rest == [] {
      assert all[..0] == [];
    } else {
      var front, last := rest[..|rest| - 1], rest[|rest| - 1];
      assert all[..|all| - 1] == [b] + front;
      ReadPrepended(b, front);
      PowerStep(|front|);
      ShiftUp(b, Power256(|front|), ReadBigEndian(front));
      hide Power256;
    }
  }

  lemma ShiftUp(b: nat, p: nat, r: nat)
    ensures (b * p + r) * 256 == b * (256 * p) + r * 256
  {
  }

  lemma {:induction false} ReadBound(bytes: Bytes)
    ensures ReadBigEndian(bytes) < Power256(|bytes|)
    decreases |bytes|
  {
    if bytes != [] {
      ReadBound(bytes[..|bytes| - 1]);
    }
  }

  /** One step of the loop, from the low end: the byte r and the carry q it leaves. */
  lemma CarryStep(before: Bytes, value: Bytes, after: Bytes, s: Byte, v: Byte, carry: nat, q: nat, r: Byte)
    requires |before| == |value| == |after| && s + v + carry == 256 * q + r
    requires ReadBigEndian(after) + carry * Power256(|after|) == ReadBigEndian(before) + ReadBigEndian(value)
    ensures ReadBigEndian([r] + after) + q * Power256(|after| + 1)
            == ReadBigEndian([s] + before) + ReadBigEndian([v] + value)
  {
    hide ReadBigEndian, Power256;
    var p := Power256(|after|);
    ReadPrepended(r, after);
    ReadPrepended(s, before);
    ReadPrepended(v, value);
    PowerStep(|after|);
    CarryMoves(p, s, v, carry, q, r);
  }

  lemma PowerStep(n: nat)
    ensures Power256(n + 1) == 256 * Power256(n)
  {
  }

  lemma CarryMoves(p: nat, s: nat, v: nat, carry: nat, q: nat, r: nat)
    requires s + v + carry == 256 * q + r
    ensures s * p + v * p + carry * p == r * p + q * (256 * p)
  {
    assert (s + v + carry) * p == s * p + v * p + carry * p;
    assert (256 * q + r) * p == q * (256 * p) + r * p;
  }

  /** The carry of the lowest n bytes fits one bit; the sum of all of them is the sum modulo their power. */
  lemma SumWraps(before: Bytes, value: Bytes, after: Bytes, carry: nat)
    requires |before| == |value| == |after|
    requires ReadBigEndian(after) + carry * Power256(|after|) == ReadBigEndian(before) + ReadBigEndian(value)
    ensures ReadBigEndian(after) == Wrap(ReadBigEndian(before) + ReadBigEndian(value), Power256(|after|))
  {
    hide ReadBigEndian, Power256;
    ReadBound(after);
    var n, p, r := ReadBigEndian(before) + ReadBigEndian(value), Power256(|after|), ReadBigEndian(after);
    assert n == p * carry + r;
    DivUnique(n, p, carry, r);
  }

  class Accumulator {
    var rows: nat
    const xor: array<bv8>
    const sum: array<Byte>

    predicate Valid()
      reads this
    {
      && xor.Length == HashSize && sum.Length == HashSize && rows < CountLimit
      && xor as object != sum as object
    }

    function State(): Acc
      reads this, xor, sum
    {
      Acc(rows, xor[..], ReadBigEndian(sum[..]))
    }

    constructor ()
      ensures Valid() && fresh(xor) && fresh(sum) && State() == Zero
    {
      rows := 0;
      xor, sum := new bv8[HashSize](_ => 0), new Byte[HashSize](_ => 0);
      new;
      ZeroReads(sum[..]);
      assert xor[..] == seq(HashSize, _ => 0);
    }

    /** XORs and adds a hash in place, byte by byte from the low end. */
    method Add(value: Bytes)
      requires Valid() && |value| == HashSize
      modifies this, xor, sum
      ensures Valid() && State() == Accumulate(old(State()), value)
    {
      hide ReadBigEndian, Power256, XorByte;
      rows := (rows + 1) % CountLimit;
      var carry: nat := 0;
      ReadsNothing(sum[HashSize..], value[HashSize..]);
      ghost var before, was := sum[..], xor[..];
      for i := HashSize downto 0
        invariant carry <= 1 && rows == (old(rows) + 1) % CountLimit
        invariant xor[..i] == was[..i] && sum[..i] == before[..i]
        invariant forall k | i <= k < HashSize :: xor[k] == XorByte(was[k], value[k])
        invariant ReadBigEndian(sum[i..]) + carry * Power256(HashSize - i)
                  == ReadBigEndian(before[i..]) + ReadBigEndian(value[i..])
      {
        ghost var after := sum[i + 1..];
        assert xor[..i + 1][i] == was[i] && sum[..i + 1][i] == before[i];
        xor[i] := XorByte(xor[i], value[i]);
        var total := sum[i] + value[i] + carry;
        CarryStep(before[i + 1..], value[i + 1..], after, sum[i], value[i], carry, total / 256, total % 256);
        sum[i], carry := total % 256, total / 256;
        assert sum[i..] == [total % 256] + after;
        assert before[i..] == [before[i]] + before[i + 1..];
        assert value[i..] == [value[i]] + value[i + 1..];
      }
      assert sum[0..] == sum[..] && before[0..] == before && value[0..] == value;
      SumWraps(before, value, sum[..], carry);
      assert xor[..] == XorWith(was, value);
    }
  }

  lemma ReadsNothing(a: Bytes, b: Bytes)
    requires a == [] && b == []
    ensures ReadBigEndian(a) == ReadBigEndian(b) == 0
  {
  }

  lemma {:induction false} ZeroReads(bytes: Bytes)
    requires forall i | 0 <= i < |bytes| :: bytes[i] == 0
    ensures ReadBigEndian(bytes) == 0
    decreases |bytes|
  {
    if bytes != [] {
      ZeroReads(bytes[..|bytes| - 1]);
    }
  }

  // ---------------------------------------------------------------- order does not matter

  lemma WrapAbsorbs(n: nat, m: nat, p: nat)
    requires p > 0
    ensures Wrap(Wrap(n, p) + m, p) == Wrap(n + m, p)
  {
    var q, r := n / p, n % p + m;
    Distribute(p, q, r / p);
    DivUnique(n + m, p, q + r / p, r % p);
  }

  lemma SumCommutes(s: nat, x: nat, y: nat, p: nat)
    requires p > 0
    ensures Wrap(Wrap(s + x, p) + y, p) == Wrap(Wrap(s + y, p) + x, p)
  {
    hide Wrap;
    WrapAbsorbs(s + x, y, p);
    WrapAbsorbs(s + y, x, p);
    assert s + x + y == s + y + x;
  }

  lemma XorCommutes(a: seq<bv8>, x: Bytes, y: Bytes)
    requires |a| == |x| == |y|
    ensures XorWith(XorWith(a, x), y) == XorWith(XorWith(a, y), x)
  {
    forall i | 0 <= i < |a| ensures XorWith(XorWith(a, x), y)[i] == XorWith(XorWith(a, y), x)[i] {
      XorSwaps(a[i], x[i] as bv8, y[i] as bv8);
    }
  }

  lemma XorSwaps(a: bv8, x: bv8, y: bv8)
    ensures (a ^ x) ^ y == (a ^ y) ^ x
  {
  }

  /** Adding two hashes in either order gives the same state. */
  lemma AccumulateCommutes(a: Acc, x: Bytes, y: Bytes)
    requires |a.xor| == |x| == |y|
    ensures Accumulate(Accumulate(a, x), y) == Accumulate(Accumulate(a, y), x)
  {
    hide ReadBigEndian, Power256, Wrap;
    SumCommutes(a.sum, ReadBigEndian(x), ReadBigEndian(y), Power256(|x|));
    XorCommutes(a.xor, x, y);
  }
}
