/** Unsigned big-endian numbers as sequences of bytes. */
module BigEndian {
  type Byte = x: int | 0 <= x < 0x100

  function Value(bs: seq<Byte>): nat {
    if bs == [] then 0 else Value(bs[..|bs| - 1]) * 0x100 + bs[|bs| - 1]
  }

  function Zeros(k: nat): (z: seq<Byte>)
    ensures |z| == k
  {
    seq(k, i => 0)
  }

  function Pow256(k: nat): nat {
    if k == 0 then 1 else 0x100 * Pow256(k - 1)
  }

  lemma ValueSnoc(bs: seq<Byte>, b: Byte)
    ensures Value(bs + [b]) == Value(bs) * 0x100 + b
  {
    assert (bs + [b])[..|bs|] == bs;
  }

  /** Leading zeros do not count. */
  lemma {:induction false} ValueOfPadded(k: nat, bs: seq<Byte>)
    ensures Value(Zeros(k) + bs) == Value(bs)
    decreases |bs|, k
  {
    var s := Zeros(k) + bs;
    if bs == [] {
      if k > 0 {
        assert s[..k - 1] == Zeros(k - 1) + [];
        ValueOfPadded(k - 1, []);
      }
    } else {
      assert s[..|s| - 1] == Zeros(k) + bs[..|bs| - 1];
      ValueOfPadded(k, bs[..|bs| - 1]);
    }
  }

  lemma ValueSkipsZero(bs: seq<Byte>)
    requires bs != [] && bs[0] == 0
    ensures Value(bs) == Value(bs[1..])
  {
    assert bs == Zeros(1) + bs[1..];
    ValueOfPadded(1, bs[1..]);
  }

  lemma {:induction false} ValueBelow(bs: seq<Byte>)
    ensures Value(bs) < Pow256(|bs|)
  {
    if bs != [] { ValueBelow(bs[..|bs| - 1]); }
  }

  lemma {:induction false} ValueAtLeast(bs: seq<Byte>)
    requires bs != [] && bs[0] != 0
    ensures Value(bs) >= Pow256(|bs| - 1)
  {
    if |bs| > 1 {
      ValueAtLeast(bs[..|bs| - 1]);
    } else {
      assert bs[..0] == [];
    }
  }

  lemma {:induction false} PowGrows(j: nat, k: nat)
    requires j <= k
    ensures Pow256(j) <= Pow256(k)
  {
    if j < k { PowGrows(j, k - 1); }
  }

  lemma {:induction false} PowAdd(j: nat, k: nat)
    ensures Pow256(j + k) == Pow256(j) * Pow256(k)
  {
    if j > 0 {
      PowAdd(j - 1, k);
      assert Pow256(j + k) == 0x100 * Pow256(j - 1 + k);
      assert 0x100 * (Pow256(j - 1) * Pow256(k)) == (0x100 * Pow256(j - 1)) * Pow256(k);
    }
  }

  const TWO_TO_56 := 0x100_0000_0000_0000
  const TWO_TO_64 := 0x1_0000_0000_0000_0000
  const TWO_TO_256 := 0x1_0000_0000_0000_0000_0000_0000_0000_0000_0000_0000_0000_0000_0000_0000_0000_0000

  lemma Powers()
    ensures Pow256(7) == TWO_TO_56 && Pow256(32) == TWO_TO_256
  {
    assert Pow256(1) == 0x100 && Pow256(2) == 0x1_0000 && Pow256(3) == 0x100_0000 && Pow256(4) == 0x1_0000_0000;
    assert Pow256(5) == 0x100_0000_0000 && Pow256(6) == 0x1_0000_0000_0000 && Pow256(7) == TWO_TO_56;
    assert Pow256(8) == TWO_TO_64;
    PowAdd(8, 8);
    PowAdd(16, 16);
  }

  /** Without leading zeros, the number of bytes tells the size of the number. */
  lemma SizeOfStripped(bs: seq<Byte>, k: nat)
    requires bs == [] || bs[0] != 0
    ensures Value(bs) < Pow256(k) <==> |bs| <= k
  {
    if |bs| <= k {
      ValueBelow(bs);
      PowGrows(|bs|, k);
    } else {
      ValueAtLeast(bs);
      PowGrows(k, |bs| - 1);
    }
  }
}
