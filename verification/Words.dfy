/** Machine words: the ranges at which the source's unsigned integers wrap. */
module Words {
  const U64: nat := 0x1_0000_0000_0000_0000
  const U128: nat := 0x1_0000_0000_0000_0000_0000_0000_0000_0000

  function Wrap64(n: nat): nat { n % 0x1_0000_0000_0000_0000 }

  function Wrap128(n: nat): nat { n % 0x1_0000_0000_0000_0000_0000_0000_0000_0000 }

  /** Wrapping early or late gives the same sum. */
  lemma WrapOnce(x: nat, y: nat)
    ensures Wrap128(Wrap128(x) + y) == Wrap128(x + y)
  {
    var low := Wrap128(x) + y;
    var k, j := x / 0x1_0000_0000_0000_0000_0000_0000_0000_0000, low / 0x1_0000_0000_0000_0000_0000_0000_0000_0000;
    Remainder(x + y, k + j, Wrap128(low));
  }

  lemma Remainder(n: nat, k: nat, r: nat)
    requires n == k * 0x1_0000_0000_0000_0000_0000_0000_0000_0000 + r && r < U128
    ensures Wrap128(n) == r
  {
  }

  lemma NoWrap(x: nat)
    ensures x < U128 ==> Wrap128(x) == x
    ensures Wrap128(x) < U128
  {
  }
}
