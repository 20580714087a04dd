/** What the oracle's operations mean: which weight an update uses and what it writes, what a report is worth and
    for how long, and who is asked. */
module XwapMeaning {
  import opened MapSums
  import opened PriceMedian
  import opened Words
  import opened XwapModel
  import opened XwapTheorems

  // ---------- The weight ----------

  /** `v` is how far the price moved, in thousandths of the previous price, rounded down. */
  predicate MovedBy(price: nat, prev: nat, v: nat) { v * prev <= 1_000 * Distance(price, prev) < (v + 1) * prev }

  /** Three times the move; beyond 64 bits the product wraps, and a move that is itself beyond 64 bits counts as
      the greatest weight. */
  function Thrice(v: nat, most: nat): nat {
    if v >= 0x1_0000_0000_0000_0000 then most
    else if 3 * v >= 0x2_0000_0000_0000_0000 then 3 * v - 0x2_0000_0000_0000_0000
    else if 3 * v >= 0x1_0000_0000_0000_0000 then 3 * v - 0x1_0000_0000_0000_0000
    else 3 * v
  }

  function Clamp(x: nat, lo: nat, hi: nat): nat { if x < lo then lo else if x > hi then hi else x }

  lemma DivisionUnique(n: nat, d: nat, v: nat)
    requires d > 0 && v * d <= n < (v + 1) * d
    ensures n / d == v
  {
    Floored(n, d);
    var q := n / d;
    if q < v {
      MulMono(d, q + 1, v);
    } else if v < q {
      MulMono(d, v + 1, q);
    }
  }

  lemma WrapThrice(v: nat)
    requires v < 0x1_0000_0000_0000_0000
    ensures forall most :: Wrap64(v * 3) == Thrice(v, most)
  {
  }

  /** A move beyond 64 bits is replaced by a third of a thousand times the greatest weight, more than enough. */
  lemma WrapMost(hi: nat, lo: nat)
    requires lo < hi <= 1_000
    ensures Max(Min(Wrap64(hi * 1_000 / 3 * 3), hi), lo) == hi
  {
  }

  /** The weight before the boosts. */
  lemma CalmWeight(s: State, v: nat)
    requires ValidConfig(s.cfg) && s.prevPrice > 0 && MovedBy(s.price, s.prevPrice, v)
    ensures var vol := ToU64(Divergence(s.price, s.prevPrice), s.cfg.alphaMax * 1_000 / 3);
            Max(Min(Wrap64(vol * 3), s.cfg.alphaMax), s.cfg.alphaMin) ==
            Clamp(Thrice(v, s.cfg.alphaMax), s.cfg.alphaMin, s.cfg.alphaMax)
  {
    DivisionUnique(Distance(s.price, s.prevPrice) * 1_000, s.prevPrice, v);
    if v < 0x1_0000_0000_0000_0000 {
      WrapThrice(v);
    } else {
      WrapMost(s.cfg.alphaMax, s.cfg.alphaMin);
    }
  }

  /** The weight of an update: the least one for the first five and without a previous price; otherwise three times
      the last move, held between the bounds, raised by the trend boost in a trend and by the gate boost with the
      gate open, never above the greatest. */
  lemma AlphaMeaning(s: State, gateOpen: bool, v: nat)
    requires ValidConfig(s.cfg)
    ensures s.ring.count < 5 || s.prevPrice == 0 ==> Alpha(s, gateOpen) == s.cfg.alphaMin
    ensures s.ring.count >= 5 && s.prevPrice > 0 ==>
              Alpha(s, true) == Min(s.cfg.alphaMax, Alpha(s, false) + s.cfg.gateBoost)
    ensures s.ring.count >= 5 && s.prevPrice > 0 && MovedBy(s.price, s.prevPrice, v) ==>
              var calm := Clamp(Thrice(v, s.cfg.alphaMax), s.cfg.alphaMin, s.cfg.alphaMax);
              Alpha(s, false) == if Trending(s.ring) then Min(s.cfg.alphaMax, calm + s.cfg.trendBoost) else calm
  {
    if s.prevPrice > 0 && MovedBy(s.price, s.prevPrice, v) {
      CalmWeight(s, v);
    }
  }

  /** The weight with the gate closed, in terms of the published prices: it follows the last two of them and the
      trend of the last nine. */
  predicate WeighsAs(e: State, log: seq<nat>, v: nat) {
    |log| >= 9 &&
    var calm := Clamp(Thrice(v, e.cfg.alphaMax), e.cfg.alphaMin, e.cfg.alphaMax);
    Alpha(e, false) == if IsTrend(log[|log| - 9..]) then Min(e.cfg.alphaMax, calm + e.cfg.trendBoost) else calm
  }

  lemma WeightFromLog(e: State, log: seq<nat>, v: nat)
    requires ValidConfig(e.cfg) && |log| >= 9 && e.ring.count == |log| && LogTail(e, log)
    requires Trending(e.ring) <==> IsTrend(log[|log| - 9..])
    requires log[|log| - 2] > 0 && MovedBy(log[|log| - 1], log[|log| - 2], v)
    ensures WeighsAs(e, log, v)
  {
    AlphaMeaning(e, false, v);
  }

  /** So it is on every run of a new oracle, from nine updates on. */
  lemma WeightOfHistory(s: State, ops: seq<Op>, v: nat)
    requires ValidConfig(s.cfg) && s.ring == Ring(map[], 0, 0) && s.price == 0 && s.prevPrice == 0
    requires var log := Log(s, ops);
             |log| >= 9 && log[|log| - 2] > 0 && MovedBy(log[|log| - 1], log[|log| - 2], v)
    ensures WeighsAs(Run(s, ops), Log(s, ops), v)
  {
    TrendRefinesHistory(s, ops);
    LogTailRun(s, ops, []);
    assert [] + Log(s, ops) == Log(s, ops);
    WeightFromLog(Run(s, ops), Log(s, ops), v);
  }

  /** "Three times the move, held between the bounds" is what the code computes exactly when the product, if it
      leaves 64 bits while the move does not, comes back at the greatest weight or above. */
  lemma WeightExact(v: nat, lo: nat, hi: nat)
    requires lo < hi <= 1_000
    ensures Clamp(Thrice(v, hi), lo, hi) == Clamp(3 * v, lo, hi) <==>
            !(v < 0x1_0000_0000_0000_0000 <= 3 * v && (3 * v) % 0x1_0000_0000_0000_0000 < hi)
  {
  }

  /** It can come back below: this move, of more than six quintillion thousandths, weighs the least there is. */
  lemma WeightWraps(lo: nat, hi: nat)
    requires 2 <= lo < hi <= 1_000
    ensures Clamp(Thrice(6_148_914_691_236_517_206, hi), lo, hi) == lo
  {
  }

  // ---------- Updates ----------

  /** Exactly when the gate is open. */
  lemma GateMeans(s: State, spot: nat, block: nat)
    requires ValidConfig(s.cfg)
    ensures var median := Median(s, block);
            GateOpen(s, spot, block) <==>
              median > 0 && Distance(spot, median) * 1_000 < s.cfg.gateThreshold * median
  {
    var median := Median(s, block);
    if median > 0 {
      FlooredBelow(Distance(spot, median) * 1_000, median, s.cfg.gateThreshold);
    }
  }

  /** `price` is b/a in units of the eighteenth decimal, rounded down. */
  predicate PricedAt(price: nat, b: nat, a: nat) { price * a <= b * 1_000_000_000_000_000_000 < (price + 1) * a }

  lemma PriceMeaning(b: nat, a: nat)
    requires a > 0
    ensures PricedAt(PriceOf(b, a), b, a)
  {
    Floored(b * SCALE, a);
  }

  /** What an update does: the gate is asked about the pool's own price, the weight is that of the state before, the
      averages are the floored mixtures with that weight, or the first reserves themselves, and the published
      price is their ratio. */
  lemma UpdateMeaning(s: State, a: nat, b: nat, block: nat, spot: nat)
    requires ValidConfig(s.cfg) && Seeded(s) && a > 0 && b > 0 && PricedAt(spot, b, a)
    ensures var n := After(s, Update(a, b, block));
            && n.alpha == Alpha(s, GateOpen(s, spot, block))
            && (s.ring.count == 0 ==>
                  n.ewmaA == a * 1_000_000_000_000_000_000 && n.ewmaB == b * 1_000_000_000_000_000_000)
            && (s.ring.count > 0 ==>
                  && Mixes(n.ewmaA, n.alpha, a * 1_000_000_000_000_000_000, s.ewmaA)
                  && Mixes(n.ewmaB, n.alpha, b * 1_000_000_000_000_000_000, s.ewmaB))
            && n.ewmaA > 0 && PricedAt(n.price, n.ewmaB, n.ewmaA) && n.prevPrice == s.price
  {
    UpdateFacts(s, a, b, block);
    var n := After(s, Update(a, b, block));
    DivisionUnique(b * SCALE, a, spot);
    PriceMeaning(n.ewmaB, n.ewmaA);
    if s.ring.count > 0 {
      EwmaMixes(s.ewmaA, a * SCALE, n.alpha);
      EwmaMixes(s.ewmaB, b * SCALE, n.alpha);
    }
  }

  /** The stability signal: how far the last update moved the price, capped at 999 beyond 64 bits. */
  lemma StabilityMeaning(s: State, v: nat)
    ensures s.price == 0 || s.prevPrice == 0 ==> Stability(s) == 0
    ensures s.price > 0 && s.prevPrice > 0 && MovedBy(s.price, s.prevPrice, v) ==>
              Stability(s) == if v < 0x1_0000_0000_0000_0000 then v else 999
  {
    if s.price > 0 && s.prevPrice > 0 && MovedBy(s.price, s.prevPrice, v) {
      DivisionUnique(Distance(s.price, s.prevPrice) * 1_000, s.prevPrice, v);
    }
  }

  // ---------- Reports ----------

  /** An accepted report of `k`. */
  predicate Reports(s: State, op: Op, k: Address)
    requires ValidConfig(s.cfg)
  {
    op.ReportPrice? && op.k == k && Step(s, op).Done?
  }

  /** Exactly a registered keeper can report, and not zero; then its report is that price, at that block. */
  lemma ReportIff(s: State, k: Address, price: nat, block: nat)
    requires ValidConfig(s.cfg)
    ensures var op := ReportPrice(k, price, block);
            && (Step(s, op).Done? <==> k in s.keepers && price > 0)
            && (Step(s, op).Done? ==> k in After(s, op).reports && After(s, op).reports[k] == Report(price, block))
  {
  }

  predicate NoneReports(s: State, ops: seq<Op>, k: Address)
    requires ValidConfig(s.cfg)
    decreases |ops|
  {
    ops == [] || (!Reports(s, ops[0], k) && NoneReports(After(s, ops[0]), ops[1..], k))
  }

  lemma {:induction false} ReportKept(s: State, ops: seq<Op>, k: Address)
    requires ValidConfig(s.cfg) && NoneReports(s, ops, k) && k in s.reports
    ensures k in Run(s, ops).reports && Run(s, ops).reports[k] == s.reports[k]
    decreases |ops|
  {
    if ops != [] {
      ReportKept(After(s, ops[0]), ops[1..], k);
    }
  }

  /** A report stands until the keeper reports again, whatever else happens, and is fresh exactly for the configured
      number of blocks. */
  lemma ReportStands(s: State, k: Address, price: nat, block: nat, ops: seq<Op>, later: nat)
    requires ValidConfig(s.cfg) && Step(s, ReportPrice(k, price, block)).Done?
    requires NoneReports(After(s, ReportPrice(k, price, block)), ops, k)
    ensures var e := Run(After(s, ReportPrice(k, price, block)), ops);
            && k in e.reports && e.reports[k].price == price
            && (Fresh(e.reports, k, later, e.cfg.freshness) <==> later <= block + e.cfg.freshness)
  {
    ReportIff(s, k, price, block);
    ReportKept(After(s, ReportPrice(k, price, block)), ops, k);
  }

  // ---------- Who is asked ----------

  predicate Distinct(ks: seq<Address>) { forall i, j :: 0 <= i < j < |ks| ==> ks[i] != ks[j] }

  /** Registration adds the keeper, removal takes out that keeper and no other; nobody is listed twice. */
  lemma KeepersStep(s: State, op: Op, k: Address)
    requires ValidConfig(s.cfg) && Distinct(s.keepers)
    ensures Distinct(After(s, op).keepers)
    ensures k in After(s, op).keepers <==>
              (k in s.keepers && op != RemoveKeeper(k)) || op == RegisterKeeper(k)
  {
    if op.RemoveKeeper? {
      SwapRemoves(s.keepers, op.k);
    }
  }

  lemma SwapRemoves(ks: seq<Address>, k: Address)
    requires Distinct(ks)
    ensures Distinct(SwapRemove(ks, k))
    ensures forall x :: x in SwapRemove(ks, k) <==> x in ks && x != k
  {
    if k in ks {
      var i, n := IndexOf(ks, k), |ks| - 1;
      var r := SwapRemove(ks, k);
      assert forall j :: 0 <= j < n ==> r[j] == if j == i then ks[n] else ks[j];
      forall x | x in ks && x != k ensures x in r {
        var j :| 0 <= j < |ks| && ks[j] == x;
        assert r[if j == n then i else j] == x;
      }
    }
  }

  /** How many keepers hold fresh reports, and how many of those lie within [lo, hi]. */
  function FreshCount(s: State, ks: seq<Address>, block: nat): nat {
    if ks == [] then 0 else
      FreshCount(s, ks[..|ks| - 1], block)
      + (if Fresh(s.reports, ks[|ks| - 1], block, s.cfg.freshness) then 1 else 0)
  }

  function FreshWithin(s: State, ks: seq<Address>, block: nat, lo: nat, hi: nat): nat {
    if ks == [] then 0 else
      FreshWithin(s, ks[..|ks| - 1], block, lo, hi)
      + (var k := ks[|ks| - 1];
         if Fresh(s.reports, k, block, s.cfg.freshness) && lo <= s.reports[k].price <= hi then 1 else 0)
  }

  lemma {:induction false} FreshPricesCounted(s: State, ks: seq<Address>, block: nat, lo: nat, hi: nat)
    ensures var ps := FreshPrices(ks, s.reports, block, s.cfg.freshness);
            |ps| == FreshCount(s, ks, block) && CountIn(ps, lo, hi) == FreshWithin(s, ks, block, lo, hi)
    decreases |ks|
  {
    if ks != [] {
      var init, k := ks[..|ks| - 1], ks[|ks| - 1];
      FreshPricesCounted(s, init, block, lo, hi);
      if Fresh(s.reports, k, block, s.cfg.freshness) {
        CountConcat(FreshPrices(init, s.reports, block, s.cfg.freshness), [s.reports[k].price], lo, hi);
        assert [s.reports[k].price][1..] == [];
      } else {
        assert FreshPrices(init, s.reports, block, s.cfg.freshness) + [] ==
               FreshPrices(init, s.reports, block, s.cfg.freshness);
      }
    }
  }

  lemma {:induction false} FreshCountPositive(s: State, ks: seq<Address>, block: nat)
    ensures FreshCount(s, ks, block) > 0 <==>
            exists i :: 0 <= i < |ks| && Fresh(s.reports, ks[i], block, s.cfg.freshness)
    decreases |ks|
  {
    if ks != [] {
      FreshCountPositive(s, ks[..|ks| - 1], block);
      if i :| 0 <= i < |ks| - 1 && Fresh(s.reports, ks[i], block, s.cfg.freshness) {
        assert ks[..|ks| - 1][i] == ks[i];
      }
    }
  }

  /** The freshness flag says that some registered keeper holds a fresh report; without one the median is zero. */
  lemma FreshFlagMeans(s: State, block: nat)
    ensures AnyFresh(s, block) <==> FreshCount(s, s.keepers, block) > 0
    ensures Median(s, block) > 0 ==> AnyFresh(s, block)
  {
    FreshCountPositive(s, s.keepers, block);
    FreshPricesCounted(s, s.keepers, block, 0, 0);
  }

  /** If more than half of the keepers with fresh reports report prices within [lo, hi], that is where the median is,
      whatever the others say. */
  lemma MajorityDecides(s: State, block: nat, lo: nat, hi: nat)
    requires 2 * FreshWithin(s, s.keepers, block, lo, hi) > FreshCount(s, s.keepers, block)
    ensures lo <= Median(s, block) <= hi
  {
    FreshPricesCounted(s, s.keepers, block, lo, hi);
    MedianRobust(FreshPrices(s.keepers, s.reports, block, s.cfg.freshness), lo, hi);
  }

  // ---------- Configuration ----------

  /** The setters store what they are given, within these ranges, and refuse everything else. */
  lemma SettersMean(s: State, x: nat, y: nat)
    requires ValidConfig(s.cfg)
    ensures After(s, SetAlphaBounds(x, y)).cfg ==
            if x < y <= 1_000 then s.cfg.(alphaMin := x, alphaMax := y) else s.cfg
    ensures After(s, SetBoosts(x, y)).cfg ==
            if x <= 500 && y <= 500 then s.cfg.(trendBoost := x, gateBoost := y) else s.cfg
    ensures After(s, SetGateThreshold(x)).cfg == if 0 < x < 1_000 then s.cfg.(gateThreshold := x) else s.cfg
    ensures After(s, SetConsensusMin(x)).cfg == if 500 <= x <= 1_000 then s.cfg.(consensusMin := x) else s.cfg
    ensures After(s, SetFreshness(x)).cfg == if 0 < x <= 20 then s.cfg.(freshness := x) else s.cfg
  {
  }
}
