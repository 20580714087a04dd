/** The oracle contract: averages, ring buffer and reports updated in place; median, consensus and
    trend computed by loops over storage. */
module XwapContract {
  import opened MapSums
  import opened PriceMedian
  import opened Words
  import opened XwapModel
  import opened XwapTheorems

  class Oracle {
    var ewmaA: nat
    var ewmaB: nat
    var alpha: nat
    var price: nat
    var prevPrice: nat
    var ring: Ring
    var keepers: seq<Address>
    var reports: map<Address, Report>
    var cfg: Config

    ghost function Abs(): State
      reads this
    {
      State(ewmaA, ewmaB, alpha, price, prevPrice, ring, keepers, reports, cfg)
    }

    constructor ()
      ensures ValidConfig(cfg) && Seeded(Abs()) && Refines(ring, []) && LogTail(Abs(), []) && keepers == []
    {
      cfg := Config(50, 700, 250, 250, 100, 2, 800);
      ewmaA, ewmaB, alpha, price, prevPrice := 0, 0, 50, 0, 0;
      ring := Ring(map[], 0, 0);
      keepers, reports := [], map[];
    }

    method SubmitReport(caller: Address, priceX1e18: nat, block: nat) returns (ok: bool)
      requires ValidConfig(cfg)
      modifies this
      ensures ok == Step(old(Abs()), ReportPrice(caller, priceX1e18, block)).Done?
      ensures Abs() == After(old(Abs()), ReportPrice(caller, priceX1e18, block))
    {
      if caller !in keepers || priceX1e18 == 0 { return false; }
      reports := reports[caller := Report(priceX1e18, block)];
      return true;
    }

    method MedianOffChain(block: nat) returns (m: nat)
      ensures m == Median(Abs(), block)
    {
      var prices: seq<nat> := [];
      for i := 0 to |keepers|
        invariant prices == FreshPrices(keepers[..i], reports, block, cfg.freshness)
      {
        var k := keepers[i];
        assert keepers[..i + 1][..i] == keepers[..i];
        if k in reports && SaturatingSub(block, reports[k].block) <= cfg.freshness {
          prices := prices + [reports[k].price];
        }
      }
      assert keepers[..|keepers|] == keepers;
      m := ComputeMedian(prices);
    }

    method CheckGate(spot: nat, block: nat) returns (open: bool, divergencePermille: nat)
      ensures open == GateOpen(Abs(), spot, block)
      ensures Median(Abs(), block) == 0 ==> divergencePermille == U64 - 1
      ensures var m := Median(Abs(), block); m > 0 ==> divergencePermille == ToU64(Divergence(spot, m), U64 - 1)
    {
      var median := MedianOffChain(block);
      if median == 0 { return false, U64 - 1; }
      var divergence := if spot > median then (spot - median) * 1_000 / median else (median - spot) * 1_000 / median;
      divergencePermille := ToU64(divergence, U64 - 1);
      open := divergencePermille < cfg.gateThreshold;
    }

    method ReportAgrees(k: Address, block: nat, median: nat) returns (ok: bool)
      requires median > 0
      ensures ok == Agrees(Abs(), k, block, median)
    {
      if k !in reports || SaturatingSub(block, reports[k].block) > cfg.freshness { return false; }
      var p := reports[k].price;
      var divergence := if p > median then (p - median) * 1_000 / median else (median - p) * 1_000 / median;
      ok := ToU64(divergence, U64 - 1) <= TOLERANCE_PERMILLE;
    }

    method CountAgreeing(block: nat, median: nat) returns (agreeing: nat)
      requires median > 0
      ensures agreeing == Agreeing(Abs(), keepers, block, median)
    {
      agreeing := 0;
      for i := 0 to |keepers|
        invariant agreeing == Agreeing(Abs(), keepers[..i], block, median)
      {
        assert keepers[..i + 1][..i] == keepers[..i];
        var agrees := ReportAgrees(keepers[i], block, median);
        if agrees {
          agreeing := agreeing + 1;
        }
      }
      assert keepers[..|keepers|] == keepers;
    }

    method CheckConsensus(block: nat) returns (ok: bool)
      ensures ok == Consensus(Abs(), block)
    {
      var median := MedianOffChain(block);
      if median == 0 || |keepers| == 0 { return false; }
      var agreeing := CountAgreeing(block, median);
      ok := agreeing * 1_000 / |keepers| >= cfg.consensusMin;
    }

    method CheckFreshness(block: nat) returns (ok: bool)
      ensures ok == AnyFresh(Abs(), block)
    {
      for i := 0 to |keepers|
        invariant forall k :: k in keepers[..i] ==> !Fresh(reports, k, block, cfg.freshness)
      {
        if keepers[i] in reports && SaturatingSub(block, reports[keepers[i]].block) <= cfg.freshness {
          assert Fresh(reports, keepers[i], block, cfg.freshness);
          return true;
        }
      }
      assert keepers[..|keepers|] == keepers;
      return false;
    }

    /** `compute_signals`; `isSafeToExecute` answers its last flag. */
    method ComputeSignals(block: nat) returns (r: Signals)
      ensures r == Signals(GateOpen(Abs(), price, block), Consensus(Abs(), block), AnyFresh(Abs(), block),
                           Stability(Abs()), Safe(Abs(), block))
    {
      var gateOpen, _ := CheckGate(price, block);
      var consensus := CheckConsensus(block);
      var recent := CheckFreshness(block);
      var stability := 0;
      if prevPrice != 0 && price != 0 {
        var diff := if price > prevPrice then (price - prevPrice) * 1_000 / prevPrice
                    else (prevPrice - price) * 1_000 / prevPrice;
        stability := ToU64(diff, 999);
      }
      r := Signals(gateOpen, consensus, recent, stability, gateOpen && consensus && recent);
    }

    /** Walks the ring from the newest entry back, counting steps up and down. */
    method DetectTrend() returns (trend: bool)
      ensures trend == Trending(ring)
    {
      if ring.count < TREND_MIN_HISTORY { return false; }
      var up, down := 0, 0;
      ghost var w := Window(ring);
      assert w[..9] == w;
      var i := 0;
      while i < TREND_WINDOW
        invariant 0 <= i <= TREND_WINDOW
        invariant up + Rises(w[..9 - i]) == Rises(w) && down + Falls(w[..9 - i]) == Falls(w)
      {
        var newer := Slot(ring, i + 1);
        var older := Slot(ring, i + 2);
        assert w[8 - i] == newer && w[7 - i] == older;
        assert w[..9 - i][..8 - i] == w[..8 - i];
        if newer > older {
          up := up + 1;
        } else if newer < older {
          down := down + 1;
        }
        i := i + 1;
      }
      trend := up >= TREND_THRESHOLD || down >= TREND_THRESHOLD;
    }

    method ComputeAlpha(gateOpen: bool) returns (weight: nat)
      requires ValidConfig(cfg)
      ensures weight == Alpha(Abs(), gateOpen) && cfg.alphaMin <= weight <= cfg.alphaMax
    {
      AlphaBounded(Abs(), gateOpen);
      if ring.count < 5 || prevPrice == 0 { return cfg.alphaMin; }
      var vol := ToU64(Divergence(price, prevPrice), cfg.alphaMax * 1_000 / 3);
      weight := Max(Min(Wrap64(vol * 3), cfg.alphaMax), cfg.alphaMin);
      var trend := DetectTrend();
      if trend {
        weight := Min(weight + cfg.trendBoost, cfg.alphaMax);
      }
      if gateOpen {
        weight := Min(weight + cfg.gateBoost, cfg.alphaMax);
      }
    }

    method UpdateEwmaReserves(reserveA: nat, reserveB: nat, weight: nat)
      requires weight <= ALPHA_SCALE
      modifies this`ewmaA, this`ewmaB
      ensures ewmaA == Ewma(old(ewmaA), reserveA, weight) && ewmaB == Ewma(old(ewmaB), reserveB, weight)
    {
      ewmaA := if ewmaA == 0 then reserveA
               else (Times(weight, reserveA) + Times(ALPHA_SCALE - weight, ewmaA)) / ALPHA_SCALE;
      ewmaB := if ewmaB == 0 then reserveB
               else (Times(weight, reserveB) + Times(ALPHA_SCALE - weight, ewmaB)) / ALPHA_SCALE;
    }

    method PushPrice(newXwap: nat)
      modifies this`ring
      ensures ring == Push(old(ring), newXwap)
    {
      var idx := ring.idx;
      ring := ring.(slots := ring.slots[idx := newXwap]);
      ring := ring.(idx := (idx + 1) % HISTORY_LEN);
      ring := ring.(count := ring.count + 1);
    }

    method UpdatePrice(a: nat, b: nat, block: nat) returns (ok: bool)
      requires ValidConfig(cfg)
      modifies this
      ensures ok == Step(old(Abs()), Update(a, b, block)).Done?
      ensures Abs() == After(old(Abs()), Update(a, b, block))
    {
      if a == 0 || b == 0 { return false; }
      var spot := PriceOf(b, a);
      var gateOpen, _ := CheckGate(spot, block);
      var weight := ComputeAlpha(gateOpen);
      var beforeA, beforeB := ewmaA, ewmaB;
      UpdateEwmaReserves(a * SCALE, b * SCALE, weight);
      if ewmaA == 0 {
        ewmaA, ewmaB := beforeA, beforeB;
        return false;
      }
      var newXwap := PriceOf(ewmaB, ewmaA);
      PushPrice(newXwap);
      prevPrice := price;
      price := newXwap;
      alpha := weight;
      ok := true;
    }

    method SetAlphas(lo: nat, hi: nat, byOwner: bool) returns (ok: bool)
      requires ValidConfig(cfg)
      modifies this`cfg
      ensures ok == (byOwner && Step(old(Abs()), SetAlphaBounds(lo, hi)).Done?)
      ensures Abs() == if ok then After(old(Abs()), SetAlphaBounds(lo, hi)) else old(Abs())
    {
      if !byOwner || lo >= hi || hi > ALPHA_SCALE { return false; }
      cfg := cfg.(alphaMin := lo, alphaMax := hi);
      return true;
    }
  }
}
