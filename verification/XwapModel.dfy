/** The XWAP price oracle: an exponentially weighted average of pool reserves with floored integer
    arithmetic, an adaptive weight, a ring buffer of recent prices, and a gate against keeper reports. */
module XwapModel {
  import opened MapSums
  import opened PriceMedian
  import opened Words

  type Address = nat

  const SCALE: nat := 1_000_000_000_000_000_000
  const ALPHA_SCALE: nat := 1_000
  const HISTORY_LEN: nat := 10
  const TREND_MIN_HISTORY: nat := 8
  const TREND_WINDOW: nat := 8
  const TREND_THRESHOLD: nat := 7
  const TOLERANCE_PERMILLE: nat := 50

  datatype Report = Report(price: nat, block: nat)

  /** The setters keep alphaMin < alphaMax <= 1000; boosts are at most 500; the gate threshold is below 1000. */
  datatype Config = Config(
    alphaMin: nat, alphaMax: nat, trendBoost: nat, gateBoost: nat,
    gateThreshold: nat, freshness: nat, consensusMin: nat)

  datatype Ring = Ring(slots: map<nat, nat>, idx: nat, count: nat)

  datatype State = State(
    ewmaA: nat, ewmaB: nat, alpha: nat, price: nat, prevPrice: nat, ring: Ring,
    keepers: seq<Address>, reports: map<Address, Report>, cfg: Config)

  // ---------- Reports, median, gate, consensus ----------

  predicate Fresh(reports: map<Address, Report>, k: Address, block: nat, maxAge: nat) {
    k in reports && SaturatingSub(block, reports[k].block) <= maxAge
  }

  function FreshPrices(ks: seq<Address>, reports: map<Address, Report>, block: nat, maxAge: nat): seq<nat> {
    if ks == [] then [] else
      FreshPrices(ks[..|ks| - 1], reports, block, maxAge) +
      (var k := ks[|ks| - 1]; if Fresh(reports, k, block, maxAge) then [reports[k].price] else [])
  }

  function Median(s: State, block: nat): nat { MedianOf(FreshPrices(s.keepers, s.reports, block, s.cfg.freshness)) }

  function Distance(x: nat, y: nat): nat { if x > y then x - y else y - x }

  /** Divergence from `reference` in thousandths, rounded down. */
  function Divergence(x: nat, reference: nat): nat
    requires reference > 0
  {
    Distance(x, reference) * 1_000 / reference
  }

  function ToU64(n: nat, default: nat): nat { if n < U64 then n else default }

  predicate GateOpen(s: State, spot: nat, block: nat) {
    var median := Median(s, block);
    median > 0 && ToU64(Divergence(spot, median), U64 - 1) < s.cfg.gateThreshold
  }

  predicate Agrees(s: State, k: Address, block: nat, median: nat)
    requires median > 0
  {
    && Fresh(s.reports, k, block, s.cfg.freshness)
    && ToU64(Divergence(s.reports[k].price, median), U64 - 1) <= TOLERANCE_PERMILLE
  }

  function Agreeing(s: State, ks: seq<Address>, block: nat, median: nat): nat
    requires median > 0
  {
    if ks == [] then 0 else
      Agreeing(s, ks[..|ks| - 1], block, median) + (if Agrees(s, ks[|ks| - 1], block, median) then 1 else 0)
  }

  predicate Consensus(s: State, block: nat) {
    var median := Median(s, block);
    && median > 0 && |s.keepers| > 0
    && Agreeing(s, s.keepers, block, median) * 1_000 / |s.keepers| >= s.cfg.consensusMin
  }

  predicate AnyFresh(s: State, block: nat) {
    exists k :: k in s.keepers && Fresh(s.reports, k, block, s.cfg.freshness)
  }

  predicate Safe(s: State, block: nat) {
    GateOpen(s, s.price, block) && Consensus(s, block) && AnyFresh(s, block)
  }

  /** How far the last update moved the price, in thousandths; zero when there is nothing to compare. */
  function Stability(s: State): nat {
    if s.prevPrice == 0 || s.price == 0 then 0 else ToU64(Divergence(s.price, s.prevPrice), 999)
  }

  datatype Signals = Signals(gateOpen: bool, consensus: bool, recent: bool, stability: nat, safe: bool)

  // ---------- Trend ----------

  /** Steps up, and steps down, in a list of prices in time order. */
  function Rises(w: seq<nat>): nat {
    if |w| < 2 then 0 else Rises(w[..|w| - 1]) + (if w[|w| - 1] > w[|w| - 2] then 1 else 0)
  }

  function Falls(w: seq<nat>): nat {
    if |w| < 2 then 0 else Falls(w[..|w| - 1]) + (if w[|w| - 1] < w[|w| - 2] then 1 else 0)
  }

  predicate IsTrend(w: seq<nat>) { Rises(w) >= TREND_THRESHOLD || Falls(w) >= TREND_THRESHOLD }

  /** The price stored `back` updates ago, read through the ring index. */
  function Slot(r: Ring, back: nat): nat
    requires 1 <= back <= HISTORY_LEN
  {
    Get(r.slots, (r.idx + HISTORY_LEN - back) % HISTORY_LEN)
  }

  /** The nine slots the trend test reads, oldest first. */
  function Window(r: Ring): seq<nat> {
    seq(TREND_WINDOW + 1, i requires 0 <= i < TREND_WINDOW + 1 => Slot(r, TREND_WINDOW + 1 - i))
  }

  predicate Trending(r: Ring) { r.count >= TREND_MIN_HISTORY && IsTrend(Window(r)) }

  function Push(r: Ring, price: nat): Ring {
    Ring(r.slots[r.idx := price], (r.idx + 1) % HISTORY_LEN, r.count + 1)
  }

  // ---------- Averages ----------

  function Min(x: nat, y: nat): nat { if x <= y then x else y }
  function Max(x: nat, y: nat): nat { if x >= y then x else y }

  /** The weight of the newest reserves, in thousandths. The product by three wraps at 64 bits. */
  function Alpha(s: State, gateOpen: bool): nat {
    var lo, hi := s.cfg.alphaMin, s.cfg.alphaMax;
    if s.ring.count < 5 || s.prevPrice == 0 then lo else
    var vol := ToU64(Divergence(s.price, s.prevPrice), hi * 1_000 / 3);
    var base := Max(Min(Wrap64(vol * 3), hi), lo);
    var boosted := if Trending(s.ring) then Min(base + s.cfg.trendBoost, hi) else base;
    if gateOpen then Min(boosted + s.cfg.gateBoost, hi) else boosted
  }

  function Times(x: nat, y: nat): nat { x * y }

  /** The floored convex combination; an average that was never set is seeded with the new value. */
  function Ewma(prior: nat, newest: nat, alpha: nat): nat
    requires alpha <= ALPHA_SCALE
  {
    if prior == 0 then newest else (Times(alpha, newest) + Times(ALPHA_SCALE - alpha, prior)) / ALPHA_SCALE
  }

  predicate ValidConfig(c: Config) {
    c.alphaMin < c.alphaMax <= ALPHA_SCALE && 0 < c.gateThreshold < 1_000 && 500 <= c.consensusMin <= 1_000
  }

  // ---------- Operations ----------

  datatype Op =
    | Update(a: nat, b: nat, block: nat)
    | ReportPrice(k: Address, price: nat, block: nat)
    | RegisterKeeper(k: Address)
    | RemoveKeeper(k: Address)
    | SetAlphaBounds(min: nat, max: nat)
    | SetBoosts(trend: nat, gate: nat)
    | SetGateThreshold(permille: nat)
    | SetConsensusMin(permille: nat)
    | SetFreshness(blocks: nat)

  datatype Tx = Abort | Done(next: State)

  /** Price of A in B, scaled by 1e18 and rounded down. */
  function PriceOf(b: nat, a: nat): nat
    requires a > 0
  {
    b * SCALE / a
  }

  function IndexOf(ks: seq<Address>, k: Address): (i: nat)
    requires k in ks
    ensures i < |ks| && ks[i] == k
  {
    if ks[0] == k then 0 else 1 + IndexOf(ks[1..], k)
  }

  /** Removal from an unordered set: the last element takes the freed place. */
  function SwapRemove(ks: seq<Address>, k: Address): seq<Address> {
    if k !in ks then ks else ks[IndexOf(ks, k) := ks[|ks| - 1]][..|ks| - 1]
  }

  function DoUpdate(s: State, a: nat, b: nat, block: nat): Tx
    requires ValidConfig(s.cfg)
  {
    if a == 0 || b == 0 then Abort else
    var alpha := Alpha(s, GateOpen(s, PriceOf(b, a), block));
    AlphaBounded(s, GateOpen(s, PriceOf(b, a), block));
    var ewmaA, ewmaB := Ewma(s.ewmaA, a * SCALE, alpha), Ewma(s.ewmaB, b * SCALE, alpha);
    if ewmaA == 0 then Abort else
    var price := PriceOf(ewmaB, ewmaA);
    Done(s.(ewmaA := ewmaA, ewmaB := ewmaB, alpha := alpha, prevPrice := s.price, price := price,
            ring := Push(s.ring, price)))
  }

  function Step(s: State, op: Op): Tx
    requires ValidConfig(s.cfg)
  {
    match op
    case Update(a, b, block) => DoUpdate(s, a, b, block)
    case ReportPrice(k, price, block) =>
      if k !in s.keepers || price == 0 then Abort else Done(s.(reports := s.reports[k := Report(price, block)]))
    case RegisterKeeper(k) => Done(if k in s.keepers then s else s.(keepers := s.keepers + [k]))
    case RemoveKeeper(k) => Done(s.(keepers := SwapRemove(s.keepers, k)))
    case SetAlphaBounds(lo, hi) =>
      if lo < hi <= ALPHA_SCALE then Done(s.(cfg := s.cfg.(alphaMin := lo, alphaMax := hi))) else Abort
    case SetBoosts(t, g) =>
      if t <= 500 && g <= 500 then Done(s.(cfg := s.cfg.(trendBoost := t, gateBoost := g))) else Abort
    case SetGateThreshold(p) => if 0 < p < 1_000 then Done(s.(cfg := s.cfg.(gateThreshold := p))) else Abort
    case SetConsensusMin(p) => if 500 <= p <= 1_000 then Done(s.(cfg := s.cfg.(consensusMin := p))) else Abort
    case SetFreshness(n) => if 0 < n <= 20 then Done(s.(cfg := s.cfg.(freshness := n))) else Abort
  }

  function After(s: State, op: Op): (s': State)
    requires ValidConfig(s.cfg)
    ensures ValidConfig(s'.cfg)
  {
    var tx := Step(s, op);
    if tx.Done? then tx.next else s
  }

  function Run(s: State, ops: seq<Op>): (e: State)
    requires ValidConfig(s.cfg)
    ensures ValidConfig(e.cfg)
    decreases |ops|
  {
    if ops == [] then s else Run(After(s, ops[0]), ops[1..])
  }

  // ---------- The weight ----------

  /** Every weight lies within the configured bounds, hence within [0, 1000]. */
  lemma AlphaBounded(s: State, gateOpen: bool)
    requires s.cfg.alphaMin <= s.cfg.alphaMax
    ensures s.cfg.alphaMin <= Alpha(s, gateOpen) <= s.cfg.alphaMax
  {
  }
}
