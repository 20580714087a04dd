/** What the oracle guarantees over any run of updates, reports and configuration changes. */
module XwapTheorems {
  import opened MapSums
  import opened PriceMedian
  import opened Words
  import opened XwapModel

  // ---------- Convexity ----------

  lemma Mixture(alpha: nat, x: nat)
    requires alpha <= ALPHA_SCALE
    ensures alpha * x + (ALPHA_SCALE - alpha) * x == ALPHA_SCALE * x
  {
  }

  lemma EwmaAtLeast(prior: nat, newest: nat, alpha: nat, lo: nat)
    requires alpha <= ALPHA_SCALE && (prior > 0 ==> lo <= prior) && lo <= newest
    ensures lo <= Ewma(prior, newest, alpha)
  {
    if prior > 0 {
      MulMono(alpha, lo, newest);
      MulMono(ALPHA_SCALE - alpha, lo, prior);
      Mixture(alpha, lo);
    }
  }

  lemma EwmaAtMost(prior: nat, newest: nat, alpha: nat, hi: nat)
    requires alpha <= ALPHA_SCALE && prior <= hi && newest <= hi
    ensures Ewma(prior, newest, alpha) <= hi
  {
    MulMono(alpha, newest, hi);
    MulMono(ALPHA_SCALE - alpha, prior, hi);
    Mixture(alpha, hi);
  }

  /** Before the first update the averages are zero; afterwards never again, and the price is theirs. */
  predicate Seeded(s: State) {
    if s.ring.count == 0 then s.ewmaA == 0 && s.ewmaB == 0
    else s.ewmaA >= SCALE && s.ewmaB >= SCALE && s.price == PriceOf(s.ewmaB, s.ewmaA)
  }

  /** What a committed update writes. */
  lemma UpdateFacts(s: State, a: nat, b: nat, block: nat)
    requires ValidConfig(s.cfg) && Seeded(s) && a > 0 && b > 0
    ensures var tx := Step(s, Update(a, b, block));
            && tx.Done?
            && tx.next.cfg == s.cfg && tx.next.ring == Push(s.ring, tx.next.price)
            && s.cfg.alphaMin <= tx.next.alpha <= s.cfg.alphaMax
            && tx.next.ewmaA == Ewma(s.ewmaA, a * SCALE, tx.next.alpha)
            && tx.next.ewmaB == Ewma(s.ewmaB, b * SCALE, tx.next.alpha)
    ensures Seeded(After(s, Update(a, b, block)))
  {
    var alpha := Alpha(s, GateOpen(s, PriceOf(b, a), block));
    AlphaBounded(s, GateOpen(s, PriceOf(b, a), block));
    EwmaAtLeast(s.ewmaA, a * SCALE, alpha, SCALE);
    EwmaAtLeast(s.ewmaB, b * SCALE, alpha, SCALE);
  }

  lemma SeededStep(s: State, op: Op)
    requires ValidConfig(s.cfg) && Seeded(s)
    ensures Seeded(After(s, op))
  {
    match op
    case Update(a, b, block) => if a > 0 && b > 0 { UpdateFacts(s, a, b, block); }
    case _ =>
  }

  /** On every run: the zero-seed branch is taken once, and an update with non-zero reserves never
      fails its check on the averaged reserve. */
  lemma {:induction false} SeededRun(s: State, ops: seq<Op>, a: nat, b: nat, block: nat)
    requires ValidConfig(s.cfg) && Seeded(s)
    ensures Seeded(Run(s, ops))
    ensures Step(Run(s, ops), Update(a, b, block)).Done? <==> a > 0 && b > 0
    decreases |ops|
  {
    if ops == [] {
      if a > 0 && b > 0 { UpdateFacts(s, a, b, block); }
    } else {
      SeededStep(s, ops[0]);
      SeededRun(After(s, ops[0]), ops[1..], a, b, block);
    }
  }

  /** Every accepted reserve lies in the given scaled ranges. */
  predicate ReservesWithin(ops: seq<Op>, loA: nat, hiA: nat, loB: nat, hiB: nat) {
    forall i :: 0 <= i < |ops| && ops[i].Update? && ops[i].a > 0 && ops[i].b > 0 ==>
      loA <= ops[i].a * SCALE <= hiA && loB <= ops[i].b * SCALE <= hiB
  }

  predicate AveragesWithin(s: State, loA: nat, hiA: nat, loB: nat, hiB: nat) {
    s.ring.count > 0 ==> loA <= s.ewmaA <= hiA && loB <= s.ewmaB <= hiB
  }

  lemma AveragesStep(s: State, op: Op, loA: nat, hiA: nat, loB: nat, hiB: nat)
    requires ValidConfig(s.cfg) && Seeded(s) && AveragesWithin(s, loA, hiA, loB, hiB)
    requires ReservesWithin([op], loA, hiA, loB, hiB)
    ensures AveragesWithin(After(s, op), loA, hiA, loB, hiB)
  {
    match op
    case Update(a, b, block) =>
      assert [op][0] == op;
      if a > 0 && b > 0 {
        UpdateFacts(s, a, b, block);
        var n := After(s, op);
        EwmaAtLeast(s.ewmaA, a * SCALE, n.alpha, loA);
        EwmaAtLeast(s.ewmaB, b * SCALE, n.alpha, loB);
        EwmaAtMost(s.ewmaA, a * SCALE, n.alpha, hiA);
        EwmaAtMost(s.ewmaB, b * SCALE, n.alpha, hiB);
      }
    case _ =>
  }

  /** Both averages stay between the least and the greatest scaled reserve ever seen. */
  lemma {:induction false} AveragesRun(s: State, ops: seq<Op>, loA: nat, hiA: nat, loB: nat, hiB: nat)
    requires ValidConfig(s.cfg) && Seeded(s) && AveragesWithin(s, loA, hiA, loB, hiB)
    requires ReservesWithin(ops, loA, hiA, loB, hiB)
    ensures AveragesWithin(Run(s, ops), loA, hiA, loB, hiB)
    decreases |ops|
  {
    if ops != [] {
      assert ReservesWithin([ops[0]], loA, hiA, loB, hiB);
      AveragesStep(s, ops[0], loA, hiA, loB, hiB);
      SeededStep(s, ops[0]);
      AveragesRun(After(s, ops[0]), ops[1..], loA, hiA, loB, hiB);
    }
  }

  // ---------- Rounding drift ----------

  lemma MulMono(k: nat, x: int, y: int)
    requires x <= y
    ensures k * x <= k * y
  {
  }

  lemma Expand(p: int, alpha: int, a: int, A: int)
    ensures p * (alpha * a + (1_000 - alpha) * A) == alpha * (p * a) + (1_000 - alpha) * (p * A)
  {
    assert p * (alpha * a) == alpha * (p * a);
    assert p * ((1_000 - alpha) * A) == (1_000 - alpha) * (p * A);
  }

  /** `n` is the floored average of the newest value `x` and the running value `y`. */
  predicate Mixes(n: int, alpha: nat, x: int, y: int) {
    1_000 * n <= alpha * x + (1_000 - alpha) * y <= 1_000 * n + 999
  }

  /** Each update shrinks the old drift by at least the weight and adds less than one unit of rounding. */
  lemma DriftContracts(p: nat, q: nat, alpha: nat, a: int, b: int, A: int, B: int, A': int, B': int)
    requires alpha <= 1_000 && p * a <= q * b && Mixes(A', alpha, a, A) && Mixes(B', alpha, b, B)
    ensures 1_000 * (p * A' - q * B') <= (1_000 - alpha) * (p * A - q * B) + 999 * q
  {
    MulMono(p, 1_000 * A', alpha * a + (1_000 - alpha) * A);
    MulMono(q, alpha * b + (1_000 - alpha) * B, 1_000 * B' + 999);
    Expand(p, alpha, a, A);
    Expand(q, alpha, b, B);
    MulMono(alpha, p * a, q * b);
    assert p * (1_000 * A') == 1_000 * (p * A');
    assert q * (1_000 * B' + 999) == 1_000 * (q * B') + 999 * q;
    assert (1_000 - alpha) * (p * A) - (1_000 - alpha) * (q * B) == (1_000 - alpha) * (p * A - q * B);
  }

  /** The bound is kept: the fixed point of the contraction lies below 1000 q / m. */
  lemma DriftKept(q: nat, m: nat, alpha: nat, d: int, d': int)
    requires 1 <= m <= alpha <= 1_000 && m * d <= 1_000 * q && 1_000 * d' <= (1_000 - alpha) * d + 999 * q
    ensures m * d' <= 1_000 * q
  {
    if d' <= 0 {
      MulMono(m, d', 0);
    } else if d <= 0 {
      MulMono(1_000 - alpha, d, 0);
      MulMono(m, d', q);
      MulMono(q, m, 1_000);
    } else {
      MulMono(d, 1_000 - alpha, 1_000 - m);
      MulMono(m, 1_000 * d', (1_000 - m) * d + 999 * q);
      MulMono(1_000 - m, m * d, 1_000 * q);
      KeptArithmetic(q, m, d, d');
    }
  }

  lemma KeptArithmetic(q: nat, m: nat, d: int, d': int)
    requires m <= 1_000 && m * (1_000 * d') <= m * ((1_000 - m) * d + 999 * q)
    requires (1_000 - m) * (m * d) <= (1_000 - m) * (1_000 * q)
    ensures m * d' <= 1_000 * q
  {
    assert m * ((1_000 - m) * d + 999 * q) == (1_000 - m) * (m * d) + 999 * (m * q);
    assert (1_000 - m) * (1_000 * q) == 1_000_000 * q - 1_000 * (m * q);
    assert m * (1_000 * d') == 1_000 * (m * d');
    MulMono(m, 0, q);
  }

  lemma DriftStep(p: nat, q: nat, m: nat, alpha: nat, a: int, b: int, A: int, B: int, A': int, B': int)
    requires 1 <= m <= alpha <= 1_000 && p * a <= q * b && Mixes(A', alpha, a, A) && Mixes(B', alpha, b, B)
    requires m * (p * A - q * B) <= 1_000 * q
    ensures m * (p * A' - q * B') <= 1_000 * q
  {
    DriftContracts(p, q, alpha, a, b, A, B, A', B');
    DriftKept(q, m, alpha, p * A - q * B, p * A' - q * B');
  }

  /** The same for the averages themselves, a weight of zero included. */
  lemma DriftAverages(p: nat, q: nat, m: nat, alpha: nat, a: nat, b: nat, A: nat, B: nat)
    requires alpha <= 1_000 && 1 <= m && (m == 1 || m <= alpha) && p * a <= q * b && A > 0 && B > 0
    requires m * (p * A - q * B) <= 1_000 * q
    ensures m * (p * Ewma(A, a, alpha) - q * Ewma(B, b, alpha)) <= 1_000 * q
  {
    if alpha == 0 {
      EwmaFrozen(A, a);
      EwmaFrozen(B, b);
    } else {
      EwmaMixes(A, a, alpha);
      EwmaMixes(B, b, alpha);
      DriftStep(p, q, m, alpha, a, b, A, B, Ewma(A, a, alpha), Ewma(B, b, alpha));
    }
  }

  lemma EwmaFrozen(prior: nat, newest: nat)
    requires prior > 0
    ensures Ewma(prior, newest, 0) == prior
  {
  }

  lemma EwmaMixes(prior: nat, newest: nat, alpha: nat)
    requires prior > 0 && alpha <= ALPHA_SCALE
    ensures Mixes(Ewma(prior, newest, alpha), alpha, newest, prior)
  {
  }

  /** The averages fall short of, respectively exceed, the ratio p/q by a bounded amount only. */
  predicate DriftWithin(s: State, p: nat, q: nat, m: nat) {
    s.ring.count > 0 ==> m * (p * s.ewmaA - q * s.ewmaB) <= 1_000 * q
  }

  predicate DriftWithinAbove(s: State, p: nat, q: nat, m: nat) {
    s.ring.count > 0 ==> m * (q * s.ewmaB - p * s.ewmaA) <= 1_000 * p
  }

  /** An update that is accepted; with a zero reserve it is refused. */
  predicate Observes(op: Op) { op.Update? && op.a > 0 && op.b > 0 }

  /** Every observed pool ratio b/a is at least, respectively at most, p/q. */
  predicate RatiosAtLeast(ops: seq<Op>, p: nat, q: nat) {
    forall i :: 0 <= i < |ops| && Observes(ops[i]) ==> p * ops[i].a <= q * ops[i].b
  }

  predicate RatiosAtMost(ops: seq<Op>, p: nat, q: nat) {
    forall i :: 0 <= i < |ops| && Observes(ops[i]) ==> p * ops[i].a >= q * ops[i].b
  }

  /** The least weight never drops below `m` during the run. For m = 1 nothing is asked: a weight of zero
      leaves the averages as they are. */
  predicate WeightsAtLeast(s: State, ops: seq<Op>, m: nat)
    requires ValidConfig(s.cfg)
    decreases |ops|
  {
    (m <= 1 || m <= s.cfg.alphaMin) && (ops == [] || WeightsAtLeast(After(s, ops[0]), ops[1..], m))
  }

  lemma DriftUpdate(s: State, a: nat, b: nat, block: nat, p: nat, q: nat, m: nat)
    requires ValidConfig(s.cfg) && Seeded(s) && 1 <= m && (m == 1 || m <= s.cfg.alphaMin) && a > 0 && b > 0
    ensures var n := After(s, Update(a, b, block));
            && (p * a <= q * b && DriftWithin(s, p, q, m) ==> DriftWithin(n, p, q, m))
            && (p * a >= q * b && DriftWithinAbove(s, p, q, m) ==> DriftWithinAbove(n, p, q, m))
  {
    UpdateFacts(s, a, b, block);
    var n := After(s, Update(a, b, block));
    if p * a <= q * b && DriftWithin(s, p, q, m) {
      ScaledOrder(p, a, q, b);
      if s.ring.count == 0 {
        Negative(m, p * n.ewmaA - q * n.ewmaB);
      } else {
        DriftAverages(p, q, m, n.alpha, a * SCALE, b * SCALE, s.ewmaA, s.ewmaB);
      }
    }
    if p * a >= q * b && DriftWithinAbove(s, p, q, m) {
      ScaledOrder(q, b, p, a);
      if s.ring.count == 0 {
        Negative(m, q * n.ewmaB - p * n.ewmaA);
      } else {
        DriftAverages(q, p, m, n.alpha, b * SCALE, a * SCALE, s.ewmaB, s.ewmaA);
      }
    }
  }

  lemma DriftOne(s: State, op: Op, p: nat, q: nat, m: nat)
    requires ValidConfig(s.cfg) && Seeded(s) && 1 <= m && (m == 1 || m <= s.cfg.alphaMin)
    ensures var n := After(s, op);
            && Seeded(n)
            && ((Observes(op) ==> p * op.a <= q * op.b) && DriftWithin(s, p, q, m) ==> DriftWithin(n, p, q, m))
            && ((Observes(op) ==> p * op.a >= q * op.b) && DriftWithinAbove(s, p, q, m) ==>
                  DriftWithinAbove(n, p, q, m))
  {
    SeededStep(s, op);
    match op
    case Update(a, b, block) => if a > 0 && b > 0 { DriftUpdate(s, a, b, block, p, q, m); }
    case _ =>
  }

  lemma ScaledOrder(p: nat, a: nat, q: nat, b: nat)
    requires p * a <= q * b
    ensures p * (a * SCALE) <= q * (b * SCALE)
  {
    assert p * (a * SCALE) == (p * a) * SCALE && q * (b * SCALE) == (q * b) * SCALE;
  }

  lemma Negative(m: nat, d: int)
    requires d <= 0
    ensures m * d <= 0
  {
  }

  /** Rounding drift never accumulates: however many updates are applied, the averages stay within a
      fixed distance of the ratio that every observation respected. */
  lemma {:induction false} DriftRun(s: State, ops: seq<Op>, p: nat, q: nat, m: nat)
    requires ValidConfig(s.cfg) && Seeded(s) && m >= 1 && WeightsAtLeast(s, ops, m)
    ensures Seeded(Run(s, ops))
    ensures RatiosAtLeast(ops, p, q) && DriftWithin(s, p, q, m) ==> DriftWithin(Run(s, ops), p, q, m)
    ensures RatiosAtMost(ops, p, q) && DriftWithinAbove(s, p, q, m) ==> DriftWithinAbove(Run(s, ops), p, q, m)
    decreases |ops|
  {
    if ops != [] {
      DriftOne(s, ops[0], p, q, m);
      DriftRun(After(s, ops[0]), ops[1..], p, q, m);
    }
  }

  /** In price terms: starting empty, if every pool price was at least p/q and the weight at least m/1000,
      the published price is never more than 1 + 1000/m units of its last (18th) decimal below p/q. With m = 1
      that is 1001 units whatever the weights are. */
  lemma PriceFloor(s: State, ops: seq<Op>, p: nat, q: nat, m: nat)
    requires ValidConfig(s.cfg) && Seeded(s) && s.ring.count == 0 && m >= 1 && WeightsAtLeast(s, ops, m)
    requires RatiosAtLeast(ops, p, q) && q > 0
    ensures var e := Run(s, ops);
            e.ring.count > 0 ==> m * (p * SCALE - q * e.price) < (1_000 + m) * q
  {
    DriftRun(s, ops, p, q, m);
    var e := Run(s, ops);
    if e.ring.count > 0 {
      FloorArithmetic(p, q, m, e.ewmaA, e.ewmaB, e.price);
    }
  }

  lemma Floored(n: nat, d: nat)
    requires d > 0
    ensures (n / d) * d <= n < (n / d) * d + d
  {
    assert n == (n / d) * d + n % d;
  }

  lemma Regroup(m: int, x: int, y: int, u: int, v: int)
    ensures m * (x * y - u * v) == (m * x) * y - (m * u) * v
  {
    assert m * (x * y) == (m * x) * y;
    assert m * (u * v) == (m * u) * v;
  }

  lemma FloorArithmetic(p: nat, q: nat, m: nat, A: nat, B: nat, price: nat)
    requires A >= SCALE && q > 0 && m > 0 && price == B * SCALE / A && m * (p * A - q * B) <= 1_000 * q
    ensures m * (p * SCALE - q * price) < (1_000 + m) * q
  {
    Floored(B * SCALE, A);
    Regroup(m, p, A, q, B);
    Regroup(m, p, SCALE, q, price);
    Grow(m, q, 0);
    FloorCore(m * p, m * q, 1_000 * q, A, B, SCALE, price);
  }

  lemma FloorCore(mp: nat, mq: nat, k: nat, A: nat, B: nat, S: nat, price: nat)
    requires A >= S && mq > 0 && B * S < price * A + A && mp * A - mq * B <= k
    ensures mp * S - mq * price - mq < k
  {
    MulMono(S, mp * A - mq * B, k);
    Regroup(S, mp, A, mq, B);
    Reorder(S, mp, mq, B);
    Grow(mq, price * A + A, B * S);
    Collect(mq, price, A);
    Squeeze(mp * S, mq * price + mq, mq * (B * S), k, A, S);
  }

  lemma Reorder(S: int, mp: int, mq: int, B: int)
    ensures (S * mq) * B == mq * (B * S) && S * mp == mp * S
  {
    assert (S * mq) * B == S * (mq * B) == (mq * B) * S == mq * (B * S);
  }

  lemma Collect(mq: int, price: int, A: int)
    ensures mq * (price * A + A) == (mq * price + mq) * A
  {
    assert mq * (price * A) == (mq * price) * A;
  }

  lemma Squeeze(x: nat, y: nat, z: nat, k: nat, A: nat, S: nat)
    requires x * A - z <= S * k && z < y * A && S <= A
    ensures x - y < k
  {
    assert A * (x - y) == x * A - y * A;
    MulMono(k, S, A);
    if x - y >= k {
      MulMono(A, k, x - y);
    }
  }

  lemma Grow(k: nat, x: int, y: int)
    requires k > 0 && x > y
    ensures k * x > k * y
  {
    MulMono(k, y + 1, x);
    assert k * (y + 1) == k * y + k;
  }

  /** And symmetrically from above: never more than 1000/m units over the greatest observed ratio. */
  lemma PriceCeiling(s: State, ops: seq<Op>, p: nat, q: nat, m: nat)
    requires ValidConfig(s.cfg) && Seeded(s) && s.ring.count == 0 && m >= 1 && WeightsAtLeast(s, ops, m)
    requires RatiosAtMost(ops, p, q)
    ensures var e := Run(s, ops);
            e.ring.count > 0 ==> m * (q * e.price - p * SCALE) <= 1_000 * p
  {
    DriftRun(s, ops, p, q, m);
    var e := Run(s, ops);
    if e.ring.count > 0 {
      CeilingArithmetic(p, q, m, e.ewmaA, e.ewmaB, e.price);
    }
  }

  lemma CeilingArithmetic(p: nat, q: nat, m: nat, A: nat, B: nat, price: nat)
    requires A >= SCALE && price == B * SCALE / A && m * (q * B - p * A) <= 1_000 * p
    ensures m * (q * price - p * SCALE) <= 1_000 * p
  {
    Floored(B * SCALE, A);
    Regroup(m, q, B, p, A);
    Regroup(m, q, price, p, SCALE);
    CeilingCore(m * p, m * q, 1_000 * p, A, B, SCALE, price);
  }

  lemma CeilingCore(mp: nat, mq: nat, k: nat, A: nat, B: nat, S: nat, price: nat)
    requires A >= S && A > 0 && price * A <= B * S && mq * B - mp * A <= k
    ensures mq * price - mp * S <= k
  {
    var left := mq * price - mp * S;
    MulMono(S, mq * B - mp * A, k);
    MulMono(mq, price * A, B * S);
    MulMono(k, S, A);
    assert S * (mq * B - mp * A) == mq * (B * S) - (mp * S) * A;
    assert left * A == mq * (price * A) - (mp * S) * A;
    if left > k {
      Grow(A, left, k);
    }
  }

  // ---------- Ring buffer ----------

  function Written(s: State, op: Op): seq<nat>
    requires ValidConfig(s.cfg)
  {
    if op.Update? && Step(s, op).Done? then [Step(s, op).next.price] else []
  }

  /** The prices written by the run, without bound. */
  function Log(s: State, ops: seq<Op>): seq<nat>
    requires ValidConfig(s.cfg)
    decreases |ops|
  {
    if ops == [] then [] else Written(s, ops[0]) + Log(After(s, ops[0]), ops[1..])
  }

  /** The ring holds the last ten log entries; slots never written read as zero. */
  predicate Refines(r: Ring, log: seq<nat>) {
    && r.count == |log| && r.idx == |log| % HISTORY_LEN
    && (forall j :: 0 <= j < |log| && |log| - HISTORY_LEN <= j ==> Get(r.slots, j % HISTORY_LEN) == log[j])
    && (forall k :: k in r.slots ==> k < |log|)
  }

  lemma RefinesPush(r: Ring, log: seq<nat>, price: nat)
    requires Refines(r, log)
    ensures Refines(Push(r, price), log + [price])
  {
    var r', log' := Push(r, price), log + [price];
    forall j | 0 <= j < |log'| && |log'| - HISTORY_LEN <= j
      ensures Get(r'.slots, j % HISTORY_LEN) == log'[j]
    {
      if j < |log| {
        assert j % HISTORY_LEN != |log| % HISTORY_LEN;
      }
    }
  }

  lemma Associative(x: seq<nat>, y: seq<nat>, z: seq<nat>)
    ensures (x + y) + z == x + (y + z)
  {
  }

  lemma RefinesStep(s: State, op: Op, log: seq<nat>)
    requires ValidConfig(s.cfg) && Refines(s.ring, log)
    ensures Refines(After(s, op).ring, log + Written(s, op))
  {
    match op
    case Update(_, _, _) =>
      if Step(s, op).Done? {
        RefinesPush(s.ring, log, Step(s, op).next.price);
      } else {
        assert log + [] == log;
      }
    case _ => assert log + [] == log && After(s, op).ring == s.ring;
  }

  /** On every run the ring index is the update count modulo ten and the ring mirrors the full log. */
  lemma {:induction false} RefinesRun(s: State, ops: seq<Op>, log: seq<nat>)
    requires ValidConfig(s.cfg) && Refines(s.ring, log)
    ensures Refines(Run(s, ops).ring, log + Log(s, ops))
    decreases |ops|
  {
    if ops == [] {
      assert log + [] == log;
    } else {
      RefinesStep(s, ops[0], log);
      RefinesRun(After(s, ops[0]), ops[1..], log + Written(s, ops[0]));
      Associative(log, Written(s, ops[0]), Log(After(s, ops[0]), ops[1..]));
    }
  }

  /** The published price and its predecessor are the last two log entries; zero where there is none. */
  predicate LogTail(s: State, log: seq<nat>) {
    && s.price == (if |log| > 0 then log[|log| - 1] else 0)
    && s.prevPrice == (if |log| > 1 then log[|log| - 2] else 0)
  }

  lemma LogTailStep(s: State, op: Op, log: seq<nat>)
    requires ValidConfig(s.cfg) && LogTail(s, log)
    ensures LogTail(After(s, op), log + Written(s, op))
  {
    match op
    case Update(_, _, _) => if Step(s, op).Abort? { assert log + [] == log; }
    case _ => assert log + [] == log;
  }

  lemma {:induction false} LogTailRun(s: State, ops: seq<Op>, log: seq<nat>)
    requires ValidConfig(s.cfg) && LogTail(s, log)
    ensures LogTail(Run(s, ops), log + Log(s, ops))
    decreases |ops|
  {
    if ops == [] {
      assert log + [] == log;
    } else {
      LogTailStep(s, ops[0], log);
      LogTailRun(After(s, ops[0]), ops[1..], log + Written(s, ops[0]));
      Associative(log, Written(s, ops[0]), Log(After(s, ops[0]), ops[1..]));
    }
  }

  /** The last nine prices, or eight preceded by a zero when only eight exist. */
  function LastNine(log: seq<nat>): seq<nat>
    requires |log| >= TREND_MIN_HISTORY
  {
    ([0] + log)[|log| - 8..]
  }

  lemma IndexBack(n: nat, back: nat)
    requires 1 <= back <= n && back <= 10
    ensures (n % 10 + 10 - back) % 10 == (n - back) % 10
  {
    assert n == 10 * (n / 10) + n % 10;
  }

  /** What the trend test reads `back` updates ago. */
  lemma SlotIsLog(r: Ring, log: seq<nat>, back: nat)
    requires Refines(r, log) && |log| >= TREND_MIN_HISTORY && 1 <= back <= 9
    ensures Slot(r, back) == ([0] + log)[|log| + 1 - back]
  {
    if back <= |log| {
      IndexBack(|log|, back);
      var j := |log| - back;
      assert Get(r.slots, j % HISTORY_LEN) == log[j];
    } else {
      assert |log| == 8 && back == 9 && r.idx == 8;
      assert 9 !in r.slots;
    }
  }

  lemma WindowIsLastNine(r: Ring, log: seq<nat>)
    requires Refines(r, log) && |log| >= TREND_MIN_HISTORY
    ensures Window(r) == LastNine(log)
  {
    forall i | 0 <= i < 9 ensures Slot(r, 9 - i) == LastNine(log)[i] {
      WindowEntry(r, log, i);
    }
    WindowFrom(r, LastNine(log));
  }

  lemma WindowEntry(r: Ring, log: seq<nat>, i: nat)
    requires Refines(r, log) && |log| >= TREND_MIN_HISTORY && i < 9
    ensures Slot(r, 9 - i) == LastNine(log)[i]
  {
    SlotIsLog(r, log, 9 - i);
  }

  lemma WindowFrom(r: Ring, w: seq<nat>)
    requires |w| == 9 && forall i :: 0 <= i < 9 ==> Slot(r, 9 - i) == w[i]
    ensures Window(r) == w
  {
  }

  /** The O(1) ring answers exactly what the unbounded history would: from nine updates on, the trend of
      the last nine prices; at exactly eight, of those eight with a zero price before them. */
  lemma TrendRefinesHistory(s: State, ops: seq<Op>)
    requires ValidConfig(s.cfg) && s.ring == Ring(map[], 0, 0)
    ensures var log, r := Log(s, ops), Run(s, ops).ring;
            && r.idx == r.count % 10 && r.count == |log|
            && (|log| < 8 ==> !Trending(r))
            && (|log| == 8 ==> (Trending(r) <==> IsTrend([0] + log)))
            && (|log| >= 9 ==> (Trending(r) <==> IsTrend(log[|log| - 9..])))
  {
    RefinesRun(s, ops, []);
    var log, r := Log(s, ops), Run(s, ops).ring;
    assert [] + log == log;
    if |log| >= 8 {
      WindowIsLastNine(r, log);
      if |log| == 8 {
        assert LastNine(log) == [0] + log;
      } else {
        assert LastNine(log) == log[|log| - 9..];
      }
    }
  }

  lemma {:induction false} StepsFront(x: nat, w: seq<nat>)
    requires w != []
    ensures Rises([x] + w) == Rises(w) + (if w[0] > x then 1 else 0)
    ensures Falls([x] + w) == Falls(w) + (if w[0] < x then 1 else 0)
  {
    if |w| > 1 {
      StepsFront(x, w[..|w| - 1]);
      assert ([x] + w)[..|w|] == [x] + w[..|w| - 1];
    }
  }

  lemma {:induction false} StepsAtMost(w: seq<nat>)
    requires w != []
    ensures Rises(w) + Falls(w) <= |w| - 1
  {
    if |w| > 1 {
      StepsAtMost(w[..|w| - 1]);
    }
  }

  /** The early answer, exactly: at eight updates the test wants seven steps one way, but the unset slot
      counts as a rise. So it differs from the trend of the eight real prices exactly when the first price
      is positive and six of the seven real steps were rises. */
  lemma TrendAtEight(s: State, ops: seq<Op>)
    requires ValidConfig(s.cfg) && s.ring == Ring(map[], 0, 0) && |Log(s, ops)| == 8
    ensures var log, r := Log(s, ops), Run(s, ops).ring;
            && (Trending(r) <==> Rises(log) + (if log[0] > 0 then 1 else 0) >= 7 || Falls(log) >= 7)
            && (Trending(r) != IsTrend(log) <==> log[0] > 0 && Rises(log) == 6)
  {
    TrendRefinesHistory(s, ops);
    StepsFront(0, Log(s, ops));
    StepsAtMost(Log(s, ops));
  }

  // ---------- A run on which the trend fires early ----------

  /** Reserve A is constantly one unit, so the price is the average of reserve B, so far at most `k` units. */
  predicate UnitPool(s: State, k: nat) {
    && ValidConfig(s.cfg) && s.cfg.alphaMin >= 1 && s.ring.count > 0
    && s.ewmaA == SCALE && s.price == s.ewmaB && SCALE <= s.ewmaB <= k * SCALE
  }

  lemma EwmaExceeds(prior: nat, newest: nat, alpha: nat)
    requires 1 <= alpha <= ALPHA_SCALE && 0 < prior && prior + ALPHA_SCALE <= newest
    ensures Ewma(prior, newest, alpha) > prior
  {
    MulMono(alpha, prior + ALPHA_SCALE, newest);
    assert alpha * (prior + ALPHA_SCALE) == alpha * prior + ALPHA_SCALE * alpha;
    assert alpha * prior + (ALPHA_SCALE - alpha) * prior == ALPHA_SCALE * prior;
  }

  lemma UnitPrice(b: nat)
    ensures PriceOf(b, SCALE) == b
  {
  }

  /** Observing more than ever before raises the price. */
  lemma UnitClimb(s: State, k: nat, block: nat)
    requires UnitPool(s, k) && Seeded(s)
    ensures var n := After(s, Update(1, k + 1, block));
            && Seeded(n) && UnitPool(n, k + 1) && n.price > s.price
            && Written(s, Update(1, k + 1, block)) == [n.price]
  {
    UpdateFacts(s, 1, k + 1, block);
    var n := After(s, Update(1, k + 1, block));
    EwmaAtLeast(SCALE, SCALE, n.alpha, SCALE);
    EwmaAtMost(SCALE, SCALE, n.alpha, SCALE);
    EwmaAtMost(s.ewmaB, (k + 1) * SCALE, n.alpha, (k + 1) * SCALE);
    EwmaExceeds(s.ewmaB, (k + 1) * SCALE, n.alpha);
    UnitPrice(n.ewmaB);
  }

  lemma LogFirst(s: State, op: Op, rest: seq<Op>)
    requires ValidConfig(s.cfg)
    ensures Log(s, [op] + rest) == Written(s, op) + Log(After(s, op), rest)
  {
    assert ([op] + rest)[1..] == rest;
  }

  /** One climbing update, seen from the log. */
  lemma ClimbLogged(s: State, k: nat, block: nat) returns (n: State)
    requires UnitPool(s, k) && Seeded(s)
    ensures Seeded(n) && UnitPool(n, k + 1) && n.price > s.price
    ensures forall rest: seq<Op> :: Log(s, [Update(1, k + 1, block)] + rest) == [n.price] + Log(n, rest)
  {
    UnitClimb(s, k, block);
    n := After(s, Update(1, k + 1, block));
    forall rest: seq<Op> ensures Log(s, [Update(1, k + 1, block)] + rest) == [n.price] + Log(n, rest) {
      LogFirst(s, Update(1, k + 1, block), rest);
    }
  }

  predicate Ascending(w: seq<nat>) { forall i, j :: 0 <= i < j < |w| ==> w[i] < w[j] }

  lemma AscendingFirst(p: nat, q: nat, log: seq<nat>)
    requires p < q && Ascending([q] + log)
    ensures Ascending([p] + ([q] + log))
  {
    var w, w' := [q] + log, [p] + ([q] + log);
    forall i, j | 0 <= i < j < |w'| ensures w'[i] < w'[j] {
      assert w[0] == q && (j > 1 ==> w[0] < w[j - 1]) && (i > 0 ==> w[i - 1] < w[j - 1]);
    }
  }

  lemma {:induction false} AscendingRises(w: seq<nat>)
    requires Ascending(w) && w != []
    ensures Rises(w) == |w| - 1
    decreases |w|
  {
    if |w| > 1 {
      AscendingRises(w[..|w| - 1]);
    }
  }

  /** Any number of climbing updates. */
  lemma {:induction false} ClimbingAscends(s: State, k: nat, n: nat, block: nat) returns (ops: seq<Op>)
    requires UnitPool(s, k) && Seeded(s)
    ensures |Log(s, ops)| == n && Ascending([s.price] + Log(s, ops))
    decreases n
  {
    ops := [];
    if n > 0 {
      var s' := ClimbLogged(s, k, block);
      var rest := ClimbingAscends(s', k + 1, n - 1, block);
      AscendingFirst(s.price, s'.price, Log(s', rest));
      ops := [Update(1, k + 1, block)] + rest;
    }
  }

  /** The first two updates, with the same reserves, publish the same price. */
  lemma UnitStart(s: State, block: nat)
    requires ValidConfig(s.cfg) && s.cfg.alphaMin >= 1 && Seeded(s) && s.ring.count == 0
    ensures var n := After(s, Update(1, 1, block));
            && UnitPool(n, 1) && n.price == SCALE && Written(s, Update(1, 1, block)) == [SCALE]
            && Seeded(After(n, Update(1, 1, block)))
            && UnitPool(After(n, Update(1, 1, block)), 1) && After(n, Update(1, 1, block)).price == SCALE
            && Written(n, Update(1, 1, block)) == [SCALE]
  {
    UpdateFacts(s, 1, 1, block);
    var n := After(s, Update(1, 1, block));
    UpdateFacts(n, 1, 1, block);
    var a := After(n, Update(1, 1, block)).alpha;
    EwmaAtLeast(SCALE, SCALE, a, SCALE);
    EwmaAtMost(SCALE, SCALE, a, SCALE);
  }

  /** From every new oracle with a positive least weight: two equal observations followed by six rising ones
      are taken for a trend, although one of the seven real steps was flat. */
  lemma TrendFiresEarly(s: State, block: nat) returns (ops: seq<Op>)
    requires ValidConfig(s.cfg) && s.cfg.alphaMin >= 1 && Seeded(s) && s.ring == Ring(map[], 0, 0)
    ensures |Log(s, ops)| == 8 && Rises(Log(s, ops)) == 6 && !IsTrend(Log(s, ops)) && Trending(Run(s, ops).ring)
  {
    var op := Update(1, 1, block);
    var s1 := After(s, op);
    var s2 := After(s1, op);
    UnitStart(s, block);
    var rest := ClimbingAscends(s2, 1, 6, block);
    var log := Log(s2, rest);
    ops := [op] + ([op] + rest);
    LogFirst(s1, op, rest);
    LogFirst(s, op, [op] + rest);
    AscendingRises([SCALE] + log);
    StepsFront(SCALE, [SCALE] + log);
    TrendAtEight(s, ops);
  }

  // ---------- Order of the keepers ----------

  lemma {:induction false} FreshConcat(xs: seq<Address>, ys: seq<Address>, reports: map<Address, Report>, block: nat,
                                       maxAge: nat)
    ensures FreshPrices(xs + ys, reports, block, maxAge) ==
            FreshPrices(xs, reports, block, maxAge) + FreshPrices(ys, reports, block, maxAge)
    decreases |ys|
  {
    if ys == [] {
      assert xs + ys == xs;
    } else {
      var init := ys[..|ys| - 1];
      FreshConcat(xs, init, reports, block, maxAge);
      assert (xs + ys)[..|xs + ys| - 1] == xs + init;
    }
  }

  lemma {:induction false} AgreeingConcat(s: State, xs: seq<Address>, ys: seq<Address>, block: nat, median: nat)
    requires median > 0
    ensures Agreeing(s, xs + ys, block, median) == Agreeing(s, xs, block, median) + Agreeing(s, ys, block, median)
    decreases |ys|
  {
    if ys == [] {
      assert xs + ys == xs;
    } else {
      var init := ys[..|ys| - 1];
      AgreeingConcat(s, xs, init, block, median);
      assert (xs + ys)[..|xs + ys| - 1] == xs + init;
    }
  }

  /** The place of the last of `ks` in a rearrangement, and what is left of both without it. */
  lemma Without(ks: seq<Address>, ks': seq<Address>) returns (i: nat)
    requires ks != [] && multiset(ks) == multiset(ks')
    ensures i < |ks'| && ks'[i] == ks[|ks| - 1] && ks' == ks'[..i] + ([ks'[i]] + ks'[i + 1..])
    ensures multiset(ks[..|ks| - 1]) == multiset(ks'[..i] + ks'[i + 1..])
  {
    var k := ks[|ks| - 1];
    assert k in multiset(ks');
    i :| 0 <= i < |ks'| && ks'[i] == k;
    assert ks' == ks'[..i] + ([ks'[i]] + ks'[i + 1..]);
    assert ks == ks[..|ks| - 1] + [k];
    assert multiset(ks'[..i] + ks'[i + 1..]) == multiset(ks') - multiset{k} == multiset(ks[..|ks| - 1]);
  }

  lemma {:induction false} FreshOrderFree(ks: seq<Address>, ks': seq<Address>, reports: map<Address, Report>,
                                          block: nat, maxAge: nat)
    requires multiset(ks) == multiset(ks')
    ensures multiset(FreshPrices(ks, reports, block, maxAge)) == multiset(FreshPrices(ks', reports, block, maxAge))
    decreases |ks|
  {
    if ks == [] {
      assert |multiset(ks')| == 0;
      assert ks' == [];
    } else {
      var i := Without(ks, ks');
      FreshOrderFree(ks[..|ks| - 1], ks'[..i] + ks'[i + 1..], reports, block, maxAge);
      FreshConcat(ks'[..i], ks'[i + 1..], reports, block, maxAge);
      FreshConcat(ks'[..i], [ks'[i]] + ks'[i + 1..], reports, block, maxAge);
      FreshConcat([ks'[i]], ks'[i + 1..], reports, block, maxAge);
      assert [ks'[i]][..0] == [];
    }
  }

  lemma {:induction false} AgreeingOrderFree(s: State, ks: seq<Address>, ks': seq<Address>, block: nat, median: nat)
    requires median > 0 && multiset(ks) == multiset(ks')
    ensures Agreeing(s, ks, block, median) == Agreeing(s, ks', block, median)
    decreases |ks|
  {
    if ks == [] {
      assert |multiset(ks')| == 0;
      assert ks' == [];
    } else {
      var i := Without(ks, ks');
      AgreeingOrderFree(s, ks[..|ks| - 1], ks'[..i] + ks'[i + 1..], block, median);
      AgreeingConcat(s, ks'[..i], ks'[i + 1..], block, median);
      AgreeingConcat(s, ks'[..i], [ks'[i]] + ks'[i + 1..], block, median);
      AgreeingConcat(s, [ks'[i]], ks'[i + 1..], block, median);
      assert [ks'[i]][..0] == [];
    }
  }

  lemma {:induction false} AgreeingLocal(s: State, s': State, ks: seq<Address>, block: nat, median: nat)
    requires median > 0 && s'.reports == s.reports && s'.cfg == s.cfg
    ensures Agreeing(s', ks, block, median) == Agreeing(s, ks, block, median)
    decreases |ks|
  {
    if ks != [] {
      AgreeingLocal(s, s', ks[..|ks| - 1], block, median);
    }
  }

  /** The order in which keepers are enumerated, which removals shuffle, changes neither the median nor the
      gate nor the consensus, so neither whether it is safe to execute. */
  lemma KeeperOrderFree(s: State, ks: seq<Address>, spot: nat, block: nat)
    requires multiset(ks) == multiset(s.keepers)
    ensures var s' := s.(keepers := ks);
            && Median(s', block) == Median(s, block)
            && (GateOpen(s', spot, block) <==> GateOpen(s, spot, block))
            && (Consensus(s', block) <==> Consensus(s, block))
            && (Safe(s', block) <==> Safe(s, block))
  {
    var s' := s.(keepers := ks);
    FreshOrderFree(ks, s.keepers, s.reports, block, s.cfg.freshness);
    MedianOrderFree(FreshPrices(ks, s.reports, block, s.cfg.freshness),
                    FreshPrices(s.keepers, s.reports, block, s.cfg.freshness));
    assert |multiset(ks)| == |ks| && |multiset(s.keepers)| == |s.keepers|;
    if Median(s, block) > 0 {
      AgreeingOrderFree(s, ks, s.keepers, block, Median(s, block));
      AgreeingLocal(s, s', ks, block, Median(s, block));
    }
    forall k ensures k in ks <==> k in s.keepers { assert k in multiset(ks) <==> k in multiset(s.keepers); }
  }

  // ---------- Meaning of "safe" ----------

  lemma {:induction false} NothingFresh(ks: seq<Address>, reports: map<Address, Report>, block: nat, maxAge: nat)
    ensures FreshPrices(ks, reports, block, maxAge) != [] <==> exists k :: k in ks && Fresh(reports, k, block, maxAge)
    decreases |ks|
  {
    if ks != [] {
      NothingFresh(ks[..|ks| - 1], reports, block, maxAge);
      assert ks == ks[..|ks| - 1] + [ks[|ks| - 1]];
    }
  }

  lemma FlooredBelow(n: nat, d: nat, t: nat)
    requires d > 0
    ensures n / d < t <==> n < t * d
  {
    Floored(n, d);
    if n / d < t {
      MulMono(d, n / d + 1, t);
    } else {
      MulMono(d, t, n / d);
    }
  }

  /** The report of `k` is fresh and less than 51 thousandths away from the median. */
  predicate Close(s: State, k: Address, block: nat, median: nat) {
    Fresh(s.reports, k, block, s.cfg.freshness) && Distance(s.reports[k].price, median) * 1_000 < 51 * median
  }

  function CloseCount(s: State, ks: seq<Address>, block: nat, median: nat): nat {
    if ks == [] then 0 else
      CloseCount(s, ks[..|ks| - 1], block, median) + (if Close(s, ks[|ks| - 1], block, median) then 1 else 0)
  }

  lemma {:induction false} AgreeingIsClose(s: State, ks: seq<Address>, block: nat, median: nat)
    requires median > 0
    ensures Agreeing(s, ks, block, median) == CloseCount(s, ks, block, median)
    decreases |ks|
  {
    if ks != [] {
      AgreeingIsClose(s, ks[..|ks| - 1], block, median);
      var k := ks[|ks| - 1];
      if k in s.reports {
        FlooredBelow(Distance(s.reports[k].price, median) * 1_000, median, 51);
      }
    }
  }

  /** `isSafeToExecute` says exactly this: there is a non-zero fresh median, the published price is
      nearer to it than the threshold, and at least consensusMin thousandths of all registered keepers
      hold fresh reports close to it. The freshness flag adds nothing. */
  lemma SafeMeans(s: State, block: nat)
    requires ValidConfig(s.cfg)
    ensures var median := Median(s, block);
            Safe(s, block) <==>
              && median > 0
              && Distance(s.price, median) * 1_000 < s.cfg.gateThreshold * median
              && |s.keepers| > 0
              && CloseCount(s, s.keepers, block, median) * 1_000 >= s.cfg.consensusMin * |s.keepers|
    ensures GateOpen(s, s.price, block) && Consensus(s, block) ==> AnyFresh(s, block)
  {
    var median := Median(s, block);
    NothingFresh(s.keepers, s.reports, block, s.cfg.freshness);
    if median > 0 {
      FlooredBelow(Distance(s.price, median) * 1_000, median, s.cfg.gateThreshold);
      AgreeingIsClose(s, s.keepers, block, median);
      if |s.keepers| > 0 {
        FlooredBelow(Agreeing(s, s.keepers, block, median) * 1_000, |s.keepers|, s.cfg.consensusMin);
      }
      assert FreshPrices(s.keepers, s.reports, block, s.cfg.freshness) != [];
    }
  }
}
