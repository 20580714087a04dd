/** What the registry's operations mean to a keeper: shares taken, times waited, amounts paid, records kept. */
module RegistryTheorems {
  import opened MapSums
  import opened RegistryModel

  // ---------- Slashing ----------

  /** What a step took from the stake of `k`. */
  function TakenFrom(s: State, s': State, k: Address): int
    requires k in s.keepers && k in s'.keepers
  {
    s.keepers[k].stake - s'.keepers[k].stake
  }

  /** `taken` is `bps` ten-thousandths of `stake`, rounded down. */
  predicate ShareOf(taken: int, bps: nat, stake: nat) { 10_000 * taken <= bps * stake < 10_000 * (taken + 1) }

  /** Where slashed stake goes: at once to the treasury, or, while stake may be delegated, into the keeper's debt. */
  predicate SlashGoes(s: State, op: Op, k: Address, taken: nat) {
    var tx := Step(s, op);
    && tx.Done?
    && (s.cfg.provider == ZERO_ADDRESS ==>
          tx.sent == [Payment(s.cfg.treasury, taken)] && tx.next.debts == s.debts && tx.next.funds == s.funds - taken)
    && (s.cfg.provider != ZERO_ADDRESS ==>
          tx.sent == [] && Get(tx.next.debts, k) == Get(s.debts, k) + taken && tx.next.funds == s.funds)
  }

  /** The common tail of both slashing calls. */
  lemma SlashStored(s: State, k: Address, info: Keeper, amount: nat, expel: bool)
    ensures var tx := TakeSlash(s, k, info, amount, expel);
            tx.Done? ==>
              && k in tx.next.keepers && tx.next.keepers[k] == info.(active := info.active && !expel)
              && (s.cfg.provider == ZERO_ADDRESS ==>
                    tx.sent == [Payment(s.cfg.treasury, amount)] && tx.next.debts == s.debts
                    && tx.next.funds == s.funds - amount)
              && (s.cfg.provider != ZERO_ADDRESS ==>
                    tx.sent == [] && Get(tx.next.debts, k) == Get(s.debts, k) + amount && tx.next.funds == s.funds)
  {
  }

  lemma StrikeShare(stake: nat, strike: nat)
    requires strike > 0
    ensures StrikeAmount(stake, strike) <= stake
    ensures ShareOf(StrikeAmount(stake, strike), if strike == 1 then 500 else if strike == 2 then 1_500 else 2_000,
                    stake)
  {
  }

  lemma SlashShare(stake: nat, bps: nat)
    ensures SlashAmount(stake, bps) <= stake
    ensures bps <= 10_000 ==> ShareOf(SlashAmount(stake, bps), bps, stake)
    ensures bps > 10_000 ==> SlashAmount(stake, bps) == stake
  {
    if bps <= 10_000 {
      assert stake * bps <= stake * 10_000;
    } else {
      assert stake * bps >= stake * 10_000;
    }
  }

  /** A recorded failure costs exactly 5%, 15% or 20% of the stake, rounded down, for the first, second or any later
      strike in a row; the keeper stays active exactly below the third strike and above 75% of the minimum. */
  lemma FailureSlashes(s: State, k: Address)
    requires Step(s, Record(k, false)).Done?
    ensures k in s.keepers && k in After(s, Record(k, false)).keepers
    ensures var s' := After(s, Record(k, false));
            var taken, before, after := TakenFrom(s, s', k), s.keepers[k], s'.keepers[k];
            && taken >= 0
            && ShareOf(taken, if before.strikes == 0 then 500 else if before.strikes == 1 then 1_500 else 2_000,
                       before.stake)
            && after.slashed == before.slashed + taken && after.strikes == before.strikes + 1
            && (after.active <==> before.active && after.strikes < 3 && 100 * (after.stake + 1) > 75 * s.cfg.minStake)
            && SlashGoes(s, Record(k, false), k, taken)
  {
    var info := FailedRecord(s.keepers[k]);
    var amount := StrikeAmount(s.keepers[k].stake, info.strikes);
    StrikeShare(s.keepers[k].stake, info.strikes);
    SlashStored(s, k, info, amount, Expels(s, info));
  }

  /** A slash costs the configured share, at most everything; the keeper stays active exactly above the minimum. */
  lemma SlashTakes(s: State, k: Address)
    requires Step(s, Slash(k)).Done?
    ensures k in s.keepers && k in After(s, Slash(k)).keepers
    ensures var s' := After(s, Slash(k));
            var taken, before, after := TakenFrom(s, s', k), s.keepers[k], s'.keepers[k];
            && taken >= 0
            && (s.cfg.slashBps <= 10_000 ==> ShareOf(taken, s.cfg.slashBps, before.stake))
            && (s.cfg.slashBps > 10_000 ==> taken == before.stake)
            && after.slashed == before.slashed + taken && after.strikes == before.strikes
            && (after.active <==> before.active && after.stake >= s.cfg.minStake)
            && SlashGoes(s, Slash(k), k, taken)
  {
    var info := SlashedRecord(s, s.keepers[k]);
    SlashShare(s.keepers[k].stake, s.cfg.slashBps);
    SlashStored(s, k, info, SlashAmount(s.keepers[k].stake, s.cfg.slashBps), info.stake < s.cfg.minStake);
  }

  /** Both are refused exactly for strangers, and when the treasury is owed at once more than is liquid. */
  lemma SlashRefused(s: State, k: Address, amount: nat)
    requires amount == if k in s.keepers then StrikeAmount(s.keepers[k].stake, s.keepers[k].strikes + 1) else 0
    ensures Step(s, Record(k, false)).Abort? <==>
              k !in s.keepers || (s.cfg.provider == ZERO_ADDRESS && s.funds < amount)
    ensures Step(s, Record(k, true)).Done? <==> k in s.keepers
  {
  }

  /** A success costs nothing and wipes the strikes. */
  lemma SuccessClears(s: State, k: Address)
    requires k in s.keepers
    ensures var s' := After(s, Record(k, true));
            k in s'.keepers && s'.keepers[k].strikes == 0 && TakenFrom(s, s', k) == 0
            && s'.keepers[k].active == s.keepers[k].active && s'.funds == s.funds && s'.debts == s.debts
  {
  }

  /** Upper bounds along a streak: the compounded shares really are taken, up to one unit of rounding each. */
  predicate TakenInStreak(s: State, k: Address, base: nat, added: nat) {
    && k in s.keepers
    && var info := s.keepers[k];
      && (info.strikes == 0 ==> info.stake <= base + added)
      && (info.strikes == 1 ==> 100 * info.stake < 95 * base + 100 * (1 + added))
      && (info.strikes == 2 ==> 10_000 * info.stake < 8_075 * base + 10_000 * (2 + added))
      && (info.strikes == 3 ==> 1_000 * info.stake < 646 * base + 1_000 * (3 + added))
  }

  function AddedBy(s: State, op: Op, k: Address): nat {
    if op.AddStake? && op.k == k && Step(s, op).Done? then op.amount else 0
  }

  lemma TakenStep(s: State, op: Op, k: Address, base: nat, added: nat, start: nat)
    requires InStreak(s, k, start) && TakenInStreak(s, k, base, added) && !EndsStreak(s, op, k, start)
    ensures TakenInStreak(After(s, op), k, base, added + AddedBy(s, op, k))
  {
    if op == Record(k, false) {
      if Step(s, op).Done? { FailureSlashes(s, k); }
    } else {
      OtherwiseGrown(s, op, k, start);
    }
  }

  lemma OtherwiseGrown(s: State, op: Op, k: Address, start: nat)
    requires k in s.keepers && !EndsStreak(s, op, k, start) && op != Record(k, false)
    ensures k in After(s, op).keepers
    ensures After(s, op).keepers[k].strikes == s.keepers[k].strikes
    ensures After(s, op).keepers[k].stake == s.keepers[k].stake + AddedBy(s, op, k)
  {
    match op
    case Register(_, _, _) =>
    case AddStake(_, _) =>
    case RequestUnstake(_, _) =>
    case WithdrawStake(_, _) =>
    case Slash(_) =>
    case Record(_, _) =>
    case DelegateStake(_) =>
    case ProviderReturns(_) =>
    case ClaimYield(_) =>
    case Sweep(_) =>
    case _ =>
  }

  lemma {:induction false} TakenRun(s: State, ops: seq<Op>, k: Address, base: nat, added: nat, start: nat)
    requires InStreak(s, k, start) && TakenInStreak(s, k, base, added) && StreakGoesOn(s, ops, k, start)
    ensures TakenInStreak(Run(s, ops), k, base, added + Staked(s, ops, k))
    decreases |ops|
  {
    if ops != [] {
      TakenStep(s, ops[0], k, base, added, start);
      StreakStep(s, ops[0], k, start);
      TakenRun(After(s, ops[0]), ops[1..], k, base, added + AddedBy(s, ops[0], k), start);
    }
  }

  /** A failure streak from both sides: after one, two and three failures the keeper holds 95%, 80.75% and 64.6% of
      the stake it began with, apart from what it added meanwhile and a unit of rounding for each failure. */
  lemma StreakCosts(s: State, ops: seq<Op>, k: Address)
    requires k in s.keepers && s.keepers[k].active && s.keepers[k].strikes == 0
    requires s.keepers[k].stake >= s.cfg.minStake && StreakGoesOn(s, ops, k, s.keepers[k].stake)
    ensures k in Run(s, ops).keepers
    ensures var stake, left, n := s.keepers[k].stake, Run(s, ops).keepers[k].stake, FailuresOf(s, ops, k);
            var more := n + Staked(s, ops, k);
            && (n == 1 ==> 95 * stake <= 100 * left < 95 * stake + 100 * more)
            && (n == 2 ==> 8_075 * stake <= 10_000 * left < 8_075 * stake + 10_000 * more)
            && (n == 3 ==> 646 * stake <= 1_000 * left < 646 * stake + 1_000 * more)
  {
    StreakRun(s, ops, k, s.keepers[k].stake);
    TakenRun(s, ops, k, s.keepers[k].stake, 0, s.keepers[k].stake);
  }

  // ---------- Joining, waiting, leaving ----------

  /** Exactly a newcomer with the minimum stake can register; a fresh, active record is made. */
  lemma RegisterIff(s: State, k: Address, stake: nat, now: Time)
    ensures var op := Register(k, stake, now);
            && (Step(s, op).Done? <==> k !in s.keepers && stake >= s.cfg.minStake)
            && (Step(s, op).Done? ==>
                  k in After(s, op).keepers && After(s, op).keepers[k] == Keeper(stake, now, 0, 0, 0, 0, true, 0))
  {
  }

  lemma RequestIff(s: State, k: Address, now: Time)
    ensures var op := RequestUnstake(k, now);
            && (Step(s, op).Done? <==> k in s.keepers && s.keepers[k].active)
            && (Step(s, op).Done? ==>
                  && k in After(s, op).requests && After(s, op).requests[k] == now
                  && k in After(s, op).keepers && !After(s, op).keepers[k].active
                  && After(s, op).keepers[k].stake == s.keepers[k].stake)
  {
  }

  /** Only an inactive keeper withdraws, after the cooldown that follows its request, if there was one, and when its
      stake is liquid. */
  lemma WithdrawIff(s: State, k: Address, now: Time)
    ensures Step(s, WithdrawStake(k, now)).Done? <==>
              && k in s.keepers && !s.keepers[k].active && s.funds >= s.keepers[k].stake
              && (k in s.requests ==> now >= s.requests[k] + s.cfg.cooldown)
              && (k !in s.requests ==> now >= s.cfg.cooldown)
  {
  }

  /** Times of registration and request never change while the keeper stays. */
  lemma TimesKeptStep(s: State, op: Op, k: Address)
    requires k in s.keepers && !Leaves(s, op, k)
    ensures k in After(s, op).keepers && After(s, op).keepers[k].registeredAt == s.keepers[k].registeredAt
    ensures !s.keepers[k].active && k in s.requests ==>
              k in After(s, op).requests && After(s, op).requests[k] == s.requests[k] && !After(s, op).keepers[k].active
  {
    match op
    case Register(_, _, _) =>
    case AddStake(_, _) =>
    case RequestUnstake(_, _) =>
    case WithdrawStake(_, _) =>
    case Slash(_) =>
    case Record(_, _) =>
    case DelegateStake(_) =>
    case ProviderReturns(_) =>
    case ClaimYield(_) =>
    case Sweep(_) =>
    case _ =>
  }

  lemma {:induction false} TimesKept(s: State, ops: seq<Op>, k: Address)
    requires k in s.keepers && Stays(s, ops, k)
    ensures k in Run(s, ops).keepers && Run(s, ops).keepers[k].registeredAt == s.keepers[k].registeredAt
    ensures !s.keepers[k].active && k in s.requests ==>
              && k in Run(s, ops).requests && Run(s, ops).requests[k] == s.requests[k]
              && !Run(s, ops).keepers[k].active
    decreases |ops|
  {
    if ops != [] {
      TimesKeptStep(s, ops[0], k);
      TimesKept(After(s, ops[0]), ops[1..], k);
    }
  }

  /** In terms of the request itself: whatever happens in between, the withdrawal commits exactly when the cooldown
      since the accepted request is over and the stake is liquid. */
  lemma CooldownWaited(s: State, k: Address, t: Time, ops: seq<Op>, now: Time)
    requires Step(s, RequestUnstake(k, t)).Done? && Stays(After(s, RequestUnstake(k, t)), ops, k)
    ensures var e := Run(After(s, RequestUnstake(k, t)), ops);
            && k in e.keepers
            && (Step(e, WithdrawStake(k, now)).Done? <==> now >= t + e.cfg.cooldown && e.funds >= e.keepers[k].stake)
  {
    RequestIff(s, k, t);
    TimesKept(After(s, RequestUnstake(k, t)), ops, k);
    WithdrawIff(Run(After(s, RequestUnstake(k, t)), ops), k, now);
  }

  /** In terms of the registration: a keeper who leaves within thirty days of it pays exactly 5%, rounded down, to
      the treasury; later nothing. The rest is paid to the keeper, and the record is gone. */
  lemma ExitPaid(s: State, k: Address, stake: nat, t: Time, ops: seq<Op>, now: Time)
    requires Step(s, Register(k, stake, t)).Done? && Stays(After(s, Register(k, stake, t)), ops, k)
    requires Step(Run(After(s, Register(k, stake, t)), ops), WithdrawStake(k, now)).Done?
    ensures var e, op := Run(After(s, Register(k, stake, t)), ops), WithdrawStake(k, now);
            && k in e.keepers && k !in After(e, op).keepers && k !in After(e, op).requests
            && var held, sent := e.keepers[k].stake, Step(e, op).sent;
              && |sent| == 2 && sent[0].to == e.cfg.treasury && sent[1].to == k
              && sent[0].amount + sent[1].amount == held
              && (now < t + 2_592_000 ==> ShareOf(sent[0].amount, 500, held))
              && (now >= t + 2_592_000 ==> sent[0].amount == 0)
  {
    RegisterIff(s, k, stake, t);
    TimesKept(After(s, Register(k, stake, t)), ops, k);
  }

  // ---------- Records ----------

  /** One when the step is an accepted record of that outcome for `k`. */
  function Recorded(s: State, op: Op, k: Address, success: bool): nat {
    if op == Record(k, success) && Step(s, op).Done? then 1 else 0
  }

  function TotalRecorded(s: State, ops: seq<Op>, k: Address, success: bool): nat
    decreases |ops|
  {
    if ops == [] then 0 else Recorded(s, ops[0], k, success) + TotalRecorded(After(s, ops[0]), ops[1..], k, success)
  }

  /** Calls that record nothing leave the counters alone. */
  lemma RecordsUntouched(s: State, op: Op, k: Address)
    requires k in s.keepers && !Leaves(s, op, k) && !op.Record?
    ensures k in After(s, op).keepers
    ensures var x, y := s.keepers[k], After(s, op).keepers[k];
            y.successes == x.successes && y.failures == x.failures && y.executions == x.executions
  {
    match op
    case Register(_, _, _) =>
    case AddStake(_, _) =>
    case RequestUnstake(_, _) =>
    case WithdrawStake(_, _) =>
    case Slash(_) =>
    case _ =>
  }

  lemma RecordsMade(s: State, j: Address, success: bool, k: Address)
    requires k in s.keepers && Step(s, Record(j, success)).Done?
    ensures k in After(s, Record(j, success)).keepers
    ensures var x, y := s.keepers[k], After(s, Record(j, success)).keepers[k];
            && y.successes == x.successes + (if j == k && success then 1 else 0)
            && y.failures == x.failures + (if j == k && !success then 1 else 0)
            && y.executions == x.executions + (if j == k then 1 else 0)
  {
    if !success {
      var info := FailedRecord(s.keepers[j]);
      SlashStored(s, j, info, StrikeAmount(s.keepers[j].stake, info.strikes), Expels(s, info));
    }
  }

  lemma RecordsStep(s: State, op: Op, k: Address)
    requires k in s.keepers && !Leaves(s, op, k)
    ensures k in After(s, op).keepers
    ensures var x, y := s.keepers[k], After(s, op).keepers[k];
            && y.successes == x.successes + Recorded(s, op, k, true)
            && y.failures == x.failures + Recorded(s, op, k, false)
            && y.executions == x.executions + Recorded(s, op, k, true) + Recorded(s, op, k, false)
  {
    if op.Record? {
      if Step(s, op).Done? { RecordsMade(s, op.k, op.success, k); }
    } else {
      RecordsUntouched(s, op, k);
    }
  }

  /** While a keeper stays, its counters count exactly the accepted records. */
  lemma {:induction false} RecordsCounted(s: State, ops: seq<Op>, k: Address)
    requires k in s.keepers && Stays(s, ops, k)
    ensures k in Run(s, ops).keepers
    ensures var x, y := s.keepers[k], Run(s, ops).keepers[k];
            && y.successes == x.successes + TotalRecorded(s, ops, k, true)
            && y.failures == x.failures + TotalRecorded(s, ops, k, false)
            && y.executions == x.executions + TotalRecorded(s, ops, k, true) + TotalRecorded(s, ops, k, false)
    decreases |ops|
  {
    if ops != [] {
      RecordsStep(s, ops[0], k);
      RecordsCounted(After(s, ops[0]), ops[1..], k);
    }
  }

  /** A call about one keeper leaves every other keeper's record as it was. */
  lemma OthersUntouched(s: State, op: Op, k: Address)
    requires k in s.keepers
    requires (op.Register? || op.AddStake? || op.RequestUnstake? || op.WithdrawStake? || op.Slash? || op.Record?) ==>
               op.k != k
    ensures k in After(s, op).keepers && After(s, op).keepers[k] == s.keepers[k]
  {
    match op
    case Register(_, _, _) =>
    case AddStake(_, _) =>
    case RequestUnstake(_, _) =>
    case WithdrawStake(_, _) =>
    case Slash(_) =>
    case Record(_, _) =>
    case _ =>
  }

  // ---------- Delegation and debts ----------

  /** Exactly what the counter leaves over can be delegated, and exactly what is delegated can come back. */
  lemma DelegateIff(s: State, amount: nat)
    ensures Step(s, DelegateStake(amount)).Done? <==>
              s.cfg.provider != ZERO_ADDRESS && (amount == 0 || amount + s.committed <= s.funds)
    ensures Step(s, ProviderReturns(amount)).Done? <==> s.cfg.provider != ZERO_ADDRESS && amount <= s.delegated
    ensures Step(s, DelegateStake(amount)).Done? ==>
              After(s, DelegateStake(amount)) == s.(funds := s.funds - amount, delegated := s.delegated + amount)
  {
  }

  /** A debt is swept whole, when there is one and it is liquid, and only to the treasury. */
  lemma SweepIff(s: State, k: Address)
    ensures Step(s, Sweep(k)).Done? <==> 0 < Get(s.debts, k) <= s.funds
    ensures Step(s, Sweep(k)).Done? ==>
              && Get(After(s, Sweep(k)).debts, k) == 0
              && Step(s, Sweep(k)).sent == [Payment(s.cfg.treasury, Get(s.debts, k))]
  {
  }

  /** Yield is counted, and forwarded whole when there is a treasury to forward it to. */
  lemma YieldForwarded(s: State, y: nat)
    ensures Step(s, ClaimYield(y)).Done? <==> s.cfg.provider != ZERO_ADDRESS
    ensures Step(s, ClaimYield(y)).Done? ==>
              && After(s, ClaimYield(y)).yieldTotal == s.yieldTotal + y
              && (if s.cfg.treasury == ZERO_ADDRESS then After(s, ClaimYield(y)).funds == s.funds + y
                  else After(s, ClaimYield(y)).funds == s.funds)
              && Step(s, ClaimYield(y)).sent ==
                 if y > 0 && s.cfg.treasury != ZERO_ADDRESS then [Payment(s.cfg.treasury, y)] else []
  {
  }

  /** The configuration is what was last set. */
  lemma SettersMean(s: State, n: nat, a: Address)
    ensures After(s, SetMinStake(n)) == s.(cfg := s.cfg.(minStake := n))
    ensures After(s, SetCooldown(n)) == s.(cfg := s.cfg.(cooldown := n))
    ensures After(s, SetSlashBps(n)) == if n <= 10_000 then s.(cfg := s.cfg.(slashBps := n)) else s
    ensures After(s, SetTreasury(a)) == s.(cfg := s.cfg.(treasury := a))
    ensures After(s, SetProvider(a)) == s.(cfg := s.cfg.(provider := a))
  {
  }

  /** Nothing else touches it. */
  lemma ConfigFixed(s: State, op: Op)
    requires !op.SetMinStake? && !op.SetCooldown? && !op.SetSlashBps? && !op.SetTreasury? && !op.SetProvider?
    ensures After(s, op).cfg == s.cfg
  {
    match op
    case Register(_, _, _) =>
    case AddStake(_, _) =>
    case RequestUnstake(_, _) =>
    case WithdrawStake(_, _) =>
    case Slash(_) =>
    case Record(_, _) =>
    case _ =>
  }
}
