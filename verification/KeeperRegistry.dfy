/** Keeper staking: registration, unstake cooldown, slashing, strikes and delegation of idle stake
    to a provider that holds and returns principal. */
module RegistryModel {
  import opened MapSums

  type Address = nat
  const ZERO_ADDRESS: Address := 0

  /** Block timestamps are positive, so a stored request time is never read as unset. */
  type Time = t: nat | t > 0 witness 1

  const BPS := 10_000
  const STRIKE_1_BPS := 500
  const STRIKE_2_BPS := 1_500
  const STRIKE_3_BPS := 2_000
  const MAX_STRIKES := 3
  const EARLY_EXIT_BPS := 500
  const MIN_KEEPER_SECONDS := 2_592_000

  datatype Keeper = Keeper(
    stake: nat, registeredAt: nat, executions: nat, successes: nat, failures: nat,
    slashed: nat, active: bool, strikes: nat)

  datatype Config = Config(minStake: nat, slashBps: nat, cooldown: nat, treasury: Address, provider: Address)

  /** `delegated` is the principal lying with the staking provider; `yieldTotal` all yield ever claimed. */
  datatype State = State(
    funds: nat, delegated: nat,
    keepers: map<Address, Keeper>, activeSet: set<Address>, requests: map<Address, Time>,
    committed: nat, debts: map<Address, nat>, yieldTotal: nat, cfg: Config)

  datatype Payment = Payment(to: Address, amount: nat)

  datatype Tx = Abort | Done(next: State, sent: seq<Payment>)

  datatype Op =
    | Register(k: Address, stake: nat, now: Time)
    | AddStake(k: Address, amount: nat)
    | RequestUnstake(k: Address, now: Time)
    | WithdrawStake(k: Address, now: Time)
    | Slash(k: Address)
    | Record(k: Address, success: bool)
    | DelegateStake(amount: nat)
    | ProviderReturns(amount: nat)
    | ClaimYield(amount: nat)
    | Sweep(k: Address)
    | SetMinStake(minStake: nat)
    | SetSlashBps(bps: nat)
    | SetCooldown(seconds: nat)
    | SetTreasury(addr: Address)
    | SetProvider(addr: Address)

  /** A slash never takes more than the stake. */
  function Capped(stake: nat, calculated: nat): (r: nat)
    ensures r <= stake && r <= calculated && (r < calculated ==> r == stake)
  {
    if stake > calculated then calculated else stake
  }

  function SlashAmount(stake: nat, bps: nat): nat { Capped(stake, stake * bps / BPS) }

  /** Progressive slashing: 5%, then 15%, then 20% for the third strike and every later one. */
  function StrikeAmount(stake: nat, strike: nat): nat {
    if strike == 1 then Capped(stake, stake * STRIKE_1_BPS / BPS)
    else if strike == 2 then Capped(stake, stake * STRIKE_2_BPS / BPS)
    else Capped(stake, stake * STRIKE_3_BPS / BPS)
  }

  function ExitPenalty(info: Keeper, now: Time): nat {
    if now < info.registeredAt + MIN_KEEPER_SECONDS then info.stake * EARLY_EXIT_BPS / BPS else 0
  }

  /** A keeper with an open request loses `amount` from the cooldown reserve too. */
  function CommittedAfterSlash(s: State, k: Address, active: bool, amount: nat): nat {
    if !active && k in s.requests then SaturatingSub(s.committed, amount) else s.committed
  }

  /** Stores the slashed record and either pays the treasury or books the amount as debt. */
  function TakeSlash(s: State, k: Address, info: Keeper, amount: nat, expel: bool): Tx {
    var s1 := s.(keepers := s.keepers[k := if expel then info.(active := false) else info],
                 activeSet := if expel then s.activeSet - {k} else s.activeSet,
                 committed := CommittedAfterSlash(s, k, info.active && !expel, amount));
    if s.cfg.provider != ZERO_ADDRESS then
      Done(s1.(debts := s.debts[k := Get(s.debts, k) + amount]), [])
    else if s.funds < amount then Abort
    else Done(s1.(funds := s.funds - amount), [Payment(s.cfg.treasury, amount)])
  }

  function SlashedRecord(s: State, info: Keeper): Keeper {
    var amount := SlashAmount(info.stake, s.cfg.slashBps);
    info.(stake := info.stake - amount, slashed := info.slashed + amount)
  }

  function FailedRecord(info: Keeper): Keeper {
    var strikes := info.strikes + 1;
    var amount := StrikeAmount(info.stake, strikes);
    info.(executions := info.executions + 1, failures := info.failures + 1, strikes := strikes,
          stake := info.stake - amount, slashed := info.slashed + amount)
  }

  /** Expulsion at the third strike, or earlier when the stake falls below 75% of the minimum. */
  predicate Expels(s: State, info: Keeper) {
    info.strikes >= MAX_STRIKES || info.stake < s.cfg.minStake * 75 / 100
  }

  function Step(s: State, op: Op): Tx {
    match op
    case Register(k, stake, now) =>
      if k in s.keepers || stake < s.cfg.minStake then Abort else
      Done(s.(keepers := s.keepers[k := Keeper(stake, now, 0, 0, 0, 0, true, 0)],
              activeSet := s.activeSet + {k}, funds := s.funds + stake), [])
    case AddStake(k, amount) =>
      if k !in s.keepers then Abort else
      Done(s.(keepers := s.keepers[k := s.keepers[k].(stake := s.keepers[k].stake + amount)],
              funds := s.funds + amount), [])
    case RequestUnstake(k, now) =>
      if k !in s.keepers || !s.keepers[k].active then Abort else
      Done(s.(keepers := s.keepers[k := s.keepers[k].(active := false)],
              activeSet := s.activeSet - {k}, requests := s.requests[k := now],
              committed := s.committed + s.keepers[k].stake), [])
    case WithdrawStake(k, now) =>
      if k !in s.keepers || s.keepers[k].active then Abort else
      var info := s.keepers[k];
      var requested := if k in s.requests then s.requests[k] else 0;
      if now < requested + s.cfg.cooldown || s.funds < info.stake then Abort else
      var penalty := ExitPenalty(info, now);
      Done(s.(keepers := s.keepers - {k}, requests := s.requests - {k},
              committed := SaturatingSub(s.committed, info.stake), funds := s.funds - info.stake),
           [Payment(s.cfg.treasury, penalty), Payment(k, info.stake - penalty)])
    case Slash(k) =>
      if k !in s.keepers then Abort else
      var info := SlashedRecord(s, s.keepers[k]);
      TakeSlash(s, k, info, SlashAmount(s.keepers[k].stake, s.cfg.slashBps), info.stake < s.cfg.minStake)
    case Record(k, success) =>
      if k !in s.keepers then Abort else
      var info := s.keepers[k];
      if success then
        Done(s.(keepers := s.keepers[k := info.(executions := info.executions + 1,
                                                successes := info.successes + 1, strikes := 0)]), [])
      else
        TakeSlash(s, k, FailedRecord(info), StrikeAmount(info.stake, info.strikes + 1), Expels(s, FailedRecord(info)))
    case DelegateStake(amount) =>
      if s.cfg.provider == ZERO_ADDRESS || amount > SaturatingSub(s.funds, s.committed) then Abort else
      Done(s.(funds := s.funds - amount, delegated := s.delegated + amount), [])
    case ProviderReturns(amount) =>
      if s.cfg.provider == ZERO_ADDRESS || amount > s.delegated then Abort else
      Done(s.(funds := s.funds + amount, delegated := s.delegated - amount), [])
    case ClaimYield(y) =>
      if s.cfg.provider == ZERO_ADDRESS then Abort else
      var s1 := s.(yieldTotal := s.yieldTotal + y);
      if s.cfg.treasury == ZERO_ADDRESS then Done(s1.(funds := s.funds + y), []) else
      Done(s1, if y > 0 then [Payment(s.cfg.treasury, y)] else [])
    case Sweep(k) =>
      var debt := Get(s.debts, k);
      if debt == 0 || s.funds < debt then Abort else
      Done(s.(debts := s.debts[k := 0], funds := s.funds - debt), [Payment(s.cfg.treasury, debt)])
    case SetMinStake(m) => Done(s.(cfg := s.cfg.(minStake := m)), [])
    case SetSlashBps(b) => if b > BPS then Abort else Done(s.(cfg := s.cfg.(slashBps := b)), [])
    case SetCooldown(c) => Done(s.(cfg := s.cfg.(cooldown := c)), [])
    case SetTreasury(a) => Done(s.(cfg := s.cfg.(treasury := a)), [])
    case SetProvider(a) => Done(s.(cfg := s.cfg.(provider := a)), [])
  }

  function After(s: State, op: Op): State {
    var tx := Step(s, op);
    if tx.Done? then tx.next else s
  }

  predicate Performs(s: State, op: Op, s': State, ok: bool, sent: seq<Payment>) {
    && s' == After(s, op)
    && ok == Step(s, op).Done?
    && sent == if ok then Step(s, op).sent else []
  }

  /** A call behind a guard on who may call and when: refused, it changes nothing and sends nothing. */
  predicate Guarded(admitted: bool, s: State, op: Op, s': State, ok: bool, sent: seq<Payment>) {
    if admitted then Performs(s, op, s', ok, sent) else s' == s && !ok && sent == []
  }

  function Run(s: State, ops: seq<Op>): State
    decreases |ops|
  {
    if ops == [] then s else Run(After(s, ops[0]), ops[1..])
  }

  // ---------- Consistency of flags, requests and the cooldown counter ----------

  function StakeOf(info: Keeper): nat { info.stake }

  /** The keepers with an open unstake request. */
  function Open(s: State): map<Address, Keeper> {
    map k | k in s.keepers && k in s.requests :: s.keepers[k]
  }

  /** The sum the O(1) counter stands for. */
  ghost function OpenStake(s: State): nat { Sum(Open(s), StakeOf) }

  ghost predicate FlagsExact(s: State) {
    && (forall k :: k in s.activeSet <==> k in s.keepers && s.keepers[k].active)
    && (forall k :: k in s.requests ==> k in s.keepers && !s.keepers[k].active)
  }

  lemma FlagsExactSlash(s: State, k: Address, info: Keeper, amount: nat, expel: bool)
    requires FlagsExact(s) && k in s.keepers && info.active == s.keepers[k].active
    ensures var tx := TakeSlash(s, k, info, amount, expel); tx.Done? ==> FlagsExact(tx.next)
  {
  }

  lemma FlagsExactRecord(s: State, k: Address, success: bool)
    requires FlagsExact(s)
    ensures FlagsExact(After(s, Record(k, success)))
  {
    if k in s.keepers && !success {
      var info := s.keepers[k];
      var failed := FailedRecord(info);
      FlagsExactSlash(s, k, failed, StrikeAmount(info.stake, info.strikes + 1), Expels(s, failed));
    }
  }

  lemma FlagsExactSlashOp(s: State, k: Address)
    requires FlagsExact(s)
    ensures FlagsExact(After(s, Slash(k)))
  {
    if k in s.keepers {
      var info := SlashedRecord(s, s.keepers[k]);
      FlagsExactSlash(s, k, info, SlashAmount(s.keepers[k].stake, s.cfg.slashBps), info.stake < s.cfg.minStake);
    }
  }

  lemma FlagsExactStep(s: State, op: Op)
    requires FlagsExact(s)
    ensures FlagsExact(After(s, op))
  {
    match op
    case Register(_, _, _) =>
    case AddStake(_, _) =>
    case RequestUnstake(_, _) =>
    case WithdrawStake(_, _) =>
    case Slash(k) => FlagsExactSlashOp(s, k);
    case Record(k, success) => FlagsExactRecord(s, k, success);
    case DelegateStake(_) =>
    case ProviderReturns(_) =>
    case ClaimYield(_) =>
    case Sweep(_) =>
    case _ =>
  }

  /** A step that rewrites only keeper `k` and opens no request. */
  lemma OpenPut(s: State, s': State, k: Address)
    requires k in s.keepers && k in s'.keepers && s'.keepers == s.keepers[k := s'.keepers[k]]
    requires s'.requests == s.requests
    ensures OpenStake(s') ==
            OpenStake(s) + (if k in s.requests then s'.keepers[k].stake - s.keepers[k].stake else 0)
  {
    if k in s.requests {
      assert Open(s') == Open(s)[k := s'.keepers[k]];
      SumPut(Open(s), StakeOf, k, s'.keepers[k]);
    } else {
      assert Open(s') == Open(s);
    }
  }

  lemma OpenRequest(s: State, k: Address, now: Time)
    requires FlagsExact(s) && Step(s, RequestUnstake(k, now)).Done?
    ensures OpenStake(After(s, RequestUnstake(k, now))) == OpenStake(s) + s.keepers[k].stake
  {
    var s' := After(s, RequestUnstake(k, now));
    assert Open(s') == Open(s)[k := s'.keepers[k]];
    SumPut(Open(s), StakeOf, k, s'.keepers[k]);
  }

  lemma OpenWithdraw(s: State, k: Address, now: Time)
    requires Step(s, WithdrawStake(k, now)).Done?
    ensures OpenStake(After(s, WithdrawStake(k, now))) + At(Open(s), StakeOf, k) == OpenStake(s)
  {
    assert Open(After(s, WithdrawStake(k, now))) == Open(s) - {k};
    SumDrop(Open(s), StakeOf, k);
  }

  /** What a committed step takes from keeper `k`'s stake. */
  function Taken(s: State, op: Op, k: Address): nat
    requires k in s.keepers
  {
    if op == Slash(k) then SlashAmount(s.keepers[k].stake, s.cfg.slashBps)
    else if op == Record(k, false) then StrikeAmount(s.keepers[k].stake, s.keepers[k].strikes + 1)
    else 0
  }

  lemma OpenSlash(s: State, op: Op)
    requires (op.Slash? || op.Record?) && Step(s, op).Done?
    ensures OpenStake(After(s, op)) == OpenStake(s) - (if op.k in s.requests then Taken(s, op, op.k) else 0)
  {
    OpenPut(s, After(s, op), op.k);
  }

  /** Every other step leaves the sum of open stakes alone, except a deposit during cooldown. */
  lemma OpenOther(s: State, op: Op)
    requires FlagsExact(s) && Step(s, op).Done?
    requires !op.Slash? && !op.Record? && !op.RequestUnstake? && !op.WithdrawStake?
    ensures OpenStake(After(s, op)) == OpenStake(s) + (if op.AddStake? && op.k in s.requests then op.amount else 0)
  {
    if op.AddStake? {
      OpenPut(s, After(s, op), op.k);
    } else {
      assert Open(After(s, op)) == Open(s);
    }
  }

  ghost predicate CounterBounded(s: State) { FlagsExact(s) && s.committed <= OpenStake(s) }

  ghost predicate CounterExact(s: State) { FlagsExact(s) && s.committed == OpenStake(s) }

  lemma CounterBoundedStep(s: State, op: Op)
    requires CounterBounded(s)
    ensures CounterBounded(After(s, op))
  {
    FlagsExactStep(s, op);
    if Step(s, op).Done? {
      match op
      case Slash(_) => OpenSlash(s, op);
      case Record(_, _) => OpenSlash(s, op);
      case RequestUnstake(k, now) => OpenRequest(s, k, now);
      case WithdrawStake(k, now) => OpenWithdraw(s, k, now);
      case _ => OpenOther(s, op);
    }
  }

  /** On every run the reserve never overstates what cooling-down keepers may withdraw. */
  lemma {:induction false} CounterBoundedRun(s: State, ops: seq<Op>)
    requires CounterBounded(s)
    ensures CounterBounded(Run(s, ops))
    decreases |ops|
  {
    if ops != [] {
      CounterBoundedStep(s, ops[0]);
      CounterBoundedRun(After(s, ops[0]), ops[1..]);
    }
  }

  /** The two steps that make the counter drift: adding stake during cooldown, and withdrawing
      without a request (a keeper expelled by a slash). */
  predicate Drifts(s: State, op: Op) {
    || (op.AddStake? && op.k in s.requests && op.amount > 0)
    || (op.WithdrawStake? && Step(s, op).Done? && op.k !in s.requests && s.committed > 0 && s.keepers[op.k].stake > 0)
  }

  lemma CounterExactSlash(s: State, op: Op)
    requires CounterExact(s) && (op.Slash? || op.Record?) && Step(s, op).Done?
    ensures After(s, op).committed == OpenStake(After(s, op))
  {
    OpenSlash(s, op);
    AtMostSum(Open(s), StakeOf, op.k);
  }

  lemma CounterExactWithdraw(s: State, k: Address, now: Time)
    requires CounterExact(s) && Step(s, WithdrawStake(k, now)).Done?
    ensures After(s, WithdrawStake(k, now)).committed == OpenStake(After(s, WithdrawStake(k, now))) <==>
            !Drifts(s, WithdrawStake(k, now))
  {
    OpenWithdraw(s, k, now);
    AtMostSum(Open(s), StakeOf, k);
  }

  /** Exactly those steps break the equality. */
  lemma CounterExactStep(s: State, op: Op)
    requires CounterExact(s)
    ensures CounterExact(After(s, op)) <==> !Drifts(s, op)
  {
    FlagsExactStep(s, op);
    if Step(s, op).Done? {
      match op
      case Slash(_) => CounterExactSlash(s, op);
      case Record(_, _) => CounterExactSlash(s, op);
      case RequestUnstake(k, now) => OpenRequest(s, k, now);
      case WithdrawStake(k, now) => CounterExactWithdraw(s, k, now);
      case _ => OpenOther(s, op);
    }
  }

  predicate NoDrift(s: State, ops: seq<Op>)
    decreases |ops|
  {
    ops == [] || (!Drifts(s, ops[0]) && NoDrift(After(s, ops[0]), ops[1..]))
  }

  ghost predicate AlwaysExact(s: State, ops: seq<Op>)
    decreases |ops|
  {
    CounterExact(s) && (ops == [] || AlwaysExact(After(s, ops[0]), ops[1..]))
  }

  /** The counter is the sum all along a run exactly when the run has no such step. */
  lemma {:induction false} CounterExactRun(s: State, ops: seq<Op>)
    requires CounterExact(s)
    ensures AlwaysExact(s, ops) <==> NoDrift(s, ops)
    ensures NoDrift(s, ops) ==> CounterExact(Run(s, ops))
    decreases |ops|
  {
    if ops != [] {
      CounterExactStep(s, ops[0]);
      if !Drifts(s, ops[0]) {
        CounterExactRun(After(s, ops[0]), ops[1..]);
      }
    }
  }

  /** What delegating leaves liquid, against what cooling-down keepers may withdraw. */
  lemma DelegationLeaves(s: State, amount: nat)
    requires FlagsExact(s) && Step(s, DelegateStake(amount)).Done?
    ensures After(s, DelegateStake(amount)).funds == s.funds - amount
    ensures OpenStake(After(s, DelegateStake(amount))) == OpenStake(s)
  {
    OpenOther(s, DelegateStake(amount));
  }

  /** Delegation can leave no open request short: exactly when the counter is the sum it stands for, or when
      the counter lets nothing be delegated at all. */
  lemma DelegationKeepsReserve(s: State)
    requires CounterBounded(s) && s.cfg.provider != ZERO_ADDRESS
    ensures (forall amount: nat :: amount > 0 && Step(s, DelegateStake(amount)).Done? ==>
               After(s, DelegateStake(amount)).funds >= OpenStake(After(s, DelegateStake(amount)))) <==>
            s.committed == OpenStake(s) || s.funds <= s.committed
  {
    forall amount: nat | amount > 0 && Step(s, DelegateStake(amount)).Done?
      ensures After(s, DelegateStake(amount)).funds == s.funds - amount
      ensures OpenStake(After(s, DelegateStake(amount))) == OpenStake(s)
    {
      DelegationLeaves(s, amount);
    }
    if s.committed < OpenStake(s) && s.funds > s.committed {
      var all := s.funds - s.committed;
      assert Step(s, DelegateStake(all)).Done? && After(s, DelegateStake(all)).funds < OpenStake(s);
    }
  }

  /** The failing case is four accepted calls away from any state where the counter is exact: a keeper registers,
      asks to leave, adds stake during the cooldown, and the owner delegates all that the counter allows. If
      every request was covered before, it is that delegation which leaves them short. */
  lemma ReserveDelegatedAway(s: State, k: Address, stake: nat, now: Time, extra: nat)
    requires CounterExact(s) && s.cfg.provider != ZERO_ADDRESS && k !in s.keepers
    requires stake >= s.cfg.minStake && extra > 0
    ensures var s1 := After(s, Register(k, stake, now));
            var s2 := After(s1, RequestUnstake(k, now));
            var s3 := After(s2, AddStake(k, extra));
            var all := SaturatingSub(s3.funds, s3.committed);
            var s4 := After(s3, DelegateStake(all));
            && Step(s, Register(k, stake, now)).Done? && Step(s1, RequestUnstake(k, now)).Done?
            && Step(s2, AddStake(k, extra)).Done? && Step(s3, DelegateStake(all)).Done?
            && (s.funds >= OpenStake(s) ==> s3.funds >= OpenStake(s3) && all > 0)
            && s4.funds < OpenStake(s4)
  {
    var s1 := After(s, Register(k, stake, now));
    OpenOther(s, Register(k, stake, now));
    FlagsExactStep(s, Register(k, stake, now));
    var s2 := After(s1, RequestUnstake(k, now));
    OpenRequest(s1, k, now);
    FlagsExactStep(s1, RequestUnstake(k, now));
    var s3 := After(s2, AddStake(k, extra));
    OpenOther(s2, AddStake(k, extra));
    FlagsExactStep(s2, AddStake(k, extra));
    DelegationLeaves(s3, SaturatingSub(s3.funds, s3.committed));
  }

  // ---------- Conservation ----------

  ghost function Owed(s: State): nat { Sum(s.keepers, StakeOf) + Sum(s.debts, Amount) }

  /** Money in the contract and at the provider beyond stakes and debts. */
  ghost function Slack(s: State): int { s.funds + s.delegated - Owed(s) }

  /** Yield that stays in the contract because no treasury is set. */
  function Retained(s: State, op: Op): nat {
    if op.ClaimYield? && Step(s, op).Done? && s.cfg.treasury == ZERO_ADDRESS then op.amount else 0
  }

  lemma TakeSlashConserves(s: State, k: Address, info: Keeper, amount: nat, expel: bool)
    requires k in s.keepers && s.keepers[k].stake == info.stake + amount
    ensures var tx := TakeSlash(s, k, info, amount, expel); tx.Done? ==> Slack(tx.next) == Slack(s)
  {
    SumPut(s.keepers, StakeOf, k, if expel then info.(active := false) else info);
    SumPut<Address, nat>(s.debts, Amount, k, Get(s.debts, k) + amount);
  }

  lemma ConservationStep(s: State, op: Op)
    ensures Slack(After(s, op)) == Slack(s) + Retained(s, op)
  {
    var s' := After(s, op);
    if Step(s, op).Done? {
      match op
      case WithdrawStake(k, _) => SumDrop(s.keepers, StakeOf, k);
      case Register(k, _, _) => SumPut(s.keepers, StakeOf, k, s'.keepers[k]);
      case AddStake(k, _) => SumPut(s.keepers, StakeOf, k, s'.keepers[k]);
      case RequestUnstake(k, _) => SumPut(s.keepers, StakeOf, k, s'.keepers[k]);
      case Slash(k) =>
        var info := SlashedRecord(s, s.keepers[k]);
        TakeSlashConserves(s, k, info, SlashAmount(s.keepers[k].stake, s.cfg.slashBps), info.stake < s.cfg.minStake);
      case Record(k, success) =>
        if success {
          SumPut(s.keepers, StakeOf, k, s'.keepers[k]);
        } else {
          var info := FailedRecord(s.keepers[k]);
          TakeSlashConserves(s, k, info, StrikeAmount(s.keepers[k].stake, info.strikes), Expels(s, info));
        }
      case Sweep(k) => SumPut<Address, nat>(s.debts, Amount, k, 0);
      case _ =>
    }
  }

  function TotalRetained(s: State, ops: seq<Op>): nat
    decreases |ops|
  {
    if ops == [] then 0 else Retained(s, ops[0]) + TotalRetained(After(s, ops[0]), ops[1..])
  }

  /** Liquid balance plus delegated principal equals stakes plus slashing debts plus retained yield. */
  lemma {:induction false} ConservationRun(s: State, ops: seq<Op>)
    ensures var e := Run(s, ops);
            e.funds + e.delegated - Sum(e.keepers, StakeOf) - Sum(e.debts, Amount) ==
            Slack(s) + TotalRetained(s, ops)
    decreases |ops|
  {
    if ops != [] {
      ConservationStep(s, ops[0]);
      ConservationRun(After(s, ops[0]), ops[1..]);
    }
  }

  function Total(ps: seq<Payment>): nat { if ps == [] then 0 else ps[0].amount + Total(ps[1..]) }

  /** EGLD entering with the operation. */
  function Entering(op: Op): nat {
    match op
    case Register(_, stake, _) => stake
    case AddStake(_, amount) => amount
    case ClaimYield(y) => y
    case _ => 0
  }

  /** Every payment a step reports is what its balance loses, and only a leaving keeper's own stake goes
      anywhere but to the treasury. */
  lemma PaymentsStep(s: State, op: Op)
    ensures var tx := Step(s, op);
            tx.Done? ==>
              && tx.next.funds + tx.next.delegated + Total(tx.sent) == s.funds + s.delegated + Entering(op)
              && forall i :: 0 <= i < |tx.sent| ==>
                   tx.sent[i].to == s.cfg.treasury || (op.WithdrawStake? && i == 1 && tx.sent[i].to == op.k)
  {
    var tx := Step(s, op);
    if tx.Done? {
      match op
      case WithdrawStake(k, now) => TotalTwo(tx.sent[0], tx.sent[1]);
      case Slash(_) => if tx.sent != [] { TotalTwo(tx.sent[0], tx.sent[0]); }
      case Record(_, _) => if tx.sent != [] { TotalTwo(tx.sent[0], tx.sent[0]); }
      case ClaimYield(y) => if tx.sent != [] { TotalTwo(tx.sent[0], tx.sent[0]); }
      case Sweep(_) => TotalTwo(tx.sent[0], tx.sent[0]);
      case _ =>
    }
  }

  lemma TotalTwo(p: Payment, q: Payment)
    ensures Total([p]) == p.amount && Total([p, q]) == p.amount + q.amount
  {
    assert [p][1..] == [] && [p, q][1..] == [q] && [q][1..] == [];
  }

  /** A leaving keeper gets the whole stake after thirty days and at least 95% of it before. */
  lemma LeavingKeeperPaid(s: State, k: Address, now: Time)
    requires Step(s, WithdrawStake(k, now)).Done?
    ensures var info, sent := s.keepers[k], Step(s, WithdrawStake(k, now)).sent;
            && |sent| == 2 && sent[1].to == k && sent[0].amount + sent[1].amount == info.stake
            && 100 * sent[1].amount >= 95 * info.stake
            && (now >= info.registeredAt + MIN_KEEPER_SECONDS ==> sent[1].amount == info.stake)
  {
  }

  /** Everything a keeper has paid in and not withdrawn. */
  function PaidIn(info: Keeper): nat { info.stake + info.slashed }

  function Staked(s: State, ops: seq<Op>, k: Address): nat
    decreases |ops|
  {
    if ops == [] then 0 else
      (if ops[0].AddStake? && ops[0].k == k && Step(s, ops[0]).Done? then ops[0].amount else 0)
      + Staked(After(s, ops[0]), ops[1..], k)
  }

  /** An accepted withdrawal of keeper `k`. */
  predicate Leaves(s: State, op: Op, k: Address) { op.WithdrawStake? && op.k == k && Step(s, op).Done? }

  /** An accepted registration of keeper `k`. */
  predicate Enters(s: State, op: Op, k: Address) { op.Register? && op.k == k && Step(s, op).Done? }

  /** No step of the run is an accepted withdrawal of `k`. */
  predicate Stays(s: State, ops: seq<Op>, k: Address)
    decreases |ops|
  {
    ops == [] || (!Leaves(s, ops[0], k) && Stays(After(s, ops[0]), ops[1..], k))
  }

  lemma KeeperStep(s: State, op: Op, k: Address)
    requires k in s.keepers && !Leaves(s, op, k)
    ensures k in After(s, op).keepers
    ensures PaidIn(After(s, op).keepers[k]) ==
            PaidIn(s.keepers[k]) + (if op.AddStake? && op.k == k && Step(s, op).Done? then op.amount else 0)
  {
    match op
    case Register(_, _, _) =>
    case AddStake(_, _) =>
    case RequestUnstake(_, _) =>
    case WithdrawStake(_, _) =>
    case Slash(_) =>
    case Record(_, _) =>
    case DelegateStake(_) =>
    case ProviderReturns(_) =>
    case ClaimYield(_) =>
    case Sweep(_) =>
    case _ =>
  }

  /** While registered, a keeper's payments equal stake plus slashed amount to the last unit. */
  lemma {:induction false} KeeperConservation(s: State, ops: seq<Op>, k: Address)
    requires k in s.keepers && Stays(s, ops, k)
    ensures k in Run(s, ops).keepers
    ensures PaidIn(Run(s, ops).keepers[k]) == PaidIn(s.keepers[k]) + Staked(s, ops, k)
    decreases |ops|
  {
    if ops != [] {
      KeeperStep(s, ops[0], k);
      KeeperConservation(After(s, ops[0]), ops[1..], k);
    }
  }

  // ---------- Strikes ----------

  /** A failure streak that began with stake `base` >= the minimum: active until the third strike,
      and the stake stays above the compounded percentages. */
  predicate InStreak(s: State, k: Address, base: nat) {
    && k in s.keepers
    && s.cfg.minStake <= base
    && var info := s.keepers[k];
      && (info.active <==> info.strikes < MAX_STRIKES)
      && (info.strikes == 0 ==> info.stake >= base)
      && (info.strikes == 1 ==> 100 * info.stake >= 95 * base)
      && (info.strikes == 2 ==> 10_000 * info.stake >= 8_075 * base)
      && (info.strikes == 3 ==> 1_000 * info.stake >= 646 * base)
  }

  /** Accepted steps that end the streak of `k`, or raise the minimum above the stake it began with. */
  predicate EndsStreak(s: State, op: Op, k: Address, base: nat) {
    && Step(s, op).Done?
    && (|| (op.SetMinStake? && op.minStake > base)
        || (op.Slash? && op.k == k)
        || (op.RequestUnstake? && op.k == k)
        || (op.WithdrawStake? && op.k == k)
        || (op.Record? && op.k == k && op.success))
  }

  predicate StreakGoesOn(s: State, ops: seq<Op>, k: Address, base: nat)
    decreases |ops|
  {
    ops == [] || (!EndsStreak(s, ops[0], k, base) && StreakGoesOn(After(s, ops[0]), ops[1..], k, base))
  }

  lemma StrikeArithmetic(stake: nat, base: nat, strike: nat)
    requires strike == 1 ==> stake >= base
    requires strike == 2 ==> 100 * stake >= 95 * base
    requires strike == 3 ==> 10_000 * stake >= 8_075 * base
    ensures var left := stake - StrikeAmount(stake, strike);
            && (strike == 1 ==> 100 * left >= 95 * base)
            && (strike == 2 ==> 10_000 * left >= 8_075 * base)
            && (strike == 3 ==> 1_000 * left >= 646 * base)
  {
  }

  /** One when the step records a failure of `k`. */
  function Fails(s: State, op: Op, k: Address): nat {
    if op == Record(k, false) && Step(s, op).Done? then 1 else 0
  }

  lemma FailureRecorded(s: State, k: Address)
    requires k in s.keepers
    ensures After(s, Record(k, false)).cfg == s.cfg
    ensures After(s, Record(k, false)).keepers ==
            var info := FailedRecord(s.keepers[k]);
            if Step(s, Record(k, false)).Done?
            then s.keepers[k := if Expels(s, info) then info.(active := false) else info] else s.keepers
  {
  }

  lemma KeptOrGrown(s: State, op: Op, k: Address, base: nat)
    requires k in s.keepers && !EndsStreak(s, op, k, base) && op != Record(k, false) && s.cfg.minStake <= base
    ensures var s' := After(s, op);
            && s'.cfg.minStake <= base
            && k in s'.keepers
            && s'.keepers[k].stake >= s.keepers[k].stake
            && s'.keepers[k] == s.keepers[k].(stake := s'.keepers[k].stake)
  {
    match op
    case Register(_, _, _) =>
    case AddStake(_, _) =>
    case RequestUnstake(_, _) =>
    case WithdrawStake(_, _) =>
    case Slash(_) =>
    case Record(_, _) =>
    case DelegateStake(_) =>
    case ProviderReturns(_) =>
    case ClaimYield(_) =>
    case Sweep(_) =>
    case _ =>
  }

  lemma StreakStep(s: State, op: Op, k: Address, base: nat)
    requires InStreak(s, k, base) && !EndsStreak(s, op, k, base)
    ensures InStreak(After(s, op), k, base)
    ensures After(s, op).keepers[k].strikes == s.keepers[k].strikes + Fails(s, op, k)
  {
    if op == Record(k, false) {
      StrikeArithmetic(s.keepers[k].stake, base, s.keepers[k].strikes + 1);
      FailureRecorded(s, k);
    } else {
      KeptOrGrown(s, op, k, base);
    }
  }

  function FailuresOf(s: State, ops: seq<Op>, k: Address): nat
    decreases |ops|
  {
    if ops == [] then 0 else Fails(s, ops[0], k) + FailuresOf(After(s, ops[0]), ops[1..], k)
  }

  lemma {:induction false} StreakRun(s: State, ops: seq<Op>, k: Address, base: nat)
    requires InStreak(s, k, base) && StreakGoesOn(s, ops, k, base)
    ensures InStreak(Run(s, ops), k, base)
    ensures Run(s, ops).keepers[k].strikes == s.keepers[k].strikes + FailuresOf(s, ops, k)
    decreases |ops|
  {
    if ops != [] {
      StreakStep(s, ops[0], k, base);
      StreakRun(After(s, ops[0]), ops[1..], k, base);
    }
  }

  /** Whatever else happens in between, an active keeper whose stake meets the minimum survives one
      and two failures, is expelled exactly at the third, and then still holds 64.6% of its stake. */
  lemma ExpelledAtThirdStrike(s: State, ops: seq<Op>, k: Address)
    requires k in s.keepers && s.keepers[k].active && s.keepers[k].strikes == 0
    requires s.keepers[k].stake >= s.cfg.minStake
    requires StreakGoesOn(s, ops, k, s.keepers[k].stake)
    ensures var e := Run(s, ops);
            && k in e.keepers
            && (e.keepers[k].active <==> FailuresOf(s, ops, k) < 3)
            && (FailuresOf(s, ops, k) <= 3 ==> 1_000 * e.keepers[k].stake >= 646 * s.keepers[k].stake)
  {
    StreakRun(s, ops, k, s.keepers[k].stake);
  }

  lemma InactiveStep(s: State, op: Op, k: Address)
    requires k in s.keepers && !s.keepers[k].active
    ensures k in After(s, op).keepers ==> !After(s, op).keepers[k].active
    ensures k !in After(s, op).keepers ==> Leaves(s, op, k)
  {
    match op
    case Register(_, _, _) =>
    case AddStake(_, _) =>
    case RequestUnstake(_, _) =>
    case WithdrawStake(_, _) =>
    case Slash(_) =>
    case Record(_, _) =>
    case DelegateStake(_) =>
    case ProviderReturns(_) =>
    case ClaimYield(_) =>
    case Sweep(_) =>
    case _ =>
  }

  /** The state before step m + 1 of a run, counted from its second state on. */
  lemma RunShift(s: State, ops: seq<Op>, m: nat)
    requires m < |ops|
    ensures Run(s, ops[..m + 1]) == Run(After(s, ops[0]), ops[1..][..m])
  {
    assert ops[..m + 1][0] == ops[0] && ops[..m + 1][1..] == ops[1..][..m];
  }

  lemma AbsentStep(s: State, op: Op, k: Address)
    requires k !in s.keepers
    ensures k in After(s, op).keepers <==> Enters(s, op, k)
  {
    match op
    case Register(_, _, _) =>
    case AddStake(_, _) =>
    case RequestUnstake(_, _) =>
    case WithdrawStake(_, _) =>
    case Slash(_) =>
    case Record(_, _) =>
    case DelegateStake(_) =>
    case ProviderReturns(_) =>
    case ClaimYield(_) =>
    case Sweep(_) =>
    case _ =>
  }

  /** A record that was absent and is present again was put there by an accepted registration. */
  lemma {:induction false} MustReRegister(s: State, ops: seq<Op>, k: Address) returns (j: nat)
    requires k !in s.keepers && k in Run(s, ops).keepers
    ensures j < |ops| && Enters(Run(s, ops[..j]), ops[j], k)
    decreases |ops|
  {
    AbsentStep(s, ops[0], k);
    if k in After(s, ops[0]).keepers {
      j := 0;
    } else {
      var m := MustReRegister(After(s, ops[0]), ops[1..], k);
      RunShift(s, ops, m);
      j := m + 1;
    }
  }

  /** A deactivated keeper is active again only by an accepted withdrawal and, later, an accepted registration. */
  lemma {:induction false} OnlyWayBack(s: State, ops: seq<Op>, k: Address) returns (i: nat, j: nat)
    requires k in s.keepers && !s.keepers[k].active
    requires k in Run(s, ops).keepers && Run(s, ops).keepers[k].active
    ensures i < j < |ops| && Leaves(Run(s, ops[..i]), ops[i], k) && Enters(Run(s, ops[..j]), ops[j], k)
    decreases |ops|
  {
    InactiveStep(s, ops[0], k);
    if k in After(s, ops[0]).keepers {
      var i', j' := OnlyWayBack(After(s, ops[0]), ops[1..], k);
      RunShift(s, ops, i');
      RunShift(s, ops, j');
      i, j := i' + 1, j' + 1;
    } else {
      var j' := MustReRegister(After(s, ops[0]), ops[1..], k);
      RunShift(s, ops, j');
      i, j := 0, j' + 1;
    }
  }
}

/** The registry contract: records, sets and counters updated in place. */
module RegistryContract {
  import opened MapSums
  import opened RegistryModel

  class KeeperRegistry {
    var funds: nat
    var delegated: nat
    var keepers: map<Address, Keeper>
    var activeSet: set<Address>
    var requests: map<Address, Time>
    var committed: nat
    var debts: map<Address, nat>
    var yieldTotal: nat
    var cfg: Config

    ghost function Abs(): State
      reads this
    {
      State(funds, delegated, keepers, activeSet, requests, committed, debts, yieldTotal, cfg)
    }

    constructor (minStake: nat, slashBps: nat, cooldown: nat, treasury: Address)
      requires slashBps <= BPS && treasury != ZERO_ADDRESS
      ensures CounterExact(Abs()) && Slack(Abs()) == 0
      ensures cfg == Config(minStake, slashBps, cooldown, treasury, ZERO_ADDRESS)
    {
      funds, delegated, committed, yieldTotal := 0, 0, 0, 0;
      keepers, activeSet, requests, debts := map[], {}, map[], map[];
      cfg := Config(minStake, slashBps, cooldown, treasury, ZERO_ADDRESS);
      new;
      assert Open(Abs()) == map[];
    }

    method RegisterKeeper(caller: Address, payment: nat, now: Time, admitted: bool) returns (ok: bool)
      modifies this
      ensures Guarded(admitted, old(Abs()), Register(caller, payment, now), Abs(), ok, [])
    {
      if !admitted { return false; }
      if caller in keepers || payment < cfg.minStake { return false; }
      funds := funds + payment;
      keepers := keepers[caller := Keeper(payment, now, 0, 0, 0, 0, true, 0)];
      activeSet := activeSet + {caller};
      return true;
    }

    method AddStakeTo(caller: Address, payment: nat, admitted: bool) returns (ok: bool)
      modifies this
      ensures Guarded(admitted, old(Abs()), AddStake(caller, payment), Abs(), ok, [])
    {
      if !admitted { return false; }
      if caller !in keepers { return false; }
      funds := funds + payment;
      var info := keepers[caller];
      info := info.(stake := info.stake + payment);
      keepers := keepers[caller := info];
      return true;
    }

    method RequestUnstaking(caller: Address, now: Time, admitted: bool) returns (ok: bool)
      modifies this
      ensures Guarded(admitted, old(Abs()), RequestUnstake(caller, now), Abs(), ok, [])
    {
      if !admitted { return false; }
      if caller !in keepers || !keepers[caller].active { return false; }
      var info := keepers[caller].(active := false);
      keepers := keepers[caller := info];
      activeSet := activeSet - {caller};
      requests := requests[caller := now];
      committed := committed + info.stake;
      return true;
    }

    method WithdrawAll(caller: Address, now: Time) returns (ok: bool, sent: seq<Payment>)
      modifies this
      ensures Performs(old(Abs()), WithdrawStake(caller, now), Abs(), ok, sent)
    {
      if caller !in keepers || keepers[caller].active { return false, []; }
      var info := keepers[caller];
      var requestTime := if caller in requests then requests[caller] else 0;
      if now < requestTime + cfg.cooldown || funds < info.stake { return false, []; }
      committed := SaturatingSub(committed, info.stake);
      var amount, penalty := info.stake, 0;
      if now < info.registeredAt + MIN_KEEPER_SECONDS {
        penalty := amount * EARLY_EXIT_BPS / BPS;
        amount := amount - penalty;
        funds := funds - penalty;
      }
      keepers := keepers - {caller};
      requests := requests - {caller};
      funds := funds - amount;
      return true, [Payment(cfg.treasury, penalty), Payment(caller, amount)];
    }

    method SlashKeeper(keeper: Address, admitted: bool) returns (ok: bool, sent: seq<Payment>)
      modifies this
      ensures Guarded(admitted, old(Abs()), Slash(keeper), Abs(), ok, sent)
    {
      if !admitted { return false, []; }
      if keeper !in keepers { return false, []; }
      var info := keepers[keeper];
      var amount := SlashAmount(info.stake, cfg.slashBps);
      info := info.(stake := info.stake - amount, slashed := info.slashed + amount);
      ok, sent := StoreSlash(keeper, info, amount, info.stake < cfg.minStake);
    }

    method RecordExecution(keeper: Address, success: bool, admitted: bool) returns (ok: bool, sent: seq<Payment>)
      modifies this
      ensures Guarded(admitted, old(Abs()), Record(keeper, success), Abs(), ok, sent)
    {
      if !admitted { return false, []; }
      if keeper !in keepers { return false, []; }
      if success {
        var info := keepers[keeper];
        info := info.(executions := info.executions + 1);
        info := info.(successes := info.successes + 1, strikes := 0);
        keepers := keepers[keeper := info];
        return true, [];
      }
      ok, sent := RecordFailure(keeper);
    }

    method RecordFailure(keeper: Address) returns (ok: bool, sent: seq<Payment>)
      modifies this
      requires keeper in keepers
      ensures Performs(old(Abs()), Record(keeper, false), Abs(), ok, sent)
    {
      var info := keepers[keeper];
      info := info.(executions := info.executions + 1);
      info := info.(failures := info.failures + 1, strikes := info.strikes + 1);
      var amount := StrikeAmount(info.stake, info.strikes);
      info := info.(stake := info.stake - amount, slashed := info.slashed + amount);
      ok, sent := StoreSlash(keeper, info, amount,
                             info.strikes >= MAX_STRIKES || info.stake < cfg.minStake * 75 / 100);
    }

    /** The common tail of both slashing endpoints: expulsion, cooldown reserve, record, and the
        slashed stake, which goes to the treasury or becomes debt while stake is delegated. */
    method StoreSlash(keeper: Address, slashed: Keeper, amount: nat, expel: bool)
      returns (ok: bool, sent: seq<Payment>)
      modifies this
      ensures var tx := TakeSlash(old(Abs()), keeper, slashed, amount, expel);
              && ok == tx.Done?
              && Abs() == (if tx.Done? then tx.next else old(Abs()))
              && sent == if tx.Done? then tx.sent else []
    {
      if cfg.provider == ZERO_ADDRESS && funds < amount { return false, []; }
      var info := slashed;
      if expel {
        info := info.(active := false);
        activeSet := activeSet - {keeper};
      }
      if !info.active && keeper in requests {
        committed := SaturatingSub(committed, amount);
      }
      keepers := keepers[keeper := info];
      if cfg.provider == ZERO_ADDRESS {
        funds := funds - amount;
        sent := [Payment(cfg.treasury, amount)];
      } else {
        debts := debts[keeper := Get(debts, keeper) + amount];
        sent := [];
      }
      ok := true;
    }

    method DelegateToProvider(amount: nat, admitted: bool) returns (ok: bool)
      modifies this
      ensures Guarded(admitted, old(Abs()), DelegateStake(amount), Abs(), ok, [])
    {
      if !admitted { return false; }
      if cfg.provider == ZERO_ADDRESS { return false; }
      var delegable := if funds > committed then funds - committed else 0;
      if amount > delegable { return false; }
      funds := funds - amount;
      delegated := delegated + amount;
      return true;
    }

    method SweepSlashedDebt(keeper: Address, admitted: bool) returns (ok: bool, sent: seq<Payment>)
      modifies this
      ensures Guarded(admitted, old(Abs()), Sweep(keeper), Abs(), ok, sent)
    {
      if !admitted { return false, []; }
      var debt := Get(debts, keeper);
      if debt == 0 || funds < debt { return false, []; }
      funds := funds - debt;
      debts := debts[keeper := 0];
      return true, [Payment(cfg.treasury, debt)];
    }

    /** The provider pays out `amount`; the contract forwards what its balance gained. */
    method ClaimProviderRewards(amount: nat, admitted: bool) returns (ok: bool, sent: seq<Payment>)
      modifies this
      ensures Guarded(admitted, old(Abs()), ClaimYield(amount), Abs(), ok, sent)
    {
      if !admitted { return false, []; }
      if cfg.provider == ZERO_ADDRESS { return false, []; }
      var initial := funds;
      funds := funds + amount;
      sent := [];
      if funds > initial {
        var generated := funds - initial;
        yieldTotal := yieldTotal + generated;
        if cfg.treasury != ZERO_ADDRESS {
          funds := funds - generated;
          sent := [Payment(cfg.treasury, generated)];
        }
      }
      ok := true;
    }
  }
}
