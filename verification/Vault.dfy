/** The DeFi vault: deposits are delegated and withdrawals undelegated through promises whose
    answers arrive later, in any order. A call in flight is a map entry under its own id. */
module VaultModel {
  import opened MapSums

  type Address = nat

  /** A promise awaiting its callback. `Spend` is EGLD sent to a DEX pair or an NFT contract. */
  datatype Call =
    | Delegate(user: Address, amount: nat)
    | Undelegate(user: Address, amount: nat)
    | Spend(amount: nat)

  datatype State = State(
    funds: nat,
    balances: map<Address, nat>,
    totalDeposited: nat,
    pending: map<Address, nat>,
    totalPending: nat,
    calls: map<nat, Call>,
    nextCall: nat)

  /** An outgoing transfer to a user; `claim` is false for yield taken by the owner. */
  datatype Transfer = Transfer(to: Address, amount: nat, claim: bool)

  datatype Tx = Abort | Done(next: State, sent: seq<Transfer>)

  datatype Op =
    | Deposit(user: Address, amount: nat)
    | Withdraw(user: Address, amount: nat)
    | WithdrawUnbonded(user: Address)
    | Reply(id: nat, ok: bool)
    | Swap(configured: nat)
    | Mint(price: nat)
    | RescueYield(owner: Address, amount: nat)
    | Income(amount: nat)

  /** Balance beyond what users are waiting for. */
  function SafeLiquid(s: State): nat {
    if s.funds > s.totalPending then s.funds - s.totalPending else 0
  }

  /** How much EGLD is missing to pay every pending withdrawal at once. */
  function Shortfall(s: State): nat {
    if s.totalPending > s.funds then s.totalPending - s.funds else 0
  }

  function SwapAmount(s: State, configured: nat): nat {
    if 0 < configured < SafeLiquid(s) then configured else SafeLiquid(s)
  }

  function Launch(s: State, c: Call): State {
    s.(calls := s.calls[s.nextCall := c], nextCall := s.nextCall + 1)
  }

  /** The answer to a call. A failed call's EGLD comes back with its callback. */
  function Answer(s: State, c: Call, ok: bool): Tx {
    if ok then Done(s, []) else
    match c
    case Delegate(u, a) =>
      var b := Get(s.balances, u);
      Done(s.(balances := s.balances[u := if b >= a then b - a else 0],
              totalDeposited := if s.totalDeposited >= a then s.totalDeposited - a else s.totalDeposited),
           [Transfer(u, a, true)])
    case Undelegate(u, a) =>
      var p := Get(s.pending, u);
      var s1 := s.(balances := s.balances[u := Get(s.balances, u) + a], totalDeposited := s.totalDeposited + a);
      // the saturating `clear` of the contract is not part of this specification
      Done(if p >= a && s.totalPending >= a
           then s1.(pending := s.pending[u := p - a], totalPending := s.totalPending - a) else s1, [])
    case Spend(a) => Done(s.(funds := s.funds + a), [])
  }

  function Step(s: State, op: Op): Tx {
    match op
    case Deposit(u, a) =>
      if a == 0 then Abort else
      Done(Launch(s.(balances := s.balances[u := Get(s.balances, u) + a],
                     totalDeposited := s.totalDeposited + a), Delegate(u, a)), [])
    case Withdraw(u, a) =>
      if a == 0 || Get(s.balances, u) < a then Abort else
      Done(Launch(s.(balances := s.balances[u := Get(s.balances, u) - a],
                     totalDeposited := if s.totalDeposited >= a then s.totalDeposited - a else s.totalDeposited,
                     pending := s.pending[u := Get(s.pending, u) + a],
                     totalPending := s.totalPending + a), Undelegate(u, a)), [])
    case WithdrawUnbonded(u) =>
      var due := Get(s.pending, u);
      if due == 0 || s.funds < due || s.totalPending < due then Abort else
      Done(s.(pending := s.pending[u := 0], totalPending := s.totalPending - due, funds := s.funds - due),
           [Transfer(u, due, true)])
    case Reply(id, ok) =>
      if id !in s.calls then Abort else Answer(s.(calls := s.calls - {id}), s.calls[id], ok)
    case Swap(configured) =>
      var a := SwapAmount(s, configured);
      Done(if a == 0 then s else Launch(s.(funds := s.funds - a), Spend(a)), [])
    case Mint(price) =>
      if SafeLiquid(s) < price then Abort else Done(Launch(s.(funds := s.funds - price), Spend(price)), [])
    case RescueYield(owner, a) =>
      if SafeLiquid(s) < a then Abort else Done(s.(funds := s.funds - a), [Transfer(owner, a, false)])
    case Income(a) => Done(s.(funds := s.funds + a), [])
  }

  /** An aborted transaction leaves storage as it was. */
  function After(s: State, op: Op): State {
    var tx := Step(s, op);
    if tx.Done? then tx.next else s
  }

  /** What a contract call must do to carry out `op`: commit with the new state and the transfers
      of `Step`, or abort and change nothing. */
  predicate Performs(s: State, op: Op, s': State, ok: bool, sent: seq<Transfer>) {
    && s' == After(s, op)
    && ok == Step(s, op).Done?
    && sent == if ok then Step(s, op).sent else []
  }

  /** A call behind a guard on who may call and when: refused, it changes nothing and sends nothing. */
  predicate Guarded(admitted: bool, s: State, op: Op, s': State, ok: bool, sent: seq<Transfer>) {
    if admitted then Performs(s, op, s', ok, sent) else s' == s && !ok && sent == []
  }

  function Run(s: State, ops: seq<Op>): State
    decreases |ops|
  {
    if ops == [] then s else Run(After(s, ops[0]), ops[1..])
  }

  // ---------- Pending withdrawals ----------

  /** The running total is the sum it stands for. */
  ghost predicate PendingExact(s: State) {
    && s.totalPending == Sum(s.pending, Amount)
    && forall id :: id in s.calls ==> id < s.nextCall
  }

  lemma PendingExactAnswer(s: State, id: nat, ok: bool)
    requires PendingExact(s) && id in s.calls
    ensures PendingExact(After(s, Reply(id, ok)))
  {
    match s.calls[id]
    case Delegate(_, _) =>
    case Undelegate(u, a) =>
      if Get(s.pending, u) >= a {
        SumPut<Address, nat>(s.pending, Amount, u, Get(s.pending, u) - a);
      }
    case Spend(_) =>
  }

  lemma PendingExactStep(s: State, op: Op)
    requires PendingExact(s)
    ensures PendingExact(After(s, op))
  {
    match op
    case Withdraw(u, a) => SumPut<Address, nat>(s.pending, Amount, u, Get(s.pending, u) + a);
    case WithdrawUnbonded(u) => SumPut<Address, nat>(s.pending, Amount, u, 0);
    case Reply(id, ok) => if id in s.calls { PendingExactAnswer(s, id, ok); }
    case Deposit(_, _) =>
    case Swap(_) =>
    case Mint(_) =>
    case RescueYield(_, _) =>
    case Income(_) =>
  }

  lemma {:induction false} PendingExactRun(s: State, ops: seq<Op>)
    requires PendingExact(s)
    ensures PendingExact(Run(s, ops))
    decreases |ops|
  {
    if ops != [] {
      PendingExactStep(s, ops[0]);
      PendingExactRun(After(s, ops[0]), ops[1..]);
    }
  }

  /** Only `withdraw` can widen the gap between what users await and what the vault holds. */
  lemma ShortfallStep(s: State, op: Op)
    ensures Shortfall(After(s, op)) <= Shortfall(s) + (if op.Withdraw? && Step(s, op).Done? then op.amount else 0)
  {
  }

  /** What was requested by accepted withdrawals. */
  function Requested(s: State, ops: seq<Op>): nat
    decreases |ops|
  {
    if ops == [] then 0 else
      (if ops[0].Withdraw? && Step(s, ops[0]).Done? then ops[0].amount else 0) + Requested(After(s, ops[0]), ops[1..])
  }

  /** Swaps, mints, rescues, pay-outs and callbacks in any order never touch money users wait for. */
  lemma {:induction false} ShortfallRun(s: State, ops: seq<Op>)
    ensures Shortfall(Run(s, ops)) <= Shortfall(s) + Requested(s, ops)
    decreases |ops|
  {
    if ops != [] {
      ShortfallStep(s, ops[0]);
      ShortfallRun(After(s, ops[0]), ops[1..]);
    }
  }

  // ---------- Total deposited ----------

  ghost predicate DepositedExact(s: State) {
    s.totalDeposited == Sum(s.balances, Amount)
  }

  function DelegateWeight(u: Address): Call -> nat {
    (c: Call) => if c.Delegate? && c.user == u then c.amount else 0
  }

  function UndelegateWeight(u: Address): Call -> nat {
    (c: Call) => if c.Undelegate? && c.user == u then c.amount else 0
  }

  /** Deposits of `u` whose delegate callback is still outstanding. */
  ghost function AwaitingDelegate(s: State, u: Address): nat { Sum(s.calls, DelegateWeight(u)) }

  /** Withdrawals of `u` whose undelegate callback is still outstanding. */
  ghost function AwaitingUndelegate(s: State, u: Address): nat { Sum(s.calls, UndelegateWeight(u)) }

  ghost predicate DelegatesCovered(s: State) {
    forall u: Address :: AwaitingDelegate(s, u) <= Get(s.balances, u)
  }

  ghost predicate UndelegatesCovered(s: State) {
    forall u: Address :: AwaitingUndelegate(s, u) <= Get(s.pending, u)
  }

  /** The user leaves in the vault every amount whose delegation is not confirmed yet. */
  ghost predicate CarefulWithdraw(s: State, op: Op) {
    op.Withdraw? && Step(s, op).Done? ==> AwaitingDelegate(s, op.user) + op.amount <= Get(s.balances, op.user)
  }

  /** The user collects only once every one of their undelegations has been answered. */
  ghost predicate CarefulCollect(s: State, op: Op) {
    op.WithdrawUnbonded? && Step(s, op).Done? ==> AwaitingUndelegate(s, op.user) == 0
  }

  ghost predicate CarefulWithdraws(s: State, ops: seq<Op>)
    decreases |ops|
  {
    ops == [] || (CarefulWithdraw(s, ops[0]) && CarefulWithdraws(After(s, ops[0]), ops[1..]))
  }

  ghost predicate CarefulCollects(s: State, ops: seq<Op>)
    decreases |ops|
  {
    ops == [] || (CarefulCollect(s, ops[0]) && CarefulCollects(After(s, ops[0]), ops[1..]))
  }

  /** How one step changes what is awaited under any weight. */
  lemma CallsStep(s: State, op: Op, w: Call -> nat)
    requires PendingExact(s)
    ensures Step(s, op).Done? ==>
              Sum(After(s, op).calls, w) ==
              match op
              case Deposit(u, a) => Sum(s.calls, w) + w(Delegate(u, a))
              case Withdraw(u, a) => Sum(s.calls, w) + w(Undelegate(u, a))
              case Reply(id, ok) => Sum(s.calls, w) - w(s.calls[id])
              case Swap(c) => Sum(s.calls, w) + (if SwapAmount(s, c) == 0 then 0 else w(Spend(SwapAmount(s, c))))
              case Mint(p) => Sum(s.calls, w) + w(Spend(p))
              case _ => Sum(s.calls, w)
  {
    match op
    case Deposit(u, a) => SumPut(s.calls, w, s.nextCall, Delegate(u, a));
    case Withdraw(u, a) => SumPut(s.calls, w, s.nextCall, Undelegate(u, a));
    case Reply(id, ok) => SumDrop(s.calls, w, id);
    case Swap(c) => SumPut(s.calls, w, s.nextCall, Spend(SwapAmount(s, c)));
    case Mint(p) => SumPut(s.calls, w, s.nextCall, Spend(p));
    case _ =>
  }

  lemma DelegatesCoveredStep(s: State, op: Op)
    requires PendingExact(s) && DelegatesCovered(s) && CarefulWithdraw(s, op)
    ensures DelegatesCovered(After(s, op))
  {
    forall u: Address ensures AwaitingDelegate(After(s, op), u) <= Get(After(s, op).balances, u) {
      CallsStep(s, op, DelegateWeight(u));
      assert AwaitingDelegate(s, u) <= Get(s.balances, u);
      if op.Reply? && op.id in s.calls {
        AtMostSum(s.calls, DelegateWeight(u), op.id);
      }
    }
  }

  lemma UndelegatesCoveredStep(s: State, op: Op)
    requires PendingExact(s) && UndelegatesCovered(s) && CarefulCollect(s, op)
    ensures UndelegatesCovered(After(s, op))
  {
    forall u: Address ensures AwaitingUndelegate(After(s, op), u) <= Get(After(s, op).pending, u) {
      CallsStep(s, op, UndelegateWeight(u));
      assert AwaitingUndelegate(s, u) <= Get(s.pending, u);
      if op.Reply? && op.id in s.calls {
        AtMostSum(s.calls, UndelegateWeight(u), op.id);
      }
    }
  }

  /** A failed delegation keeps the total equal to the sum exactly when the user still holds the
      whole amount, or holds nothing while the vault's total is below the amount. */
  lemma FailedDelegateExact(s: State, id: nat)
    requires DepositedExact(s) && id in s.calls && s.calls[id].Delegate?
    ensures var u, a := s.calls[id].user, s.calls[id].amount;
            DepositedExact(After(s, Reply(id, false))) <==>
            Get(s.balances, u) >= a || (Get(s.balances, u) == 0 && s.totalDeposited < a)
  {
    var u, a := s.calls[id].user, s.calls[id].amount;
    var b := Get(s.balances, u);
    SumPut<Address, nat>(s.balances, Amount, u, if b >= a then b - a else 0);
    AtMostSum(s.balances, Amount, u);
  }

  /** The step is the failure of a delegation for which that does not hold. */
  predicate Skews(s: State, op: Op) {
    && op.Reply? && !op.ok && op.id in s.calls && s.calls[op.id].Delegate?
    && var a, b := s.calls[op.id].amount, Get(s.balances, s.calls[op.id].user);
      b < a && (b > 0 || s.totalDeposited >= a)
  }

  lemma DepositedExactAnswer(s: State, id: nat)
    requires DepositedExact(s) && id in s.calls
    ensures DepositedExact(After(s, Reply(id, false))) <==> !Skews(s, Reply(id, false))
  {
    match s.calls[id]
    case Delegate(_, _) => FailedDelegateExact(s, id);
    case Undelegate(u, a) => SumPut<Address, nat>(s.balances, Amount, u, Get(s.balances, u) + a);
    case Spend(_) =>
  }

  /** Exactly those steps make the total differ from the sum. */
  lemma DepositedExactStep(s: State, op: Op)
    requires DepositedExact(s)
    ensures DepositedExact(After(s, op)) <==> !Skews(s, op)
  {
    match op
    case Deposit(u, a) => SumPut<Address, nat>(s.balances, Amount, u, Get(s.balances, u) + a);
    case Withdraw(u, a) =>
      AtMostSum(s.balances, Amount, u);
      if Get(s.balances, u) >= a {
        SumPut<Address, nat>(s.balances, Amount, u, Get(s.balances, u) - a);
      }
    case Reply(id, ok) =>
      if !ok && id in s.calls {
        DepositedExactAnswer(s, id);
      }
    case WithdrawUnbonded(_) =>
    case Swap(_) =>
    case Mint(_) =>
    case RescueYield(_, _) =>
    case Income(_) =>
  }

  ghost predicate AlwaysDeposited(s: State, ops: seq<Op>)
    decreases |ops|
  {
    DepositedExact(s) && (ops == [] || AlwaysDeposited(After(s, ops[0]), ops[1..]))
  }

  predicate NeverSkews(s: State, ops: seq<Op>)
    decreases |ops|
  {
    ops == [] || (!Skews(s, ops[0]) && NeverSkews(After(s, ops[0]), ops[1..]))
  }

  /** The total is the sum of balances all along a run exactly when the run has no such step. */
  lemma {:induction false} DepositedExactIff(s: State, ops: seq<Op>)
    requires DepositedExact(s)
    ensures AlwaysDeposited(s, ops) <==> NeverSkews(s, ops)
    decreases |ops|
  {
    if ops != [] {
      DepositedExactStep(s, ops[0]);
      if !Skews(s, ops[0]) {
        DepositedExactIff(After(s, ops[0]), ops[1..]);
      }
    }
  }

  /** Any mix of failed deposits and failed withdrawals, provided users are careful. */
  lemma {:induction false} DepositedExactRun(s: State, ops: seq<Op>)
    requires PendingExact(s) && DelegatesCovered(s) && DepositedExact(s) && CarefulWithdraws(s, ops)
    ensures DepositedExact(Run(s, ops)) && DelegatesCovered(Run(s, ops))
    decreases |ops|
  {
    if ops != [] {
      var op := ops[0];
      if op.Reply? && op.id in s.calls && s.calls[op.id].Delegate? {
        var u := s.calls[op.id].user;
        AtMostSum(s.calls, DelegateWeight(u), op.id);
        assert AwaitingDelegate(s, u) <= Get(s.balances, u);
      }
      PendingExactStep(s, op);
      DelegatesCoveredStep(s, op);
      DepositedExactStep(s, op);
      DepositedExactRun(After(s, op), ops[1..]);
    }
  }

  /** Without that care the equality is lost: whenever a user deposits, withdraws part of it before
      the delegation is answered, holds nothing else, and the delegation then fails, the total is
      no longer the sum of balances. */
  lemma DepositedDrifts(s: State, u: Address, amount: nat, part: nat)
    requires PendingExact(s) && DepositedExact(s) && Get(s.balances, u) == 0
    requires 0 < part < amount
    ensures var s2 := After(After(s, Deposit(u, amount)), Withdraw(u, part));
            DepositedExact(s2) && !DepositedExact(After(s2, Reply(s.nextCall, false)))
  {
    var s1 := After(s, Deposit(u, amount));
    DepositedExactStep(s, Deposit(u, amount));
    PendingExactStep(s, Deposit(u, amount));
    DepositedExactStep(s1, Withdraw(u, part));
    var s2 := After(s1, Withdraw(u, part));
    assert s2.calls[s.nextCall] == Delegate(u, amount);
    FailedDelegateExact(s2, s.nextCall);
  }

  // ---------- Money ----------

  /** EGLD travelling with a call; an undelegation carries none. */
  function Carried(c: Call): nat { if c.Undelegate? then 0 else c.amount }

  function Total(ts: seq<Transfer>): nat { if ts == [] then 0 else ts[0].amount + Total(ts[1..]) }

  /** EGLD entering with the operation. */
  function Entering(s: State, op: Op): nat {
    if Step(s, op).Done? && (op.Deposit? || op.Income?) then op.amount else 0
  }

  /** EGLD that reached the provider, the DEX or the NFT contract. */
  function Delivered(s: State, op: Op): nat {
    if op.Reply? && op.ok && op.id in s.calls then Carried(s.calls[op.id]) else 0
  }

  function SentBy(s: State, op: Op): nat { if Step(s, op).Done? then Total(Step(s, op).sent) else 0 }

  /** No EGLD appears or vanishes: balance plus EGLD in flight changes by what enters, what is sent to
      users and what arrives at the other end. */
  lemma MoneyStep(s: State, op: Op)
    requires PendingExact(s)
    ensures var s' := After(s, op);
            s'.funds + Sum(s'.calls, Carried) + SentBy(s, op) + Delivered(s, op) ==
            s.funds + Sum(s.calls, Carried) + Entering(s, op)
  {
    CallsStep(s, op, Carried);
    match op
    case Deposit(_, _) =>
    case Withdraw(_, _) =>
    case WithdrawUnbonded(u) => TotalOne(Transfer(u, Get(s.pending, u), true));
    case Reply(id, ok) =>
      if id in s.calls {
        AtMostSum(s.calls, Carried, id);
        match s.calls[id]
        case Delegate(u, a) => TotalOne(Transfer(u, a, true));
        case Undelegate(_, _) =>
        case Spend(_) =>
      }
    case Swap(_) =>
    case Mint(_) =>
    case RescueYield(owner, a) => TotalOne(Transfer(owner, a, false));
    case Income(_) =>
  }

  function AllEntering(s: State, ops: seq<Op>): nat
    decreases |ops|
  {
    if ops == [] then 0 else Entering(s, ops[0]) + AllEntering(After(s, ops[0]), ops[1..])
  }

  /** EGLD that left for good: sent to users or the owner, or delivered to another contract. */
  function AllLeaving(s: State, ops: seq<Op>): nat
    decreases |ops|
  {
    if ops == [] then 0 else SentBy(s, ops[0]) + Delivered(s, ops[0]) + AllLeaving(After(s, ops[0]), ops[1..])
  }

  /** Over any run and any order of answers: what is held or in flight at the end is what was there at the
      start, plus all that entered, less all that left. */
  lemma {:induction false} MoneyRun(s: State, ops: seq<Op>)
    requires PendingExact(s)
    ensures var e := Run(s, ops);
            e.funds + Sum(e.calls, Carried) + AllLeaving(s, ops) ==
            s.funds + Sum(s.calls, Carried) + AllEntering(s, ops)
    decreases |ops|
  {
    if ops != [] {
      MoneyStep(s, ops[0]);
      PendingExactStep(s, ops[0]);
      MoneyRun(After(s, ops[0]), ops[1..]);
    }
  }

  lemma TotalOne(t: Transfer)
    ensures Total([t]) == t.amount
  {
    assert [t][1..] == [];
  }

  // ---------- What users are owed ----------

  /** Everything the vault still owes `u` on its books. */
  function Claim(s: State, u: Address): nat { Get(s.balances, u) + Get(s.pending, u) }

  function PaidIn(s: State, op: Op, u: Address): nat {
    if op.Deposit? && op.user == u && Step(s, op).Done? then op.amount else 0
  }

  function SentTo(ts: seq<Transfer>, u: Address): nat {
    if ts == [] then 0
    else (if ts[0].to == u && ts[0].claim then ts[0].amount else 0) + SentTo(ts[1..], u)
  }

  function PaidOut(s: State, op: Op, u: Address): nat {
    if Step(s, op).Done? then SentTo(Step(s, op).sent, u) else 0
  }

  /** What a failed call hands `u` beyond their claim: the part of a failed deposit already
      withdrawn, or a failed withdrawal already collected. */
  function Excess(s: State, op: Op, u: Address): nat {
    if op.Reply? && !op.ok && op.id in s.calls then
      match s.calls[op.id]
      case Delegate(v, a) => if v == u && Get(s.balances, u) < a then a - Get(s.balances, u) else 0
      case Undelegate(v, a) => if v == u && Get(s.pending, u) < a then a else 0
      case Spend(_) => 0
    else 0
  }

  lemma SentToOne(t: Transfer, u: Address)
    ensures SentTo([t], u) == if t.to == u && t.claim then t.amount else 0
  {
    assert [t][1..] == [];
  }

  /** No step takes anything from a user's claim without paying it out; the exact surplus is `Excess`. */
  lemma ClaimStep(s: State, op: Op, u: Address)
    requires PendingExact(s)
    ensures Claim(After(s, op), u) + PaidOut(s, op, u) == Claim(s, u) + PaidIn(s, op, u) + Excess(s, op, u)
  {
    match op
    case Deposit(_, _) =>
    case Withdraw(_, _) =>
    case WithdrawUnbonded(v) => SentToOne(Transfer(v, Get(s.pending, v), true), u);
    case Reply(id, ok) => if id in s.calls { ClaimAnswer(s, id, ok, u); }
    case Swap(_) =>
    case Mint(_) =>
    case RescueYield(owner, a) => SentToOne(Transfer(owner, a, false), u);
    case Income(_) =>
  }

  lemma ClaimAnswer(s: State, id: nat, ok: bool, u: Address)
    requires PendingExact(s) && id in s.calls
    ensures var op := Reply(id, ok);
            Claim(After(s, op), u) + PaidOut(s, op, u) == Claim(s, u) + PaidIn(s, op, u) + Excess(s, op, u)
  {
    match s.calls[id]
    case Delegate(v, a) => SentToOne(Transfer(v, a, true), u);
    case Undelegate(v, a) => AtMostSum(s.pending, Amount, v);
    case Spend(_) =>
  }

  // ---------- Balances and waiting withdrawals ----------

  /** Moved from the balance of `u` to the waiting withdrawals, and back when an undelegation fails. */
  function MovedOut(s: State, op: Op, u: Address): nat {
    if op.Withdraw? && op.user == u && Step(s, op).Done? then op.amount else 0
  }

  function MovedBack(s: State, op: Op, u: Address): nat {
    if op.Reply? && !op.ok && op.id in s.calls && s.calls[op.id].Undelegate? && s.calls[op.id].user == u
       && s.calls[op.id].amount <= Get(s.pending, u)
    then s.calls[op.id].amount else 0
  }

  function Collected(s: State, op: Op, u: Address): nat {
    if op.WithdrawUnbonded? && op.user == u && Step(s, op).Done? then Total(Step(s, op).sent) else 0
  }

  lemma WaitingStep(s: State, op: Op, u: Address)
    requires PendingExact(s)
    ensures Get(After(s, op).pending, u) + Collected(s, op, u) + MovedBack(s, op, u) ==
            Get(s.pending, u) + MovedOut(s, op, u)
  {
    match op
    case WithdrawUnbonded(v) => TotalOne(Transfer(v, Get(s.pending, v), true));
    case Reply(id, ok) => if id in s.calls { WaitingAnswer(s, id, ok, u); }
    case Deposit(_, _) =>
    case Withdraw(_, _) =>
    case Swap(_) =>
    case Mint(_) =>
    case RescueYield(_, _) =>
    case Income(_) =>
  }

  lemma WaitingAnswer(s: State, id: nat, ok: bool, u: Address)
    requires PendingExact(s) && id in s.calls
    ensures Get(After(s, Reply(id, ok)).pending, u) + MovedBack(s, Reply(id, ok), u) == Get(s.pending, u)
  {
    match s.calls[id]
    case Delegate(_, _) =>
    case Undelegate(v, _) => AtMostSum(s.pending, Amount, v);
    case Spend(_) =>
  }

  function TotalMoved(s: State, ops: seq<Op>, u: Address): nat
    decreases |ops|
  {
    if ops == [] then 0 else MovedOut(s, ops[0], u) + TotalMoved(After(s, ops[0]), ops[1..], u)
  }

  function TotalSettled(s: State, ops: seq<Op>, u: Address): nat
    decreases |ops|
  {
    if ops == [] then 0 else
      Collected(s, ops[0], u) + MovedBack(s, ops[0], u) + TotalSettled(After(s, ops[0]), ops[1..], u)
  }

  /** Per user, over any run: every accepted withdrawal waits, was collected, or was put back. With `ClaimExact` this
      fixes the balance too. */
  lemma {:induction false} WaitingExact(s: State, ops: seq<Op>, u: Address)
    requires PendingExact(s)
    ensures Get(Run(s, ops).pending, u) + TotalSettled(s, ops, u) == Get(s.pending, u) + TotalMoved(s, ops, u)
    decreases |ops|
  {
    if ops != [] {
      WaitingStep(s, ops[0], u);
      PendingExactStep(s, ops[0]);
      WaitingExact(After(s, ops[0]), ops[1..], u);
    }
  }

  // ---------- What is refused, what is spent ----------

  lemma UserCallsIff(s: State, u: Address, a: nat)
    requires PendingExact(s)
    ensures Step(s, Deposit(u, a)).Done? <==> a > 0
    ensures Step(s, Withdraw(u, a)).Done? <==> 0 < a <= Get(s.balances, u)
    ensures Step(s, WithdrawUnbonded(u)).Done? <==> 0 < Get(s.pending, u) <= s.funds
  {
    AtMostSum(s.pending, Amount, u);
  }

  /** EGLD leaves for a DEX or an NFT contract, or as yield for the owner, only beyond what users wait for: a swap
      spends the configured amount, or all there is if none is configured or less is there; a mint its price; a
      rescue what the owner asks, paid to the owner. */
  lemma SpendsFreeOnly(s: State, configured: nat, price: nat, owner: Address)
    ensures var free: int, spent: int := s.funds - s.totalPending, s.funds - After(s, Swap(configured)).funds;
            && (free <= 0 ==> spent == 0)
            && (free > 0 && (configured == 0 || configured >= free) ==> spent == free)
            && (0 < configured < free ==> spent == configured)
    ensures Step(s, Mint(price)).Done? <==> price == 0 || price + s.totalPending <= s.funds
    ensures Step(s, Mint(price)).Done? ==> After(s, Mint(price)).funds == s.funds - price
    ensures Step(s, RescueYield(owner, price)).Done? <==> price == 0 || price + s.totalPending <= s.funds
    ensures Step(s, RescueYield(owner, price)).Done? ==>
              && After(s, RescueYield(owner, price)) == s.(funds := s.funds - price)
              && Step(s, RescueYield(owner, price)).sent == [Transfer(owner, price, false)]
  {
  }

  // ---------- Runs ----------

  function TotalIn(s: State, ops: seq<Op>, u: Address): nat
    decreases |ops|
  {
    if ops == [] then 0 else PaidIn(s, ops[0], u) + TotalIn(After(s, ops[0]), ops[1..], u)
  }

  function TotalOut(s: State, ops: seq<Op>, u: Address): nat
    decreases |ops|
  {
    if ops == [] then 0 else PaidOut(s, ops[0], u) + TotalOut(After(s, ops[0]), ops[1..], u)
  }

  function TotalExcess(s: State, ops: seq<Op>, u: Address): nat
    decreases |ops|
  {
    if ops == [] then 0 else Excess(s, ops[0], u) + TotalExcess(After(s, ops[0]), ops[1..], u)
  }

  /** On every run, to the last unit: claim plus pay-outs are claim plus deposits plus what failed calls
      handed out in excess. So no user loses, and one gains exactly when some excess occurred. */
  lemma {:induction false} ClaimExact(s: State, ops: seq<Op>, u: Address)
    requires PendingExact(s)
    ensures Claim(Run(s, ops), u) + TotalOut(s, ops, u) == Claim(s, u) + TotalIn(s, ops, u) + TotalExcess(s, ops, u)
    decreases |ops|
  {
    if ops != [] {
      ClaimStep(s, ops[0], u);
      PendingExactStep(s, ops[0]);
      ClaimExact(After(s, ops[0]), ops[1..], u);
    }
  }

  /** On every run no user loses, and a user gains exactly when a failed call paid them in excess. */
  lemma ClaimNeverLost(s: State, ops: seq<Op>, u: Address)
    requires PendingExact(s)
    ensures Claim(Run(s, ops), u) + TotalOut(s, ops, u) >= Claim(s, u) + TotalIn(s, ops, u)
    ensures Claim(Run(s, ops), u) + TotalOut(s, ops, u) == Claim(s, u) + TotalIn(s, ops, u) <==>
            TotalExcess(s, ops, u) == 0
  {
    ClaimExact(s, ops, u);
  }

  /** On careful runs nobody gains either: the books are exact for every user. */
  lemma {:induction false} NoExcess(s: State, ops: seq<Op>, u: Address)
    requires PendingExact(s) && DelegatesCovered(s) && UndelegatesCovered(s)
    requires CarefulWithdraws(s, ops) && CarefulCollects(s, ops)
    ensures TotalExcess(s, ops, u) == 0
    decreases |ops|
  {
    if ops != [] {
      var op := ops[0];
      if op.Reply? && op.id in s.calls {
        AtMostSum(s.calls, DelegateWeight(u), op.id);
        AtMostSum(s.calls, UndelegateWeight(u), op.id);
        assert AwaitingDelegate(s, u) <= Get(s.balances, u);
        assert AwaitingUndelegate(s, u) <= Get(s.pending, u);
      }
      PendingExactStep(s, op);
      DelegatesCoveredStep(s, op);
      UndelegatesCoveredStep(s, op);
      NoExcess(After(s, op), ops[1..], u);
    }
  }

  lemma ClaimConserved(s: State, ops: seq<Op>, u: Address)
    requires PendingExact(s) && DelegatesCovered(s) && UndelegatesCovered(s)
    requires CarefulWithdraws(s, ops) && CarefulCollects(s, ops)
    ensures Claim(Run(s, ops), u) + TotalOut(s, ops, u) == Claim(s, u) + TotalIn(s, ops, u)
  {
    ClaimExact(s, ops, u);
    NoExcess(s, ops, u);
  }

  /** A step before a run. */
  lemma StepFirst(s: State, op: Op, rest: seq<Op>, u: Address)
    ensures Run(s, [op] + rest) == Run(After(s, op), rest)
    ensures TotalIn(s, [op] + rest, u) == PaidIn(s, op, u) + TotalIn(After(s, op), rest, u)
    ensures TotalOut(s, [op] + rest, u) == PaidOut(s, op, u) + TotalOut(After(s, op), rest, u)
    ensures TotalExcess(s, [op] + rest, u) == Excess(s, op, u) + TotalExcess(After(s, op), rest, u)
  {
    assert ([op] + rest)[1..] == rest;
  }

  /** After a failed deposit that had been withdrawn meanwhile: the deposit is refunded, the request stands. */
  lemma RefundedMeanwhile(s: State, u: Address, a: nat)
    requires PendingExact(s) && a > 0 && Get(s.balances, u) == 0 && Get(s.pending, u) == 0
    ensures var s2, r := After(After(s, Deposit(u, a)), Withdraw(u, a)), Reply(s.nextCall, false);
            && PaidIn(s, Deposit(u, a), u) == PaidOut(s2, r, u) == Excess(s2, r, u) == a
            && Get(After(s2, r).pending, u) == a && Get(After(s2, r).balances, u) == 0
            && After(s2, r).funds == s.funds && After(s2, r).totalPending == s.totalPending + a
            && s.nextCall + 1 in After(s2, r).calls && After(s2, r).calls[s.nextCall + 1] == Undelegate(u, a)
  {
    var s2 := After(After(s, Deposit(u, a)), Withdraw(u, a));
    assert s2.calls[s.nextCall] == Delegate(u, a) && s2.calls[s.nextCall + 1] == Undelegate(u, a);
    SentToOne(Transfer(u, a, true), u);
  }

  /** Without that care a user is paid twice: deposit, request the money back before the delegation is
      answered, and let the delegation fail. The failure refunds the deposit while the request stands, and
      is met out of money that is not the user's. */
  lemma PaidTwice(s: State, u: Address, a: nat)
    requires PendingExact(s) && a > 0 && s.funds >= a && Get(s.balances, u) == 0 && Get(s.pending, u) == 0
    ensures var n := s.nextCall;
            var ops := [Deposit(u, a), Withdraw(u, a), Reply(n, false), Reply(n + 1, true), WithdrawUnbonded(u)];
            && TotalIn(s, ops, u) == a && TotalOut(s, ops, u) == 2 * a && TotalExcess(s, ops, u) == a
            && Claim(Run(s, ops), u) == 0 && Run(s, ops).funds == s.funds - a
  {
    var o0, o1, o2 := Deposit(u, a), Withdraw(u, a), Reply(s.nextCall, false);
    var o3, o4 := Reply(s.nextCall + 1, true), WithdrawUnbonded(u);
    var s1 := After(s, o0);
    var s2 := After(s1, o1);
    var s3 := After(s2, o2);
    var s4 := After(s3, o3);
    RefundedMeanwhile(s, u, a);
    CollectedLater(s3, s.nextCall + 1, u, a);
    StepFirst(s4, o4, [], u);
    StepFirst(s3, o3, [o4] + [], u);
    StepFirst(s2, o2, [o3] + ([o4] + []), u);
    StepFirst(s1, o1, [o2] + ([o3] + ([o4] + [])), u);
    StepFirst(s, o0, [o1] + ([o2] + ([o3] + ([o4] + []))), u);
    assert [o0, o1, o2, o3, o4] == [o0] + ([o1] + ([o2] + ([o3] + ([o4] + []))));
  }

  lemma CollectedLater(s: State, id: nat, u: Address, a: nat)
    requires id in s.calls && s.calls[id] == Undelegate(u, a)
    requires 0 < a <= s.funds && Get(s.pending, u) == a <= s.totalPending && Get(s.balances, u) == 0
    ensures var r, s' := Reply(id, true), After(s, Reply(id, true));
            && PaidOut(s, r, u) == Excess(s, r, u) == 0
            && PaidOut(s', WithdrawUnbonded(u), u) == a && Claim(After(s', WithdrawUnbonded(u)), u) == 0
            && After(s', WithdrawUnbonded(u)).funds == s.funds - a
  {
    SentToOne(Transfer(u, a, true), u);
  }

  /** The other way: collect a withdrawal before its undelegation is answered, and let that fail. The money is
      paid and the balance is back, so the same may be repeated. */
  lemma CollectedAndKept(s: State, u: Address, a: nat)
    requires PendingExact(s) && 0 < a <= s.funds && Get(s.balances, u) == a && Get(s.pending, u) == 0
    ensures var ops := [Withdraw(u, a), WithdrawUnbonded(u), Reply(s.nextCall, false)];
            && TotalOut(s, ops, u) == a == TotalExcess(s, ops, u) && TotalIn(s, ops, u) == 0
            && Get(Run(s, ops).balances, u) == a && Get(Run(s, ops).pending, u) == 0
  {
    var o0, o1, o2 := Withdraw(u, a), WithdrawUnbonded(u), Reply(s.nextCall, false);
    var s1 := After(s, o0);
    var s2 := After(s1, o1);
    SentToOne(Transfer(u, a, true), u);
    assert s2.calls[s.nextCall] == Undelegate(u, a) && Get(s2.pending, u) == 0;
    var ops := [o0, o1, o2];
    assert ops[1..] == [o1, o2] && ops[1..][1..] == [o2];
    var e := After(s2, o2);
    assert Run(s2, [o2]) == e && TotalOut(s2, [o2], u) == 0 && TotalIn(s2, [o2], u) == 0;
    assert TotalExcess(s2, [o2], u) == a;
  }
}

/** The vault contract: storage fields updated in place, with the contract's own saturating
    fallbacks. Proving each endpoint equal to `VaultModel.Step`, which has no fallback on the
    pending totals, shows that those fallbacks are never taken. */
module VaultContract {
  import opened MapSums
  import opened VaultModel

  class Vault {
    var funds: nat
    var balances: map<Address, nat>
    var totalDeposited: nat
    var pending: map<Address, nat>
    var totalPending: nat
    var calls: map<nat, Call>
    var nextCall: nat

    ghost function Abs(): State
      reads this
    {
      State(funds, balances, totalDeposited, pending, totalPending, calls, nextCall)
    }

    constructor ()
      ensures PendingExact(Abs()) && DepositedExact(Abs()) && DelegatesCovered(Abs()) && UndelegatesCovered(Abs())
      ensures forall u: Address :: Claim(Abs(), u) == 0
    {
      funds, totalDeposited, totalPending, nextCall := 0, 0, 0, 0;
      balances, pending, calls := map[], map[], map[];
    }

    /** Registers a promise. */
    method Register(c: Call)
      modifies this`calls, this`nextCall
      ensures Abs() == Launch(old(Abs()), c)
    {
      calls := calls[nextCall := c];
      nextCall := nextCall + 1;
    }

    method DepositEgld(caller: Address, payment: nat, admitted: bool) returns (ok: bool)
      modifies this
      ensures Guarded(admitted, old(Abs()), Deposit(caller, payment), Abs(), ok, [])
    {
      if !admitted || payment == 0 { return false; }
      balances := balances[caller := Get(balances, caller) + payment];
      totalDeposited := totalDeposited + payment;
      Register(Delegate(caller, payment));
      return true;
    }

    method DepositCallback(id: nat, succeeded: bool) returns (sent: seq<Transfer>)
      requires id in calls && calls[id].Delegate?
      modifies this
      ensures Performs(old(Abs()), Reply(id, succeeded), Abs(), true, sent)
    {
      var caller, amount := calls[id].user, calls[id].amount;
      calls := calls - {id};
      sent := [];
      if !succeeded {
        funds := funds + amount;
        var current := Get(balances, caller);
        if current >= amount {
          balances := balances[caller := current - amount];
        } else {
          balances := balances[caller := 0];
        }
        if totalDeposited >= amount {
          totalDeposited := totalDeposited - amount;
        }
        funds := funds - amount;
        sent := [Transfer(caller, amount, true)];
      }
    }

    method WithdrawEgld(caller: Address, amount: nat) returns (ok: bool)
      modifies this
      ensures Performs(old(Abs()), Withdraw(caller, amount), Abs(), ok, [])
    {
      var balance := Get(balances, caller);
      if amount == 0 || balance < amount { return false; }
      balances := balances[caller := balance - amount];
      if totalDeposited >= amount {
        totalDeposited := totalDeposited - amount;
      }
      pending := pending[caller := Get(pending, caller) + amount];
      totalPending := totalPending + amount;
      Register(Undelegate(caller, amount));
      return true;
    }

    method WithdrawCallback(id: nat, succeeded: bool)
      requires PendingExact(Abs()) && id in calls && calls[id].Undelegate?
      modifies this
      ensures Performs(old(Abs()), Reply(id, succeeded), Abs(), true, [])
    {
      var caller, amount := calls[id].user, calls[id].amount;
      calls := calls - {id};
      if !succeeded {
        balances := balances[caller := Get(balances, caller) + amount];
        totalDeposited := totalDeposited + amount;
        AtMostSum(pending, Amount, caller);
        var waiting := Get(pending, caller);
        if waiting >= amount {
          pending := pending[caller := waiting - amount];
          totalPending := SaturatingSub(totalPending, amount);
        }
      }
    }

    method CollectUnbonded(caller: Address) returns (ok: bool, sent: seq<Transfer>)
      requires PendingExact(Abs())
      modifies this
      ensures Performs(old(Abs()), WithdrawUnbonded(caller), Abs(), ok, sent)
      ensures ok == (0 < Get(old(pending), caller) <= old(funds))
    {
      AtMostSum(pending, Amount, caller);
      var due := Get(pending, caller);
      if due == 0 || funds < due { return false, []; }
      pending := pending[caller := 0];
      totalPending := SaturatingSub(totalPending, due);
      funds := funds - due;
      return true, [Transfer(caller, due, true)];
    }

    /** Both `swap` and `emergencySwap`: the two endpoints choose the amount alike. */
    method SwapOnDex(configured: nat, admitted: bool) returns (ok: bool)
      modifies this
      ensures Guarded(admitted, old(Abs()), Swap(configured), Abs(), ok, [])
    {
      if !admitted { return false; }
      var safeLiquid := 0;
      if funds > totalPending {
        safeLiquid := funds - totalPending;
      }
      var amount := safeLiquid;
      if configured > 0 && configured < safeLiquid {
        amount := configured;
      }
      if amount > 0 {
        funds := funds - amount;
        Register(Spend(amount));
      }
      return true;
    }

    method MintNft(price: nat, admitted: bool) returns (ok: bool)
      modifies this
      ensures Guarded(admitted, old(Abs()), Mint(price), Abs(), ok, [])
    {
      if !admitted { return false; }
      var safeLiquid := if funds > totalPending then funds - totalPending else 0;
      if safeLiquid < price { return false; }
      funds := funds - price;
      Register(Spend(price));
      return true;
    }

    method SpendCallback(id: nat, succeeded: bool)
      requires id in calls && calls[id].Spend?
      modifies this
      ensures Performs(old(Abs()), Reply(id, succeeded), Abs(), true, [])
    {
      if !succeeded {
        funds := funds + calls[id].amount;
      }
      calls := calls - {id};
    }

    method RescueYieldTo(owner: Address, amount: nat, admitted: bool) returns (ok: bool, sent: seq<Transfer>)
      modifies this
      ensures Guarded(admitted, old(Abs()), RescueYield(owner, amount), Abs(), ok, sent)
    {
      if !admitted { return false, []; }
      var safeLiquid := if funds > totalPending then funds - totalPending else 0;
      if safeLiquid < amount { return false, []; }
      funds := funds - amount;
      return true, [Transfer(owner, amount, false)];
    }
  }
}
