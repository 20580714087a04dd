/** The Rewards contract: the receiving side of the scheduler's fee flush. Fees are split between the
    treasury and the flushing keeper, who claims later. */
module RewardsModel {
  import opened MapSums
  import S = SchedulerModel
  import L = SchedulerLedger
  import T = SchedulerTheorems

  type Address = nat

  datatype State = State(funds: nat, treasury: nat, pending: map<Address, nat>, splitBps: nat)

  datatype Tx = Abort | Done(next: State, sent: nat)

  datatype Op =
    | Receive(keeper: Address, fee: nat)
    | Claim(keeper: Address)
    | WithdrawTreasury(amount: nat)
    | SetSplit(bps: nat)

  function TreasuryCut(fee: nat, splitBps: nat): nat { fee * splitBps / 10_000 }

  /** Unsigned subtraction aborts when it would go below zero, so a share above 100%, which `init`
      does not exclude, makes reception fail. */
  function Step(s: State, op: Op): Tx {
    match op
    case Receive(k, fee) =>
      var cut := TreasuryCut(fee, s.splitBps);
      if cut > fee then Abort else
      Done(s.(funds := s.funds + fee, treasury := s.treasury + cut,
              pending := s.pending[k := Get(s.pending, k) + (fee - cut)]), 0)
    case Claim(k) =>
      var amount := Get(s.pending, k);
      if amount == 0 || s.funds < amount then Abort else
      Done(s.(pending := s.pending[k := 0], funds := s.funds - amount), amount)
    case WithdrawTreasury(amount) =>
      if amount > s.treasury || s.funds < amount then Abort else
      Done(s.(treasury := s.treasury - amount, funds := s.funds - amount), amount)
    case SetSplit(b) => if b > 10_000 then Abort else Done(s.(splitBps := b), 0)
  }

  function After(s: State, op: Op): State {
    var tx := Step(s, op);
    if tx.Done? then tx.next else s
  }

  predicate Performs(s: State, op: Op, s': State, ok: bool, sent: nat) {
    && s' == After(s, op)
    && ok == Step(s, op).Done?
    && sent == if ok then Step(s, op).sent else 0
  }

  /** A call behind a guard on who may call and when: refused, it changes nothing and sends nothing. */
  predicate Guarded(admitted: bool, s: State, op: Op, s': State, ok: bool, sent: nat) {
    if admitted then Performs(s, op, s', ok, sent) else s' == s && !ok && sent == 0
  }

  function Run(s: State, ops: seq<Op>): State
    decreases |ops|
  {
    if ops == [] then s else Run(After(s, ops[0]), ops[1..])
  }

  /** Every unit held is either the treasury's or some keeper's. */
  ghost predicate FullyAssigned(s: State) { s.funds == s.treasury + Sum(s.pending, Amount) }

  lemma FullyAssignedStep(s: State, op: Op)
    requires FullyAssigned(s)
    ensures FullyAssigned(After(s, op))
  {
    match op
    case Receive(k, fee) =>
      var cut := TreasuryCut(fee, s.splitBps);
      if cut <= fee {
        SumPut<Address, nat>(s.pending, Amount, k, Get(s.pending, k) + (fee - cut));
      }
    case Claim(k) => SumPut<Address, nat>(s.pending, Amount, k, 0);
    case WithdrawTreasury(_) =>
    case SetSplit(_) =>
  }

  lemma {:induction false} FullyAssignedRun(s: State, ops: seq<Op>)
    requires FullyAssigned(s)
    ensures FullyAssigned(Run(s, ops))
    decreases |ops|
  {
    if ops != [] {
      FullyAssignedStep(s, ops[0]);
      FullyAssignedRun(After(s, ops[0]), ops[1..]);
    }
  }

  /** Whatever is owed can be collected: a keeper's claim, while the contract is not paused, and a treasury
      withdrawal by the owner within the recorded balance never fail for lack of funds. */
  lemma AlwaysPayable(s: State, ops: seq<Op>, k: Address, amount: nat)
    requires FullyAssigned(s)
    ensures var e := Run(s, ops);
            && (Get(e.pending, k) > 0 ==> Step(e, Claim(k)) == Done(After(e, Claim(k)), Get(e.pending, k)))
            && (amount <= e.treasury ==>
                  Step(e, WithdrawTreasury(amount)) == Done(After(e, WithdrawTreasury(amount)), amount))
  {
    FullyAssignedRun(s, ops);
    AtMostSum(Run(s, ops).pending, Amount, k);
  }

  // ---------- Accounts ----------

  /** An accepted fee is divided so: the treasury gets its basis points, rounded down, the keeper all the rest, and
      nobody else anything. */
  lemma ReceiptSplit(s: State, k: Address, fee: nat, other: Address)
    requires Step(s, Receive(k, fee)).Done?
    ensures var s' := After(s, Receive(k, fee));
            var cut := s'.treasury - s.treasury;
            && 10_000 * cut <= fee * s.splitBps < 10_000 * (cut + 1)
            && Get(s'.pending, k) == Get(s.pending, k) + fee - cut
            && (other != k ==> Get(s'.pending, other) == Get(s.pending, other))
            && s'.funds == s.funds + fee
  {
  }

  /** What a step credits to, and pays out to, keeper `k`. */
  function Credited(s: State, op: Op, k: Address): nat {
    if op.Receive? && op.keeper == k && Step(s, op).Done? then op.fee - TreasuryCut(op.fee, s.splitBps) else 0
  }

  function PaidTo(s: State, op: Op, k: Address): nat {
    if op.Claim? && op.keeper == k && Step(s, op).Done? then Step(s, op).sent else 0
  }

  function TotalCredited(s: State, ops: seq<Op>, k: Address): nat
    decreases |ops|
  {
    if ops == [] then 0 else Credited(s, ops[0], k) + TotalCredited(After(s, ops[0]), ops[1..], k)
  }

  function TotalPaid(s: State, ops: seq<Op>, k: Address): nat
    decreases |ops|
  {
    if ops == [] then 0 else PaidTo(s, ops[0], k) + TotalPaid(After(s, ops[0]), ops[1..], k)
  }

  /** Per keeper, over any run: credited = claimed + still pending. */
  lemma {:induction false} KeeperAccount(s: State, ops: seq<Op>, k: Address)
    ensures Get(Run(s, ops).pending, k) + TotalPaid(s, ops, k) == Get(s.pending, k) + TotalCredited(s, ops, k)
    decreases |ops|
  {
    if ops != [] {
      KeeperAccount(After(s, ops[0]), ops[1..], k);
    }
  }

  function CutBy(s: State, op: Op): nat {
    if op.Receive? && Step(s, op).Done? then TreasuryCut(op.fee, s.splitBps) else 0
  }

  function DrawnBy(s: State, op: Op): nat { if op.WithdrawTreasury? && Step(s, op).Done? then op.amount else 0 }

  function TotalCut(s: State, ops: seq<Op>): nat
    decreases |ops|
  {
    if ops == [] then 0 else CutBy(s, ops[0]) + TotalCut(After(s, ops[0]), ops[1..])
  }

  function TotalDrawn(s: State, ops: seq<Op>): nat
    decreases |ops|
  {
    if ops == [] then 0 else DrawnBy(s, ops[0]) + TotalDrawn(After(s, ops[0]), ops[1..])
  }

  /** For the treasury: cut = withdrawn + still there. A withdrawal beyond the treasury is refused. */
  lemma {:induction false} TreasuryAccount(s: State, ops: seq<Op>)
    ensures Run(s, ops).treasury + TotalDrawn(s, ops) == s.treasury + TotalCut(s, ops)
    decreases |ops|
  {
    if ops != [] {
      TreasuryAccount(After(s, ops[0]), ops[1..]);
    }
  }

  /** What is refused: an empty claim, a withdrawal beyond the treasury, a share above 100%. */
  lemma RewardsIff(s: State, k: Address, n: nat)
    requires FullyAssigned(s)
    ensures Step(s, Claim(k)).Done? <==> Get(s.pending, k) > 0
    ensures Step(s, Claim(k)).Done? ==> Step(s, Claim(k)).sent == Get(s.pending, k)
    ensures Step(s, WithdrawTreasury(n)).Done? <==> n <= s.treasury
    ensures Step(s, WithdrawTreasury(n)).Done? ==> Step(s, WithdrawTreasury(n)).sent == n
    ensures After(s, SetSplit(n)) == if n <= 10_000 then s.(splitBps := n) else s
  {
    AtMostSum(s.pending, Amount, k);
  }

  // ---------- The flush ----------

  const FLUSH: S.Op := S.OnFees(S.Flush(true, true))

  /** A delivered flush loses nothing: what leaves the scheduler's fee pot and balance is what the
      treasury and the keeper gain together, and both contracts stay covered. */
  lemma FlushHandsOver(s: S.State, r: State, keeper: Address)
    requires T.Inv(s) && FullyAssigned(r) && s.fees > 0 && r.splitBps <= 10_000
    ensures var s', r' := S.After(s, FLUSH), After(r, Receive(keeper, s.fees));
            && T.Inv(s') && FullyAssigned(r')
            && s'.fees == 0
            && Get(s.funds, S.Egld) - Get(s'.funds, S.Egld) == s.fees == r'.funds - r.funds
            && (r'.treasury - r.treasury) + (Get(r'.pending, keeper) - Get(r.pending, keeper)) == s.fees
  {
    T.NeverShort(s, FLUSH);
    T.InvStep(s, FLUSH);
    L.Short(S.Draft(s, FLUSH).moves, S.Unassigned, S.Egld);
    L.BookNet(s.funds, S.Draft(s, FLUSH).moves, S.Egld);
    FullyAssignedStep(r, Receive(keeper, s.fees));
    CutWithin(s.fees, r.splitBps);
  }

  /** Whether or not the Rewards contract takes the transfer, no EGLD is lost between the two and both stay
      covered; but a refused fee is stranded: it stays in the scheduler's balance, owed to nobody. */
  lemma FlushTogether(s: S.State, r: State, keeper: Address)
    requires T.Inv(s) && FullyAssigned(r) && s.fees > 0
    ensures var taken := Step(r, Receive(keeper, s.fees)).Done?;
            var s', r' := S.After(s, S.OnFees(S.Flush(taken, true))), After(r, Receive(keeper, s.fees));
            && T.Inv(s') && FullyAssigned(r') && s'.fees == 0
            && Get(s'.funds, S.Egld) + r'.funds == Get(s.funds, S.Egld) + r.funds
            && L.Slack(s', S.Egld) == L.Slack(s, S.Egld) + if taken then 0 else s.fees
  {
    var op := S.OnFees(S.Flush(Step(r, Receive(keeper, s.fees)).Done?, true));
    T.NeverShort(s, op);
    T.InvStep(s, op);
    T.SlackStep(s, op, S.Egld);
    L.Short(S.Draft(s, op).moves, S.Unassigned, S.Egld);
    L.BookNet(s.funds, S.Draft(s, op).moves, S.Egld);
    FullyAssignedStep(r, Receive(keeper, s.fees));
  }

  lemma CutWithin(fee: nat, splitBps: nat)
    requires splitBps <= 10_000
    ensures TreasuryCut(fee, splitBps) <= fee
  {
    assert fee * splitBps <= fee * 10_000;
  }

  /** Every fee is received exactly when the configured share is at most 100%. */
  lemma ReceptionTotal(s: State, keeper: Address)
    ensures (forall fee: nat :: Step(s, Receive(keeper, fee)).Done?) <==> s.splitBps <= 10_000
  {
    if s.splitBps <= 10_000 {
      forall fee: nat ensures Step(s, Receive(keeper, fee)).Done? { CutWithin(fee, s.splitBps); }
    } else {
      assert TreasuryCut(10_000, s.splitBps) == s.splitBps;
      assert Step(s, Receive(keeper, 10_000)).Abort?;
    }
  }
}

module RewardsContract {
  import opened MapSums
  import opened RewardsModel

  class Rewards {
    var funds: nat
    var treasury: nat
    var pending: map<Address, nat>
    var splitBps: nat

    ghost function Abs(): State
      reads this
    {
      State(funds, treasury, pending, splitBps)
    }

    constructor (split: nat)
      ensures FullyAssigned(Abs()) && splitBps == split
    {
      funds, treasury, pending, splitBps := 0, 0, map[], split;
    }

    method ReceiveExecutionFee(keeper: Address, fee: nat, admitted: bool) returns (ok: bool)
      modifies this
      ensures Guarded(admitted, old(Abs()), Receive(keeper, fee), Abs(), ok, 0)
    {
      if !admitted { return false; }
      var treasuryCut := fee * splitBps / 10_000;
      if treasuryCut > fee { return false; }
      var keeperBonus := fee - treasuryCut;
      funds := funds + fee;
      treasury := treasury + treasuryCut;
      pending := pending[keeper := Get(pending, keeper) + keeperBonus];
      return true;
    }

    method ClaimRewards(caller: Address, admitted: bool) returns (ok: bool, sent: nat)
      modifies this
      ensures Guarded(admitted, old(Abs()), Claim(caller), Abs(), ok, sent)
    {
      if !admitted { return false, 0; }
      var amount := Get(pending, caller);
      if amount == 0 || funds < amount { return false, 0; }
      pending := pending[caller := 0];
      funds := funds - amount;
      return true, amount;
    }

    method WithdrawFromTreasury(amount: nat, admitted: bool) returns (ok: bool, sent: nat)
      modifies this
      ensures Guarded(admitted, old(Abs()), WithdrawTreasury(amount), Abs(), ok, sent)
    {
      if !admitted { return false, 0; }
      if amount > treasury || funds < amount { return false, 0; }
      treasury := treasury - amount;
      funds := funds - amount;
      return true, amount;
    }
  }
}
