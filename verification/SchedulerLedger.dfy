/** What every run of the scheduler keeps: each account's holding is the sum of its postings, every
    token is covered, and no transaction ever fails for lack of funds. */
module SchedulerLedger {
  import opened MapSums
  import opened SchedulerModel

  // ---------- Flows ----------

  function One(m: Move, a: Account, tok: Token): int {
    if m.token != tok then 0 else (if m.dst == a then m.amount else 0) - (if m.src == a then m.amount else 0)
  }

  /** Net amount of `tok` posted to account `a`. */
  function Flow(ms: seq<Move>, a: Account, tok: Token): int
    decreases |ms|
  {
    if ms == [] then 0 else One(ms[0], a, tok) + Flow(ms[1..], a, tok)
  }

  function Net(ms: seq<Move>, tok: Token): int
    decreases |ms|
  {
    if ms == [] then 0 else (if ms[0].token == tok then Delta(ms[0]) else 0) + Net(ms[1..], tok)
  }

  /** What the contract itself must send of `tok`; pass-through deliveries cost it nothing. */
  function Drain(ms: seq<Move>, tok: Token): nat
    decreases |ms|
  {
    if ms == [] then 0 else
      (if ms[0].token == tok && Delta(ms[0]) < 0 then -Delta(ms[0]) else 0) + Drain(ms[1..], tok)
  }

  lemma {:induction false} FlowConcat(xs: seq<Move>, ys: seq<Move>, a: Account, tok: Token)
    ensures Flow(xs + ys, a, tok) == Flow(xs, a, tok) + Flow(ys, a, tok)
    decreases |xs|
  {
    if xs == [] {
      assert xs + ys == ys;
    } else {
      assert (xs + ys)[1..] == xs[1..] + ys;
      FlowConcat(xs[1..], ys, a, tok);
    }
  }

  lemma {:induction false} NetDrainConcat(xs: seq<Move>, ys: seq<Move>, tok: Token)
    ensures Net(xs + ys, tok) == Net(xs, tok) + Net(ys, tok)
    ensures Drain(xs + ys, tok) == Drain(xs, tok) + Drain(ys, tok)
    decreases |xs|
  {
    if xs == [] {
      assert xs + ys == ys;
    } else {
      assert (xs + ys)[1..] == xs[1..] + ys;
      NetDrainConcat(xs[1..], ys, tok);
    }
  }

  function D(m: Move, tok: Token): int { if m.token == tok then Delta(m) else 0 }

  function Down(x: int): nat { if x < 0 then -x else 0 }

  /** Deliveries run from outside to outside: they touch no account and no balance. */
  lemma {:induction false} DeliveriesNeutral(ps: seq<Payment>, src: Address, dst: Address, a: Account, tok: Token)
    requires !a.Outside?
    ensures Flow(Deliveries(ps, src, dst), a, tok) == 0
    ensures Net(Deliveries(ps, src, dst), tok) == 0 && Drain(Deliveries(ps, src, dst), tok) == 0
    decreases |ps|
  {
    if ps != [] {
      assert Deliveries(ps, src, dst)[1..] == Deliveries(ps[1..], src, dst);
      DeliveriesNeutral(ps[1..], src, dst, a, tok);
    }
  }

  // ---------- Booking ----------

  lemma {:induction false} BookNet(funds: map<Token, nat>, ms: seq<Move>, tok: Token)
    requires Book(funds, ms).Some?
    ensures Get(Book(funds, ms).value, tok) == Get(funds, tok) + Net(ms, tok)
    decreases |ms|
  {
    if ms != [] {
      BookNet(funds[ms[0].token := Get(funds, ms[0].token) + Delta(ms[0])], ms[1..], tok);
    }
  }

  lemma {:induction false} BookSucceeds(funds: map<Token, nat>, ms: seq<Move>)
    requires forall tok :: Drain(ms, tok) <= Get(funds, tok)
    ensures Book(funds, ms).Some?
    decreases |ms|
  {
    if ms != [] {
      var t := ms[0].token;
      assert Drain(ms, t) <= Get(funds, t);
      var funds' := funds[t := Get(funds, t) + Delta(ms[0])];
      forall tok ensures Drain(ms[1..], tok) <= Get(funds', tok) {
        assert Drain(ms, tok) <= Get(funds, tok);
      }
      BookSucceeds(funds', ms[1..]);
    }
  }

  // ---------- Holdings and liabilities ----------

  function TaskHolds(tok: Token): Task -> nat {
    (t: Task) => if tok.Egld? then t.deposit else 0
  }

  function KeyHolds(tok: Token): CloneKey -> nat {
    (k: CloneKey) => if tok.Egld? then Remaining(k) else 0
  }

  function IntentHolds(tok: Token): Intent -> nat {
    (x: Intent) =>
      if x.status != Open then 0 else
      (if tok == Esdt(x.tokenIn) then x.amountIn else 0) + (if tok.Egld? then x.fee else 0)
  }

  /** What storage says account `a` holds. */
  ghost function Holds(s: State, a: Account, tok: Token): nat {
    match a
    case OfTask(h) => At(s.book.tasks, TaskHolds(tok), h)
    case OfKey(c) => At(s.keys.props, KeyHolds(tok), c)
    case OfIntent(id) => At(s.intents.byId, IntentHolds(tok), id)
    case FeePot => if tok.Egld? then s.fees else 0
    case _ => 0
  }

  /** Accounts whose holding is recorded in storage. */
  predicate Internal(a: Account) { !External(a) && !a.Unassigned? }

  ghost function Liabilities(s: State, tok: Token): nat {
    Sum(s.book.tasks, TaskHolds(tok)) + Sum(s.keys.props, KeyHolds(tok)) + Sum(s.intents.byId, IntentHolds(tok))
    + (if tok.Egld? then s.fees else 0)
  }

  /** Balance owed to nobody. */
  ghost function Slack(s: State, tok: Token): int { Get(s.funds, tok) - Liabilities(s, tok) }

  ghost predicate Solvent(s: State) { forall tok :: Slack(s, tok) >= 0 }

  ghost predicate BudgetsKept(s: State) {
    forall c :: c in s.keys.props ==> s.keys.props[c].spent <= s.keys.props[c].limit <= MAX_KEY_LIMIT
  }

  ghost predicate NoncesFresh(s: State) {
    forall id :: id in s.intents.byId ==> id.n <= Get(s.intents.nonces, id.kind)
  }

  // ---------- One step ----------

  /** Storage mirrors the posting to account `a`. */
  ghost predicate Mirrored(s: State, tx: Tx, a: Account, tok: Token) {
    tx.Done? ==> Holds(tx.next, a, tok) == Holds(s, a, tok) + Flow(tx.moves, a, tok)
  }

  /** The total owed moves with the contract's balance, and nothing is sent beyond what is owed. */
  ghost predicate Balanced(s: State, tx: Tx, tok: Token) {
    tx.Done? ==>
      && tx.next.funds == s.funds
      && Liabilities(tx.next, tok) + Flow(tx.moves, Unassigned, tok) == Liabilities(s, tok) + Net(tx.moves, tok)
      && Drain(tx.moves, tok) <= Liabilities(s, tok)
  }

  lemma Short(ms: seq<Move>, a: Account, tok: Token)
    requires 1 <= |ms| <= 3
    ensures Flow(ms, a, tok) == One(ms[0], a, tok) + (if |ms| > 1 then One(ms[1], a, tok) else 0)
                                + (if |ms| > 2 then One(ms[2], a, tok) else 0)
    ensures Net(ms, tok) == D(ms[0], tok) + (if |ms| > 1 then D(ms[1], tok) else 0)
                            + (if |ms| > 2 then D(ms[2], tok) else 0)
    ensures Drain(ms, tok) == Down(D(ms[0], tok)) + (if |ms| > 1 then Down(D(ms[1], tok)) else 0)
                              + (if |ms| > 2 then Down(D(ms[2], tok)) else 0)
  {
    if |ms| > 1 {
      Short(ms[1..], a, tok);
    }
  }

  lemma MirrorSchedule(s: State, c: Address, h: Hash, att: nat, r: Option<nat>, lane: Lane, now: nat,
                       a: Account, tok: Token)
    requires Internal(a) && BudgetsKept(s)
    ensures Mirrored(s, DoSchedule(s, c, h, att, r, lane, now), a, tok)
  {
    var tx := DoSchedule(s, c, h, att, r, lane, now);
    if tx.Done? {
      Short(tx.moves, a, tok);
    }
  }

  lemma MirrorSuccess(s: State, h: Hash, keeper: Address, a: Account, tok: Token)
    requires Internal(a) && h in s.book.tasks
    ensures Mirrored(s, FinalizeSuccess(s, h, keeper), a, tok)
  {
    var tx := FinalizeSuccess(s, h, keeper);
    if tx.Done? {
      Short(tx.moves, a, tok);
    }
  }

  lemma MirrorReturn(s: State, h: Hash, book: TaskBook, a: Account, tok: Token)
    requires Internal(a) && h in s.book.tasks && book.tasks == s.book.tasks - {h}
    ensures Mirrored(s, ReturnLessFee(s, h, book), a, tok)
  {
    var tx := ReturnLessFee(s, h, book);
    if tx.Done? {
      Short(tx.moves, a, tok);
    }
  }

  lemma MirrorCallback(s: State, id: nat, ok: bool, a: Account, tok: Token)
    requires Internal(a)
    ensures Mirrored(s, DoCallback(s, id, ok), a, tok)
  {
    if id in s.book.promises && s.book.promises[id].h in s.book.tasks {
      var p, s1 := s.book.promises[id], s.(book := s.book.(promises := s.book.promises - {id}));
      MirrorSuccess(s1, p.h, p.keeper, a, tok);
      MirrorReturn(s1, p.h, CloseTask(s1.book, p.h), a, tok);
    }
  }

  lemma MirrorTask(s: State, call: TaskCall, a: Account, tok: Token)
    requires Internal(a) && BudgetsKept(s)
    ensures Mirrored(s, DraftTask(s, call), a, tok)
  {
    var tx := DraftTask(s, call);
    if tx.Done? {
      match call
      case Schedule(c, h, att, r, lane, now, _) => MirrorSchedule(s, c, h, att, r, lane, now, a, tok);
      case Execute(_, _, _, _, _) =>
      case Callback(id, ok) => MirrorCallback(s, id, ok, a, tok);
      case SettleXse(c, h, _) => MirrorSuccess(s, h, c, a, tok);
      case Rescue(_, _, _, _) => Short(tx.moves, a, tok);
      case CancelTask(_, h, _, _) => MirrorReturn(s, h, DropTask(s.book, h), a, tok);
    }
  }

  lemma MirrorKey(s: State, call: KeyCall, a: Account, tok: Token)
    requires Internal(a) && BudgetsKept(s)
    ensures Mirrored(s, DraftKey(s, call), a, tok)
  {
    var tx := DraftKey(s, call);
    if tx.Done? {
      Short(tx.moves, a, tok);
    }
  }

  /** The postings of a settled intent beyond its deliveries. */
  lemma SolveMoves(s: State, c: Address, id: IntentId, ps: seq<Payment>, opening: Option<Opening>, now: nat,
                   a: Account, tok: Token)
    requires DoSolveIntent(s, c, id, ps, opening, now).Done? && !a.Outside?
    ensures var ms, x := DoSolveIntent(s, c, id, ps, opening, now).moves, s.intents.byId[id];
            var m0 := Move(Esdt(x.tokenIn), OfIntent(id), Outside(c), x.amountIn, Bounty);
            var m1 := Move(Egld, OfIntent(id), Outside(c), x.fee, Bounty);
            && Flow(ms, a, tok) == One(m0, a, tok) + One(m1, a, tok)
            && Net(ms, tok) == D(m0, tok) + D(m1, tok)
            && Drain(ms, tok) == Down(D(m0, tok)) + Down(D(m1, tok))
  {
    var x := s.intents.byId[id];
    var head := Deliveries(ps, c, x.owner);
    var tail := [Move(Esdt(x.tokenIn), OfIntent(id), Outside(c), x.amountIn, Bounty),
                 Move(Egld, OfIntent(id), Outside(c), x.fee, Bounty)];
    FlowConcat(head, tail, a, tok);
    NetDrainConcat(head, tail, tok);
    DeliveriesNeutral(ps, c, x.owner, a, tok);
    Short(tail, a, tok);
  }

  lemma MirrorCreate(s: State, c: Address, t: Terms, tokenIn: nat, amountIn: nat, att: nat, fee: nat, d: nat,
                     now: nat, a: Account, tok: Token)
    requires Internal(a) && NoncesFresh(s)
    ensures Mirrored(s, DoCreateIntent(s, c, t, tokenIn, amountIn, att, fee, d, now), a, tok)
  {
    var tx := DoCreateIntent(s, c, t, tokenIn, amountIn, att, fee, d, now);
    if tx.Done? {
      Short(tx.moves, a, tok);
    }
  }

  lemma MirrorCancel(s: State, c: Address, id: IntentId, a: Account, tok: Token)
    requires Internal(a)
    ensures Mirrored(s, DoCancelIntent(s, c, id), a, tok)
  {
    var tx := DoCancelIntent(s, c, id);
    if tx.Done? {
      Short(tx.moves, a, tok);
    }
  }

  lemma MirrorSolve(s: State, c: Address, id: IntentId, ps: seq<Payment>, opening: Option<Opening>, now: nat,
                    a: Account, tok: Token)
    requires Internal(a)
    ensures Mirrored(s, DoSolveIntent(s, c, id, ps, opening, now), a, tok)
  {
    if DoSolveIntent(s, c, id, ps, opening, now).Done? {
      SolveMoves(s, c, id, ps, opening, now, a, tok);
    }
  }

  lemma MirrorIntent(s: State, call: IntentCall, a: Account, tok: Token)
    requires Internal(a) && NoncesFresh(s)
    ensures Mirrored(s, DraftIntent(s, call), a, tok)
  {
    var tx := DraftIntent(s, call);
    if tx.Done? {
      match call
      case CreateIntent(c, t, ti, ai, att, fee, d, now, _) => MirrorCreate(s, c, t, ti, ai, att, fee, d, now, a, tok);
      case CancelIntent(c, id) => MirrorCancel(s, c, id, a, tok);
      case SolveIntent(c, id, ps, opening, now, _) => MirrorSolve(s, c, id, ps, opening, now, a, tok);
    }
  }

  lemma MirrorFees(s: State, call: FeeCall, a: Account, tok: Token)
    requires Internal(a)
    ensures Mirrored(s, DraftFees(s, call), a, tok)
  {
    var tx := DraftFees(s, call);
    if tx.Done? && call.Flush? {
      Short(tx.moves, a, tok);
    }
  }

  /** Each posting is mirrored in storage, account by account and token by token. */
  lemma MirroredAlways(s: State, op: Op, a: Account, tok: Token)
    requires Internal(a) && BudgetsKept(s) && NoncesFresh(s)
    ensures Mirrored(s, Draft(s, op), a, tok)
  {
    match op
    case OnTask(call) => MirrorTask(s, call, a, tok);
    case OnKey(call) => MirrorKey(s, call, a, tok);
    case OnIntent(call) => MirrorIntent(s, call, a, tok);
    case OnFees(call) => MirrorFees(s, call, a, tok);
  }

  lemma ChargeMoves(b: KeyBook, c: Address, amount: nat, tok: Token)
    requires c in b.props && CanCharge(b.props[c], amount)
    ensures Sum(ChargeKey(b, c, amount).props, KeyHolds(tok)) + (if tok.Egld? then amount else 0) ==
            Sum(b.props, KeyHolds(tok))
  {
    SumPut(b.props, KeyHolds(tok), c, ChargeKey(b, c, amount).props[c]);
  }

  lemma BalanceSchedule(s: State, c: Address, h: Hash, att: nat, r: Option<nat>, lane: Lane, now: nat, tok: Token)
    requires BudgetsKept(s)
    ensures Balanced(s, DoSchedule(s, c, h, att, r, lane, now), tok)
  {
    var tx := DoSchedule(s, c, h, att, r, lane, now);
    if tx.Done? {
      Short(tx.moves, Unassigned, tok);
      SumPut(s.book.tasks, TaskHolds(tok), h, tx.next.book.tasks[h]);
      if Resolve(s.keys, c, now).1 {
        ChargeMoves(s.keys, c, r.value, tok);
      }
    }
  }

  lemma BalanceSuccess(s: State, h: Hash, keeper: Address, tok: Token)
    requires h in s.book.tasks
    ensures Balanced(s, FinalizeSuccess(s, h, keeper), tok)
  {
    Short(FinalizeSuccess(s, h, keeper).moves, Unassigned, tok);
    SumDrop(s.book.tasks, TaskHolds(tok), h);
  }

  lemma BalanceReturn(s: State, h: Hash, book: TaskBook, tok: Token)
    requires h in s.book.tasks && book.tasks == s.book.tasks - {h}
    ensures Balanced(s, ReturnLessFee(s, h, book), tok)
  {
    Short(ReturnLessFee(s, h, book).moves, Unassigned, tok);
    SumDrop(s.book.tasks, TaskHolds(tok), h);
  }

  lemma BalanceCallback(s: State, id: nat, ok: bool, tok: Token)
    ensures Balanced(s, DoCallback(s, id, ok), tok)
  {
    if id in s.book.promises && s.book.promises[id].h in s.book.tasks {
      var p, s1 := s.book.promises[id], s.(book := s.book.(promises := s.book.promises - {id}));
      BalanceSuccess(s1, p.h, p.keeper, tok);
      BalanceReturn(s1, p.h, CloseTask(s1.book, p.h), tok);
    }
  }

  lemma BalanceTask(s: State, call: TaskCall, tok: Token)
    requires BudgetsKept(s)
    ensures Balanced(s, DraftTask(s, call), tok)
  {
    var tx := DraftTask(s, call);
    if tx.Done? {
      match call
      case Schedule(c, h, att, r, lane, now, _) => BalanceSchedule(s, c, h, att, r, lane, now, tok);
      case Execute(_, h, _, _, _) => SumPut(s.book.tasks, TaskHolds(tok), h, tx.next.book.tasks[h]);
      case Callback(id, ok) => BalanceCallback(s, id, ok, tok);
      case SettleXse(c, h, _) => BalanceSuccess(s, h, c, tok);
      case Rescue(_, h, _, _) =>
        Short(tx.moves, Unassigned, tok);
        SumDrop(s.book.tasks, TaskHolds(tok), h);
      case CancelTask(_, h, _, _) => BalanceReturn(s, h, DropTask(s.book, h), tok);
    }
  }

  lemma BalanceAuthorize(s: State, c: Address, k: Address, att: nat, ttl: nat, now: nat, tok: Token)
    ensures Balanced(s, DoAuthorize(s, c, k, att, ttl, now), tok)
  {
    var tx := DoAuthorize(s, c, k, att, ttl, now);
    if tx.Done? {
      Short(tx.moves, Unassigned, tok);
      SumPut(s.keys.props, KeyHolds(tok), k, tx.next.keys.props[k]);
    }
  }

  lemma BalanceFund(s: State, c: Address, k: Address, att: nat, now: nat, tok: Token)
    requires BudgetsKept(s)
    ensures Balanced(s, DoFund(s, c, k, att, now), tok)
  {
    var tx := DoFund(s, c, k, att, now);
    if tx.Done? {
      Short(tx.moves, Unassigned, tok);
      SumPut(s.keys.props, KeyHolds(tok), k, tx.next.keys.props[k]);
    }
  }

  lemma BalanceRevoke(s: State, c: Address, k: Address, tok: Token)
    ensures Balanced(s, DoRevoke(s, c, k), tok)
  {
    var tx := DoRevoke(s, c, k);
    if tx.Done? {
      Short(tx.moves, Unassigned, tok);
      SumDrop(s.keys.props, KeyHolds(tok), k);
    }
  }

  lemma BalanceKey(s: State, call: KeyCall, tok: Token)
    requires BudgetsKept(s)
    ensures Balanced(s, DraftKey(s, call), tok)
  {
    match call
    case AuthorizeKey(c, k, att, ttl, now, _) => BalanceAuthorize(s, c, k, att, ttl, now, tok);
    case FundKey(c, k, att, now, _) => BalanceFund(s, c, k, att, now, tok);
    case RevokeKey(c, k) => BalanceRevoke(s, c, k, tok);
  }

  lemma BalanceCreate(s: State, c: Address, t: Terms, tokenIn: nat, amountIn: nat, att: nat, fee: nat, d: nat,
                      now: nat, tok: Token)
    requires NoncesFresh(s)
    ensures Balanced(s, DoCreateIntent(s, c, t, tokenIn, amountIn, att, fee, d, now), tok)
  {
    var tx := DoCreateIntent(s, c, t, tokenIn, amountIn, att, fee, d, now);
    if tx.Done? {
      Short(tx.moves, Unassigned, tok);
      var id := tx.moves[0].dst.id;
      SumPut(s.intents.byId, IntentHolds(tok), id, tx.next.intents.byId[id]);
    }
  }

  lemma BalanceSolve(s: State, c: Address, id: IntentId, ps: seq<Payment>, opening: Option<Opening>, now: nat,
                     tok: Token)
    ensures Balanced(s, DoSolveIntent(s, c, id, ps, opening, now), tok)
  {
    var tx := DoSolveIntent(s, c, id, ps, opening, now);
    if tx.Done? {
      SolveMoves(s, c, id, ps, opening, now, Unassigned, tok);
      SumPut(s.intents.byId, IntentHolds(tok), id, tx.next.intents.byId[id]);
    }
  }

  lemma BalanceCancelIntent(s: State, c: Address, id: IntentId, tok: Token)
    ensures Balanced(s, DoCancelIntent(s, c, id), tok)
  {
    var tx := DoCancelIntent(s, c, id);
    if tx.Done? {
      Short(tx.moves, Unassigned, tok);
      SumPut(s.intents.byId, IntentHolds(tok), id, tx.next.intents.byId[id]);
    }
  }

  lemma BalanceIntent(s: State, call: IntentCall, tok: Token)
    requires NoncesFresh(s)
    ensures Balanced(s, DraftIntent(s, call), tok)
  {
    match call
    case CreateIntent(c, t, ti, ai, att, fee, d, now, _) => BalanceCreate(s, c, t, ti, ai, att, fee, d, now, tok);
    case CancelIntent(c, id) => BalanceCancelIntent(s, c, id, tok);
    case SolveIntent(c, id, ps, opening, now, _) => BalanceSolve(s, c, id, ps, opening, now, tok);
  }

  lemma BalanceFees(s: State, call: FeeCall, tok: Token)
    ensures Balanced(s, DraftFees(s, call), tok)
  {
    var tx := DraftFees(s, call);
    if tx.Done? && call.Flush? {
      Short(tx.moves, Unassigned, tok);
    }
  }

  lemma BalancedAlways(s: State, op: Op, tok: Token)
    requires BudgetsKept(s) && NoncesFresh(s)
    ensures Balanced(s, Draft(s, op), tok)
  {
    match op
    case OnTask(call) => BalanceTask(s, call, tok);
    case OnKey(call) => BalanceKey(s, call, tok);
    case OnIntent(call) => BalanceIntent(s, call, tok);
    case OnFees(call) => BalanceFees(s, call, tok);
  }
}
