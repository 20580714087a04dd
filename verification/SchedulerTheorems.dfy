/** Safety of the scheduler over whole runs, with callbacks arriving in any order. */
module SchedulerTheorems {
  import opened MapSums
  import opened SchedulerModel
  import opened SchedulerLedger

  // ---------- The invariant ----------

  /** The owner index holds exactly the live tasks of each owner. */
  ghost predicate BookIndexed(b: TaskBook) {
    forall o: Address, h: Hash :: h in SetAt(b.owners, o) <==> h in b.tasks && b.tasks[h].owner == o
  }

  /** A clone is in a wallet's set exactly when its record names that wallet; at most three per wallet, and
      nobody is their own clone. */
  ghost predicate WalletsIndexed(s: State) {
    && (forall w: Address, c: Address ::
          c in SetAt(s.keys.ofWallet, w) <==> c in s.keys.props && s.keys.props[c].main == w)
    && (forall w: Address :: |SetAt(s.keys.ofWallet, w)| <= MAX_KEYS_PER_WALLET)
    && (forall c: Address :: c in s.keys.props ==> s.keys.props[c].main != c)
  }

  /** Promises are numbered in order, so a new one never replaces one in flight. */
  ghost predicate PromisesNumbered(b: TaskBook) { forall id :: id in b.promises ==> id < b.nextPromise }

  ghost predicate Inv(s: State) {
    && Solvent(s) && BudgetsKept(s) && NoncesFresh(s) && BookIndexed(s.book) && WalletsIndexed(s)
    && PromisesNumbered(s.book)
  }

  /** A step stores its draft, apart from the balances, or nothing at all. */
  lemma Outcome(s: State, op: Op)
    ensures var s', tx := After(s, op), Draft(s, op);
            && MovesOf(s, op) == (if Step(s, op).Done? then tx.moves else [])
            && (Step(s, op).Done? ==> tx.Done? && s' == tx.next.(funds := s'.funds))
            && (!Step(s, op).Done? ==> s' == s)
  {
  }

  /** A task call leaves intents alone and may only charge the caller's own key, within its limit. */
  lemma TaskFrame(s: State, call: TaskCall)
    ensures var tx := DraftTask(s, call);
            tx.Done? ==>
              && tx.next.intents == s.intents && tx.next.codec == s.codec
              && (tx.next.keys == s.keys ||
                  (call.Schedule? && call.caller in s.keys.props
                   && exists amount: nat :: CanCharge(s.keys.props[call.caller], amount)
                        && tx.next.keys == ChargeKey(s.keys, call.caller, amount)))
  {
    match call
    case Schedule(c, h, a, r, lane, now, _) =>
      var tx := DoSchedule(s, c, h, a, r, lane, now);
      if tx.Done? && tx.next.keys != s.keys {
        assert CanCharge(s.keys.props[c], r.value) && tx.next.keys == ChargeKey(s.keys, c, r.value);
      }
    case Execute(_, _, _, _, _) =>
    case Callback(_, _) =>
    case SettleXse(_, _, _) =>
    case Rescue(_, _, _, _) =>
    case CancelTask(_, _, _, _) =>
  }

  lemma KeyFrame(s: State, call: KeyCall)
    ensures var tx := DraftKey(s, call); tx.Done? ==> tx.next == s.(keys := tx.next.keys)
  {
  }

  lemma IntentFrame(s: State, call: IntentCall)
    ensures var tx := DraftIntent(s, call); tx.Done? ==> tx.next == s.(intents := tx.next.intents)
  {
  }

  lemma FeesFrame(s: State, call: FeeCall)
    ensures var tx := DraftFees(s, call); tx.Done? ==> tx.next == s.(fees := tx.next.fees, cfg := tx.next.cfg)
  {
  }

  lemma BudgetsKeptStep(s: State, op: Op)
    requires BudgetsKept(s)
    ensures BudgetsKept(After(s, op))
  {
    Outcome(s, op);
    match op
    case OnTask(call) => TaskFrame(s, call);
    case OnKey(call) =>
      match call {
        case AuthorizeKey(_, _, _, _, _, _) =>
        case FundKey(_, _, _, _, _) =>
        case RevokeKey(_, _) =>
      }
    case OnIntent(call) => IntentFrame(s, call);
    case OnFees(call) => FeesFrame(s, call);
  }

  lemma NoncesFreshStep(s: State, op: Op)
    requires NoncesFresh(s)
    ensures NoncesFresh(After(s, op))
  {
    Outcome(s, op);
    match op
    case OnTask(call) => TaskFrame(s, call);
    case OnKey(call) => KeyFrame(s, call);
    case OnIntent(call) =>
      match call {
        case CreateIntent(_, _, _, _, _, _, _, _, _) =>
        case CancelIntent(_, _) =>
        case SolveIntent(_, _, _, _, _, _) =>
      }
    case OnFees(call) => FeesFrame(s, call);
  }

  lemma IndexedCounted(b: TaskBook, owner: Address, lane: Lane)
    requires BookIndexed(b)
    ensures BookIndexed(Counted(b, owner, lane))
  {
    var b' := Counted(b, owner, lane);
    forall o: Address, g: Hash ensures g in SetAt(b'.owners, o) <==> g in b'.tasks && b'.tasks[g].owner == o {
      assert g in SetAt(b.owners, o) <==> g in b.tasks && b.tasks[g].owner == o;
    }
  }

  lemma IndexedAdd(b: TaskBook, h: Hash, owner: Address, deposit: nat)
    requires BookIndexed(b) && h !in b.tasks
    ensures BookIndexed(AddTask(b, h, owner, deposit))
  {
    var b' := AddTask(b, h, owner, deposit);
    forall o: Address, g: Hash ensures g in SetAt(b'.owners, o) <==> g in b'.tasks && b'.tasks[g].owner == o {
      assert g in SetAt(b.owners, o) <==> g in b.tasks && b.tasks[g].owner == o;
    }
  }

  lemma IndexedDrop(b: TaskBook, h: Hash)
    requires BookIndexed(b) && h in b.tasks
    ensures BookIndexed(DropTask(b, h))
  {
    var b' := DropTask(b, h);
    forall o: Address, g: Hash ensures g in SetAt(b'.owners, o) <==> g in b'.tasks && b'.tasks[g].owner == o {
      assert g in SetAt(b.owners, o) <==> g in b.tasks && b.tasks[g].owner == o;
    }
  }

  /** A task call changes the index as it changes the task map. */
  lemma OwnersIndexedTask(s: State, call: TaskCall)
    requires BookIndexed(s.book) && DraftTask(s, call).Done?
    ensures BookIndexed(DraftTask(s, call).next.book)
  {
    match call
    case Schedule(c, h, _, _, lane, now, _) =>
      var owner := Resolve(s.keys, c, now).0;
      IndexedCounted(s.book, owner, lane);
      IndexedAdd(Counted(s.book, owner, lane), h, owner, DraftTask(s, call).next.book.tasks[h].deposit);
    case Execute(_, _, _, _, _) =>
    case Callback(id, _) =>
      var p, b := s.book.promises[id], s.book.(promises := s.book.promises - {id});
      if p.h in s.book.tasks { IndexedDrop(b, p.h); }
    case SettleXse(_, h, _) => IndexedDrop(s.book, h);
    case Rescue(_, h, _, _) => IndexedDrop(s.book, h);
    case CancelTask(_, h, _, _) => IndexedDrop(s.book, h);
  }

  lemma OwnersIndexedStep(s: State, op: Op)
    requires BookIndexed(s.book)
    ensures BookIndexed(After(s, op).book)
  {
    Outcome(s, op);
    match op
    case OnTask(call) => if DraftTask(s, call).Done? { OwnersIndexedTask(s, call); }
    case OnKey(call) => KeyFrame(s, call);
    case OnIntent(call) => IntentFrame(s, call);
    case OnFees(call) => FeesFrame(s, call);
  }

  lemma WalletsIndexedKey(s: State, call: KeyCall)
    requires WalletsIndexed(s) && DraftKey(s, call).Done?
    ensures WalletsIndexed(DraftKey(s, call).next)
  {
    var s' := DraftKey(s, call).next;
    var mine := SetAt(s.keys.ofWallet, call.caller);
    assert |mine + {call.clone}| <= |mine| + 1 && |mine - {call.clone}| <= |mine|;
    forall w: Address, c: Address
      ensures c in SetAt(s'.keys.ofWallet, w) <==> c in s'.keys.props && s'.keys.props[c].main == w
    {
      assert c in SetAt(s.keys.ofWallet, w) <==> c in s.keys.props && s.keys.props[c].main == w;
    }
    forall w: Address ensures |SetAt(s'.keys.ofWallet, w)| <= MAX_KEYS_PER_WALLET {
      assert |SetAt(s.keys.ofWallet, w)| <= MAX_KEYS_PER_WALLET;
    }
  }

  lemma WalletsIndexedStep(s: State, op: Op)
    requires WalletsIndexed(s)
    ensures WalletsIndexed(After(s, op))
  {
    Outcome(s, op);
    match op
    case OnTask(call) => TaskFrame(s, call);
    case OnKey(call) => if DraftKey(s, call).Done? { WalletsIndexedKey(s, call); }
    case OnIntent(call) => IntentFrame(s, call);
    case OnFees(call) => FeesFrame(s, call);
  }

  lemma PromisesNumberedCall(s: State, call: TaskCall)
    requires PromisesNumbered(s.book) && DraftTask(s, call).Done?
    ensures PromisesNumbered(DraftTask(s, call).next.book)
  {
    match call
    case Schedule(_, _, _, _, _, _, _) =>
    case Execute(_, _, _, _, _) =>
    case Callback(_, _) =>
    case SettleXse(_, _, _) =>
    case Rescue(_, _, _, _) =>
    case CancelTask(_, _, _, _) =>
  }

  lemma PromisesNumberedStep(s: State, op: Op)
    requires PromisesNumbered(s.book)
    ensures PromisesNumbered(After(s, op).book)
  {
    Outcome(s, op);
    match op
    case OnTask(call) => if DraftTask(s, call).Done? { PromisesNumberedCall(s, call); }
    case OnKey(call) => KeyFrame(s, call);
    case OnIntent(call) => IntentFrame(s, call);
    case OnFees(call) => FeesFrame(s, call);
  }

  /** Under the invariant no transaction fails for lack of funds: whatever storage allows, is paid. */
  lemma NeverShort(s: State, op: Op)
    requires Inv(s)
    ensures Step(s, op).Done? <==> Draft(s, op).Done?
  {
    var tx := Draft(s, op);
    if tx.Done? {
      forall tok ensures Drain(tx.moves, tok) <= Get(s.funds, tok) {
        BalancedAlways(s, op, tok);
        assert Slack(s, tok) >= 0;
      }
      BookSucceeds(s.funds, tx.moves);
    }
  }

  lemma SlackStep(s: State, op: Op, tok: Token)
    requires BudgetsKept(s) && NoncesFresh(s)
    ensures Slack(After(s, op), tok) == Slack(s, tok) + Flow(MovesOf(s, op), Unassigned, tok)
  {
    if Step(s, op).Done? {
      var tx := Draft(s, op);
      BalancedAlways(s, op, tok);
      BookNet(s.funds, tx.moves, tok);
      assert Liabilities(After(s, op), tok) == Liabilities(tx.next, tok);
    }
  }

  lemma InvStep(s: State, op: Op)
    requires Inv(s)
    ensures Inv(After(s, op))
  {
    BudgetsKeptStep(s, op);
    NoncesFreshStep(s, op);
    OwnersIndexedStep(s, op);
    WalletsIndexedStep(s, op);
    PromisesNumberedStep(s, op);
    forall tok ensures Slack(After(s, op), tok) >= 0 {
      SlackStep(s, op, tok);
      UnassignedOnlyGrows(s, op, tok);
      assert Slack(s, tok) >= 0;
    }
  }

  // ---------- Labels of postings ----------

  /** The only postings the contract makes. */
  predicate Legal(m: Move) {
    match m.why
    case Deposit => m.src.Outside? && (m.dst.OfTask? || m.dst.OfKey? || m.dst.OfIntent?)
    case Charge => m.src.OfKey? && m.dst.OfTask?
    case Reward => m.src.OfTask? && m.dst.Outside?
    case Refund => (m.src.OfTask? || m.src.OfKey? || m.src.OfIntent?) && m.dst.Outside?
    case Fee => m.src.OfTask? && m.dst.FeePot?
    case Delivery => m.src.Outside? && m.dst.Outside?
    case Bounty => m.src.OfIntent? && m.dst.Outside?
    case Flushed => m.token == Egld && m.src.FeePot? && (m.dst.RewardsContract? || m.dst.Unassigned?)
  }

  predicate AllLegal(ms: seq<Move>) { forall i :: 0 <= i < |ms| ==> Legal(ms[i]) }

  lemma LegalTask(s: State, call: TaskCall)
    ensures DraftTask(s, call).Done? ==> AllLegal(DraftTask(s, call).moves)
  {
    match call
    case Schedule(_, _, _, _, _, _, _) =>
    case Execute(_, _, _, _, _) =>
    case Callback(_, _) =>
    case SettleXse(_, _, _) =>
    case Rescue(_, _, _, _) =>
    case CancelTask(_, _, _, _) =>
  }

  lemma LegalIntent(s: State, call: IntentCall)
    ensures DraftIntent(s, call).Done? ==> AllLegal(DraftIntent(s, call).moves)
  {
  }

  lemma LegalStep(s: State, op: Op)
    ensures AllLegal(MovesOf(s, op))
  {
    Outcome(s, op);
    match op
    case OnTask(call) => LegalTask(s, call);
    case OnKey(call) =>
    case OnIntent(call) => LegalIntent(s, call);
    case OnFees(call) =>
  }

  lemma UnassignedOnlyGrows(s: State, op: Op, tok: Token)
    ensures Flow(MovesOf(s, op), Unassigned, tok) >= 0
  {
    LegalStep(s, op);
    NoOutflow(MovesOf(s, op), tok);
  }

  lemma {:induction false} NoOutflow(ms: seq<Move>, tok: Token)
    requires AllLegal(ms)
    ensures Flow(ms, Unassigned, tok) >= 0
    decreases |ms|
  {
    if ms != [] {
      assert Legal(ms[0]);
      NoOutflow(ms[1..], tok);
    }
  }

  // ---------- Whole runs ----------

  lemma {:induction false} RunConcat(s: State, xs: seq<Op>, ys: seq<Op>)
    ensures Run(s, xs + ys) == Run(Run(s, xs), ys)
    decreases |xs|
  {
    if xs == [] {
      assert xs + ys == ys;
    } else {
      assert (xs + ys)[1..] == xs[1..] + ys;
      RunConcat(After(s, xs[0]), xs[1..], ys);
    }
  }

  lemma RunSplit(s: State, ops: seq<Op>, k: nat)
    requires k < |ops|
    ensures Run(s, ops) == Run(After(Run(s, ops[..k]), ops[k]), ops[k + 1..])
  {
    RunPrefix(s, ops, k);
    assert ops == ops[..k + 1] + ops[k + 1..];
    RunConcat(s, ops[..k + 1], ops[k + 1..]);
  }

  /** The state before step k + 1 is the state before step k, one step on. */
  lemma RunPrefix(s: State, ops: seq<Op>, k: nat)
    requires k < |ops|
    ensures Run(s, ops[..k + 1]) == After(Run(s, ops[..k]), ops[k])
  {
    assert ops[..k + 1] == ops[..k] + [ops[k]];
    RunConcat(s, ops[..k], [ops[k]]);
    assert [ops[k]][1..] == [];
  }

  /** Solvency: on every run, for every token, the balance covers live deposits, accrued fees, unspent
      clone budgets and the escrow of open intents; the surplus changes only by bounced flushes. */
  lemma {:induction false} SolvencyRun(s: State, ops: seq<Op>, tok: Token)
    requires Inv(s)
    ensures Inv(Run(s, ops))
    ensures Get(Run(s, ops).funds, tok) ==
            Liabilities(Run(s, ops), tok) + Slack(s, tok) + Flow(Journal(s, ops), Unassigned, tok)
    decreases |ops|
  {
    if ops != [] {
      InvStep(s, ops[0]);
      SlackStep(s, ops[0], tok);
      FlowConcat(MovesOf(s, ops[0]), Journal(After(s, ops[0]), ops[1..]), Unassigned, tok);
      SolvencyRun(After(s, ops[0]), ops[1..], tok);
    }
  }

  lemma LedgerStep(s: State, op: Op, a: Account, tok: Token)
    requires Inv(s) && Internal(a)
    ensures Holds(After(s, op), a, tok) == Holds(s, a, tok) + Flow(MovesOf(s, op), a, tok)
  {
    Outcome(s, op);
    MirroredAlways(s, op, a, tok);
  }

  /** Every account's holding is its opening balance plus its postings, over any run. */
  lemma {:induction false} LedgerRun(s: State, ops: seq<Op>, a: Account, tok: Token)
    requires Inv(s) && Internal(a)
    ensures Holds(Run(s, ops), a, tok) == Holds(s, a, tok) + Flow(Journal(s, ops), a, tok)
    decreases |ops|
  {
    if ops != [] {
      LedgerStep(s, ops[0], a, tok);
      InvStep(s, ops[0]);
      FlowConcat(MovesOf(s, ops[0]), Journal(After(s, ops[0]), ops[1..]), a, tok);
      LedgerRun(After(s, ops[0]), ops[1..], a, tok);
    }
  }

  lemma {:induction false} LegalRun(s: State, ops: seq<Op>)
    ensures AllLegal(Journal(s, ops))
    decreases |ops|
  {
    if ops != [] {
      LegalStep(s, ops[0]);
      LegalRun(After(s, ops[0]), ops[1..]);
    }
  }

  /** Amounts of `tok` labelled `w` into, or out of, an account. */
  function Into(ms: seq<Move>, a: Account, tok: Token, w: Why): nat
    decreases |ms|
  {
    if ms == [] then 0 else
      (if ms[0].dst == a && ms[0].token == tok && ms[0].why == w then ms[0].amount else 0) + Into(ms[1..], a, tok, w)
  }

  function OutOf(ms: seq<Move>, a: Account, tok: Token, w: Why): nat
    decreases |ms|
  {
    if ms == [] then 0 else
      (if ms[0].src == a && ms[0].token == tok && ms[0].why == w then ms[0].amount else 0) + OutOf(ms[1..], a, tok, w)
  }

  /** A flow, broken down by purpose. */
  lemma {:induction false} FlowByPurpose(ms: seq<Move>, a: Account, tok: Token)
    requires AllLegal(ms)
    ensures a.OfTask? ==>
              Flow(ms, a, tok) == Into(ms, a, tok, Deposit) + Into(ms, a, tok, Charge)
                                  - OutOf(ms, a, tok, Reward) - OutOf(ms, a, tok, Refund) - OutOf(ms, a, tok, Fee)
    ensures a.OfKey? ==>
              Flow(ms, a, tok) == Into(ms, a, tok, Deposit) - OutOf(ms, a, tok, Charge) - OutOf(ms, a, tok, Refund)
    ensures a.OfIntent? ==>
              Flow(ms, a, tok) == Into(ms, a, tok, Deposit) - OutOf(ms, a, tok, Bounty) - OutOf(ms, a, tok, Refund)
    decreases |ms|
  {
    if ms != [] {
      assert Legal(ms[0]);
      FlowByPurpose(ms[1..], a, tok);
    }
  }

  /** Per task hash, over any run: everything deposited under it is live or was paid out as reward, refund or
      fee. That each scheduling is paid out once is `SchedulerSettlement.SettledOncePerScheduling`. */
  lemma TaskConservation(s: State, ops: seq<Op>, h: Hash)
    requires Inv(s)
    ensures var j, a := Journal(s, ops), OfTask(h);
            Holds(s, a, Egld) + Into(j, a, Egld, Deposit) + Into(j, a, Egld, Charge) ==
            Holds(Run(s, ops), a, Egld)
            + OutOf(j, a, Egld, Reward) + OutOf(j, a, Egld, Refund) + OutOf(j, a, Egld, Fee)
  {
    LedgerRun(s, ops, OfTask(h), Egld);
    LegalRun(s, ops);
    FlowByPurpose(Journal(s, ops), OfTask(h), Egld);
  }

  /** Per clone key: total funded = charged to tasks + refunded + remaining. */
  lemma CloneConservation(s: State, ops: seq<Op>, c: Address)
    requires Inv(s) && c !in s.keys.props
    ensures var j, a, e := Journal(s, ops), OfKey(c), Run(s, ops);
            Into(j, a, Egld, Deposit) == OutOf(j, a, Egld, Charge) + OutOf(j, a, Egld, Refund)
            + (if c in e.keys.props then e.keys.props[c].limit - e.keys.props[c].spent else 0)
  {
    LedgerRun(s, ops, OfKey(c), Egld);
    LegalRun(s, ops);
    FlowByPurpose(Journal(s, ops), OfKey(c), Egld);
    SolvencyRun(s, ops, Egld);
  }

  /** Clone limits and indexes in every reachable state. */
  lemma CloneLimits(s: State, ops: seq<Op>, c: Address, w: Address)
    requires Inv(s)
    ensures var k := Run(s, ops).keys;
            && (c in k.props ==> k.props[c].spent <= k.props[c].limit <= 2_000_000_000_000_000_000)
            && (c in SetAt(k.ofWallet, w) <==> c in k.props && k.props[c].main == w)
            && |SetAt(k.ofWallet, w)| <= 3
  {
    SolvencyRun(s, ops, Egld);
  }

  /** On every reachable state, what storage promises can be collected: callbacks settle, main wallets
      revoke, intent owners withdraw, fees flush, an owner rescues a task stuck for a day. None of these can
      fail for lack of funds. A pending task's owner can cancel it exactly when nobody has made the owner's
      address a clone key that is still live. */
  lemma AlwaysRedeemable(s: State, ops: seq<Op>, h: Hash, c: Address, id: IntentId, p: nat, ok: bool, now: nat)
    requires Inv(s)
    ensures var e := Run(s, ops);
            && (p in e.book.promises ==> Step(e, OnTask(Callback(p, ok))).Done?)
            && (h in e.book.tasks ==> OwnerRedeems(e, h, now))
            && (c in e.keys.props ==> Step(e, OnKey(RevokeKey(e.keys.props[c].main, c))).Done?)
            && (id in e.intents.byId && e.intents.byId[id].status == Open
                ==> Step(e, OnIntent(CancelIntent(e.intents.byId[id].owner, id))).Done?)
            && (e.fees > 0 ==> Step(e, OnFees(Flush(true, true))).Done?)
  {
    SolvencyRun(s, ops, Egld);
    TasksRedeemable(Run(s, ops), h, p, ok, now);
    ClaimsRedeemable(Run(s, ops), c, id);
  }

  /** What the owner of task `h` can do about it at time `now`. */
  ghost predicate OwnerRedeems(e: State, h: Hash, now: nat)
    requires h in e.book.tasks
  {
    var t := e.book.tasks[h];
    && (Step(e, OnTask(CancelTask(t.owner, h, now, true))).Done? <==>
        t.status == Pending && !Resolve(e.keys, t.owner, now).1)
    && (Step(e, OnTask(Rescue(t.owner, h, now, true))).Done? <==>
        t.status == Executing && now >= t.executingAt + 86_400)
  }

  lemma TasksRedeemable(e: State, h: Hash, p: nat, ok: bool, now: nat)
    requires Inv(e)
    ensures p in e.book.promises ==> Step(e, OnTask(Callback(p, ok))).Done?
    ensures h in e.book.tasks ==> OwnerRedeems(e, h, now)
  {
    NeverShort(e, OnTask(Callback(p, ok)));
    if h in e.book.tasks {
      NeverShort(e, OnTask(CancelTask(e.book.tasks[h].owner, h, now, true)));
      NeverShort(e, OnTask(Rescue(e.book.tasks[h].owner, h, now, true)));
    }
  }

  /** The failing case is within anyone's reach: for one unit of EGLD a stranger makes the owner of a pending
      task a clone key, unasked, and for the next thirty days less a second the owner cannot cancel. */
  lemma OwnerLockedOut(s: State, h: Hash, stranger: Address, now: nat, later: nat)
    requires Inv(s) && h in s.book.tasks && s.book.tasks[h].status == Pending
    requires var owner := s.book.tasks[h].owner;
             stranger != owner && owner !in s.keys.props && |SetAt(s.keys.ofWallet, stranger)| < 3
    ensures var owner := s.book.tasks[h].owner;
            var op := OnKey(AuthorizeKey(stranger, owner, 1, 2_592_000, now, true));
            && Step(s, op).Done?
            && (Step(After(s, op), OnTask(CancelTask(owner, h, later, true))).Abort? <==> later < now + 2_592_000)
  {
    var owner := s.book.tasks[h].owner;
    var op := OnKey(AuthorizeKey(stranger, owner, 1, 2_592_000, now, true));
    NeverShort(s, op);
    InvStep(s, op);
    TasksRedeemable(After(s, op), h, 0, true, later);
  }

  /** The way out: while they have fewer than three keys, a locked-out owner can authorize a fresh address of
      their own, through which the task is cancelled and paid back to the owner. */
  lemma LockedOwnerEscapes(s: State, h: Hash, helper: Address, now: nat)
    requires Inv(s) && h in s.book.tasks && s.book.tasks[h].status == Pending
    requires var owner := s.book.tasks[h].owner;
             helper != owner && helper !in s.keys.props && |SetAt(s.keys.ofWallet, owner)| < MAX_KEYS_PER_WALLET
    ensures var t := s.book.tasks[h];
            var op := OnKey(AuthorizeKey(t.owner, helper, 1, MIN_KEY_TTL, now, true));
            var fee := FeeOf(t.deposit, s.cfg.feeBps);
            && Step(s, op).Done?
            && Step(After(s, op), OnTask(CancelTask(helper, h, now, true))).Done?
            && MovesOf(After(s, op), OnTask(CancelTask(helper, h, now, true))) ==
               [Move(Egld, OfTask(h), Outside(t.owner), t.deposit - fee, Refund),
                Move(Egld, OfTask(h), FeePot, fee, Fee)]
  {
    var op := OnKey(AuthorizeKey(s.book.tasks[h].owner, helper, 1, MIN_KEY_TTL, now, true));
    NeverShort(s, op);
    InvStep(s, op);
    NeverShort(After(s, op), OnTask(CancelTask(helper, h, now, true)));
  }

  lemma ClaimsRedeemable(e: State, c: Address, id: IntentId)
    requires Inv(e)
    ensures c in e.keys.props ==> Step(e, OnKey(RevokeKey(e.keys.props[c].main, c))).Done?
    ensures id in e.intents.byId && e.intents.byId[id].status == Open
            ==> Step(e, OnIntent(CancelIntent(e.intents.byId[id].owner, id))).Done?
    ensures e.fees > 0 ==> Step(e, OnFees(Flush(true, true))).Done?
  {
    if c in e.keys.props { NeverShort(e, OnKey(RevokeKey(e.keys.props[c].main, c))); }
    if id in e.intents.byId { NeverShort(e, OnIntent(CancelIntent(e.intents.byId[id].owner, id))); }
    NeverShort(e, OnFees(Flush(true, true)));
  }

  /** A clone's budget leaves it in two ways only: charged by the clone itself, before expiry, for a task
      owned by the main wallet; or refunded to the main wallet that revokes it. */
  lemma KeyOutflows(s: State, op: Op, c: Address, i: nat)
    requires i < |MovesOf(s, op)| && MovesOf(s, op)[i].src == OfKey(c)
    ensures c in s.keys.props
    ensures var m, k := MovesOf(s, op)[i], s.keys.props[c];
            || (&& op.OnTask? && op.t.Schedule? && op.t.caller == c && op.t.now < k.expiry
                && m.dst == OfTask(op.t.h) && op.t.h in After(s, op).book.tasks
                && After(s, op).book.tasks[op.t.h].owner == k.main)
            || (op == OnKey(RevokeKey(k.main, c)) && m.dst == Outside(k.main) && c !in After(s, op).keys.props)
  {
    Outcome(s, op);
    match op
    case OnTask(call) =>
      match call {
        case Schedule(_, _, _, _, _, _, _) =>
        case Execute(_, _, _, _, _) =>
        case Callback(_, _) => LegalTask(s, call); assert false;
        case SettleXse(_, _, _) => assert false;
        case Rescue(_, _, _, _) => assert false;
        case CancelTask(_, _, _, _) => assert false;
      }
    case OnKey(call) =>
    case OnIntent(call) => IntentSources(s, call, i);
    case OnFees(call) =>
  }

  lemma IntentSources(s: State, call: IntentCall, i: nat)
    requires DraftIntent(s, call).Done? && i < |DraftIntent(s, call).moves|
    ensures var m := DraftIntent(s, call).moves[i]; m.src.Outside? || m.src.OfIntent?
  {
  }
}
