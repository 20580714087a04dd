/** Exactly when each call is accepted, in terms of what callers can see, and what it then records. */
module SchedulerAcceptance {
  import opened MapSums
  import opened SchedulerModel
  import opened SchedulerLedger
  import opened SchedulerTheorems

  // ---------- Tasks ----------

  /** The live tasks of an owner. */
  ghost function LiveOf(s: State, owner: Address): set<Hash> {
    set h | h in s.book.tasks && s.book.tasks[h].owner == owner
  }

  lemma IndexIsLive(s: State, owner: Address)
    requires BookIndexed(s.book)
    ensures SetAt(s.book.owners, owner) == LiveOf(s, owner)
  {
    forall h ensures h in SetAt(s.book.owners, owner) <==> h in LiveOf(s, owner) {
      assert h in SetAt(s.book.owners, owner) <==> h in s.book.tasks && s.book.tasks[h].owner == owner;
    }
  }

  /** `caller` is a clone key that has not expired. */
  predicate Speaks(s: State, caller: Address, now: nat) {
    caller in s.keys.props && now < s.keys.props[caller].expiry
  }

  /** Whose task it is, and what is deposited: a clone key schedules for its main wallet, out of its budget. */
  function OwnerFor(s: State, caller: Address, now: nat): Address {
    if Speaks(s, caller, now) then s.keys.props[caller].main else caller
  }

  function DepositFor(s: State, caller: Address, attached: nat, requested: Option<nat>, now: nat): nat {
    if Speaks(s, caller, now) && requested.Some? then requested.value else attached
  }

  /** When a task is accepted: a clone key attaches nothing, names an amount and can pay it; the deposit is within
      bounds; the hash is free; an ordinary task finds its owner with fewer than a hundred live tasks and below
      the limit of the round. */
  lemma ScheduleIff(s: State, c: Address, h: Hash, attached: nat, requested: Option<nat>, lane: Lane, now: nat)
    requires Inv(s)
    ensures var op := OnTask(Schedule(c, h, attached, requested, lane, now, true));
            var owner, deposit := OwnerFor(s, c, now), DepositFor(s, c, attached, requested, now);
            && (Step(s, op).Done? <==>
                  && (Speaks(s, c, now) ==> attached == 0 && requested.Some?
                                            && s.keys.props[c].spent + deposit <= s.keys.props[c].limit)
                  && s.cfg.minDeposit <= deposit && (s.cfg.maxDeposit > 0 ==> deposit <= s.cfg.maxDeposit)
                  && h !in s.book.tasks
                  && (lane.Quantum? ==>
                        && |LiveOf(s, owner)| < 100
                        && (s.cfg.maxPerRound > 0 ==>
                              Get(s.book.perRound, (owner, lane.round)) < s.cfg.maxPerRound)))
            && (Step(s, op).Done? ==>
                  && h in After(s, op).book.tasks && After(s, op).book.tasks[h].owner == owner
                  && After(s, op).book.tasks[h].deposit == deposit && After(s, op).book.tasks[h].status == Pending)
  {
    NeverShort(s, OnTask(Schedule(c, h, attached, requested, lane, now, true)));
    IndexIsLive(s, OwnerFor(s, c, now));
  }

  /** A pending task is cancelled exactly by its owner, or by a live clone key of its owner; not by an owner who is
      someone's live clone key. */
  lemma CancelIff(s: State, c: Address, h: Hash, now: nat)
    requires Inv(s)
    ensures Step(s, OnTask(CancelTask(c, h, now, true))).Done? <==>
              && h in s.book.tasks && s.book.tasks[h].status == Pending
              && (if Speaks(s, c, now) then s.keys.props[c].main == s.book.tasks[h].owner
                  else c == s.book.tasks[h].owner)
  {
    NeverShort(s, OnTask(CancelTask(c, h, now, true)));
  }

  // ---------- Clone keys ----------

  lemma AuthorizeIff(s: State, c: Address, clone: Address, attached: nat, ttl: nat, now: nat)
    requires Inv(s)
    ensures var op := OnKey(AuthorizeKey(c, clone, attached, ttl, now, true));
            && (Step(s, op).Done? <==>
                  && 0 < attached <= 2_000_000_000_000_000_000 && 3_600 <= ttl <= 2_592_000
                  && clone != c && clone !in s.keys.props
                  && |set x | x in s.keys.props && s.keys.props[x].main == c| < 3)
            && (Step(s, op).Done? ==> clone in After(s, op).keys.props
                                      && After(s, op).keys.props[clone] == CloneKey(c, attached, 0, now + ttl))
  {
    NeverShort(s, OnKey(AuthorizeKey(c, clone, attached, ttl, now, true)));
    assert SetAt(s.keys.ofWallet, c) == set x | x in s.keys.props && s.keys.props[x].main == c;
  }

  lemma FundIff(s: State, c: Address, clone: Address, attached: nat, now: nat)
    requires Inv(s)
    ensures var op := OnKey(FundKey(c, clone, attached, now, true));
            && (Step(s, op).Done? <==>
                  && attached > 0 && clone in s.keys.props && s.keys.props[clone].main == c
                  && now < s.keys.props[clone].expiry
                  && s.keys.props[clone].limit + attached <= 2_000_000_000_000_000_000)
            && (Step(s, op).Done? ==>
                  Remaining(After(s, op).keys.props[clone]) == Remaining(s.keys.props[clone]) + attached)
  {
    NeverShort(s, OnKey(FundKey(c, clone, attached, now, true)));
  }

  lemma RevokeIff(s: State, c: Address, clone: Address)
    requires Inv(s)
    ensures Step(s, OnKey(RevokeKey(c, clone))).Done? <==> clone in s.keys.props && s.keys.props[clone].main == c
    ensures clone in After(s, OnKey(RevokeKey(c, clone))).keys.props <==>
              clone in s.keys.props && s.keys.props[clone].main != c
  {
    NeverShort(s, OnKey(RevokeKey(c, clone)));
  }

  /** An accepted revocation of `clone`. */
  predicate Revokes(s: State, op: Op, clone: Address) {
    op.OnKey? && op.k.RevokeKey? && op.k.clone == clone && Step(s, op).Done?
  }

  predicate NeverRevoked(s: State, ops: seq<Op>, clone: Address)
    decreases |ops|
  {
    ops == [] || (!Revokes(s, ops[0], clone) && NeverRevoked(After(s, ops[0]), ops[1..], clone))
  }

  /** Unless revoked, a key keeps its wallet and its expiry. */
  lemma KeyKeptStep(s: State, op: Op, clone: Address)
    requires clone in s.keys.props && !Revokes(s, op, clone)
    ensures var p := After(s, op).keys.props;
            clone in p && p[clone].main == s.keys.props[clone].main && p[clone].expiry == s.keys.props[clone].expiry
  {
    Outcome(s, op);
    match op
    case OnTask(call) => TaskFrame(s, call);
    case OnKey(call) =>
      match call {
        case AuthorizeKey(_, _, _, _, _, _) =>
        case FundKey(_, _, _, _, _) =>
        case RevokeKey(_, _) =>
      }
    case OnIntent(call) => IntentFrame(s, call);
    case OnFees(call) => FeesFrame(s, call);
  }

  lemma {:induction false} KeyKept(s: State, ops: seq<Op>, clone: Address)
    requires clone in s.keys.props && NeverRevoked(s, ops, clone)
    ensures var p := Run(s, ops).keys.props;
            clone in p && p[clone].main == s.keys.props[clone].main && p[clone].expiry == s.keys.props[clone].expiry
    decreases |ops|
  {
    if ops != [] {
      KeyKeptStep(s, ops[0], clone);
      KeyKept(After(s, ops[0]), ops[1..], clone);
    }
  }

  /** A key speaks for the wallet that authorized it exactly until its lifetime is over, whatever happens but a
      revocation; funding does not prolong it. */
  lemma SpeaksUntilExpiry(s: State, c: Address, clone: Address, attached: nat, ttl: nat, now: nat, ops: seq<Op>, t: nat)
    requires Inv(s) && Step(s, OnKey(AuthorizeKey(c, clone, attached, ttl, now, true))).Done?
    requires NeverRevoked(After(s, OnKey(AuthorizeKey(c, clone, attached, ttl, now, true))), ops, clone)
    ensures var e := Run(After(s, OnKey(AuthorizeKey(c, clone, attached, ttl, now, true))), ops);
            Resolve(e.keys, clone, t) == if t < now + ttl then (c, true) else (clone, false)
  {
    AuthorizeIff(s, c, clone, attached, ttl, now);
    KeyKept(After(s, OnKey(AuthorizeKey(c, clone, attached, ttl, now, true))), ops, clone);
  }

  // ---------- Intents ----------

  lemma CreateIff(s: State, c: Address, terms: Terms, tokenIn: nat, amountIn: nat, attached: nat, fee: nat,
                  deadline: nat, now: nat)
    requires Inv(s)
    ensures Step(s, OnIntent(CreateIntent(c, terms, tokenIn, amountIn, attached, fee, deadline, now, true))).Done? <==>
              && attached == fee && now < deadline < 10_000_000_000
              && (!terms.Multi? ==> amountIn > 0)
              && (terms.Multi? ==>
                    && 1 <= |terms.wants| <= 5
                    && forall i, j :: 0 <= i < j < |terms.wants| ==> terms.wants[i].token != terms.wants[j].token)
  {
    NeverShort(s, OnIntent(CreateIntent(c, terms, tokenIn, amountIn, attached, fee, deadline, now, true)));
  }

  lemma CancelIntentIff(s: State, c: Address, id: IntentId)
    requires Inv(s)
    ensures Step(s, OnIntent(CancelIntent(c, id))).Done? <==>
              id in s.intents.byId && s.intents.byId[id].status == Open && s.intents.byId[id].owner == c
  {
    NeverShort(s, OnIntent(CancelIntent(c, id)));
  }

  /** A single intent is solved exactly by one payment of the wanted token, in at least the wanted amount, in time. */
  lemma SolveSingleIff(s: State, c: Address, id: IntentId, ps: seq<Payment>, o: Option<Opening>, now: nat, w: Want)
    requires Inv(s) && id in s.intents.byId && s.intents.byId[id].terms == Single(w)
    ensures Step(s, OnIntent(SolveIntent(c, id, ps, o, now, true))).Done? <==>
              && s.intents.byId[id].status == Open && now <= s.intents.byId[id].deadline
              && |ps| == 1 && ps[0].token == w.token && ps[0].amount >= w.minReturn
  {
    NeverShort(s, OnIntent(SolveIntent(c, id, ps, o, now, true)));
    assert WantsOf(Single(w), o) == [w];
  }

  /** A multi-intent exactly by as many payments as tokens wanted, in their order, each in at least its amount. */
  lemma SolveMultiIff(s: State, c: Address, id: IntentId, ps: seq<Payment>, o: Option<Opening>, now: nat, ws: seq<Want>)
    requires Inv(s) && id in s.intents.byId && s.intents.byId[id].terms == Multi(ws)
    ensures Step(s, OnIntent(SolveIntent(c, id, ps, o, now, true))).Done? <==>
              && s.intents.byId[id].status == Open && now <= s.intents.byId[id].deadline
              && |ps| == |ws|
              && forall i :: 0 <= i < |ws| ==> ps[i].token == ws[i].token && ps[i].amount >= ws[i].minReturn
  {
    NeverShort(s, OnIntent(SolveIntent(c, id, ps, o, now, true)));
  }

  // ---------- Fees ----------

  /** Exactly when there are fees they can be flushed: all of them leave the pot, for the Rewards contract, or
      bounce. */
  lemma FlushIff(s: State, delivered: bool)
    requires Inv(s)
    ensures var op := OnFees(Flush(delivered, true));
            && (Step(s, op).Done? <==> s.fees > 0)
            && After(s, op).fees == 0
            && (s.fees > 0 ==> Flow(MovesOf(s, op), RewardsContract, Egld) == if delivered then s.fees else 0)
  {
    var op := OnFees(Flush(delivered, true));
    NeverShort(s, op);
    if s.fees > 0 {
      Short(MovesOf(s, op), RewardsContract, Egld);
    }
  }

  // ---------- Who pays ----------

  /** Who makes a call that may bring money. */
  function Payer(op: Op): Address {
    match op
    case OnTask(Schedule(c, _, _, _, _, _, _)) => c
    case OnKey(AuthorizeKey(c, _, _, _, _, _)) => c
    case OnKey(FundKey(c, _, _, _, _)) => c
    case OnIntent(CreateIntent(c, _, _, _, _, _, _, _, _)) => c
    case OnIntent(SolveIntent(c, _, _, _, _, _)) => c
    case _ => 0
  }

  /** Deposits and deliveries come out of the pocket of whoever makes the call, and of nobody else's. */
  lemma CallerPays(s: State, op: Op, i: nat)
    requires i < |MovesOf(s, op)| && MovesOf(s, op)[i].src.Outside?
    ensures MovesOf(s, op)[i].src == Outside(Payer(op))
    ensures MovesOf(s, op)[i].why == Deposit || MovesOf(s, op)[i].why == Delivery
  {
    Outcome(s, op);
    match op
    case OnTask(call) => TaskPayer(s, call, i);
    case OnKey(call) =>
    case OnIntent(call) =>
      match call {
        case CreateIntent(_, _, _, _, _, _, _, _, _) =>
        case CancelIntent(_, _) =>
        case SolveIntent(_, _, _, _, _, _) =>
      }
    case OnFees(call) =>
  }

  lemma TaskPayer(s: State, call: TaskCall, i: nat)
    requires DraftTask(s, call).Done? && i < |DraftTask(s, call).moves| && DraftTask(s, call).moves[i].src.Outside?
    ensures call.Schedule? && DraftTask(s, call).moves[i].src == Outside(call.caller)
    ensures DraftTask(s, call).moves[i].why == Deposit
  {
    match call
    case Schedule(_, _, _, _, _, _, _) =>
    case Execute(_, _, _, _, _) =>
    case Callback(_, _) =>
    case SettleXse(_, _, _) =>
    case Rescue(_, _, _, _) =>
    case CancelTask(_, _, _, _) =>
  }

  // ---------- Configuration ----------

  /** What the setters mean for the next settlement and the next deposit. */
  lemma SettersMean(s: State, bps: nat, most: nat, least: nat, deposit: nat)
    ensures var s' := After(s, OnFees(SetFeeBps(bps)));
            && (Step(s, OnFees(SetFeeBps(bps))).Done? <==> bps <= 10_000)
            && (bps <= 10_000 ==> var fee := FeeOf(deposit, s'.cfg.feeBps);
                                  fee * 10_000 <= deposit * bps < (fee + 1) * 10_000)
    ensures var s' := After(s, OnFees(SetMaxReward(most)));
            var fee := FeeOf(deposit, s'.cfg.feeBps);
            && s'.cfg.feeBps == s.cfg.feeBps
            && RewardOf(deposit, s'.cfg) + fee == if 0 < most && most + fee < deposit then most + fee else deposit
    ensures var s' := After(s, OnFees(SetDepositBounds(least, most)));
            DepositAllowed(s'.cfg, deposit) <==> least <= deposit && (most == 0 || deposit <= most)
  {
  }

  /** Nothing else touches the configuration. */
  lemma ConfigFixed(s: State, op: Op)
    requires !op.OnFees? || op.f.Flush?
    ensures After(s, op).cfg == s.cfg
  {
    Outcome(s, op);
    match op
    case OnTask(call) =>
      match call {
        case Schedule(_, _, _, _, _, _, _) =>
        case Execute(_, _, _, _, _) =>
        case Callback(_, _) =>
        case SettleXse(_, _, _) =>
        case Rescue(_, _, _, _) =>
        case CancelTask(_, _, _, _) =>
      }
    case OnKey(call) => KeyFrame(s, call);
    case OnIntent(call) => IntentFrame(s, call);
    case OnFees(call) =>
  }
}
