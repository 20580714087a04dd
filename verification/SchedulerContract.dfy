/** The scheduler contract: storage maps, indexes and counters updated in place by its endpoints.
    Each endpoint is proved to perform the corresponding operation of `SchedulerModel`. */
module SchedulerContract {
  import opened MapSums
  import opened SchedulerModel
  import opened SchedulerLedger
  import opened SchedulerTheorems
  import opened SchedulerCallbacks
  import M = Merkle

  class Scheduler {
    var funds: map<Token, nat>
    var book: TaskBook
    var keys: KeyBook
    var intents: IntentBook
    var fees: nat
    var cfg: Config
    const codec: Codec

    ghost function Abs(): State
      reads this
    {
      State(funds, book, keys, intents, fees, cfg, codec)
    }

    constructor (admin: Address, minDeposit: nat, feeBps: Bps, maxReward: nat, maxPerRound: nat, codec: Codec)
      ensures Inv(Abs()) && PromisesLive(Abs().book)
      ensures forall tok :: Slack(Abs(), tok) == 0
    {
      funds, fees := map[], 0;
      book := TaskBook(map[], map[], map[], map[], 0, map[]);
      keys, intents := KeyBook(map[], map[]), IntentBook(map[], map[]);
      cfg := Config(admin, feeBps, maxReward, minDeposit, 0, maxPerRound);
      this.codec := codec;
      new;
      forall tok ensures Slack(Abs(), tok) == 0 {}
    }

    /** Carries out a transaction's transfers one by one. A transfer the balance cannot cover fails the
        transaction, which is rolled back as a whole; endpoints therefore try the transfers before
        they touch the rest of storage. */
    method Transfer(moves: seq<Move>) returns (ok: bool)
      modifies this`funds
      ensures ok == Book(old(funds), moves).Some?
      ensures funds == if ok then Book(old(funds), moves).value else old(funds)
    {
      var before := funds;
      for i := 0 to |moves|
        invariant Book(before, moves) == Book(funds, moves[i..])
      {
        var m := moves[i];
        assert moves[i..][1..] == moves[i + 1..];
        var balance := Get(funds, m.token);
        if External(m.src) {
          balance := balance + m.amount;
        }
        if External(m.dst) {
          if balance < m.amount {
            funds := before;
            return false;
          }
          balance := balance - m.amount;
        }
        funds := funds[m.token := balance];
      }
      ok := true;
    }

    /** The effective owner of a call and whether a live clone key is speaking. */
    method ResolveCaller(caller: Address, now: nat) returns (owner: Address, isKey: bool)
      ensures (owner, isKey) == Resolve(Abs().keys, caller, now)
    {
      if caller !in keys.props { return caller, false; }
      if now >= keys.props[caller].expiry { return caller, false; }
      return keys.props[caller].main, true;
    }

    // ---------- Tasks ----------

    /** Spends part of a clone key's budget, unless the key has expired or the budget is too small. */
    method ChargeCloneKey(clone: Address, amount: nat, now: nat) returns (ok: bool)
      modifies this`keys
      ensures ok == (clone in old(keys).props && now < old(keys).props[clone].expiry
                     && CanCharge(old(keys).props[clone], amount))
      ensures keys == if ok then ChargeKey(old(keys), clone, amount) else old(keys)
    {
      if clone !in keys.props || now >= keys.props[clone].expiry { return false; }
      var props := keys.props[clone];
      var newSpent := props.spent + amount;
      if newSpent > props.limit { return false; }
      keys := keys.(props := keys.props[clone := props.(spent := newSpent)]);
      return true;
    }

    method StoreTask(h: Hash, owner: Address, deposit: nat)
      modifies this`book
      ensures book == AddTask(old(book), h, owner, deposit)
    {
      book := book.(tasks := book.tasks[h := Task(owner, deposit, Pending, 0)]);
      book := book.(owners := book.owners[owner := SetAt(book.owners, owner) + {h}]);
    }

    method RemoveTask(h: Hash)
      requires h in book.tasks
      modifies this`book
      ensures book == DropTask(old(book), h)
    {
      var owner := book.tasks[h].owner;
      book := book.(tasks := book.tasks - {h});
      book := book.(owners := book.owners[owner := SetAt(book.owners, owner) - {h}]);
    }

    /** `scheduleQuantumTask`, and `scheduleSovereignTask` in the sovereign lane. */
    method ScheduleTask(caller: Address, h: Hash, attached: nat, requested: Option<nat>, lane: Lane, now: nat,
                        admitted: bool) returns (ok: bool, moves: seq<Move>)
      modifies this
      ensures Performs(old(Abs()), OnTask(Schedule(caller, h, attached, requested, lane, now, admitted)),
                       Abs(), ok, moves)
    {
      if !admitted { return false, []; }
      var before := keys;
      var owner, isKey := ResolveCaller(caller, now);
      var deposit := attached;
      if isKey {
        if attached != 0 || requested.None? { return false, []; }
        deposit := requested.value;
        var charged := ChargeCloneKey(caller, deposit, now);
        if !charged { return false, []; }
      }
      ok, moves := PlaceTask(caller, h, owner, deposit, isKey, lane);
      if !ok {
        keys := before;
      }
    }

    /** The part of scheduling that both kinds of caller share: checks, transfer, storage. */
    method PlaceTask(caller: Address, h: Hash, owner: Address, deposit: nat, isKey: bool, lane: Lane)
      returns (ok: bool, moves: seq<Move>)
      modifies this`funds, this`book
      ensures var move := if isKey then Move(Egld, OfKey(caller), OfTask(h), deposit, Charge)
                          else Move(Egld, Outside(caller), OfTask(h), deposit, Deposit);
              && ok == (&& DepositAllowed(cfg, deposit) && h !in old(book).tasks
                        && RoomFor(old(Abs()), owner, lane)
                        && Book(old(funds), [move]).Some?)
              && book == (if ok then AddTask(Counted(old(book), owner, lane), h, owner, deposit) else old(book))
              && funds == (if ok then Book(old(funds), [move]).value else old(funds))
              && moves == if ok then [move] else []
    {
      if deposit < cfg.minDeposit || (cfg.maxDeposit > 0 && deposit > cfg.maxDeposit) { return false, []; }
      if h in book.tasks { return false, []; }
      var room := WithinRateLimits(owner, lane);
      if !room { return false, []; }
      moves := [if isKey then Move(Egld, OfKey(caller), OfTask(h), deposit, Charge)
                else Move(Egld, Outside(caller), OfTask(h), deposit, Deposit)];
      ok := Transfer(moves);
      if !ok { return false, []; }
      if lane.Quantum? {
        var thisRound := Get(book.perRound, (owner, lane.round));
        book := book.(perRound := book.perRound[(owner, lane.round) := thisRound + 1]);
      }
      StoreTask(h, owner, deposit);
    }

    /** The tests of `enforce_rate_limits`, which only ordinary tasks undergo. */
    method WithinRateLimits(owner: Address, lane: Lane) returns (room: bool)
      ensures room == RoomFor(Abs(), owner, lane)
    {
      if lane.Sovereign? { return true; }
      if |SetAt(book.owners, owner)| >= MAX_ACTIVE_TASKS { return false; }
      if cfg.maxPerRound > 0 && Get(book.perRound, (owner, lane.round)) >= cfg.maxPerRound { return false; }
      return true;
    }

    method ExecuteTask(keeper: Address, h: Hash, confidential: bool, now: nat, admitted: bool) returns (ok: bool)
      modifies this
      ensures Performs(old(Abs()), OnTask(Execute(keeper, h, confidential, now, admitted)), Abs(), ok, [])
    {
      if !admitted || h !in book.tasks || book.tasks[h].status != Pending { return false; }
      if confidential {
        book := book.(enclave := book.enclave[h := keeper]);
      }
      book := book.(tasks := book.tasks[h := book.tasks[h].(status := Executing, executingAt := now)]);
      if !confidential {
        book := book.(promises := book.promises[book.nextPromise := Promise(h, keeper)],
                      nextPromise := book.nextPromise + 1);
      }
      return true;
    }

    /** Removes a settled task from storage and from its owner's index. */
    method ClearTask(h: Hash)
      requires h in book.tasks
      modifies this`book
      ensures book == CloseTask(old(book), h)
    {
      RemoveTask(h);
      book := book.(enclave := book.enclave - {h});
    }

    method FinalizeSuccessful(h: Hash, keeper: Address) returns (ok: bool, moves: seq<Move>)
      requires h in book.tasks
      modifies this
      ensures ok == Commit(old(Abs()), FinalizeSuccess(old(Abs()), h, keeper)).Done?
      ensures ok ==> Commit(old(Abs()), FinalizeSuccess(old(Abs()), h, keeper)) == Done(Abs(), moves)
      ensures !ok ==> Abs() == old(Abs()) && moves == []
    {
      var deposit, owner := book.tasks[h].deposit, book.tasks[h].owner;
      var protocolFee := FeeOf(deposit, cfg.feeBps);
      var reward := if deposit > protocolFee then deposit - protocolFee else 0;
      if cfg.maxReward > 0 && reward > cfg.maxReward {
        reward := cfg.maxReward;
      }
      var refund := 0;
      if deposit > reward + protocolFee {
        refund := deposit - (reward + protocolFee);
      }
      moves := [Move(Egld, OfTask(h), Outside(keeper), reward, Reward),
                Move(Egld, OfTask(h), Outside(owner), refund, Refund),
                Move(Egld, OfTask(h), FeePot, protocolFee, Fee)];
      ok := Transfer(moves);
      if !ok { return false, []; }
      ClearTask(h);
      fees := fees + protocolFee;
    }

    method FinalizeFailed(h: Hash) returns (ok: bool, moves: seq<Move>)
      requires h in book.tasks
      modifies this
      ensures var tx := Commit(old(Abs()), ReturnLessFee(old(Abs()), h, CloseTask(old(Abs()).book, h)));
              && ok == tx.Done?
              && (ok ==> tx == Done(Abs(), moves))
              && (!ok ==> Abs() == old(Abs()) && moves == [])
    {
      var deposit, owner := book.tasks[h].deposit, book.tasks[h].owner;
      var protocolFee := FeeOf(deposit, cfg.feeBps);
      var refund := if deposit > protocolFee then deposit - protocolFee else 0;
      moves := [Move(Egld, OfTask(h), Outside(owner), refund, Refund), Move(Egld, OfTask(h), FeePot, protocolFee, Fee)];
      ok := Transfer(moves);
      if !ok { return false, []; }
      ClearTask(h);
      fees := fees + protocolFee;
    }

    /** A failed callback is rolled back like any other transaction. */
    method ExecutionCallback(id: nat, succeeded: bool) returns (ok: bool, moves: seq<Move>)
      requires id in book.promises
      modifies this
      ensures Performs(old(Abs()), OnTask(Callback(id, succeeded)), Abs(), ok, moves)
    {
      var p, before := book.promises[id], book;
      book := book.(promises := book.promises - {id});
      if p.h !in book.tasks {
        return true, [];
      } else if succeeded {
        ok, moves := FinalizeSuccessful(p.h, p.keeper);
      } else {
        ok, moves := FinalizeFailed(p.h);
      }
      if !ok {
        book := before;
      }
    }

    method SettleXseTask(caller: Address, h: Hash, admitted: bool) returns (ok: bool, moves: seq<Move>)
      modifies this
      ensures Performs(old(Abs()), OnTask(SettleXse(caller, h, admitted)), Abs(), ok, moves)
    {
      if !admitted || h !in book.enclave || book.enclave[h] != caller { return false, []; }
      if h !in book.tasks || book.tasks[h].status != Executing { return false, []; }
      ok, moves := FinalizeSuccessful(h, caller);
    }

    method RescueStuckTask(caller: Address, h: Hash, now: nat, admitted: bool) returns (ok: bool, moves: seq<Move>)
      modifies this
      ensures Performs(old(Abs()), OnTask(Rescue(caller, h, now, admitted)), Abs(), ok, moves)
    {
      if !admitted || h !in book.tasks || book.tasks[h].status != Executing { return false, []; }
      if now < book.tasks[h].executingAt + STUCK_SECONDS { return false, []; }
      if caller != book.tasks[h].owner && caller != cfg.admin { return false, []; }
      moves := [Move(Egld, OfTask(h), Outside(book.tasks[h].owner), book.tasks[h].deposit, Refund)];
      ok := Transfer(moves);
      if !ok { return false, []; }
      ClearTask(h);
    }

    method CancelQuantumTask(caller: Address, h: Hash, now: nat, admitted: bool) returns (ok: bool, moves: seq<Move>)
      modifies this
      ensures Performs(old(Abs()), OnTask(CancelTask(caller, h, now, admitted)), Abs(), ok, moves)
    {
      if !admitted || h !in book.tasks { return false, []; }
      var owner, _ := ResolveCaller(caller, now);
      if book.tasks[h].owner != owner || book.tasks[h].status != Pending { return false, []; }
      var penalty := FeeOf(book.tasks[h].deposit, cfg.feeBps);
      var refund := if book.tasks[h].deposit > penalty then book.tasks[h].deposit - penalty else 0;
      moves := [Move(Egld, OfTask(h), Outside(owner), refund, Refund), Move(Egld, OfTask(h), FeePot, penalty, Fee)];
      ok := Transfer(moves);
      if !ok { return false, []; }
      RemoveTask(h);
      fees := fees + penalty;
    }

    // ---------- Clone keys ----------

    method AuthorizeCloneKey(caller: Address, clone: Address, attached: nat, ttl: nat, now: nat, admitted: bool)
      returns (ok: bool, moves: seq<Move>)
      modifies this
      ensures Performs(old(Abs()), OnKey(AuthorizeKey(caller, clone, attached, ttl, now, admitted)), Abs(), ok, moves)
    {
      if !admitted || attached == 0 || attached > MAX_KEY_LIMIT { return false, []; }
      if ttl < MIN_KEY_TTL || ttl > MAX_KEY_TTL || clone == caller { return false, []; }
      if clone in keys.props || |SetAt(keys.ofWallet, caller)| >= MAX_KEYS_PER_WALLET { return false, []; }
      moves := [Move(Egld, Outside(caller), OfKey(clone), attached, Deposit)];
      ok := Transfer(moves);
      if !ok { return false, []; }
      keys := keys.(props := keys.props[clone := CloneKey(caller, attached, 0, now + ttl)]);
      keys := keys.(ofWallet := keys.ofWallet[caller := SetAt(keys.ofWallet, caller) + {clone}]);
    }

    method FundCloneKey(caller: Address, clone: Address, attached: nat, now: nat, admitted: bool)
      returns (ok: bool, moves: seq<Move>)
      modifies this
      ensures Performs(old(Abs()), OnKey(FundKey(caller, clone, attached, now, admitted)), Abs(), ok, moves)
    {
      if !admitted || attached == 0 || clone !in keys.props || keys.props[clone].main != caller { return false, []; }
      var props := keys.props[clone];
      if now >= props.expiry || props.limit + attached > MAX_KEY_LIMIT { return false, []; }
      moves := [Move(Egld, Outside(caller), OfKey(clone), attached, Deposit)];
      ok := Transfer(moves);
      if !ok { return false, []; }
      keys := keys.(props := keys.props[clone := props.(limit := props.limit + attached)]);
    }

    method RevokeCloneKey(caller: Address, clone: Address) returns (ok: bool, moves: seq<Move>)
      modifies this
      ensures Performs(old(Abs()), OnKey(RevokeKey(caller, clone)), Abs(), ok, moves)
    {
      if clone !in keys.props || keys.props[clone].main != caller { return false, []; }
      var props := keys.props[clone];
      var refund := if props.limit > props.spent then props.limit - props.spent else 0;
      moves := [Move(Egld, OfKey(clone), Outside(caller), refund, Refund)];
      ok := Transfer(moves);
      if !ok { return false, []; }
      keys := keys.(props := keys.props - {clone});
      keys := keys.(ofWallet := keys.ofWallet[caller := SetAt(keys.ofWallet, caller) - {clone}]);
    }

    // ---------- Intents ----------

    /** The pairwise test that a multi-intent names no token twice. */
    static method DistinctTokens(wants: seq<Want>) returns (ok: bool)
      ensures ok <==> forall i, j :: 0 <= i < j < |wants| ==> wants[i].token != wants[j].token
    {
      for i := 0 to |wants|
        invariant forall k, j :: 0 <= k < i && k < j < |wants| ==> wants[k].token != wants[j].token
      {
        for j := i + 1 to |wants|
          invariant forall k :: i < k < j ==> wants[i].token != wants[k].token
        {
          if wants[i].token == wants[j].token { return false; }
        }
      }
      return true;
    }

    method CreateAnyIntent(caller: Address, terms: Terms, tokenIn: nat, amountIn: nat, attached: nat, fee: nat,
                           deadline: nat, now: nat, admitted: bool) returns (ok: bool, moves: seq<Move>)
      modifies this
      ensures var call := CreateIntent(caller, terms, tokenIn, amountIn, attached, fee, deadline, now, admitted);
              Performs(old(Abs()), OnIntent(call), Abs(), ok, moves)
    {
      if !admitted || attached != fee { return false, []; }
      if terms.Multi? {
        var distinct := DistinctTokens(terms.wants);
        if |terms.wants| == 0 || |terms.wants| > MAX_OUTCOMES || !distinct { return false, []; }
      } else if amountIn == 0 {
        return false, [];
      }
      if deadline >= MAX_DEADLINE || deadline <= now { return false, []; }
      var n := Get(intents.nonces, KindOf(terms)) + 1;
      var id := IntentId(KindOf(terms), n);
      moves := [Move(Egld, Outside(caller), OfIntent(id), fee, Deposit),
                Move(Esdt(tokenIn), Outside(caller), OfIntent(id), amountIn, Deposit)];
      ok := Transfer(moves);
      if !ok { return false, []; }
      intents := intents.(nonces := intents.nonces[id.kind := n]);
      intents := intents.(byId := intents.byId[id := Intent(caller, tokenIn, amountIn, terms, deadline, fee, Open)]);
    }

    method CancelAnyIntent(caller: Address, id: IntentId) returns (ok: bool, moves: seq<Move>)
      modifies this
      ensures Performs(old(Abs()), OnIntent(CancelIntent(caller, id)), Abs(), ok, moves)
    {
      if id !in intents.byId { return false, []; }
      var intent := intents.byId[id];
      if intent.owner != caller || intent.status != Open { return false, []; }
      moves := [Move(Esdt(intent.tokenIn), OfIntent(id), Outside(caller), intent.amountIn, Refund),
                Move(Egld, OfIntent(id), Outside(caller), intent.fee, Refund)];
      ok := Transfer(moves);
      if !ok { return false, []; }
      intents := intents.(byId := intents.byId[id := intent.(status := Cancelled)]);
    }

    /** Checks the attached payments against the wanted tokens, in order. */
    static method PaymentsMeet(payments: seq<Payment>, wants: seq<Want>) returns (ok: bool)
      ensures ok == Meets(payments, wants)
    {
      if |payments| != |wants| { return false; }
      for i := 0 to |wants|
        invariant forall k :: 0 <= k < i ==>
                    payments[k].token == wants[k].token && payments[k].amount >= wants[k].minReturn
      {
        if payments[i].token != wants[i].token || payments[i].amount < wants[i].minReturn { return false; }
      }
      return true;
    }

    method SolveAnyIntent(caller: Address, id: IntentId, payments: seq<Payment>, opening: Option<Opening>, now: nat,
                          admitted: bool) returns (ok: bool, moves: seq<Move>)
      modifies this
      ensures Performs(old(Abs()), OnIntent(SolveIntent(caller, id, payments, opening, now, admitted)),
                       Abs(), ok, moves)
    {
      if !admitted || id !in intents.byId { return false, []; }
      var intent := intents.byId[id];
      if intent.status != Open || now > intent.deadline { return false, []; }
      if intent.terms.Tree? {
        if opening.None? { return false, []; }
        var encoded := codec.encode(opening.value.leaf);
        var accepted := M.VerifyMerkleProof(codec.hash, codec.hash(encoded), opening.value.proof, intent.terms.root);
        if !accepted { return false, []; }
      }
      var met := PaymentsMeet(payments, WantsOf(intent.terms, opening));
      if !met { return false, []; }
      moves := Deliveries(payments, caller, intent.owner) +
               [Move(Esdt(intent.tokenIn), OfIntent(id), Outside(caller), intent.amountIn, Bounty),
                Move(Egld, OfIntent(id), Outside(caller), intent.fee, Bounty)];
      ok := Transfer(moves);
      if !ok { return false, []; }
      intents := intents.(byId := intents.byId[id := intent.(status := Settled(caller))]);
    }

    // ---------- Fees ----------

    method FlushProtocolFees(delivered: bool, admitted: bool) returns (ok: bool, moves: seq<Move>)
      modifies this
      ensures Performs(old(Abs()), OnFees(Flush(delivered, admitted)), Abs(), ok, moves)
    {
      if !admitted || fees == 0 { return false, []; }
      var accrued := fees;
      moves := [Move(Egld, FeePot, if delivered then RewardsContract else Unassigned, accrued, Flushed)];
      ok := Transfer(moves);
      if !ok { return false, []; }
      fees := 0;
    }

    method SetProtocolFeeBps(value: nat) returns (ok: bool)
      modifies this`cfg
      ensures Performs(old(Abs()), OnFees(SetFeeBps(value)), Abs(), ok, [])
    {
      if value > BPS { return false; }
      cfg := cfg.(feeBps := value);
      return true;
    }
  }
}
