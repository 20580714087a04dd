/** How a task ends: who is paid, how much, and that each scheduling is settled once. */
module SchedulerSettlement {
  import opened MapSums
  import opened SchedulerModel
  import opened SchedulerLedger
  import opened SchedulerTheorems

  // ---------- Settlement of a task ----------

  /** Who is paid, how much and why, whenever value leaves a task: the task is removed by that very
      step, the three parts add up to its deposit, refunds go to the recorded owner, and only a
      success rewards a keeper, within the cap. */
  ghost predicate SettledBy(s: State, op: Op, h: Hash, s': State, ms: seq<Move>) {
    && h in s.book.tasks && h !in s'.book.tasks
    && OutOf(ms, OfTask(h), Egld, Reward) + OutOf(ms, OfTask(h), Egld, Refund) + OutOf(ms, OfTask(h), Egld, Fee)
       == s.book.tasks[h].deposit
    && (forall i :: 0 <= i < |ms| && ms[i].why == Refund ==> ms[i].dst == Outside(s.book.tasks[h].owner))
    && op.OnTask?
    && (forall i :: 0 <= i < |ms| && ms[i].why == Reward ==> Succeeds(op.t) && ms[i].dst == Outside(WorkerOf(s, op.t)))
    && OutOf(ms, OfTask(h), Egld, Fee) == (if op.t.Rescue? then 0 else FeeOf(s.book.tasks[h].deposit, s.cfg.feeBps))
    && OutOf(ms, OfTask(h), Egld, Reward) == (if Succeeds(op.t) then RewardOf(s.book.tasks[h].deposit, s.cfg) else 0)
  }

  predicate Succeeds(call: TaskCall) { call.SettleXse? || (call.Callback? && call.ok) }

  /** The keeper who did the work: whoever dispatched the call, or whose enclave settles. */
  function WorkerOf(s: State, call: TaskCall): Address {
    match call
    case Callback(id, _) => if id in s.book.promises then s.book.promises[id].keeper else 0
    case SettleXse(c, _, _) => c
    case _ => 0
  }

  /** What fee and reward mean: the fee is the deposit's share in basis points, rounded down; the reward is
      all that is left, or the cap when one is set and it is less. */
  lemma RewardMeaning(deposit: nat, cfg: Config)
    ensures var fee, reward := FeeOf(deposit, cfg.feeBps), RewardOf(deposit, cfg);
            && fee * 10_000 <= deposit * cfg.feeBps < (fee + 1) * 10_000
            && reward + fee <= deposit
            && (cfg.maxReward > 0 ==> reward <= cfg.maxReward)
            && (reward + fee == deposit || reward == cfg.maxReward > 0)
  {
  }

  lemma OutShort(ms: seq<Move>, a: Account, tok: Token, w: Why)
    requires 1 <= |ms| <= 3
    ensures OutOf(ms, a, tok, w) == Outgoing(ms[0], a, tok, w) + (if |ms| > 1 then Outgoing(ms[1], a, tok, w) else 0)
                                    + (if |ms| > 2 then Outgoing(ms[2], a, tok, w) else 0)
  {
    if |ms| > 1 {
      OutShort(ms[1..], a, tok, w);
    }
  }

  function Outgoing(m: Move, a: Account, tok: Token, w: Why): nat {
    if m.src == a && m.token == tok && m.why == w then m.amount else 0
  }

  /** The parts of one settlement. */
  ghost predicate Parts(s: State, h: Hash, tx: Tx, worker: Address, reward: nat, fee: nat) {
    && tx.Done? && h in s.book.tasks && h !in tx.next.book.tasks
    && (forall k :: 0 <= k < |tx.moves| ==> tx.moves[k].src == OfTask(h))
    && (forall k :: 0 <= k < |tx.moves| && tx.moves[k].why == Refund ==>
                      tx.moves[k].dst == Outside(s.book.tasks[h].owner))
    && (forall k :: 0 <= k < |tx.moves| && tx.moves[k].why == Reward ==> tx.moves[k].dst == Outside(worker))
    && OutOf(tx.moves, OfTask(h), Egld, Reward) == reward && OutOf(tx.moves, OfTask(h), Egld, Fee) == fee
  }

  lemma SuccessParts(s: State, h: Hash, keeper: Address)
    requires h in s.book.tasks
    ensures Parts(s, h, FinalizeSuccess(s, h, keeper), keeper, RewardOf(s.book.tasks[h].deposit, s.cfg),
                  FeeOf(s.book.tasks[h].deposit, s.cfg.feeBps))
  {
    var ms := FinalizeSuccess(s, h, keeper).moves;
    OutShort(ms, OfTask(h), Egld, Reward);
    OutShort(ms, OfTask(h), Egld, Fee);
  }

  lemma ReturnParts(s: State, h: Hash, book: TaskBook, worker: Address)
    requires h in s.book.tasks && h !in book.tasks
    ensures Parts(s, h, ReturnLessFee(s, h, book), worker, 0, FeeOf(s.book.tasks[h].deposit, s.cfg.feeBps))
  {
    var ms := ReturnLessFee(s, h, book).moves;
    OutShort(ms, OfTask(h), Egld, Reward);
    OutShort(ms, OfTask(h), Egld, Fee);
  }

  lemma RescueParts(s: State, c: Address, h: Hash, now: nat, worker: Address)
    requires DoRescue(s, c, h, now).Done?
    ensures Parts(s, h, DoRescue(s, c, h, now), worker, 0, 0)
  {
    var ms := DoRescue(s, c, h, now).moves;
    OutShort(ms, OfTask(h), Egld, Reward);
    OutShort(ms, OfTask(h), Egld, Fee);
  }

  /** Every task call that pays out of a task settles exactly that task. */
  lemma TaskMoves(s: State, call: TaskCall, h: Hash, i: nat)
    requires DraftTask(s, call).Done? && i < |DraftTask(s, call).moves| && DraftTask(s, call).moves[i].src == OfTask(h)
    ensures h in s.book.tasks
    ensures Parts(s, h, DraftTask(s, call), WorkerOf(s, call),
                  if Succeeds(call) then RewardOf(s.book.tasks[h].deposit, s.cfg) else 0,
                  if call.Rescue? then 0 else FeeOf(s.book.tasks[h].deposit, s.cfg.feeBps))
  {
    match call
    case Schedule(_, _, _, _, _, _, _) => assert false;
    case Execute(_, _, _, _, _) => assert false;
    case Callback(id, ok) =>
      var p, s1 := s.book.promises[id], s.(book := s.book.(promises := s.book.promises - {id}));
      if p.h in s.book.tasks {
        SuccessParts(s1, p.h, p.keeper);
        ReturnParts(s1, p.h, CloseTask(s1.book, p.h), p.keeper);
      }
    case SettleXse(c, g, _) => SuccessParts(s, g, c);
    case Rescue(c, g, now, _) => RescueParts(s, c, g, now, 0);
    case CancelTask(_, g, _, _) => ReturnParts(s, g, DropTask(s.book, g), 0);
  }

  lemma OnlyTaskCallsPay(s: State, op: Op, h: Hash, i: nat)
    requires i < |MovesOf(s, op)| && MovesOf(s, op)[i].src == OfTask(h)
    ensures op.OnTask? && DraftTask(s, op.t).Done? && MovesOf(s, op) == DraftTask(s, op.t).moves
  {
    Outcome(s, op);
  }

  lemma SettlementExact(s: State, op: Op, h: Hash, i: nat)
    requires Inv(s) && i < |MovesOf(s, op)| && MovesOf(s, op)[i].src == OfTask(h)
    ensures SettledBy(s, op, h, After(s, op), MovesOf(s, op))
  {
    OnlyTaskCallsPay(s, op, h, i);
    TaskMoves(s, op.t, h, i);
    Outcome(s, op);
    SettlementSum(s, op, h, MovesOf(s, op));
  }

  lemma SettlementSum(s: State, op: Op, h: Hash, ms: seq<Move>)
    requires Inv(s) && ms == MovesOf(s, op) && h in s.book.tasks && h !in After(s, op).book.tasks
    requires forall i :: 0 <= i < |ms| ==> ms[i].src.OfTask?
    ensures OutOf(ms, OfTask(h), Egld, Reward) + OutOf(ms, OfTask(h), Egld, Refund) + OutOf(ms, OfTask(h), Egld, Fee)
            == s.book.tasks[h].deposit
  {
    LegalStep(s, op);
    LedgerStep(s, op, OfTask(h), Egld);
    FlowByPurpose(ms, OfTask(h), Egld);
    NothingIn(ms, OfTask(h));
  }

  /** A posting list that pays out of a task pays nothing into one. */
  lemma {:induction false} NothingIn(ms: seq<Move>, a: Account)
    requires a.OfTask? && forall i :: 0 <= i < |ms| ==> ms[i].src.OfTask?
    requires AllLegal(ms)
    ensures Into(ms, a, Egld, Deposit) == 0 && Into(ms, a, Egld, Charge) == 0
    decreases |ms|
  {
    if ms != [] {
      assert Legal(ms[0]);
      NothingIn(ms[1..], a);
    }
  }

  lemma TaskFixedCall(s: State, call: TaskCall, h: Hash)
    requires DraftTask(s, call).Done? && h in s.book.tasks
    ensures var b := DraftTask(s, call).next.book;
            h in b.tasks ==> b.tasks[h].owner == s.book.tasks[h].owner && b.tasks[h].deposit == s.book.tasks[h].deposit
  {
    match call
    case Schedule(_, _, _, _, _, _, _) =>
    case Execute(_, _, _, _, _) =>
    case Callback(_, _) =>
    case SettleXse(_, _, _) =>
    case Rescue(_, _, _, _) =>
    case CancelTask(_, _, _, _) =>
  }

  /** While a task is live its owner and deposit never change. */
  lemma TaskFixedStep(s: State, op: Op, h: Hash)
    requires h in s.book.tasks && h in After(s, op).book.tasks
    ensures After(s, op).book.tasks[h].owner == s.book.tasks[h].owner
    ensures After(s, op).book.tasks[h].deposit == s.book.tasks[h].deposit
  {
    Outcome(s, op);
    match op
    case OnTask(call) => if DraftTask(s, call).Done? { TaskFixedCall(s, call, h); }
    case OnKey(call) => KeyFrame(s, call);
    case OnIntent(call) => IntentFrame(s, call);
    case OnFees(call) => FeesFrame(s, call);
  }

  /** The task lives through every step of the run. */
  ghost predicate LivesThrough(s: State, ops: seq<Op>, h: Hash)
    decreases |ops|
  {
    h in s.book.tasks && (ops == [] || LivesThrough(After(s, ops[0]), ops[1..], h))
  }

  lemma {:induction false} TaskFixedRun(s: State, ops: seq<Op>, h: Hash)
    requires LivesThrough(s, ops, h)
    ensures h in Run(s, ops).book.tasks
    ensures Run(s, ops).book.tasks[h].owner == s.book.tasks[h].owner
    ensures Run(s, ops).book.tasks[h].deposit == s.book.tasks[h].deposit
    decreases |ops|
  {
    if ops != [] {
      assert h in After(s, ops[0]).book.tasks;
      TaskFixedStep(s, ops[0], h);
      TaskFixedRun(After(s, ops[0]), ops[1..], h);
    }
  }

  /** A task scheduled by a live clone key is paid back to the main wallet that authorized the key,
      however long it lives and however it ends: never to the clone. */
  lemma CloneRefundsToMain(s: State, call: TaskCall, ops: seq<Op>, last: Op, i: nat)
    requires Inv(s) && call.Schedule? && Resolve(s.keys, call.caller, call.now).1 && Step(s, OnTask(call)).Done?
    requires var s1 := After(s, OnTask(call));
             LivesThrough(s1, ops, call.h)
             && i < |MovesOf(Run(s1, ops), last)| && MovesOf(Run(s1, ops), last)[i].src == OfTask(call.h)
             && MovesOf(Run(s1, ops), last)[i].why == Refund
    ensures MovesOf(Run(After(s, OnTask(call)), ops), last)[i].dst == Outside(s.keys.props[call.caller].main)
  {
    var s1 := After(s, OnTask(call));
    InvStep(s, OnTask(call));
    SolvencyRun(s1, ops, Egld);
    TaskFixedRun(s1, ops, call.h);
    SettlementExact(Run(s1, ops), last, call.h, i);
    assert s1.book.tasks[call.h].owner == s.keys.props[call.caller].main;
  }

  // ---------- Once per scheduling ----------

  /** The step pays out of task `h`. */
  ghost predicate PaysFrom(s: State, op: Op, h: Hash) {
    exists i :: 0 <= i < |MovesOf(s, op)| && MovesOf(s, op)[i].src == OfTask(h)
  }

  /** The step is an accepted scheduling of `h`. */
  predicate Schedules(s: State, op: Op, h: Hash) {
    op.OnTask? && op.t.Schedule? && op.t.h == h && Step(s, op).Done?
  }

  /** A task call that makes a task disappear pays it out. */
  lemma GonePays(s: State, call: TaskCall, h: Hash)
    requires DraftTask(s, call).Done? && h in s.book.tasks && h !in DraftTask(s, call).next.book.tasks
    ensures |DraftTask(s, call).moves| > 0 && DraftTask(s, call).moves[0].src == OfTask(h)
  {
    match call
    case Schedule(_, _, _, _, _, _, _) =>
    case Execute(_, _, _, _, _) =>
    case Callback(_, _) =>
    case SettleXse(_, _, _) =>
    case Rescue(_, _, _, _) =>
    case CancelTask(_, _, _, _) =>
  }

  /** A task call that makes a task appear is its scheduling, and scheduling needs the hash to be free. */
  lemma AppearsScheduled(s: State, call: TaskCall, h: Hash)
    requires DraftTask(s, call).Done?
    ensures h !in s.book.tasks && h in DraftTask(s, call).next.book.tasks <==> call.Schedule? && call.h == h
  {
    match call
    case Schedule(_, _, _, _, _, _, _) =>
    case Execute(_, _, _, _, _) =>
    case Callback(_, _) =>
    case SettleXse(_, _, _) =>
    case Rescue(_, _, _, _) =>
    case CancelTask(_, _, _, _) =>
  }

  /** The life of a hash, exactly: it becomes live by being scheduled and ceases by being paid out. */
  lemma LifeStep(s: State, op: Op, h: Hash)
    ensures Schedules(s, op, h) <==> h !in s.book.tasks && h in After(s, op).book.tasks
    ensures PaysFrom(s, op, h) <==> h in s.book.tasks && h !in After(s, op).book.tasks
  {
    Outcome(s, op);
    match op
    case OnTask(call) =>
      if Step(s, op).Done? {
        AppearsScheduled(s, call, h);
        PaysExactly(s, call, h);
      }
    case OnKey(call) =>
      KeyFrame(s, call);
      NoTaskSource(s, op, h);
    case OnIntent(call) =>
      IntentFrame(s, call);
      NoTaskSource(s, op, h);
    case OnFees(call) =>
      FeesFrame(s, call);
      NoTaskSource(s, op, h);
  }

  lemma PaysExactly(s: State, call: TaskCall, h: Hash)
    requires Step(s, OnTask(call)).Done?
    ensures PaysFrom(s, OnTask(call), h) <==> h in s.book.tasks && h !in After(s, OnTask(call)).book.tasks
  {
    Outcome(s, OnTask(call));
    if PaysFrom(s, OnTask(call), h) {
      var i :| 0 <= i < |MovesOf(s, OnTask(call))| && MovesOf(s, OnTask(call))[i].src == OfTask(h);
      TaskMoves(s, call, h, i);
    }
    if h in s.book.tasks && h !in After(s, OnTask(call)).book.tasks {
      GonePays(s, call, h);
    }
  }

  lemma NoTaskSource(s: State, op: Op, h: Hash)
    requires !op.OnTask?
    ensures !PaysFrom(s, op, h)
  {
    if PaysFrom(s, op, h) {
      var i :| 0 <= i < |MovesOf(s, op)| && MovesOf(s, op)[i].src == OfTask(h);
      OnlyTaskCallsPay(s, op, h, i);
    }
  }

  ghost function Settlements(s: State, ops: seq<Op>, h: Hash): nat
    decreases |ops|
  {
    if ops == [] then 0 else (if PaysFrom(s, ops[0], h) then 1 else 0) + Settlements(After(s, ops[0]), ops[1..], h)
  }

  function Schedulings(s: State, ops: seq<Op>, h: Hash): nat
    decreases |ops|
  {
    if ops == [] then 0 else (if Schedules(s, ops[0], h) then 1 else 0) + Schedulings(After(s, ops[0]), ops[1..], h)
  }

  /** Over any run, whatever the interleaving: as many settlements as schedulings, but for the one that may
      be live at either end. */
  lemma {:induction false} SettlementsCounted(s: State, ops: seq<Op>, h: Hash)
    ensures Settlements(s, ops, h) + (if h in Run(s, ops).book.tasks then 1 else 0) ==
            Schedulings(s, ops, h) + (if h in s.book.tasks then 1 else 0)
    decreases |ops|
  {
    if ops != [] {
      LifeStep(s, ops[0], h);
      SettlementsCounted(After(s, ops[0]), ops[1..], h);
    }
  }

  /** An absent hash stays absent as long as it is not scheduled. */
  lemma {:induction false} AbsentUntilScheduled(s: State, ops: seq<Op>, h: Hash, k: nat, m: nat)
    requires k <= m <= |ops| && h !in Run(s, ops[..k]).book.tasks
    requires forall j :: k <= j < m ==> !Schedules(Run(s, ops[..j]), ops[j], h)
    ensures h !in Run(s, ops[..m]).book.tasks
    decreases m
  {
    if k < m {
      AbsentUntilScheduled(s, ops, h, k, m - 1);
      RunPrefix(s, ops, m - 1);
      LifeStep(Run(s, ops[..m - 1]), ops[m - 1], h);
    }
  }

  /** Each scheduling is settled at most once: between two steps of a run that pay out of the same task hash,
      that hash was scheduled again. */
  lemma SettledOncePerScheduling(s: State, ops: seq<Op>, h: Hash, k: nat, m: nat)
    requires k < m < |ops|
    requires PaysFrom(Run(s, ops[..k]), ops[k], h) && PaysFrom(Run(s, ops[..m]), ops[m], h)
    ensures exists j :: k < j < m && Schedules(Run(s, ops[..j]), ops[j], h)
  {
    LifeStep(Run(s, ops[..k]), ops[k], h);
    RunPrefix(s, ops, k);
    LifeStep(Run(s, ops[..m]), ops[m], h);
    if forall j :: k < j < m ==> !Schedules(Run(s, ops[..j]), ops[j], h) {
      AbsentUntilScheduled(s, ops, h, k + 1, m);
    }
  }
}
