/** From the dispatch of a task to its settlement: who may settle it, who is paid, and since when it runs. */
module SchedulerDispatch {
  import opened MapSums
  import opened SchedulerModel
  import opened SchedulerLedger
  import opened SchedulerTheorems
  import opened SchedulerSettlement
  import opened SchedulerCallbacks

  /** The task executes, and has since `t`. */
  predicate ExecutingSince(b: TaskBook, h: Hash, t: nat) {
    h in b.tasks && b.tasks[h].status == Executing && b.tasks[h].executingAt == t
  }

  /** What one step leaves of an execution, unless it ends the task. */
  lemma ExecutionKeptCall(s: State, call: TaskCall, h: Hash, t: nat)
    requires ExecutingSince(s.book, h, t) && DraftTask(s, call).Done?
    ensures var b := DraftTask(s, call).next.book;
            h in b.tasks ==>
              && ExecutingSince(b, h, t)
              && (h in b.enclave <==> h in s.book.enclave)
              && (h in b.enclave ==> b.enclave[h] == s.book.enclave[h])
  {
    match call
    case Schedule(_, _, _, _, _, _, _) =>
    case Execute(_, _, _, _, _) =>
    case Callback(_, _) =>
    case SettleXse(_, _, _) =>
    case Rescue(_, _, _, _) =>
    case CancelTask(_, _, _, _) =>
  }

  lemma ExecutionKeptStep(s: State, op: Op, h: Hash, t: nat)
    requires ExecutingSince(s.book, h, t) && h in After(s, op).book.tasks
    ensures var b := After(s, op).book;
            && ExecutingSince(b, h, t)
            && (h in b.enclave <==> h in s.book.enclave)
            && (h in b.enclave ==> b.enclave[h] == s.book.enclave[h])
  {
    Outcome(s, op);
    match op
    case OnTask(call) => if Step(s, op).Done? { ExecutionKeptCall(s, call, h, t); }
    case OnKey(call) => KeyFrame(s, call);
    case OnIntent(call) => IntentFrame(s, call);
    case OnFees(call) => FeesFrame(s, call);
  }

  lemma {:induction false} ExecutionKept(s: State, ops: seq<Op>, h: Hash, t: nat)
    requires ExecutingSince(s.book, h, t) && LivesThrough(s, ops, h)
    ensures var b := Run(s, ops).book;
            && ExecutingSince(b, h, t)
            && (h in b.enclave <==> h in s.book.enclave)
            && (h in b.enclave ==> b.enclave[h] == s.book.enclave[h])
    decreases |ops|
  {
    if ops != [] {
      assert h in After(s, ops[0]).book.tasks;
      ExecutionKeptStep(s, ops[0], h, t);
      ExecutionKept(After(s, ops[0]), ops[1..], h, t);
    }
  }

  // ---------- Dispatch ----------

  /** Exactly a pending task can be executed; then it executes, from that moment. */
  lemma ExecuteIff(s: State, k: Address, h: Hash, confidential: bool, now: nat)
    requires Inv(s)
    ensures var op := OnTask(Execute(k, h, confidential, now, true));
            && (Step(s, op).Done? <==> h in s.book.tasks && s.book.tasks[h].status == Pending)
            && (Step(s, op).Done? ==> ExecutingSince(After(s, op).book, h, now) && Inv(After(s, op)))
  {
    NeverShort(s, OnTask(Execute(k, h, confidential, now, true)));
    InvStep(s, OnTask(Execute(k, h, confidential, now, true)));
  }

  /** An ordinary dispatch puts exactly one new call in flight. */
  lemma DispatchPromises(s: State, k: Address, h: Hash, now: nat, id: nat)
    requires Inv(s) && Step(s, OnTask(Execute(k, h, false, now, true))).Done?
    ensures var b := After(s, OnTask(Execute(k, h, false, now, true))).book;
            && (id in b.promises && id !in s.book.promises <==> id == s.book.nextPromise)
            && (id in b.promises && id !in s.book.promises ==> b.promises[id] == Promise(h, k) && id < b.nextPromise)
  {
  }

  /** Whoever executes a task is paid for it: while the task lives, whatever else happens, the answer of the call
      that the execution put in flight settles it. On success the reward of its deposit goes to the executing
      keeper and nobody else; the rest goes to the owner. */
  lemma ExecutorPaid(s: State, k: Address, h: Hash, now: nat, ops: seq<Op>, id: nat, ok: bool)
    requires Inv(s) && Step(s, OnTask(Execute(k, h, false, now, true))).Done?
    requires var s1 := After(s, OnTask(Execute(k, h, false, now, true)));
             id in s1.book.promises && id !in s.book.promises && Unanswered(ops, id) && LivesThrough(s1, ops, h)
    ensures h in s.book.tasks
    ensures var e := Run(After(s, OnTask(Execute(k, h, false, now, true))), ops);
            var op, t := OnTask(Callback(id, ok)), s.book.tasks[h];
            var ms := MovesOf(e, op);
            && Step(e, op).Done? && h !in After(e, op).book.tasks
            && OutOf(ms, OfTask(h), Egld, Reward) == (if ok then RewardOf(t.deposit, e.cfg) else 0)
            && (forall i :: 0 <= i < |ms| && ms[i].why == Reward ==> ok && ms[i].dst == Outside(k))
            && (forall i :: 0 <= i < |ms| && ms[i].why == Refund ==> ms[i].dst == Outside(t.owner))
  {
    var op0 := OnTask(Execute(k, h, false, now, true));
    var s1 := After(s, op0);
    var e := Run(s1, ops);
    ExecuteIff(s, k, h, false, now);
    DispatchPromises(s, k, h, now, id);
    TaskFixedStep(s, op0, h);
    SolvencyRun(s1, ops, Egld);
    PromiseKept(s1, ops, id);
    TaskFixedRun(s1, ops, h);
    CallbackSettles(e, id, ok);
  }

  // ---------- Enclaves ----------

  /** Exactly the keeper to whom an executing task was assigned can settle it. */
  lemma SettleIff(s: State, c: Address, h: Hash)
    requires Inv(s)
    ensures Step(s, OnTask(SettleXse(c, h, true))).Done? <==>
              && h in s.book.enclave && s.book.enclave[h] == c
              && h in s.book.tasks && s.book.tasks[h].status == Executing
  {
    NeverShort(s, OnTask(SettleXse(c, h, true)));
  }

  /** While a confidentially executed task lives, its settlement is open to the keeper who executed it and to
      nobody else, and pays that keeper the reward of its deposit. */
  lemma EnclaveSettles(s: State, k: Address, h: Hash, now: nat, ops: seq<Op>, c: Address)
    requires Inv(s) && Step(s, OnTask(Execute(k, h, true, now, true))).Done?
    requires LivesThrough(After(s, OnTask(Execute(k, h, true, now, true))), ops, h)
    ensures h in s.book.tasks
    ensures var e := Run(After(s, OnTask(Execute(k, h, true, now, true))), ops);
            var op := OnTask(SettleXse(c, h, true));
            && (Step(e, op).Done? <==> c == k)
            && (c == k ==> OutOf(MovesOf(e, op), OfTask(h), Egld, Reward) == RewardOf(s.book.tasks[h].deposit, e.cfg))
            && (forall i :: 0 <= i < |MovesOf(e, op)| && MovesOf(e, op)[i].why == Reward ==>
                              MovesOf(e, op)[i].dst == Outside(k))
  {
    var op0 := OnTask(Execute(k, h, true, now, true));
    var s1 := After(s, op0);
    var e, op := Run(s1, ops), OnTask(SettleXse(c, h, true));
    ExecuteIff(s, k, h, true, now);
    TaskFixedStep(s, op0, h);
    SolvencyRun(s1, ops, Egld);
    ExecutionKept(s1, ops, h, now);
    TaskFixedRun(s1, ops, h);
    SettleIff(e, c, h);
    if c == k {
      assert MovesOf(e, op)[0].src == OfTask(h);
      SettlementExact(e, op, h, 0);
    }
  }

  /** The step is an accepted execution of `h`. */
  predicate Executes(s: State, op: Op, h: Hash) {
    op.OnTask? && op.t.Execute? && op.t.h == h && Step(s, op).Done?
  }

  predicate NoneExecutes(s: State, ops: seq<Op>, h: Hash)
    decreases |ops|
  {
    ops == [] || (!Executes(s, ops[0], h) && NoneExecutes(After(s, ops[0]), ops[1..], h))
  }

  /** If `h` is assigned at all, then to `k`. */
  predicate AssignedOnlyTo(b: TaskBook, h: Hash, k: Address) { h in b.enclave ==> b.enclave[h] == k }

  lemma AssignmentKeptStep(s: State, op: Op, h: Hash, k: Address)
    requires AssignedOnlyTo(s.book, h, k) && !Executes(s, op, h)
    ensures AssignedOnlyTo(After(s, op).book, h, k)
  {
    Outcome(s, op);
    match op
    case OnTask(call) =>
      match call {
        case Schedule(_, _, _, _, _, _, _) =>
        case Execute(_, _, _, _, _) =>
        case Callback(_, _) =>
        case SettleXse(_, _, _) =>
        case Rescue(_, _, _, _) =>
        case CancelTask(_, _, _, _) =>
      }
    case OnKey(call) => KeyFrame(s, call);
    case OnIntent(call) => IntentFrame(s, call);
    case OnFees(call) => FeesFrame(s, call);
  }

  lemma {:induction false} AssignmentKept(s: State, ops: seq<Op>, h: Hash, k: Address)
    requires AssignedOnlyTo(s.book, h, k) && NoneExecutes(s, ops, h)
    ensures AssignedOnlyTo(Run(s, ops).book, h, k)
    decreases |ops|
  {
    if ops != [] {
      AssignmentKeptStep(s, ops[0], h, k);
      AssignmentKept(After(s, ops[0]), ops[1..], h, k);
    }
  }

  /** Whatever became of the task in between, rescued and scheduled again or not: until it is executed again,
      only the keeper of its last confidential execution can settle it. */
  lemma OnlyExecutorSettles(s: State, k: Address, h: Hash, now: nat, ops: seq<Op>, c: Address)
    requires Inv(s) && Step(s, OnTask(Execute(k, h, true, now, true))).Done?
    requires var s1 := After(s, OnTask(Execute(k, h, true, now, true)));
             NoneExecutes(s1, ops, h) && Step(Run(s1, ops), OnTask(SettleXse(c, h, true))).Done?
    ensures c == k
  {
    var s1 := After(s, OnTask(Execute(k, h, true, now, true)));
    ExecuteIff(s, k, h, true, now);
    AssignmentKept(s1, ops, h, k);
    SolvencyRun(s1, ops, Egld);
    SettleIff(Run(s1, ops), c, h);
  }

  // ---------- Rescue ----------

  /** Exactly the owner and the admin can rescue an executing task, a day after it began to execute. */
  lemma RescueIff(s: State, c: Address, h: Hash, now: nat)
    requires Inv(s)
    ensures Step(s, OnTask(Rescue(c, h, now, true))).Done? <==>
              && h in s.book.tasks && s.book.tasks[h].status == Executing
              && now >= s.book.tasks[h].executingAt + 86_400
              && (c == s.book.tasks[h].owner || c == s.cfg.admin)
  {
    NeverShort(s, OnTask(Rescue(c, h, now, true)));
  }

  /** In terms of the execution itself: while the task lives, a rescue by its owner commits exactly from a day
      after the accepted execution on, and returns the whole deposit. */
  lemma RescuedADayLater(s: State, k: Address, h: Hash, confidential: bool, now: nat, ops: seq<Op>, later: nat)
    requires Inv(s) && Step(s, OnTask(Execute(k, h, confidential, now, true))).Done?
    requires LivesThrough(After(s, OnTask(Execute(k, h, confidential, now, true))), ops, h)
    ensures h in s.book.tasks
    ensures var e := Run(After(s, OnTask(Execute(k, h, confidential, now, true))), ops);
            var t := s.book.tasks[h];
            var op := OnTask(Rescue(t.owner, h, later, true));
            && (Step(e, op).Done? <==> later >= now + 86_400)
            && (Step(e, op).Done? ==> MovesOf(e, op) == [Move(Egld, OfTask(h), Outside(t.owner), t.deposit, Refund)])
  {
    var op0 := OnTask(Execute(k, h, confidential, now, true));
    var s1 := After(s, op0);
    ExecuteIff(s, k, h, confidential, now);
    TaskFixedStep(s, op0, h);
    SolvencyRun(s1, ops, Egld);
    ExecutionKept(s1, ops, h, now);
    TaskFixedRun(s1, ops, h);
    RescueIff(Run(s1, ops), s.book.tasks[h].owner, h, later);
  }
}
