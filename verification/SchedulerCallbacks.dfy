/** Callbacks and the executions they belong to. */
module SchedulerCallbacks {
  import opened MapSums
  import opened SchedulerModel
  import opened SchedulerLedger
  import opened SchedulerTheorems
  import opened SchedulerSettlement

  // ---------- Callbacks ----------

  /** Every promise in flight belongs to a task that is executing for it and for no other. */
  ghost predicate PromisesLive(b: TaskBook) {
    && (forall id :: id in b.promises ==>
          && id < b.nextPromise && b.promises[id].h in b.tasks && b.tasks[b.promises[id].h].status == Executing
          && b.promises[id].h !in b.enclave)
    && (forall id, id' :: id in b.promises && id' in b.promises && id != id' ==> b.promises[id].h != b.promises[id'].h)
    && (forall h :: h in b.enclave ==> h in b.tasks && b.tasks[h].status == Executing)
  }

  lemma LiveAfterStart(b: TaskBook, keeper: Address, h: Hash, confidential: bool, now: nat)
    requires PromisesLive(b) && h in b.tasks && b.tasks[h].status == Pending
    ensures PromisesLive(StartTask(b, keeper, h, confidential, now))
  {
  }

  lemma LiveAfterCallback(b: TaskBook, id: nat)
    requires PromisesLive(b) && id in b.promises
    ensures var b1 := b.(promises := b.promises - {id});
            b.promises[id].h in b1.tasks && PromisesLive(CloseTask(b1, b.promises[id].h))
  {
  }

  lemma LiveAfterClose(b: TaskBook, h: Hash)
    requires PromisesLive(b) && h in b.tasks && forall id :: id in b.promises ==> b.promises[id].h != h
    ensures PromisesLive(CloseTask(b, h))
  {
  }

  lemma LiveAfterDrop(b: TaskBook, h: Hash)
    requires PromisesLive(b) && h in b.tasks && b.tasks[h].status == Pending
    ensures PromisesLive(DropTask(b, h))
  {
  }

  lemma LiveAfterAdd(b: TaskBook, h: Hash, owner: Address, deposit: nat)
    requires PromisesLive(b) && h !in b.tasks
    ensures PromisesLive(AddTask(b, h, owner, deposit))
  {
  }

  /** The step rescues a task whose call is still in flight. */
  ghost predicate Orphans(s: State, op: Op) {
    && op.OnTask? && op.t.Rescue? && Step(s, op).Done?
    && exists id :: id in s.book.promises && s.book.promises[id].h == op.t.h
  }

  lemma PromisesLiveTask(s: State, call: TaskCall)
    requires PromisesLive(s.book) && !Orphans(s, OnTask(call)) && Step(s, OnTask(call)).Done?
    ensures PromisesLive(DraftTask(s, call).next.book)
  {
    match call
    case Schedule(c, h, _, _, lane, now, _) =>
      var owner := Resolve(s.keys, c, now).0;
      LiveAfterAdd(Counted(s.book, owner, lane), h, owner, DraftTask(s, call).next.book.tasks[h].deposit);
    case Execute(k, h, conf, now, _) => LiveAfterStart(s.book, k, h, conf, now);
    case Callback(id, ok) => LiveAfterCallback(s.book, id);
    case SettleXse(_, h, _) => LiveAfterClose(s.book, h);
    case Rescue(_, h, _, _) => LiveAfterClose(s.book, h);
    case CancelTask(_, h, _, _) => LiveAfterDrop(s.book, h);
  }

  /** Exactly one kind of step breaks the link between promises and executions. */
  lemma PromisesLiveStep(s: State, op: Op)
    requires PromisesLive(s.book)
    ensures PromisesLive(After(s, op).book) <==> !Orphans(s, op)
  {
    Outcome(s, op);
    match op
    case OnTask(call) =>
      if Orphans(s, op) {
        OrphanLeft(s, call);
      } else if Step(s, op).Done? {
        PromisesLiveTask(s, call);
      }
    case OnKey(call) => KeyFrame(s, call);
    case OnIntent(call) => IntentFrame(s, call);
    case OnFees(call) => FeesFrame(s, call);
  }

  lemma OrphanLeft(s: State, call: TaskCall)
    requires Orphans(s, OnTask(call))
    ensures !PromisesLive(After(s, OnTask(call)).book)
  {
    var id :| id in s.book.promises && s.book.promises[id].h == call.h;
    var b := After(s, OnTask(call)).book;
    assert id in b.promises && b.promises[id].h !in b.tasks;
  }

  ghost predicate NeverOrphans(s: State, ops: seq<Op>)
    decreases |ops|
  {
    ops == [] || (!Orphans(s, ops[0]) && NeverOrphans(After(s, ops[0]), ops[1..]))
  }

  ghost predicate AlwaysLive(s: State, ops: seq<Op>)
    decreases |ops|
  {
    PromisesLive(s.book) && (ops == [] || AlwaysLive(After(s, ops[0]), ops[1..]))
  }

  /** Every callback finds the very execution that registered it, all along a run, exactly when the run never
      rescues a task whose call is in flight. Rescuing a confidential task, which has none, is harmless. */
  lemma {:induction false} PromisesLiveRun(s: State, ops: seq<Op>)
    requires PromisesLive(s.book)
    ensures AlwaysLive(s, ops) <==> NeverOrphans(s, ops)
    ensures NeverOrphans(s, ops) ==> PromisesLive(Run(s, ops).book)
    decreases |ops|
  {
    if ops != [] {
      PromisesLiveStep(s, ops[0]);
      if !Orphans(s, ops[0]) {
        PromisesLiveRun(After(s, ops[0]), ops[1..]);
      }
    }
  }

  /** Per rescue: the link survives exactly when no promise in flight names the rescued task; in particular
      whenever the task is held by an enclave. */
  lemma RescueExact(s: State, c: Address, h: Hash, now: nat, admitted: bool)
    requires PromisesLive(s.book) && Step(s, OnTask(Rescue(c, h, now, admitted))).Done?
    ensures PromisesLive(After(s, OnTask(Rescue(c, h, now, admitted))).book) <==>
            forall id :: id in s.book.promises ==> s.book.promises[id].h != h
    ensures h in s.book.enclave ==> PromisesLive(After(s, OnTask(Rescue(c, h, now, admitted))).book)
  {
    PromisesLiveStep(s, OnTask(Rescue(c, h, now, admitted)));
  }

  // ---------- Callbacks of rescued tasks ----------

  /** No operation of the run is the answer to promise `id`. */
  predicate Unanswered(ops: seq<Op>, id: nat) {
    forall k :: 0 <= k < |ops| ==> !(ops[k].OnTask? && ops[k].t.Callback? && ops[k].t.promise == id)
  }

  lemma PromiseKeptCall(s: State, call: TaskCall, id: nat)
    requires id in s.book.promises && id < s.book.nextPromise && DraftTask(s, call).Done?
    requires !(call.Callback? && call.promise == id)
    ensures var b := DraftTask(s, call).next.book;
            id in b.promises && b.promises[id] == s.book.promises[id] && id < b.nextPromise
  {
    match call
    case Schedule(_, _, _, _, _, _, _) =>
    case Execute(_, _, _, _, _) =>
    case Callback(_, _) =>
    case SettleXse(_, _, _) =>
    case Rescue(_, _, _, _) =>
    case CancelTask(_, _, _, _) =>
  }

  lemma PromiseKeptStep(s: State, op: Op, id: nat)
    requires id in s.book.promises && id < s.book.nextPromise
    requires !(op.OnTask? && op.t.Callback? && op.t.promise == id)
    ensures var b := After(s, op).book;
            id in b.promises && b.promises[id] == s.book.promises[id] && id < b.nextPromise
  {
    Outcome(s, op);
    match op
    case OnTask(call) => if Step(s, op).Done? { PromiseKeptCall(s, call, id); }
    case OnKey(call) => KeyFrame(s, call);
    case OnIntent(call) => IntentFrame(s, call);
    case OnFees(call) => FeesFrame(s, call);
  }

  /** A promise outlives everything but its own answer, the task it was made for included. */
  lemma {:induction false} PromiseKept(s: State, ops: seq<Op>, id: nat)
    requires id in s.book.promises && id < s.book.nextPromise && Unanswered(ops, id)
    ensures var b := Run(s, ops).book;
            id in b.promises && b.promises[id] == s.book.promises[id] && id < b.nextPromise
    decreases |ops|
  {
    if ops != [] {
      PromiseKeptStep(s, ops[0], id);
      PromiseKept(After(s, ops[0]), ops[1..], id);
    }
  }

  /** What a callback does to whatever task now bears its hash: it settles it, and a success rewards the
      keeper of the promise. */
  lemma CallbackSettles(e: State, id: nat, ok: bool)
    requires Inv(e) && id in e.book.promises && e.book.promises[id].h in e.book.tasks
    ensures var p, op := e.book.promises[id], OnTask(Callback(id, ok));
            Step(e, op).Done? && SettledBy(e, op, p.h, After(e, op), MovesOf(e, op))
  {
    var p, op := e.book.promises[id], OnTask(Callback(id, ok));
    NeverShort(e, op);
    assert MovesOf(e, op)[0].src == OfTask(p.h);
    SettlementExact(e, op, p.h, 0);
  }

  /** After an orphaning rescue the link never heals by itself: whoever schedules the hash again, whatever
      happens before and after, as long as the new task lives the old callback settles it, out of the new
      deposit, and rewards the old keeper. */
  lemma StaleCallback(s: State, rescue: TaskCall, before: seq<Op>, again: TaskCall, after: seq<Op>, id: nat, ok: bool)
    requires Inv(s) && id in s.book.promises
    requires rescue.Rescue? && rescue.h == s.book.promises[id].h && Step(s, OnTask(rescue)).Done?
    requires Unanswered(before, id) && Unanswered(after, id)
    requires var s1 := Run(After(s, OnTask(rescue)), before);
             && again.Schedule? && again.h == rescue.h && Step(s1, OnTask(again)).Done?
             && LivesThrough(After(s1, OnTask(again)), after, rescue.h)
    ensures var h, keeper := rescue.h, s.book.promises[id].keeper;
            var s2 := After(Run(After(s, OnTask(rescue)), before), OnTask(again));
            var e, op := Run(s2, after), OnTask(Callback(id, ok));
            var ms := MovesOf(e, op);
            && h in s2.book.tasks && h in e.book.tasks && h !in After(e, op).book.tasks
            && OutOf(ms, OfTask(h), Egld, Reward) == (if ok then RewardOf(s2.book.tasks[h].deposit, e.cfg) else 0)
            && (forall i :: 0 <= i < |ms| && ms[i].why == Reward ==> ms[i].dst == Outside(keeper))
            && (forall i :: 0 <= i < |ms| && ms[i].why == Refund ==> ms[i].dst == Outside(s2.book.tasks[h].owner))
  {
    var r := After(s, OnTask(rescue));
    var s1 := Run(r, before);
    var s2 := After(s1, OnTask(again));
    var e := Run(s2, after);
    InvStep(s, OnTask(rescue));
    SolvencyRun(r, before, Egld);
    InvStep(s1, OnTask(again));
    SolvencyRun(s2, after, Egld);
    PromiseKeptStep(s, OnTask(rescue), id);
    PromiseKept(r, before, id);
    PromiseKeptStep(s1, OnTask(again), id);
    PromiseKept(s2, after, id);
    TaskFixedRun(s2, after, rescue.h);
    CallbackSettles(e, id, ok);
  }

  lemma RescueFacts(s: State, h: Hash, now: nat)
    requires Inv(s) && h in s.book.tasks && s.book.tasks[h].status == Executing
    requires now >= s.book.tasks[h].executingAt + STUCK_SECONDS
    ensures var op := OnTask(Rescue(s.book.tasks[h].owner, h, now, true));
            && Step(s, op).Done?
            && After(s, op).book == CloseTask(s.book, h) && After(s, op).keys == s.keys && After(s, op).cfg == s.cfg
  {
    NeverShort(s, OnTask(Rescue(s.book.tasks[h].owner, h, now, true)));
  }

  lemma ScheduleFacts(s: State, owner: Address, h: Hash, deposit: nat, lane: Lane, now: nat)
    requires Inv(s) && h !in s.book.tasks && !Resolve(s.keys, owner, now).1 && DepositAllowed(s.cfg, deposit)
    requires RoomFor(s, owner, lane)
    ensures var op := OnTask(Schedule(owner, h, deposit, None, lane, now, true));
            && Step(s, op).Done?
            && After(s, op).book == AddTask(Counted(s.book, owner, lane), h, owner, deposit)
            && After(s, op).cfg == s.cfg
  {
    NeverShort(s, OnTask(Schedule(owner, h, deposit, None, lane, now, true)));
  }

  /** Such a run exists from every state with a call in flight for a day: the owner rescues the task and
      schedules the same hash again, and the old callback settles the new task, still pending. */
  lemma StaleReachable(s: State, id: nat, deposit: nat, lane: Lane, now: nat)
    requires Inv(s) && id in s.book.promises && s.book.promises[id].h in s.book.tasks
    requires var t := s.book.tasks[s.book.promises[id].h];
             && t.status == Executing && now >= t.executingAt + 86_400
             && !Resolve(s.keys, t.owner, now).1
             && RoomFor(After(s, OnTask(Rescue(t.owner, s.book.promises[id].h, now, true))), t.owner, lane)
    requires DepositAllowed(s.cfg, deposit)
    ensures var p := s.book.promises[id];
            var owner := s.book.tasks[p.h].owner;
            var s1 := After(s, OnTask(Rescue(owner, p.h, now, true)));
            var s2 := After(s1, OnTask(Schedule(owner, p.h, deposit, None, lane, now, true)));
            && p.h in s2.book.tasks && s2.book.tasks[p.h].status == Pending
            && p.h !in After(s2, OnTask(Callback(id, true))).book.tasks
            && |MovesOf(s2, OnTask(Callback(id, true)))| > 0
            && MovesOf(s2, OnTask(Callback(id, true)))[0]
               == Move(Egld, OfTask(p.h), Outside(p.keeper), RewardOf(deposit, s.cfg), Reward)
  {
    var p := s.book.promises[id];
    var owner := s.book.tasks[p.h].owner;
    RescueFacts(s, p.h, now);
    InvStep(s, OnTask(Rescue(owner, p.h, now, true)));
    var s1 := After(s, OnTask(Rescue(owner, p.h, now, true)));
    ScheduleFacts(s1, owner, p.h, deposit, lane, now);
    InvStep(s1, OnTask(Schedule(owner, p.h, deposit, None, lane, now, true)));
    var s2 := After(s1, OnTask(Schedule(owner, p.h, deposit, None, lane, now, true)));
    NeverShort(s2, OnTask(Callback(id, true)));
  }
}
