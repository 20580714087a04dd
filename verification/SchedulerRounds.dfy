/** How many ordinary tasks an owner may schedule in one block round. */
module SchedulerRounds {
  import opened MapSums
  import opened SchedulerModel
  import opened SchedulerTheorems

  /** The step is an accepted scheduling of an ordinary task, for `owner`, in round `r`. */
  predicate Admits(s: State, op: Op, owner: Address, r: nat) {
    && op.OnTask? && op.t.Schedule? && op.t.lane == Quantum(r) && Step(s, op).Done?
    && Resolve(s.keys, op.t.caller, op.t.now).0 == owner
  }

  function ThisRound(s: State, owner: Address, r: nat): nat { Get(s.book.perRound, (owner, r)) }

  /** No task call but scheduling touches the counters, and none the configuration. */
  lemma RoundFrame(s: State, call: TaskCall)
    requires DraftTask(s, call).Done?
    ensures !call.Schedule? ==> DraftTask(s, call).next.book.perRound == s.book.perRound
    ensures DraftTask(s, call).next.cfg == s.cfg
  {
    match call
    case Schedule(_, _, _, _, _, _, _) =>
    case Execute(_, _, _, _, _) =>
    case Callback(_, _) =>
    case SettleXse(_, _, _) =>
    case Rescue(_, _, _, _) =>
    case CancelTask(_, _, _, _) =>
  }

  lemma RoundSchedule(s: State, c: Address, h: Hash, att: nat, req: Option<nat>, lane: Lane, now: nat, owner: Address,
                      r: nat)
    requires DoSchedule(s, c, h, att, req, lane, now).Done?
    ensures var b, mine := DoSchedule(s, c, h, att, req, lane, now).next.book, Resolve(s.keys, c, now).0 == owner;
            && Get(b.perRound, (owner, r)) == ThisRound(s, owner, r) + (if lane == Quantum(r) && mine then 1 else 0)
            && (lane == Quantum(r) && mine && s.cfg.maxPerRound > 0 ==> ThisRound(s, owner, r) < s.cfg.maxPerRound)
  {
  }

  lemma RoundCall(s: State, call: TaskCall, owner: Address, r: nat)
    requires Step(s, OnTask(call)).Done?
    ensures var b := DraftTask(s, call).next.book;
            Get(b.perRound, (owner, r)) == ThisRound(s, owner, r) + if Admits(s, OnTask(call), owner, r) then 1 else 0
    ensures DraftTask(s, call).next.cfg == s.cfg
    ensures Admits(s, OnTask(call), owner, r) && s.cfg.maxPerRound > 0 ==>
              ThisRound(s, owner, r) < s.cfg.maxPerRound
  {
    Outcome(s, OnTask(call));
    RoundFrame(s, call);
    if call.Schedule? {
      RoundSchedule(s, call.caller, call.h, call.attached, call.requested, call.lane, call.now, owner, r);
    }
  }

  /** The counter moves with the accepted schedulings, which need room under a limit that nothing changes. */
  lemma RoundStep(s: State, op: Op, owner: Address, r: nat)
    ensures ThisRound(After(s, op), owner, r) == ThisRound(s, owner, r) + if Admits(s, op, owner, r) then 1 else 0
    ensures After(s, op).cfg.maxPerRound == s.cfg.maxPerRound
    ensures Admits(s, op, owner, r) && s.cfg.maxPerRound > 0 ==> ThisRound(s, owner, r) < s.cfg.maxPerRound
  {
    Outcome(s, op);
    match op
    case OnTask(call) => if Step(s, op).Done? { RoundCall(s, call, owner, r); }
    case OnKey(call) => KeyFrame(s, call);
    case OnIntent(call) => IntentFrame(s, call);
    case OnFees(call) => FeesFrame(s, call);
  }

  function Admissions(s: State, ops: seq<Op>, owner: Address, r: nat): nat
    decreases |ops|
  {
    if ops == [] then 0 else
      (if Admits(s, ops[0], owner, r) then 1 else 0) + Admissions(After(s, ops[0]), ops[1..], owner, r)
  }

  /** Over any run the counter counts exactly, and with a limit set no owner, through however many clone keys,
      ever schedules more ordinary tasks in one round than the limit. */
  lemma {:induction false} RoundLimit(s: State, ops: seq<Op>, owner: Address, r: nat)
    ensures ThisRound(Run(s, ops), owner, r) == ThisRound(s, owner, r) + Admissions(s, ops, owner, r)
    ensures s.cfg.maxPerRound > 0 && ThisRound(s, owner, r) <= s.cfg.maxPerRound ==>
              ThisRound(s, owner, r) + Admissions(s, ops, owner, r) <= s.cfg.maxPerRound
    decreases |ops|
  {
    if ops != [] {
      RoundStep(s, ops[0], owner, r);
      RoundLimit(After(s, ops[0]), ops[1..], owner, r);
    }
  }
}
