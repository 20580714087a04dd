/** The keeper's privacy-session admission control: a float cap and a per-user cap over a map of
    sessions, and a bounded-retry queue of failed sweeps. */
module SessionModel {
  import opened MapSums
  import opened Words

  type Address = nat

  datatype Status = Dripped | Swept | FailedSweep

  datatype Session = Session(user: Address, amount: nat, status: Status, retries: nat)

  datatype State = State(
    sessions: map<Address, Session>, queue: seq<Address>,
    floatLimit: nat, maxPerUser: nat, maxRetries: nat)

  predicate Active(x: Session) { x.status != Swept }

  function FloatOf(x: Session): nat { if Active(x) then x.amount else 0 }

  function ActiveOf(u: Address): Session -> nat {
    (x: Session) => if Active(x) && x.user == u then 1 else 0
  }

  ghost function Outstanding(s: State): nat { Sum(s.sessions, FloatOf) }

  ghost function ActiveCount(s: State, u: Address): nat { Sum(s.sessions, ActiveOf(u)) }

  // ---------- Operations ----------

  /** 128-bit sums wrap around in a release build. */
  ghost predicate FloatDenies(s: State, amount: nat) { Wrap128(Wrap128(Outstanding(s)) + amount) > s.floatLimit }

  ghost predicate Admits(s: State, user: Address, amount: nat) {
    !FloatDenies(s, amount) && ActiveCount(s, user) < s.maxPerUser
  }

  function Authorized(s: State, user: Address, stealth: Address, amount: nat): State {
    s.(sessions := s.sessions[stealth := Session(user, amount, Dripped, 0)])
  }

  function Completed(s: State, stealth: Address): State {
    if stealth !in s.sessions then s
    else s.(sessions := s.sessions[stealth := s.sessions[stealth].(status := Swept)])
  }

  function FailureRegistered(s: State, stealth: Address): State {
    if stealth !in s.sessions then s else
    var x := s.sessions[stealth];
    var x' := x.(status := FailedSweep, retries := x.retries + 1);
    s.(sessions := s.sessions[stealth := x'],
       queue := if x'.retries <= s.maxRetries && stealth !in s.queue then s.queue + [stealth] else s.queue)
  }

  /** The outside world during one pass: which wallets are at hand and which sweeps would succeed. */
  datatype World = World(wallets: set<Address>, sweeps: set<Address>)

  predicate SweepFails(w: World, a: Address) { a in w.wallets && a !in w.sweeps }

  function RetriesAfter(x: Session, a: Address, w: World): nat { x.retries + if SweepFails(w, a) then 1 else 0 }

  /** Whether a queued address leaves the queue: swept, no key at hand, or retries exhausted. */
  predicate Leaves(s: State, a: Address, w: World) {
    !SweepFails(w, a) || (a in s.sessions && RetriesAfter(s.sessions[a], a, w) > s.maxRetries)
  }

  function SessionAfter(s: State, a: Address, w: World): Session
    requires a in s.sessions
  {
    var x := s.sessions[a];
    if a !in s.queue then x else
    var n := RetriesAfter(x, a, w);
    x.(retries := n, status := if Leaves(s, a, w) && n <= s.maxRetries then Swept else x.status)
  }

  function Staying(s: State, q: seq<Address>, w: World): seq<Address> {
    if q == [] then [] else
      Staying(s, q[..|q| - 1], w) + (if Leaves(s, q[|q| - 1], w) then [] else [q[|q| - 1]])
  }

  /** One pass over the retry queue. */
  function Passed(s: State, w: World): State {
    s.(sessions := map a | a in s.sessions :: SessionAfter(s, a, w), queue := Staying(s, s.queue, w))
  }

  datatype Op =
    | Authorize(user: Address, stealth: Address, amount: nat)
    | Complete(stealth: Address)
    | RegisterFailure(stealth: Address)
    | Pass(world: World)

  ghost function After(s: State, op: Op): State {
    match op
    case Authorize(u, a, n) => if Admits(s, u, n) then Authorized(s, u, a, n) else s
    case Complete(a) => Completed(s, a)
    case RegisterFailure(a) => FailureRegistered(s, a)
    case Pass(w) => Passed(s, w)
  }

  ghost function Run(s: State, ops: seq<Op>): State
    decreases |ops|
  {
    if ops == [] then s else Run(After(s, ops[0]), ops[1..])
  }

  // ---------- Limits ----------

  ghost predicate WithinLimits(s: State) {
    && s.floatLimit < U128
    && Outstanding(s) <= s.floatLimit
    && forall u: Address :: ActiveCount(s, u) <= s.maxPerUser
  }

  /** The float test says what it means exactly when the sum does not wrap to within the limit. */
  lemma FloatTestExact(s: State, amount: nat)
    requires WithinLimits(s)
    ensures (FloatDenies(s, amount) <==> Outstanding(s) + amount > s.floatLimit) <==>
            !(Outstanding(s) + amount >= U128 && Wrap128(Outstanding(s) + amount) <= s.floatLimit)
  {
    NoWrap(Outstanding(s));
    NoWrap(Outstanding(s) + amount);
  }

  /** Such requests exist in every state with something outstanding: one that brings the sum to 2^128 passes
      the test, and is admitted if the user may have another session. */
  lemma WrappedRequestAdmitted(s: State, user: Address)
    requires WithinLimits(s) && Outstanding(s) > 0 && ActiveCount(s, user) < s.maxPerUser
    ensures var amount := U128 - Outstanding(s);
            0 < amount < U128 && amount + Outstanding(s) > s.floatLimit && Admits(s, user, amount)
  {
    NoWrap(Outstanding(s));
  }

  /** Rewriting sessions without activating any keeps the limits. */
  lemma NoneActivated(s: State, s': State)
    requires WithinLimits(s) && s'.sessions.Keys == s.sessions.Keys
    requires s'.floatLimit == s.floatLimit && s'.maxPerUser == s.maxPerUser
    requires forall a :: a in s.sessions ==>
               && s'.sessions[a].user == s.sessions[a].user && s'.sessions[a].amount == s.sessions[a].amount
               && (Active(s'.sessions[a]) ==> Active(s.sessions[a]))
    ensures WithinLimits(s')
  {
    SumMonotone(s.sessions, s'.sessions, FloatOf);
    forall u: Address ensures ActiveCount(s', u) <= s.maxPerUser {
      SumMonotone(s.sessions, s'.sessions, ActiveOf(u));
      assert ActiveCount(s, u) <= s.maxPerUser;
    }
  }

  /** Registering a failure for a swept session revives its float. The limits survive exactly when the amount
      still fits under the cap and the user has a session to spare. */
  lemma RevivedFloat(s: State, a: Address)
    requires WithinLimits(s) && a in s.sessions && !Active(s.sessions[a])
    ensures var x, s' := s.sessions[a], FailureRegistered(s, a);
            && Outstanding(s') == Outstanding(s) + x.amount
            && (forall u: Address :: ActiveCount(s', u) == ActiveCount(s, u) + if u == x.user then 1 else 0)
            && (WithinLimits(s') <==>
                Outstanding(s) + x.amount <= s.floatLimit && ActiveCount(s, x.user) + 1 <= s.maxPerUser)
  {
    var x, s' := s.sessions[a], FailureRegistered(s, a);
    SumPut(s.sessions, FloatOf, a, s'.sessions[a]);
    forall u: Address ensures ActiveCount(s', u) == ActiveCount(s, u) + if u == x.user then 1 else 0 {
      SumPut(s.sessions, ActiveOf(u), a, s'.sessions[a]);
    }
    if ActiveCount(s, x.user) + 1 <= s.maxPerUser {
      forall u: Address ensures ActiveCount(s', u) <= s.maxPerUser {
        assert ActiveCount(s, u) <= s.maxPerUser;
      }
    }
  }

  ghost function FloatAt(s: State, a: Address): nat { At(s.sessions, FloatOf, a) }

  /** An admitted request replaces whatever its address held before. */
  lemma AuthorizedMeasures(s: State, user: Address, stealth: Address, amount: nat)
    ensures var s' := Authorized(s, user, stealth, amount);
            && Outstanding(s') + FloatAt(s, stealth) == Outstanding(s) + amount
            && FloatAt(s, stealth) <= Outstanding(s)
            && forall u: Address :: ActiveCount(s', u) <= ActiveCount(s, u) + if u == user then 1 else 0
  {
    var x, s' := Session(user, amount, Dripped, 0), Authorized(s, user, stealth, amount);
    SumPut(s.sessions, FloatOf, stealth, x);
    AtMostSum(s.sessions, FloatOf, stealth);
    forall u: Address ensures ActiveCount(s', u) <= ActiveCount(s, u) + if u == user then 1 else 0 {
      SumPut(s.sessions, ActiveOf(u), stealth, x);
    }
  }

  /** The steps that break a limit: an admitted request whose sum wrapped, and that is over the cap beside the
      other sessions; or a failure registered for a swept session that no longer fits. */
  ghost predicate Breaks(s: State, op: Op) {
    || (&& op.Authorize? && Admits(s, op.user, op.amount) && Outstanding(s) + op.amount >= U128
        && Outstanding(s) - FloatAt(s, op.stealth) + op.amount > s.floatLimit)
    || (&& op.RegisterFailure? && op.stealth in s.sessions && !Active(s.sessions[op.stealth])
        && var x := s.sessions[op.stealth];
          Outstanding(s) + x.amount > s.floatLimit || ActiveCount(s, x.user) + 1 > s.maxPerUser)
  }

  lemma AuthorizeLimits(s: State, user: Address, stealth: Address, amount: nat)
    requires WithinLimits(s) && Admits(s, user, amount)
    ensures WithinLimits(Authorized(s, user, stealth, amount)) <==> !Breaks(s, Authorize(user, stealth, amount))
  {
    var s' := Authorized(s, user, stealth, amount);
    FloatTestExact(s, amount);
    AuthorizedMeasures(s, user, stealth, amount);
    forall u: Address ensures ActiveCount(s', u) <= s.maxPerUser {
      assert ActiveCount(s, u) <= s.maxPerUser;
    }
  }

  /** Exactly those steps. */
  lemma LimitsExactStep(s: State, op: Op)
    requires WithinLimits(s)
    ensures WithinLimits(After(s, op)) <==> !Breaks(s, op)
  {
    match op
    case Authorize(u, a, n) => if Admits(s, u, n) { AuthorizeLimits(s, u, a, n); }
    case Complete(a) => NoneActivated(s, After(s, op));
    case RegisterFailure(a) =>
      if a in s.sessions && !Active(s.sessions[a]) {
        RevivedFloat(s, a);
      } else {
        NoneActivated(s, After(s, op));
      }
    case Pass(w) => NoneActivated(s, After(s, op));
  }

  /** Where the cap is less than 2^127, the first kind is just a request above the cap that was admitted. */
  lemma OversizedBreaks(s: State, user: Address, stealth: Address, amount: nat)
    requires WithinLimits(s) && 2 * s.floatLimit < U128 && Admits(s, user, amount)
    ensures Breaks(s, Authorize(user, stealth, amount)) <==> amount > s.floatLimit
  {
    FloatTestExact(s, amount);
    AuthorizedMeasures(s, user, stealth, amount);
  }

  ghost predicate AlwaysWithinLimits(s: State, ops: seq<Op>)
    decreases |ops|
  {
    WithinLimits(s) && (ops == [] || AlwaysWithinLimits(After(s, ops[0]), ops[1..]))
  }

  ghost predicate NeverBreaks(s: State, ops: seq<Op>)
    decreases |ops|
  {
    ops == [] || (!Breaks(s, ops[0]) && NeverBreaks(After(s, ops[0]), ops[1..]))
  }

  /** The recorded float and every user's recorded sessions stay within limits, all along a run, exactly when
      the run has no such step. */
  lemma {:induction false} LimitsExactRun(s: State, ops: seq<Op>)
    requires WithinLimits(s)
    ensures AlwaysWithinLimits(s, ops) <==> NeverBreaks(s, ops)
    ensures NeverBreaks(s, ops) ==> WithinLimits(Run(s, ops))
    decreases |ops|
  {
    if ops != [] {
      LimitsExactStep(s, ops[0]);
      if !Breaks(s, ops[0]) {
        LimitsExactRun(After(s, ops[0]), ops[1..]);
      }
    }
  }

  /** The keeper's discipline: failures are registered for unswept sessions, and no admitted request wraps. */
  ghost predicate Disciplined(s: State, op: Op) {
    && (op.RegisterFailure? && op.stealth in s.sessions ==> Active(s.sessions[op.stealth]))
    && (op.Authorize? && Admits(s, op.user, op.amount) ==> Outstanding(s) + op.amount < U128)
  }

  ghost predicate DisciplinedRun(s: State, ops: seq<Op>)
    decreases |ops|
  {
    ops == [] || (Disciplined(s, ops[0]) && DisciplinedRun(After(s, ops[0]), ops[1..]))
  }

  /** So they do on every disciplined run. */
  lemma {:induction false} WithinLimitsRun(s: State, ops: seq<Op>)
    requires WithinLimits(s) && DisciplinedRun(s, ops)
    ensures WithinLimits(Run(s, ops))
    decreases |ops|
  {
    if ops != [] {
      LimitsExactStep(s, ops[0]);
      WithinLimitsRun(After(s, ops[0]), ops[1..]);
    }
  }

  // ---------- What was handed out ----------

  /** Float handed out by the step. */
  ghost function Handed(s: State, op: Op): nat {
    if op.Authorize? && Admits(s, op.user, op.amount) then op.amount else 0
  }

  /** Float of a live session that an admitted request for the same address erases from the map. */
  ghost function Overwritten(s: State, op: Op): nat {
    if op.Authorize? && Admits(s, op.user, op.amount) then FloatAt(s, op.stealth) else 0
  }

  /** The sessions a pass marks swept. */
  function NewlySwept(s: State, w: World): map<Address, Session> {
    map a | a in s.sessions && Active(s.sessions[a]) && !Active(SessionAfter(s, a, w)) :: s.sessions[a]
  }

  /** Float of the sessions the step marks swept. */
  ghost function Returned(s: State, op: Op): nat {
    match op
    case Complete(a) => FloatAt(s, a)
    case Pass(w) => Sum(NewlySwept(s, w), FloatOf)
    case _ => 0
  }

  /** Float of a swept session that a late failure report makes live again. */
  function Revived(s: State, op: Op): nat {
    if op.RegisterFailure? && op.stealth in s.sessions && !Active(s.sessions[op.stealth])
    then s.sessions[op.stealth].amount else 0
  }

  lemma HandedStep(s: State, op: Op)
    ensures Outstanding(After(s, op)) + Returned(s, op) + Overwritten(s, op) ==
            Outstanding(s) + Handed(s, op) + Revived(s, op)
  {
    match op
    case Authorize(u, a, n) => AuthorizedMeasures(s, u, a, n);
    case Complete(a) =>
      if a in s.sessions { SumPut(s.sessions, FloatOf, a, After(s, op).sessions[a]); }
    case RegisterFailure(a) =>
      if a in s.sessions { SumPut(s.sessions, FloatOf, a, After(s, op).sessions[a]); }
    case Pass(w) => SumLost(s.sessions, After(s, op).sessions, NewlySwept(s, w), FloatOf);
  }

  ghost function TotalHanded(s: State, ops: seq<Op>): nat
    decreases |ops|
  {
    if ops == [] then 0 else Handed(s, ops[0]) + TotalHanded(After(s, ops[0]), ops[1..])
  }

  ghost function TotalOverwritten(s: State, ops: seq<Op>): nat
    decreases |ops|
  {
    if ops == [] then 0 else Overwritten(s, ops[0]) + TotalOverwritten(After(s, ops[0]), ops[1..])
  }

  ghost function TotalReturned(s: State, ops: seq<Op>): nat
    decreases |ops|
  {
    if ops == [] then 0 else Returned(s, ops[0]) + TotalReturned(After(s, ops[0]), ops[1..])
  }

  ghost function TotalRevived(s: State, ops: seq<Op>): nat
    decreases |ops|
  {
    if ops == [] then 0 else Revived(s, ops[0]) + TotalRevived(After(s, ops[0]), ops[1..])
  }

  /** Over any run, to the last unit: all float handed out is recorded as outstanding, was marked swept, or was
      overwritten; late failures bring swept float back. */
  lemma {:induction false} HandedExact(s: State, ops: seq<Op>)
    ensures Outstanding(s) + TotalHanded(s, ops) + TotalRevived(s, ops) ==
            Outstanding(Run(s, ops)) + TotalReturned(s, ops) + TotalOverwritten(s, ops)
    decreases |ops|
  {
    if ops != [] {
      HandedStep(s, ops[0]);
      HandedExact(After(s, ops[0]), ops[1..]);
    }
  }

  /** Every admitted request goes to an address without live float. */
  ghost predicate NeverReuses(s: State, ops: seq<Op>)
    decreases |ops|
  {
    ops == [] || (Overwritten(s, ops[0]) == 0 && NeverReuses(After(s, ops[0]), ops[1..]))
  }

  lemma {:induction false} NothingOverwritten(s: State, ops: seq<Op>)
    ensures TotalOverwritten(s, ops) == 0 <==> NeverReuses(s, ops)
    decreases |ops|
  {
    if ops != [] {
      NothingOverwritten(After(s, ops[0]), ops[1..]);
    }
  }

  /** Hence what is really out, on a disciplined run, is the recorded float plus what was overwritten: the cap
      bounds it when no address is used again while it holds float. */
  lemma ReallyOut(s: State, ops: seq<Op>)
    requires WithinLimits(s) && DisciplinedRun(s, ops)
    ensures var out := Outstanding(s) + TotalHanded(s, ops) - TotalReturned(s, ops);
            && out == Outstanding(Run(s, ops)) + TotalOverwritten(s, ops)
            && Outstanding(Run(s, ops)) <= s.floatLimit
            && (out == Outstanding(Run(s, ops)) <==> NeverReuses(s, ops))
            && (NeverReuses(s, ops) ==> out <= s.floatLimit)
  {
    HandedExact(s, ops);
    WithinLimitsRun(s, ops);
    NoneRevived(s, ops);
    NothingOverwritten(s, ops);
    LimitFixed(s, ops);
  }

  lemma {:induction false} NoneRevived(s: State, ops: seq<Op>)
    requires DisciplinedRun(s, ops)
    ensures TotalRevived(s, ops) == 0
    decreases |ops|
  {
    if ops != [] {
      NoneRevived(After(s, ops[0]), ops[1..]);
    }
  }

  lemma {:induction false} LimitFixed(s: State, ops: seq<Op>)
    ensures Run(s, ops).floatLimit == s.floatLimit
    decreases |ops|
  {
    if ops != [] {
      LimitFixed(After(s, ops[0]), ops[1..]);
    }
  }

  /** An admitted request is recorded in full exactly when its address has no live session with an amount, and
      counted for its user exactly when it has no live session of that user. */
  lemma RecordedInFull(s: State, user: Address, stealth: Address, amount: nat)
    requires Admits(s, user, amount)
    ensures var s' := After(s, Authorize(user, stealth, amount));
            var live := stealth in s.sessions && Active(s.sessions[stealth]);
            && (Outstanding(s') == Outstanding(s) + amount <==> !(live && s.sessions[stealth].amount > 0))
            && (ActiveCount(s', user) == ActiveCount(s, user) + 1 <==> !(live && s.sessions[stealth].user == user))
  {
    AuthorizedMeasures(s, user, stealth, amount);
    SumPut(s.sessions, ActiveOf(user), stealth, Session(user, amount, Dripped, 0));
  }

  function Repeated(op: Op, n: nat): seq<Op> { if n == 0 then [] else [op] + Repeated(op, n - 1) }

  /** A request that is admitted twice for the same address is admitted for ever: each time the amount is handed
      out, and neither the recorded float nor the user's recorded count moves. */
  lemma {:induction false} RepeatedForFree(s: State, user: Address, stealth: Address, amount: nat, n: nat)
    requires stealth in s.sessions && s.sessions[stealth] == Session(user, amount, Dripped, 0)
    requires Admits(s, user, amount)
    ensures var ops := Repeated(Authorize(user, stealth, amount), n);
            && TotalHanded(s, ops) == n * amount && TotalOverwritten(s, ops) == n * amount
            && Run(s, ops) == s
    decreases n
  {
    if n > 0 {
      var op := Authorize(user, stealth, amount);
      assert s.sessions[stealth := Session(user, amount, Dripped, 0)] == s.sessions;
      assert After(s, op) == s;
      assert Repeated(op, n)[1..] == Repeated(op, n - 1);
      RepeatedForFree(s, user, stealth, amount, n - 1);
      assert n * amount == (n - 1) * amount + amount;
    }
  }

  /** From the empty manager, for every cap, every amount of at most half of it and every number of times: all of
      it is handed out, and the recorded float is a single amount. */
  lemma CapEvaded(user: Address, stealth: Address, amount: nat, cap: nat, maxPerUser: nat, maxRetries: nat, n: nat)
    requires 2 * amount <= cap < U128 && maxPerUser >= 2
    ensures var s := State(map[], [], cap, maxPerUser, maxRetries);
            var ops := [Authorize(user, stealth, amount)] + Repeated(Authorize(user, stealth, amount), n);
            && TotalHanded(s, ops) == (n + 1) * amount
            && Outstanding(Run(s, ops)) == amount && ActiveCount(Run(s, ops), user) == 1
  {
    var op := Authorize(user, stealth, amount);
    var s := State(map[], [], cap, maxPerUser, maxRetries);
    var s1 := s.(sessions := map[stealth := Session(user, amount, Dripped, 0)]);
    NoWrap(0);
    NoWrap(amount);
    NoWrap(2 * amount);
    assert After(s, op) == s1;
    SumSplit(s1.sessions, FloatOf, stealth);
    SumSplit(s1.sessions, ActiveOf(user), stealth);
    assert s1.sessions - {stealth} == map[];
    RepeatedForFree(s1, user, stealth, amount, n);
    assert ([op] + Repeated(op, n))[1..] == Repeated(op, n);
    assert (n + 1) * amount == n * amount + amount;
  }

  // ---------- A late failure report ----------

  /** The session map after authorizing the whole cap for `a`, completing it, and authorizing it again for `b`. */
  function Refilled(u: Address, a: Address, b: Address, cap: nat): map<Address, Session> {
    map[a := Session(u, cap, Swept, 0), b := Session(u, cap, Dripped, 0)]
  }

  lemma RefilledMeasures(u: Address, a: Address, b: Address, cap: nat)
    requires a != b
    ensures Sum(Refilled(u, a, b, cap), FloatOf) == cap
    ensures forall v: Address :: Sum(Refilled(u, a, b, cap), ActiveOf(v)) == if v == u then 1 else 0
  {
    var m := Refilled(u, a, b, cap);
    assert m - {a} - {b} == map[];
    SumSplit(m, FloatOf, a);
    SumSplit(m - {a}, FloatOf, b);
    forall v: Address ensures Sum(m, ActiveOf(v)) == if v == u then 1 else 0 {
      SumSplit(m, ActiveOf(v), a);
      SumSplit(m - {a}, ActiveOf(v), b);
    }
  }

  /** From the empty manager, for every cap and user: the float is handed out, swept, and handed out again;
      then a late failure report for the first session doubles what is outstanding. */
  lemma CapExceeded(u: Address, a: Address, b: Address, cap: nat, maxPerUser: nat, maxRetries: nat)
    requires 0 < cap < U128 && 1 <= maxPerUser && a != b
    ensures var s := State(map[], [], cap, maxPerUser, maxRetries);
            var ops := [Authorize(u, a, cap), Complete(a), Authorize(u, b, cap), RegisterFailure(a)];
            && WithinLimits(s)
            && Outstanding(Run(s, ops)) == 2 * cap > cap
            && ActiveCount(Run(s, ops), u) == 2
  {
    var s := State(map[], [], cap, maxPerUser, maxRetries);
    var s1 := s.(sessions := map[a := Session(u, cap, Dripped, 0)]);
    var s2 := s.(sessions := map[a := Session(u, cap, Swept, 0)]);
    var s3 := s.(sessions := Refilled(u, a, b, cap));
    NoWrap(0);
    NoWrap(cap);
    assert After(s, Authorize(u, a, cap)) == s1;
    assert After(s1, Complete(a)) == s2;
    SumSplit(s2.sessions, FloatOf, a);
    SumSplit(s2.sessions, ActiveOf(u), a);
    assert s2.sessions - {a} == map[];
    assert s2.sessions[b := Session(u, cap, Dripped, 0)] == s3.sessions;
    assert After(s2, Authorize(u, b, cap)) == s3;
    RefilledMeasures(u, a, b, cap);
    RevivedFloat(s3, a);
    RunFour(s, Authorize(u, a, cap), Complete(a), Authorize(u, b, cap), RegisterFailure(a));
  }

  lemma RunFour(s: State, p: Op, q: Op, r: Op, t: Op)
    ensures Run(s, [p, q, r, t]) == After(After(After(After(s, p), q), r), t)
  {
    assert [p, q, r, t][1..] == [q, r, t] && [q, r, t][1..] == [r, t] && [r, t][1..] == [t];
    var s3 := After(After(After(s, p), q), r);
    assert Run(s3, [t]) == After(s3, t);
    assert Run(After(s, p), [q, r, t]) == Run(After(After(s, p), q), [r, t]) == Run(s3, [t]);
  }

  // ---------- The queue ----------

  predicate Distinct(q: seq<Address>) { forall i, j :: 0 <= i < j < |q| ==> q[i] != q[j] }

  ghost predicate QueueSound(s: State) {
    Distinct(s.queue) && forall a :: a in s.queue ==> a in s.sessions
  }

  lemma {:induction false} StayingIs(s: State, q: seq<Address>, w: World)
    requires Distinct(q)
    ensures forall a :: a in Staying(s, q, w) <==> a in q && !Leaves(s, a, w)
    ensures Distinct(Staying(s, q, w))
    decreases |q|
  {
    if q != [] {
      StayingIs(s, q[..|q| - 1], w);
      assert q == q[..|q| - 1] + [q[|q| - 1]];
    }
  }

  lemma QueueSoundStep(s: State, op: Op)
    requires QueueSound(s)
    ensures QueueSound(After(s, op))
  {
    match op
    case Pass(w) => StayingIs(s, s.queue, w);
    case _ =>
  }

  /** The queue is duplicate-free and names only known sessions, on every run. */
  lemma {:induction false} QueueSoundRun(s: State, ops: seq<Op>)
    requires QueueSound(s)
    ensures QueueSound(Run(s, ops))
    decreases |ops|
  {
    if ops != [] {
      QueueSoundStep(s, ops[0]);
      QueueSoundRun(After(s, ops[0]), ops[1..]);
    }
  }

  /** A failure that is reported counts once more, reopens the session, and queues it exactly while it has
      retries left; an unknown address is ignored. */
  lemma FailureQueued(s: State, a: Address)
    ensures var s' := FailureRegistered(s, a);
            && (a in s.sessions ==>
                  && a in s'.sessions && s'.sessions[a].status == FailedSweep
                  && s'.sessions[a].retries == s.sessions[a].retries + 1
                  && s'.sessions[a].user == s.sessions[a].user && s'.sessions[a].amount == s.sessions[a].amount
                  && (a in s'.queue <==> a in s.queue || s.sessions[a].retries + 1 <= s.maxRetries))
            && (a !in s.sessions ==> s' == s)
            && s'.sessions.Keys == s.sessions.Keys
            && (forall b :: b != a ==> (b in s'.queue <==> b in s.queue))
            && (forall b :: b in s.sessions && b != a ==> s'.sessions[b] == s.sessions[b])
  {
  }

  /** Completing marks exactly that session, and leaves the queue alone. */
  lemma CompletedMarks(s: State, a: Address)
    ensures var s' := Completed(s, a);
            && s'.queue == s.queue && s'.sessions.Keys == s.sessions.Keys
            && (a in s.sessions ==> s'.sessions[a] == s.sessions[a].(status := Swept))
            && forall b :: b in s.sessions && b != a ==> s'.sessions[b] == s.sessions[b]
  {
  }

  function Passes(s: State, worlds: seq<World>): State
    decreases |worlds|
  {
    if worlds == [] then s else Passes(Passed(s, worlds[0]), worlds[1..])
  }

  /** An address that stays queued has failed once more and still has retries left. */
  lemma StayedQueued(s: State, w: World, a: Address)
    requires QueueSound(s) && a in Passed(s, w).queue
    ensures a in s.queue && Passed(s, w).sessions[a].retries == s.sessions[a].retries + 1 <= s.maxRetries
  {
    StayingIs(s, s.queue, w);
  }

  lemma {:induction false} StillQueued(s: State, worlds: seq<World>, a: Address)
    requires QueueSound(s) && a in Passes(s, worlds).queue
    ensures a in s.queue && a in s.sessions
    ensures worlds != [] ==> s.sessions[a].retries + |worlds| <= s.maxRetries
    decreases |worlds|
  {
    if worlds != [] {
      var s1 := Passed(s, worlds[0]);
      StayingIs(s, s.queue, worlds[0]);
      StillQueued(s1, worlds[1..], a);
      StayedQueued(s, worlds[0], a);
    }
  }

  /** No sweep of `a` succeeds in these passes, and its key is at hand in each. */
  predicate AlwaysFails(worlds: seq<World>, a: Address) {
    forall i :: 0 <= i < |worlds| ==> SweepFails(worlds[i], a)
  }

  lemma FailingPass(s: State, w: World, a: Address)
    requires QueueSound(s) && a in s.queue && SweepFails(w, a)
    ensures a in s.sessions && a in Passed(s, w).sessions
    ensures Passed(s, w).sessions[a].retries == s.sessions[a].retries + 1
    ensures a in Passed(s, w).queue <==> s.sessions[a].retries + 1 <= s.maxRetries
    ensures QueueSound(Passed(s, w)) && Passed(s, w).maxRetries == s.maxRetries
  {
    StayingIs(s, s.queue, w);
  }

  lemma {:induction false} GoneForGood(s: State, worlds: seq<World>, a: Address)
    requires QueueSound(s) && a !in s.queue
    ensures a !in Passes(s, worlds).queue
    decreases |worlds|
  {
    if worlds != [] {
      StayingIs(s, s.queue, worlds[0]);
      GoneForGood(Passed(s, worlds[0]), worlds[1..], a);
    }
  }

  /** A queued sweep that keeps failing is retried exactly until its retries are used up, not once less. */
  lemma {:induction false} RetriedExactly(s: State, worlds: seq<World>, a: Address)
    requires QueueSound(s) && a in s.queue && AlwaysFails(worlds, a) && worlds != []
    ensures a in s.sessions
    ensures a in Passes(s, worlds).queue <==> s.sessions[a].retries + |worlds| <= s.maxRetries
    decreases |worlds|
  {
    var s1 := Passed(s, worlds[0]);
    FailingPass(s, worlds[0], a);
    if |worlds| > 1 {
      if a in s1.queue {
        RetriedExactly(s1, worlds[1..], a);
      } else {
        GoneForGood(s1, worlds[1..], a);
      }
    }
  }

  /** With no new entries, maxRetries + 1 passes empty the queue whatever the sweeps do. */
  lemma QueueDrains(s: State, worlds: seq<World>)
    requires QueueSound(s) && |worlds| > s.maxRetries
    ensures Passes(s, worlds).queue == []
  {
    var q := Passes(s, worlds).queue;
    if q != [] {
      StillQueued(s, worlds, q[0]);
    }
  }

  /** What a pass does to a session: nothing unless it is queued; one more retry exactly when its key was at hand and
      the sweep failed; user and amount never change. */
  lemma PassCounts(s: State, w: World, a: Address)
    requires QueueSound(s) && a in s.sessions
    ensures a in Passed(s, w).sessions
    ensures var x, y := s.sessions[a], Passed(s, w).sessions[a];
            && (a !in s.queue ==> y == x)
            && y.user == x.user && y.amount == x.amount
            && y.retries == x.retries + (if a in s.queue && a in w.wallets && a !in w.sweeps then 1 else 0)
  {
  }

  /** What stays in the queue stays in its order: a pass may be made of the queue piece by piece. */
  lemma {:induction false} StayingConcat(s: State, p: seq<Address>, q: seq<Address>, w: World)
    ensures Staying(s, p + q, w) == Staying(s, p, w) + Staying(s, q, w)
    ensures |p| == 1 ==> Staying(s, p, w) == if Leaves(s, p[0], w) then [] else p
    decreases |q|
  {
    if |p| == 1 {
      assert p[..0] == [];
      assert Staying(s, p, w) == Staying(s, p[..0], w) + (if Leaves(s, p[0], w) then [] else [p[0]]);
    }
    if q == [] {
      assert p + q == p;
    } else {
      assert (p + q)[..|p + q| - 1] == p + q[..|q| - 1];
      StayingConcat(s, p, q[..|q| - 1], w);
    }
  }

  /** What a pass marks as swept: the addresses whose sweep succeeded, but also those whose key is not at
      hand, as long as their retries are not exhausted. */
  lemma MarkedSwept(s: State, w: World, a: Address)
    requires QueueSound(s) && a in s.queue && Active(s.sessions[a])
    ensures !Active(Passed(s, w).sessions[a]) <==>
            (a !in w.wallets || a in w.sweeps) && s.sessions[a].retries <= s.maxRetries
  {
  }

  /** So "marked swept only after a successful sweep" holds exactly when the key is at hand, the sweep
      succeeded anyway, or the retries were already exhausted. */
  lemma SweptMeansSwept(s: State, w: World, a: Address)
    requires QueueSound(s) && a in s.queue && Active(s.sessions[a])
    ensures (!Active(Passed(s, w).sessions[a]) ==> a in w.wallets && a in w.sweeps) <==>
            (a in w.wallets || s.sessions[a].retries > s.maxRetries)
  {
    MarkedSwept(s, w, a);
  }
}

/** The session manager: a map and a queue mutated under locks. */
module SessionManager {
  import opened MapSums
  import opened Words
  import opened SessionModel

  class PrivacySessionManager {
    var sessions: map<Address, Session>
    var queue: seq<Address>
    const floatLimit: nat
    const maxPerUser: nat
    const maxRetries: nat

    ghost function Abs(): State
      reads this
    {
      State(sessions, queue, floatLimit, maxPerUser, maxRetries)
    }

    constructor (floatLimit: nat, maxPerUser: nat)
      requires floatLimit < U128
      ensures WithinLimits(Abs()) && QueueSound(Abs())
      ensures Abs() == State(map[], [], floatLimit, maxPerUser, 5)
    {
      sessions, queue := map[], [];
      this.floatLimit, this.maxPerUser, maxRetries := floatLimit, maxPerUser, 5;
    }

    /** Folds over the sessions: outstanding float (at 128 bits) and the user's active sessions. */
    method Measure(user: Address) returns (outstanding: nat, active: nat)
      ensures outstanding == Wrap128(Outstanding(Abs())) && active == ActiveCount(Abs(), user)
    {
      outstanding, active := 0, 0;
      var rest := sessions;
      ghost var exact: nat := 0;
      while rest != map[]
        invariant outstanding == Wrap128(exact) && exact + Sum(rest, FloatOf) == Sum(sessions, FloatOf)
        invariant active + Sum(rest, ActiveOf(user)) == Sum(sessions, ActiveOf(user))
        decreases |rest|
      {
        var a :| a in rest;
        SumSplit(rest, FloatOf, a);
        SumSplit(rest, ActiveOf(user), a);
        var x := rest[a];
        WrapOnce(exact, FloatOf(x));
        outstanding := Wrap128(outstanding + FloatOf(x));
        exact := exact + FloatOf(x);
        if Active(x) && x.user == user {
          active := active + 1;
        }
        rest := rest - {a};
      }
    }

    method AuthorizeSession(user: Address, stealth: Address, amount: nat) returns (ok: bool)
      modifies this
      ensures ok == Admits(old(Abs()), user, amount)
      ensures Abs() == After(old(Abs()), Authorize(user, stealth, amount))
    {
      var outstanding, active := Measure(user);
      if Wrap128(outstanding + amount) > floatLimit || active >= maxPerUser { return false; }
      sessions := sessions[stealth := Session(user, amount, Dripped, 0)];
      return true;
    }

    method CompleteSession(stealth: Address) returns (ok: bool)
      modifies this
      ensures ok == (stealth in old(sessions)) && Abs() == After(old(Abs()), Complete(stealth))
    {
      if stealth !in sessions { return false; }
      sessions := sessions[stealth := sessions[stealth].(status := Swept)];
      return true;
    }

    method RegisterFailedSweep(stealth: Address) returns (ok: bool)
      modifies this
      ensures ok == (stealth in old(sessions)) && Abs() == After(old(Abs()), RegisterFailure(stealth))
    {
      if stealth !in sessions { return false; }
      var x := sessions[stealth];
      x := x.(status := FailedSweep, retries := x.retries + 1);
      sessions := sessions[stealth := x];
      if x.retries <= maxRetries && stealth !in queue {
        queue := queue + [stealth];
      }
      return true;
    }

    /** First loop: try every queued sweep, count failures, note what leaves the queue. */
    method RetrySweeps(w: World) returns (done: seq<Address>)
      requires QueueSound(Abs())
      modifies this`sessions
      ensures sessions.Keys == old(sessions).Keys
      ensures forall a :: a in sessions ==> sessions[a] == Retried(old(Abs()), a, w)
      ensures forall a :: a in done <==> a in queue && Leaves(old(Abs()), a, w)
    {
      ghost var s := Abs();
      done := [];
      for i := 0 to |queue|
        invariant sessions.Keys == s.sessions.Keys
        invariant forall a :: a in sessions ==>
                    sessions[a] == if a in queue[..i] then Retried(s, a, w) else s.sessions[a]
        invariant forall a :: a in done <==> a in queue[..i] && Leaves(s, a, w)
      {
        var addr := queue[i];
        assert addr in queue && addr !in queue[..i];
        assert queue[..i + 1] == queue[..i] + [addr];
        if addr in w.wallets {
          if addr in w.sweeps {
            done := done + [addr];
          } else {
            var x := sessions[addr].(retries := sessions[addr].retries + 1);
            sessions := sessions[addr := x];
            if x.retries > maxRetries {
              done := done + [addr];
            }
          }
        } else {
          done := done + [addr];
        }
      }
      assert queue[..|queue|] == queue;
    }

    /** `retain`: what was not noted stays, in order. */
    method Retain(done: seq<Address>, ghost s: State, ghost w: World)
      requires forall a :: a in queue ==> (a in done <==> Leaves(s, a, w))
      modifies this`queue
      ensures queue == Staying(s, old(queue), w)
    {
      var kept: seq<Address> := [];
      for i := 0 to |queue|
        invariant kept == Staying(s, queue[..i], w)
      {
        assert queue[..i + 1][..i] == queue[..i];
        assert queue[i] in queue;
        if queue[i] !in done {
          kept := kept + [queue[i]];
        }
      }
      assert queue[..|queue|] == queue;
      queue := kept;
    }

    /** Last loop: complete what left the queue with retries to spare. */
    method CompleteAll(done: seq<Address>)
      modifies this`sessions
      ensures sessions.Keys == old(sessions).Keys
      ensures forall a :: a in sessions ==>
                sessions[a] == if a in done && old(sessions)[a].retries <= maxRetries
                               then old(sessions)[a].(status := Swept) else old(sessions)[a]
    {
      ghost var before := sessions;
      for i := 0 to |done|
        invariant sessions.Keys == before.Keys
        invariant forall a :: a in sessions ==>
                    sessions[a] == if a in done[..i] && before[a].retries <= maxRetries
                                   then before[a].(status := Swept) else before[a]
      {
        var addr := done[i];
        assert done[..i + 1] == done[..i] + [addr];
        if addr in sessions && sessions[addr].retries <= maxRetries {
          sessions := sessions[addr := sessions[addr].(status := Swept)];
        }
      }
      assert done[..|done|] == done;
    }

    method ProcessRetryQueue(w: World)
      requires QueueSound(Abs())
      modifies this
      ensures Abs() == After(old(Abs()), Pass(w))
    {
      ghost var s := Abs();
      var done := RetrySweeps(w);
      Retain(done, s, w);
      CompleteAll(done);
      PassMatches(s, w, done, sessions);
    }
  }

  /** Retrying and then completing what left the queue is one pass. */
  lemma PassMatches(s: State, w: World, done: seq<Address>, result: map<Address, Session>)
    requires result.Keys == s.sessions.Keys
    requires forall a :: a in done <==> a in s.queue && Leaves(s, a, w)
    requires forall a :: a in result ==>
               var x := Retried(s, a, w);
               result[a] == if a in done && x.retries <= s.maxRetries then x.(status := Swept) else x
    ensures result == Passed(s, w).sessions
  {
    forall a | a in s.sessions ensures result[a] == SessionAfter(s, a, w) {
      assert a in result;
    }
  }

  /** The session after its sweep attempt, before completion. */
  function Retried(s: State, a: Address, w: World): Session
    requires a in s.sessions
  {
    if a in s.queue then s.sessions[a].(retries := RetriesAfter(s.sessions[a], a, w)) else s.sessions[a]
  }
}
