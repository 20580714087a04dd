/** The drip funder's fixed-window rate limiter. */
module DripModel {
  import opened Words

  const DAY: nat := 86_400

  datatype State = State(cap: nat, accumulated: nat, lastReset: nat)

  /** A request for `amount` at clock time `now`. */
  datatype Request = Request(now: nat, amount: nat)

  function Windowed(s: State, now: nat): State {
    if s.lastReset == 0 || now >= s.lastReset + DAY then s.(accumulated := 0, lastReset := now) else s
  }

  /** The sum wraps at 128 bits in a release build. */
  predicate Approves(s: State, r: Request) { Wrap128(Windowed(s, r.now).accumulated + r.amount) <= s.cap }

  /** A refused request may still have opened a new window. */
  function After(s: State, r: Request): State {
    var w := Windowed(s, r.now);
    if Approves(s, r) then w.(accumulated := Wrap128(w.accumulated + r.amount)) else w
  }

  /** An approved request, with the opening time of the window it was approved in. */
  datatype Approval = Approval(now: nat, amount: nat, window: nat)

  /** The log after a request. */
  function Logged(s: State, log: seq<Approval>, r: Request): seq<Approval> {
    if Approves(s, r) then log + [Approval(r.now, r.amount, Windowed(s, r.now).lastReset)] else log
  }

  /** What a run approves, appended to what was approved before. */
  function Approved(s: State, rs: seq<Request>, log: seq<Approval>): seq<Approval>
    decreases |rs|
  {
    if rs == [] then log else Approved(After(s, rs[0]), rs[1..], Logged(s, log, rs[0]))
  }

  /** The state after a run. */
  function Final(s: State, rs: seq<Request>): State
    decreases |rs|
  {
    if rs == [] then s else Final(After(s, rs[0]), rs[1..])
  }

  lemma {:induction false} ApprovedSnoc(s: State, rs: seq<Request>, log: seq<Approval>, r: Request)
    ensures Approved(s, rs + [r], log) == Logged(Final(s, rs), Approved(s, rs, log), r)
    ensures Final(s, rs + [r]) == After(Final(s, rs), r)
    decreases |rs|
  {
    if rs == [] {
      assert rs + [r] == [r] && [r][1..] == [];
    } else {
      assert (rs + [r])[1..] == rs[1..] + [r];
      ApprovedSnoc(After(s, rs[0]), rs[1..], Logged(s, log, rs[0]), r);
    }
  }

  /** Nothing approved is ever forgotten. */
  lemma {:induction false} ApprovedExtends(s: State, rs: seq<Request>, log: seq<Approval>)
    ensures log <= Approved(s, rs, log)
    decreases |rs|
  {
    if rs != [] {
      ApprovedExtends(After(s, rs[0]), rs[1..], Logged(s, log, rs[0]));
    }
  }

  // ---------- The test ----------

  /** The test says what it means exactly when the sum does not wrap to within the cap. */
  lemma RequestTestExact(s: State, r: Request)
    requires s.cap < U128
    ensures var sum := Windowed(s, r.now).accumulated + r.amount;
            (Approves(s, r) <==> sum <= s.cap) <==> !(sum >= U128 && Wrap128(sum) <= s.cap)
  {
    NoWrap(Windowed(s, r.now).accumulated + r.amount);
  }

  /** So an approved amount is within the cap, or so large that it wrapped: nothing in between. */
  lemma ApprovedAmount(s: State, r: Request)
    requires s.accumulated <= s.cap < U128 && Approves(s, r)
    ensures r.amount <= s.cap || r.amount + s.cap >= U128
  {
    NoWrap(Windowed(s, r.now).accumulated + r.amount);
  }

  lemma {:induction false} ApprovedAmounts(s: State, rs: seq<Request>, log: seq<Approval>)
    requires s.accumulated <= s.cap < U128
    requires forall a :: a in log ==> a.amount <= s.cap || a.amount + s.cap >= U128
    ensures forall a :: a in Approved(s, rs, log) ==> a.amount <= s.cap || a.amount + s.cap >= U128
    decreases |rs|
  {
    if rs != [] {
      if Approves(s, rs[0]) {
        ApprovedAmount(s, rs[0]);
      }
      ApprovedAmounts(After(s, rs[0]), rs[1..], Logged(s, log, rs[0]));
    }
  }

  /** A window lasts a day from the request that opened it, and any request after that opens the next one, whether
      it is approved or refused. */
  lemma WindowOpened(s: State, r: Request)
    ensures var s' := After(s, r);
            && s'.cap == s.cap
            && s'.lastReset == (if s.lastReset == 0 || r.now >= s.lastReset + 86_400 then r.now else s.lastReset)
            && (!Approves(s, r) ==> s'.accumulated == if s.lastReset == 0 || r.now >= s.lastReset + 86_400 then 0
                                                      else s.accumulated)
  {
  }

  // ---------- Totals ----------

  /** The approved amounts that `which` selects. */
  function Total(log: seq<Approval>, which: Approval -> bool): nat {
    if log == [] then 0 else
      Total(log[..|log| - 1], which) + (if which(log[|log| - 1]) then log[|log| - 1].amount else 0)
  }

  /** Approved within the closed span of a day that starts at `t`. */
  function InSpan(t: nat): Approval -> bool { (a: Approval) => t <= a.now <= t + 86_400 }

  /** Approved in the window opened at `w`. */
  function InWindow(w: nat): Approval -> bool { (a: Approval) => a.window == w }

  function Both(p: Approval -> bool, q: Approval -> bool): Approval -> bool { (a: Approval) => p(a) && q(a) }

  function Not(p: Approval -> bool): Approval -> bool { (a: Approval) => !p(a) }

  function Spent(log: seq<Approval>, t: nat): nat { Total(log, InSpan(t)) }

  /** Spent in the span within the window opened at `w`, and outside that window. */
  function Part(log: seq<Approval>, t: nat, w: nat): nat { Total(log, Both(InSpan(t), InWindow(w))) }

  function Rest(log: seq<Approval>, t: nat, w: nat): nat { Total(log, Both(InSpan(t), Not(InWindow(w)))) }

  lemma TotalMore(log: seq<Approval>, a: Approval, which: Approval -> bool)
    ensures Total(log + [a], which) == Total(log, which) + if which(a) then a.amount else 0
  {
    assert (log + [a])[..|log|] == log;
  }

  lemma {:induction false} TotalMonotone(log: seq<Approval>, p: Approval -> bool, q: Approval -> bool)
    requires forall i :: 0 <= i < |log| && p(log[i]) ==> q(log[i])
    ensures Total(log, p) <= Total(log, q)
  {
    if log != [] {
      TotalMonotone(log[..|log| - 1], p, q);
    }
  }

  lemma {:induction false} TotalSplit(log: seq<Approval>, p: Approval -> bool, q: Approval -> bool)
    ensures Total(log, p) == Total(log, Both(p, q)) + Total(log, Both(p, Not(q)))
  {
    if log != [] {
      TotalSplit(log[..|log| - 1], p, q);
    }
  }

  /** One selected amount never exceeds the total. */
  lemma {:induction false} TotalAtLeast(log: seq<Approval>, which: Approval -> bool, i: nat)
    requires i < |log| && which(log[i])
    ensures log[i].amount <= Total(log, which)
    decreases |log|
  {
    if i < |log| - 1 {
      TotalAtLeast(log[..|log| - 1], which, i);
    }
  }

  // ---------- Windows ----------

  /** A monotone, positive clock. */
  predicate Clock(rs: seq<Request>, from: nat) {
    && (forall i :: 0 <= i < |rs| ==> 0 < rs[i].now && from <= rs[i].now)
    && (forall i, j :: 0 <= i < j < |rs| ==> rs[i].now <= rs[j].now)
  }

  /** No approved amount was large enough to wrap a sum within the cap. */
  predicate Unwrapped(log: seq<Approval>, cap: nat) { forall a :: a in log ==> a.amount + cap < U128 }

  /** Every approval falls inside its window, and two windows are the same or a day apart. */
  predicate Windows(log: seq<Approval>) {
    && (forall i :: 0 <= i < |log| ==> log[i].window <= log[i].now < log[i].window + DAY)
    && (forall i, j :: 0 <= i < j < |log| ==> Apart(log[i].window, log[j].window))
  }

  predicate Apart(w: nat, w': nat) { w == w' || w + DAY <= w' }

  /** What the state knows about the approvals so far: `accumulated` is the current window's total, and no
      window exceeds the cap. */
  ghost predicate Accounts(s: State, log: seq<Approval>) {
    && Windows(log)
    && (forall i :: 0 <= i < |log| ==> Apart(log[i].window, s.lastReset))
    && (s.lastReset == 0 ==> log == [])
    && Total(log, InWindow(s.lastReset)) == s.accumulated
    && forall w: nat :: Total(log, InWindow(w)) <= s.cap
  }

  lemma {:induction false} NoneIn(log: seq<Approval>, which: Approval -> bool)
    requires forall i :: 0 <= i < |log| ==> !which(log[i])
    ensures Total(log, which) == 0
  {
    if log != [] {
      NoneIn(log[..|log| - 1], which);
    }
  }

  lemma AccountsReset(s: State, log: seq<Approval>, now: nat)
    requires Accounts(s, log) && 0 < now
    ensures Accounts(Windowed(s, now), log)
  {
    var w := Windowed(s, now);
    if w != s {
      NoneIn(log, InWindow(now));
    }
  }

  lemma AccountsApprove(s: State, log: seq<Approval>, r: Request)
    requires Accounts(s, log) && s.lastReset > 0 && s.lastReset <= r.now < s.lastReset + DAY
    requires s.accumulated + r.amount <= s.cap
    ensures Accounts(s.(accumulated := s.accumulated + r.amount), log + [Approval(r.now, r.amount, s.lastReset)])
  {
    var a := Approval(r.now, r.amount, s.lastReset);
    forall w: nat
      ensures Total(log + [a], InWindow(w)) == Total(log, InWindow(w)) + if w == s.lastReset then r.amount else 0
    {
      TotalMore(log, a, InWindow(w));
    }
    forall w: nat ensures Total(log + [a], InWindow(w)) <= s.cap {
      assert Total(log, InWindow(w)) <= s.cap;
    }
  }

  lemma AccountsStep(s: State, log: seq<Approval>, r: Request)
    requires s.cap < U128 && Accounts(s, log) && 0 < r.now && s.lastReset <= r.now
    requires Approves(s, r) ==> r.amount + s.cap < U128
    ensures Accounts(After(s, r), Logged(s, log, r))
    ensures After(s, r).cap == s.cap && After(s, r).lastReset <= r.now
  {
    var w := Windowed(s, r.now);
    AccountsReset(s, log, r.now);
    assert Total(log, InWindow(w.lastReset)) <= w.cap;
    NoWrap(w.accumulated + r.amount);
    if Approves(s, r) {
      AccountsApprove(w, log, r);
    }
  }

  lemma {:induction false} AccountsRun(s: State, rs: seq<Request>, log: seq<Approval>)
    requires s.cap < U128 && Accounts(s, log) && Clock(rs, s.lastReset) && Unwrapped(Approved(s, rs, log), s.cap)
    ensures Accounts(Final(s, rs), Approved(s, rs, log)) && Final(s, rs).cap == s.cap
    decreases |rs|
  {
    if rs != [] {
      var log' := Logged(s, log, rs[0]);
      ApprovedExtends(After(s, rs[0]), rs[1..], log');
      if Approves(s, rs[0]) {
        assert log'[|log|] in Approved(s, rs, log);
      }
      AccountsStep(s, log, rs[0]);
      ClockRest(rs, s.lastReset, After(s, rs[0]).lastReset);
      AccountsRun(After(s, rs[0]), rs[1..], log');
    }
  }

  lemma ClockRest(rs: seq<Request>, from: nat, from': nat)
    requires rs != [] && Clock(rs, from) && from' <= rs[0].now
    ensures Clock(rs[1..], from')
  {
    forall i | 0 <= i < |rs[1..]| ensures from' <= rs[1..][i].now {
      assert rs[0].now <= rs[i + 1].now;
    }
  }

  // ---------- A day's total ----------

  /** Approvals of one span that were all made in windows open at time `t` share one window. */
  lemma OneWindow(log: seq<Approval>, t: nat, which: Approval -> bool, cap: nat)
    requires Windows(log) && forall w: nat :: Total(log, InWindow(w)) <= cap
    requires forall i :: 0 <= i < |log| && which(log[i]) ==> t <= log[i].now && log[i].window <= t
    ensures Total(log, which) <= cap
  {
    if i :| 0 <= i < |log| && which(log[i]) {
      var w := log[i].window;
      forall k | 0 <= k < |log| && which(log[k]) ensures log[k].window == w {
        assert Apart(log[k].window, w) || Apart(w, log[k].window);
      }
      TotalMonotone(log, which, InWindow(w));
      assert Total(log, InWindow(w)) <= cap;
    } else {
      NoneIn(log, which);
    }
  }

  function New(cap: nat): State { State(cap, 0, 0) }

  /** The log of a run of a new funder. */
  function LogOf(cap: nat, rs: seq<Request>): seq<Approval> { Approved(New(cap), rs, []) }

  lemma LogFacts(cap: nat, rs: seq<Request>)
    requires cap < U128 && Clock(rs, 0) && Unwrapped(LogOf(cap, rs), cap)
    ensures Windows(LogOf(cap, rs)) && forall w: nat :: Total(LogOf(cap, rs), InWindow(w)) <= cap
  {
    AccountsRun(New(cap), rs, []);
  }

  /** The daily cap holds of every span in which no window that opened after its start approved anything. */
  lemma CapWithinWindow(cap: nat, rs: seq<Request>, t: nat)
    requires cap < U128 && Clock(rs, 0) && Unwrapped(LogOf(cap, rs), cap)
    requires forall a :: a in LogOf(cap, rs) && InSpan(t)(a) ==> a.window <= t
    ensures Spent(LogOf(cap, rs), t) <= cap
  {
    LogFacts(cap, rs);
    var log := LogOf(cap, rs);
    forall i | 0 <= i < |log| && InSpan(t)(log[i]) ensures log[i].window <= t { assert log[i] in log; }
    OneWindow(log, t, InSpan(t), cap);
  }

  /** When a window did open within the span, there is just one, at `w`: the day's total is what it approved
      plus what one earlier window did, each within the cap. */
  lemma CapAcrossReset(cap: nat, rs: seq<Request>, t: nat, w: nat)
    requires cap < U128 && Clock(rs, 0) && Unwrapped(LogOf(cap, rs), cap) && t < w
    requires exists a :: a in LogOf(cap, rs) && InSpan(t)(a) && a.window == w
    ensures var log := LogOf(cap, rs);
            && Spent(log, t) == Part(log, t, w) + Rest(log, t, w)
            && Part(log, t, w) <= cap && Rest(log, t, w) <= cap
            && (forall a :: a in log && InSpan(t)(a) && a.window != w ==> a.window <= t && a.now < w)
  {
    LogFacts(cap, rs);
    var log := LogOf(cap, rs);
    var rest := Both(InSpan(t), Not(InWindow(w)));
    TotalSplit(log, InSpan(t), InWindow(w));
    TotalMonotone(log, Both(InSpan(t), InWindow(w)), InWindow(w));
    assert Total(log, InWindow(w)) <= cap;
    var j :| 0 <= j < |log| && InSpan(t)(log[j]) && log[j].window == w;
    forall i | 0 <= i < |log| && rest(log[i]) ensures log[i].window <= t && log[i].now < w {
      assert Apart(log[i].window, w) || Apart(w, log[i].window);
    }
    OneWindow(log, t, rest, cap);
    forall a | a in log && InSpan(t)(a) && a.window != w ensures a.window <= t && a.now < w {
      var i :| 0 <= i < |log| && log[i] == a;
      assert rest(log[i]);
    }
  }

  lemma {:induction false} TimesBounded(s: State, rs: seq<Request>, log: seq<Approval>, t: nat)
    requires forall a :: a in log ==> a.now <= t
    requires forall i :: 0 <= i < |rs| ==> rs[i].now <= t
    ensures forall a :: a in Approved(s, rs, log) ==> a.now <= t
    decreases |rs|
  {
    if rs != [] {
      TimesBounded(After(s, rs[0]), rs[1..], Logged(s, log, rs[0]), t);
    }
  }

  /** What the accumulator does not see. When a request is approved, the total of the day that ends with it is
      the accumulator plus what earlier windows approved during that day. So the daily cap holds at that moment
      exactly when those earlier approvals fit beside the accumulator. */
  lemma DayAtApproval(cap: nat, rs: seq<Request>, r: Request)
    requires cap < U128 && Clock(rs + [r], 0) && r.now >= DAY && Approves(Final(New(cap), rs), r)
    requires Unwrapped(LogOf(cap, rs + [r]), cap)
    ensures var before, s', t := LogOf(cap, rs), Final(New(cap), rs + [r]), r.now - DAY;
            && Spent(LogOf(cap, rs + [r]), t) == s'.accumulated + Rest(before, t, s'.lastReset)
            && s'.accumulated <= cap
  {
    var before, log, t := LogOf(cap, rs), LogOf(cap, rs + [r]), r.now - DAY;
    var s' := Final(New(cap), rs + [r]);
    var w := s'.lastReset;
    ApprovedSnoc(New(cap), rs, [], r);
    AccountsRun(New(cap), rs + [r], []);
    forall i | 0 <= i < |rs + [r]| ensures (rs + [r])[i].now <= r.now {
      assert (rs + [r])[|rs|] == r;
    }
    TimesBounded(New(cap), rs + [r], [], r.now);
    var a := log[|before|];
    assert log == before + [a] && a == Approval(r.now, r.amount, w);
    assert log[|before|].window + DAY > r.now;
    forall i | 0 <= i < |log| && InWindow(w)(log[i]) ensures InSpan(t)(log[i]) { assert log[i] in log; }
    TotalMonotone(log, InWindow(w), Both(InSpan(t), InWindow(w)));
    TotalMonotone(log, Both(InSpan(t), InWindow(w)), InWindow(w));
    TotalSplit(log, InSpan(t), InWindow(w));
    TotalMore(before, a, Both(InSpan(t), Not(InWindow(w))));
  }

  /** With a monotone positive clock and no wrapped sum, no span of 86,400 seconds sees more than twice the cap. */
  lemma TwiceTheCap(cap: nat, rs: seq<Request>, t: nat)
    requires cap < U128 && Clock(rs, 0) && Unwrapped(LogOf(cap, rs), cap)
    ensures Spent(LogOf(cap, rs), t) <= 2 * cap
  {
    var log := LogOf(cap, rs);
    if forall a :: a in log && InSpan(t)(a) ==> a.window <= t {
      CapWithinWindow(cap, rs, t);
    } else {
      var a :| a in log && InSpan(t)(a) && a.window > t;
      CapAcrossReset(cap, rs, t, a.window);
    }
  }

  /** Every window keeps the cap exactly when no approved amount exceeds it. */
  lemma WindowCapIff(cap: nat, rs: seq<Request>)
    requires 2 * cap < U128 && Clock(rs, 0)
    ensures (forall w: nat :: Total(LogOf(cap, rs), InWindow(w)) <= cap) <==>
            (forall a :: a in LogOf(cap, rs) ==> a.amount <= cap)
  {
    var log := LogOf(cap, rs);
    if forall a :: a in log ==> a.amount <= cap {
      LogFacts(cap, rs);
    }
    if forall w: nat :: Total(log, InWindow(w)) <= cap {
      forall a | a in log ensures a.amount <= cap {
        var i :| 0 <= i < |log| && log[i] == a;
        TotalAtLeast(log, InWindow(a.window), i);
        assert Total(log, InWindow(a.window)) <= cap;
      }
    }
  }

  /** And every day stays within twice the cap exactly when no approved amount exceeds the cap. */
  lemma TwiceIff(cap: nat, rs: seq<Request>)
    requires 3 * cap < U128 && Clock(rs, 0)
    ensures (forall t: nat :: Spent(LogOf(cap, rs), t) <= 2 * cap) <==>
            (forall a :: a in LogOf(cap, rs) ==> a.amount <= cap)
  {
    var log := LogOf(cap, rs);
    if forall a :: a in log ==> a.amount <= cap {
      forall t: nat ensures Spent(log, t) <= 2 * cap { TwiceTheCap(cap, rs, t); }
    }
    if forall t: nat :: Spent(log, t) <= 2 * cap {
      ApprovedAmounts(New(cap), rs, []);
      forall a | a in log ensures a.amount <= cap {
        var i :| 0 <= i < |log| && log[i] == a;
        TotalAtLeast(log, InSpan(a.now), i);
        assert Spent(log, a.now) <= 2 * cap;
      }
    }
  }

  /** That can fail: whatever the cap, one unit and then 2^128 - 1 units are approved within two seconds. */
  lemma WrappedApproved(cap: nat)
    requires 0 < cap < U128
    ensures var rs := [Request(1, 1), Request(2, U128 - 1)];
            && Clock(rs, 0) && Spent(LogOf(cap, rs), 1) == U128
            && LogOf(cap, rs) == [Approval(1, 1, 1), Approval(2, U128 - 1, 1)]
  {
    var r0, r1, a0, a1 := Request(1, 1), Request(2, U128 - 1), Approval(1, 1, 1), Approval(2, U128 - 1, 1);
    NoWrap(1);
    Remainder(U128, 1, 0);
    var s1 := State(cap, 1, 1);
    assert After(New(cap), r0) == s1 && Logged(New(cap), [], r0) == [a0];
    assert Logged(s1, [a0], r1) == [a0, a1];
    assert Approved(s1, [r1], [a0]) == [a0, a1];
    assert [r0, r1][1..] == [r1];
    TotalMore([], a0, InSpan(1));
    TotalMore([a0], a1, InSpan(1));
    assert [] + [a0] == [a0] && [a0] + [a1] == [a0, a1];
  }

  /** And twice is reached: a full cap just before the window ends and another just after, one second apart. */
  lemma TwiceIsReached(cap: nat)
    requires 2 * cap < U128
    ensures var rs := [Request(1, 0), Request(DAY, cap), Request(DAY + 1, cap)];
            Clock(rs, 0) && Spent(LogOf(cap, rs), DAY) == 2 * cap
  {
    var r0, r1, r2 := Request(1, 0), Request(DAY, cap), Request(DAY + 1, cap);
    var a0, a1, a2 := Approval(1, 0, 1), Approval(DAY, cap, 1), Approval(DAY + 1, cap, DAY + 1);
    TwiceLogged(cap);
    TotalMore([], a0, InSpan(DAY));
    TotalMore([a0], a1, InSpan(DAY));
    TotalMore([a0, a1], a2, InSpan(DAY));
    assert [] + [a0] == [a0] && [a0] + [a1] == [a0, a1] && [a0, a1] + [a2] == [a0, a1, a2];
  }

  lemma TwiceLogged(cap: nat)
    requires 2 * cap < U128
    ensures LogOf(cap, [Request(1, 0), Request(DAY, cap), Request(DAY + 1, cap)]) ==
            [Approval(1, 0, 1), Approval(DAY, cap, 1), Approval(DAY + 1, cap, DAY + 1)]
  {
    var r0, r1, r2 := Request(1, 0), Request(DAY, cap), Request(DAY + 1, cap);
    var a0, a1, a2 := Approval(1, 0, 1), Approval(DAY, cap, 1), Approval(DAY + 1, cap, DAY + 1);
    NoWrap(0);
    NoWrap(cap);
    var s0 := State(cap, 0, 0);
    assert After(s0, r0) == State(cap, 0, 1) && Logged(s0, [], r0) == [a0];
    var s1 := State(cap, 0, 1);
    assert After(s1, r1) == State(cap, cap, 1) && Logged(s1, [a0], r1) == [a0, a1];
    var s2 := State(cap, cap, 1);
    assert Logged(s2, [a0, a1], r2) == [a0, a1, a2];
    assert Approved(s2, [r2], [a0, a1]) == [a0, a1, a2];
    assert Approved(s1, [r1, r2], [a0]) == [a0, a1, a2] by { assert [r1, r2][1..] == [r2]; }
    assert [r0, r1, r2][1..] == [r1, r2];
  }
}

module DripFunder {
  import opened Words
  import opened DripModel

  class Funder {
    const cap: nat
    var accumulated: nat
    var lastReset: nat

    ghost function Abs(): State
      reads this
    {
      State(cap, accumulated, lastReset)
    }

    constructor (cap: nat)
      ensures Abs() == State(cap, 0, 0)
    {
      this.cap, accumulated, lastReset := cap, 0, 0;
    }

    method CheckAndIncrementDrip(now: nat, amount: nat) returns (ok: bool)
      modifies this
      ensures ok == Approves(old(Abs()), Request(now, amount))
      ensures Abs() == After(old(Abs()), Request(now, amount))
    {
      if lastReset == 0 || now >= lastReset + DAY {
        accumulated := 0;
        lastReset := now;
      }
      var sum := Wrap128(accumulated + amount);
      if sum > cap { return false; }
      accumulated := sum;
      return true;
    }
  }
}
