/** Intents of all three kinds: terms fixed at creation, closed once, and closed properly. */
module SchedulerIntents {
  import opened MapSums
  import opened SchedulerModel
  import opened SchedulerLedger
  import opened SchedulerTheorems
  import M = Merkle

  // ---------- Intents ----------

  /** The owner gets at least the wanted amount of the wanted token. */
  predicate Receives(ms: seq<Move>, owner: Address, w: Want) {
    exists i :: 0 <= i < |ms| && ms[i].dst == Outside(owner) && ms[i].token == Esdt(w.token)
                && ms[i].why == Delivery && ms[i].amount >= w.minReturn
  }

  /** How an open intent may close: cancelled by its owner, who gets back exactly what was deposited;
      or settled by a solver who delivers every requested token and takes the deposit. */
  ghost predicate Closes(s: State, op: Op, id: IntentId) {
    && id in s.intents.byId && s.intents.byId[id].status == Open && id in After(s, op).intents.byId
    && var x, status, ms := s.intents.byId[id], After(s, op).intents.byId[id].status, MovesOf(s, op);
      && op.OnIntent?
      && (|| (&& op.i == CancelIntent(x.owner, id) && status == Cancelled
              && ms == [Move(Esdt(x.tokenIn), OfIntent(id), Outside(x.owner), x.amountIn, Refund),
                        Move(Egld, OfIntent(id), Outside(x.owner), x.fee, Refund)])
          || (&& op.i.SolveIntent? && op.i.id == id && status == Settled(op.i.caller)
              && op.i.now <= x.deadline && Proven(s.codec, x.terms, op.i.opening)
              && (forall k :: 0 <= k < |ms| && ms[k].src == OfIntent(id) ==> ms[k].dst == Outside(op.i.caller))
              && forall w :: w in WantsOf(x.terms, op.i.opening) ==> Receives(ms, x.owner, w)))
  }

  lemma SolveDelivers(ps: seq<Payment>, src: Address, owner: Address, wants: seq<Want>, tail: seq<Move>, w: Want)
    requires Meets(ps, wants) && w in wants
    ensures Receives(Deliveries(ps, src, owner) + tail, owner, w)
  {
    var k :| 0 <= k < |wants| && wants[k] == w;
    var ms := Deliveries(ps, src, owner) + tail;
    assert ms[k] == Move(Esdt(ps[k].token), Outside(src), Outside(owner), ps[k].amount, Delivery);
  }

  /** One step: an intent's terms never change, a closed intent is untouched, and an open one stays
      open unless it closes properly. */
  lemma IntentStep(s: State, op: Op, id: IntentId)
    requires NoncesFresh(s) && id in s.intents.byId
    ensures id in After(s, op).intents.byId
    ensures After(s, op).intents.byId[id] == s.intents.byId[id] || Closes(s, op, id)
    ensures s.intents.byId[id].status != Open ==> After(s, op).intents.byId[id] == s.intents.byId[id]
  {
    Outcome(s, op);
    match op
    case OnTask(call) => TaskFrame(s, call);
    case OnKey(call) => KeyFrame(s, call);
    case OnFees(call) => FeesFrame(s, call);
    case OnIntent(call) =>
      match call {
        case CreateIntent(_, _, _, _, _, _, _, _, _) =>
        case CancelIntent(_, _) =>
        case SolveIntent(c, key, ps, opening, _, _) =>
          if Step(s, op).Done? && key == id {
            var x := s.intents.byId[id];
            var tail := [Move(Esdt(x.tokenIn), OfIntent(id), Outside(c), x.amountIn, Bounty),
                         Move(Egld, OfIntent(id), Outside(c), x.fee, Bounty)];
            forall w | w in WantsOf(x.terms, opening) ensures Receives(MovesOf(s, op), x.owner, w) {
              SolveDelivers(ps, c, x.owner, WantsOf(x.terms, opening), tail, w);
            }
          }
      }
  }

  /** From creation on, an intent's record names its depositor, its deposit and its terms; only the
      status ever changes. With `Closes`, whoever deposited is whoever is paid or refunded. */
  lemma CreatedAsDeposited(s: State, call: IntentCall, ops: seq<Op>)
    requires Inv(s) && call.CreateIntent? && Step(s, OnIntent(call)).Done?
    ensures var id := IntentId(KindOf(call.terms), Get(s.intents.nonces, KindOf(call.terms)) + 1);
            var e := Run(After(s, OnIntent(call)), ops);
            && id !in s.intents.byId && id in e.intents.byId
            && e.intents.byId[id] == Intent(call.caller, call.tokenIn, call.amountIn, call.terms, call.deadline,
                                            call.fee, e.intents.byId[id].status)
            && call.attached == call.fee
  {
    var id := IntentId(KindOf(call.terms), Get(s.intents.nonces, KindOf(call.terms)) + 1);
    InvStep(s, OnIntent(call));
    RecordFixed(After(s, OnIntent(call)), ops, id);
  }

  lemma {:induction false} RecordFixed(s: State, ops: seq<Op>, id: IntentId)
    requires NoncesFresh(s) && id in s.intents.byId
    ensures id in Run(s, ops).intents.byId
    ensures var x := Run(s, ops).intents.byId[id]; x == s.intents.byId[id].(status := x.status)
    decreases |ops|
  {
    if ops != [] {
      IntentStep(s, ops[0], id);
      StatusOnly(s, ops[0], id);
      NoncesFreshStep(s, ops[0]);
      RecordFixed(After(s, ops[0]), ops[1..], id);
    }
  }

  lemma StatusOnly(s: State, op: Op, id: IntentId)
    requires NoncesFresh(s) && id in s.intents.byId && id in After(s, op).intents.byId
    ensures var x := After(s, op).intents.byId[id]; x == s.intents.byId[id].(status := x.status)
  {
    Outcome(s, op);
    match op
    case OnTask(call) => TaskFrame(s, call);
    case OnKey(call) => KeyFrame(s, call);
    case OnFees(call) => FeesFrame(s, call);
    case OnIntent(call) =>
      match call {
        case CreateIntent(_, _, _, _, _, _, _, _, _) =>
        case CancelIntent(_, _) =>
        case SolveIntent(_, _, _, _, _, _) =>
      }
  }

  /** A closed intent is closed for ever. */
  lemma {:induction false} ClosedForever(s: State, ops: seq<Op>, id: IntentId)
    requires NoncesFresh(s) && id in s.intents.byId && s.intents.byId[id].status != Open
    ensures id in Run(s, ops).intents.byId && Run(s, ops).intents.byId[id] == s.intents.byId[id]
    decreases |ops|
  {
    if ops != [] {
      IntentStep(s, ops[0], id);
      NoncesFreshStep(s, ops[0]);
      ClosedForever(After(s, ops[0]), ops[1..], id);
    }
  }

  lemma RunShift(s: State, ops: seq<Op>, m: nat)
    requires 1 <= m <= |ops|
    ensures Run(s, ops[..m]) == Run(After(s, ops[0]), ops[1..][..m - 1])
  {
    assert ops[..m][0] == ops[0] && ops[..m][1..] == ops[1..][..m - 1];
  }

  /** An open intent that ends closed was closed by exactly one step, and properly. */
  lemma {:induction false} ClosedOnce(s: State, ops: seq<Op>, id: IntentId)
    requires NoncesFresh(s) && id in s.intents.byId && s.intents.byId[id].status == Open
    requires id in Run(s, ops).intents.byId && Run(s, ops).intents.byId[id].status != Open
    ensures exists k :: 0 <= k < |ops| && Closes(Run(s, ops[..k]), ops[k], id)
    ensures forall k, m :: 0 <= k < m < |ops| && Closes(Run(s, ops[..k]), ops[k], id) ==>
                             !Closes(Run(s, ops[..m]), ops[m], id)
    decreases |ops|
  {
    var s1, rest := After(s, ops[0]), ops[1..];
    IntentStep(s, ops[0], id);
    NoncesFreshStep(s, ops[0]);
    forall m | 1 <= m < |ops| ensures Run(s, ops[..m]) == Run(s1, rest[..m - 1]) && ops[m] == rest[m - 1] {
      RunShift(s, ops, m);
    }
    assert Run(s, ops[..0]) == s;
    if s1.intents.byId[id].status != Open {
      forall m | 1 <= m < |ops| ensures !Closes(Run(s, ops[..m]), ops[m], id) {
        ClosedForever(s1, rest[..m - 1], id);
      }
    } else {
      assert !Closes(s, ops[0], id);
      ClosedOnce(s1, rest, id);
      var k :| 0 <= k < |rest| && Closes(Run(s1, rest[..k]), rest[k], id);
      assert Closes(Run(s, ops[..k + 1]), ops[k + 1], id);
      forall k, m | 0 <= k < m < |ops| && Closes(Run(s, ops[..k]), ops[k], id)
        ensures !Closes(Run(s, ops[..m]), ops[m], id)
      {
        assert k > 0;
      }
    }
  }

  lemma {:induction false} WeightlessSum<K, V>(m: map<K, V>, w: V -> nat)
    requires forall k :: k in m ==> w(m[k]) == 0
    ensures Sum(m, w) == 0
    decreases |m|
  {
    if m != map[] {
      var k :| k in m;
      SumSplit(m, w, k);
      WeightlessSum(m - {k}, w);
    }
  }

  lemma {:induction false} UnassignedIsEgld(ms: seq<Move>, t: nat)
    requires AllLegal(ms)
    ensures Flow(ms, Unassigned, Esdt(t)) == 0
    decreases |ms|
  {
    if ms != [] {
      assert Legal(ms[0]);
      UnassignedIsEgld(ms[1..], t);
    }
  }

  /** The amount of token `t` an open intent has locked. */
  function LockedIn(t: nat): Intent -> nat {
    (x: Intent) => if x.status == Open && x.tokenIn == t then x.amountIn else 0
  }

  /** For every fungible token, the contract holds exactly the inputs of the open intents. */
  lemma EscrowExact(s: State, ops: seq<Op>, t: nat)
    requires Inv(s) && Slack(s, Esdt(t)) == 0
    ensures Get(Run(s, ops).funds, Esdt(t)) == Sum(Run(s, ops).intents.byId, LockedIn(t))
  {
    var e := Run(s, ops);
    SolvencyRun(s, ops, Esdt(t));
    LegalRun(s, ops);
    UnassignedIsEgld(Journal(s, ops), t);
    WeightlessSum(e.book.tasks, TaskHolds(Esdt(t)));
    WeightlessSum(e.keys.props, KeyHolds(Esdt(t)));
    SumCongruent(e.intents.byId, IntentHolds(Esdt(t)), LockedIn(t));
  }

  // ---------- Committed trees ----------

  lemma CodecFixedStep(s: State, op: Op)
    ensures After(s, op).codec == s.codec
  {
    Outcome(s, op);
    match op
    case OnTask(call) => TaskFrame(s, call);
    case OnKey(call) => KeyFrame(s, call);
    case OnIntent(call) => IntentFrame(s, call);
    case OnFees(call) => FeesFrame(s, call);
  }

  lemma {:induction false} CodecFixed(s: State, ops: seq<Op>)
    ensures Run(s, ops).codec == s.codec
    decreases |ops|
  {
    if ops != [] {
      CodecFixedStep(s, ops[0]);
      CodecFixed(After(s, ops[0]), ops[1..]);
    }
  }

  function RootOf(c: Codec, plan: M.Plan): M.Digest { M.Root(c.hash, M.Sealed(c.hash, plan)) }

  /** The plan's entries are the encodings of the committed leaves. */
  ghost predicate Commits(c: Codec, plan: M.Plan, committed: set<Leaf>) {
    forall e :: e in M.Entries(plan) ==> exists leaf :: leaf in committed && c.encode(leaf) == e
  }

  /** For this opening the commitment binds: nothing hashed collides, no encoding looks like an interior
      node, and no committed leaf shares the shown leaf's encoding without being that leaf. */
  ghost predicate Binding(c: Codec, plan: M.Plan, committed: set<Leaf>, o: Opening) {
    && M.Honest(c.hash, plan, c.encode(o.leaf), o.proof)
    && !M.NodeLike(c.encode(o.leaf))
    && forall leaf :: leaf in committed && c.encode(leaf) == c.encode(o.leaf) ==> leaf == o.leaf
  }

  /** A solver cannot make up a leaf: a proof accepted against the committed root, of whatever length, shows
      a committed leaf. */
  lemma ShownIsCommitted(c: Codec, plan: M.Plan, committed: set<Leaf>, o: Opening)
    requires Commits(c, plan, committed) && Binding(c, plan, committed, o)
    requires Proven(c, Tree(RootOf(c, plan)), Some(o))
    ensures o.leaf in committed
  {
    M.AcceptedIsCommitted(c.hash, plan, c.encode(o.leaf), o.proof);
  }

  /** Exactly when a solver's call on a tree intent is carried out: in time, with the sibling path of an entry
      the owner committed to, and at least the amount of the token that the entry asks for. */
  lemma TreeSolvableIff(s: State, c: Address, id: IntentId, pay: Payment, o: Opening, now: nat, plan: M.Plan)
    requires Inv(s) && id in s.intents.byId && s.intents.byId[id].terms == Tree(RootOf(s.codec, plan))
    requires M.Honest(s.codec.hash, plan, s.codec.encode(o.leaf), o.proof)
    ensures Step(s, OnIntent(SolveIntent(c, id, [pay], Some(o), now, true))).Done? <==>
              && s.intents.byId[id].status == Open && now <= s.intents.byId[id].deadline
              && M.Opens(s.codec.hash, plan, s.codec.encode(o.leaf), o.proof)
              && pay.token == o.leaf.want.token && pay.amount >= o.leaf.want.minReturn
  {
    NeverShort(s, OnIntent(SolveIntent(c, id, [pay], Some(o), now, true)));
    M.AcceptedIffOpens(s.codec.hash, plan, s.codec.encode(o.leaf), o.proof);
    assert WantsOf(s.intents.byId[id].terms, Some(o)) == [o.leaf.want];
  }

  /** The solver of intent `id` showed a committed leaf and delivered what it asks for. */
  ghost predicate DeliversLeaf(s: State, op: Op, id: IntentId, owner: Address, committed: set<Leaf>) {
    && op.OnIntent? && op.i.SolveIntent? && op.i.id == id && op.i.opening.Some?
    && op.i.opening.value.leaf in committed
    && Receives(MovesOf(s, op), owner, op.i.opening.value.leaf.want)
  }

  /** The step is an accepted solution of intent `id`. */
  predicate Solves(s: State, op: Op, id: IntentId) {
    op.OnIntent? && op.i.SolveIntent? && op.i.id == id && Step(s, op).Done?
  }

  /** Over any run, whatever others do with intents of their own and whatever is refused: a tree intent that ends
      settled was settled by one step, in which its creator received what some leaf they had committed to
      asks for. Only the opening accepted for this very intent must bind. */
  lemma TreeSettledAsCommitted(s: State, call: IntentCall, ops: seq<Op>, plan: M.Plan, committed: set<Leaf>)
    requires Inv(s) && call.CreateIntent? && Step(s, OnIntent(call)).Done?
    requires call.terms == Tree(RootOf(s.codec, plan)) && Commits(s.codec, plan, committed)
    requires var id := IntentId(TreeKind, Get(s.intents.nonces, TreeKind) + 1);
             var s1 := After(s, OnIntent(call));
             forall k :: 0 <= k < |ops| && Solves(Run(s1, ops[..k]), ops[k], id) && ops[k].i.opening.Some?
                         ==> Binding(s.codec, plan, committed, ops[k].i.opening.value)
    ensures var id := IntentId(TreeKind, Get(s.intents.nonces, TreeKind) + 1);
            var s1 := After(s, OnIntent(call));
            && id in Run(s1, ops).intents.byId
            && (Run(s1, ops).intents.byId[id].status.Settled? ==>
                  exists k :: 0 <= k < |ops| && Closes(Run(s1, ops[..k]), ops[k], id)
                              && DeliversLeaf(Run(s1, ops[..k]), ops[k], id, call.caller, committed))
  {
    var id := IntentId(TreeKind, Get(s.intents.nonces, TreeKind) + 1);
    var s1 := After(s, OnIntent(call));
    InvStep(s, OnIntent(call));
    CodecFixedStep(s, OnIntent(call));
    RecordFixed(s1, ops, id);
    if Run(s1, ops).intents.byId[id].status.Settled? {
      var k := SettlingStep(s1, ops, id);
      RecordFixed(s1, ops[..k], id);
      CodecFixed(s1, ops[..k]);
      ClosingAccepted(Run(s1, ops[..k]), ops[k], id);
      ClosingDelivers(Run(s1, ops[..k]), ops[k], id, plan, committed);
    }
  }

  /** A step that leaves an open intent settled is an accepted solution of it. */
  lemma ClosingAccepted(e: State, op: Op, id: IntentId)
    requires Closes(e, op, id) && After(e, op).intents.byId[id].status.Settled?
    ensures Solves(e, op, id)
  {
    Outcome(e, op);
  }

  /** One closing step of a tree intent. */
  lemma ClosingDelivers(e: State, op: Op, id: IntentId, plan: M.Plan, committed: set<Leaf>)
    requires Closes(e, op, id) && After(e, op).intents.byId[id].status.Settled?
    requires e.intents.byId[id].terms == Tree(RootOf(e.codec, plan)) && Commits(e.codec, plan, committed)
    requires op.i.SolveIntent? && op.i.opening.Some? ==> Binding(e.codec, plan, committed, op.i.opening.value)
    ensures DeliversLeaf(e, op, id, e.intents.byId[id].owner, committed)
  {
    var o := op.i.opening.value;
    ShownIsCommitted(e.codec, plan, committed, o);
    assert o.leaf.want in WantsOf(e.intents.byId[id].terms, op.i.opening);
  }

  /** The step at which an intent that ends settled was closed left it settled. */
  lemma SettlingStep(s: State, ops: seq<Op>, id: IntentId) returns (k: nat)
    requires NoncesFresh(s) && id in s.intents.byId && s.intents.byId[id].status == Open
    requires id in Run(s, ops).intents.byId && Run(s, ops).intents.byId[id].status.Settled?
    ensures k < |ops| && Closes(Run(s, ops[..k]), ops[k], id)
    ensures After(Run(s, ops[..k]), ops[k]).intents.byId[id].status.Settled?
  {
    ClosedOnce(s, ops, id);
    k :| 0 <= k < |ops| && Closes(Run(s, ops[..k]), ops[k], id);
    ClosedFrom(s, ops, id, k);
  }

  /** Whatever a step closed is as that step left it when the run ends. */
  lemma ClosedFrom(s: State, ops: seq<Op>, id: IntentId, k: nat)
    requires NoncesFresh(s) && k < |ops|
    requires var x := After(Run(s, ops[..k]), ops[k]).intents.byId; id in x && x[id].status != Open
    ensures id in Run(s, ops).intents.byId
    ensures Run(s, ops).intents.byId[id] == After(Run(s, ops[..k]), ops[k]).intents.byId[id]
  {
    NoncesFreshRun(s, ops[..k]);
    NoncesFreshStep(Run(s, ops[..k]), ops[k]);
    RunSplit(s, ops, k);
    ClosedForever(After(Run(s, ops[..k]), ops[k]), ops[k + 1..], id);
  }

  lemma {:induction false} NoncesFreshRun(s: State, ops: seq<Op>)
    requires NoncesFresh(s)
    ensures NoncesFresh(Run(s, ops))
    decreases |ops|
  {
    if ops != [] {
      NoncesFreshStep(s, ops[0]);
      NoncesFreshRun(After(s, ops[0]), ops[1..]);
    }
  }
}
