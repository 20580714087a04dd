/** The scheduler's escrow: task deposits, clone-key budgets, intents of all three kinds and accrued
    protocol fees, all drawing on one contract balance per token. Every transaction is a double-entry
    posting: it rewrites storage and lists the moves of value it makes between accounts. */
module SchedulerModel {
  import opened MapSums
  import M = Merkle

  type Address = nat
  type Hash = nat

  datatype Option<T> = None | Some(value: T)

  const BPS: nat := 10_000
  const MAX_KEY_LIMIT: nat := 2_000_000_000_000_000_000
  const MAX_KEYS_PER_WALLET: nat := 3
  const MIN_KEY_TTL: nat := 3_600
  const MAX_KEY_TTL: nat := 2_592_000
  const MAX_ACTIVE_TASKS: nat := 100
  const STUCK_SECONDS: nat := 86_400
  const MAX_DEADLINE: nat := 10_000_000_000
  const MAX_OUTCOMES: nat := 5

  type Bps = b: nat | b <= 10_000

  // ---------- Storage ----------

  /** The other statuses of the source are never stored. */
  datatype TaskStatus = Pending | Executing

  datatype Task = Task(owner: Address, deposit: nat, status: TaskStatus, executingAt: nat)

  datatype CloneKey = CloneKey(main: Address, limit: nat, spent: nat, expiry: nat)

  datatype Want = Want(token: nat, minReturn: nat)

  /** What the owner asks for: one token, several, or any leaf of a committed Merkle tree. */
  datatype Terms = Single(want: Want) | Multi(wants: seq<Want>) | Tree(root: M.Digest)

  /** A leaf of such a tree: the call it allows and the token it must bring. */
  datatype Leaf = Leaf(target: Address, endpoint: seq<M.Byte>, args: seq<seq<M.Byte>>, want: Want)

  /** What a solver shows for a tree: a leaf and its siblings. */
  datatype Opening = Opening(leaf: Leaf, proof: seq<M.Digest>)

  /** The hash and the byte encoding of leaves, both supplied from outside. */
  datatype Codec = Codec(hash: M.Hash, encode: Leaf -> seq<M.Byte>)

  datatype Kind = SingleKind | MultiKind | TreeKind

  /** The three kinds have separate stores and nonces in the contract; here the kind is part of the key. */
  datatype IntentId = IntentId(kind: Kind, n: nat)

  datatype IntentStatus = Open | Settled(solver: Address) | Cancelled

  datatype Intent = Intent(
    owner: Address, tokenIn: nat, amountIn: nat, terms: Terms, deadline: nat, fee: nat, status: IntentStatus)

  /** A dispatched target call awaiting its callback. */
  datatype Promise = Promise(h: Hash, keeper: Address)

  /** `maxPerRound` of zero means no limit. */
  datatype Config = Config(
    admin: Address, feeBps: Bps, maxReward: nat, minDeposit: nat, maxDeposit: nat, maxPerRound: nat)

  datatype Token = Egld | Esdt(id: nat)

  datatype TaskBook = TaskBook(
    tasks: map<Hash, Task>, owners: map<Address, set<Hash>>, enclave: map<Hash, Address>,
    promises: map<nat, Promise>, nextPromise: nat, perRound: map<(Address, nat), nat>)

  datatype KeyBook = KeyBook(props: map<Address, CloneKey>, ofWallet: map<Address, set<Address>>)

  datatype IntentBook = IntentBook(byId: map<IntentId, Intent>, nonces: map<Kind, nat>)

  datatype State = State(
    funds: map<Token, nat>, book: TaskBook, keys: KeyBook, intents: IntentBook, fees: nat, cfg: Config,
    codec: Codec)

  // ---------- Postings ----------

  /** `Unassigned` holds fees whose delivery bounced: still in the contract, owed to nobody. */
  datatype Account =
    | Outside(who: Address) | OfTask(h: Hash) | OfKey(clone: Address) | OfIntent(id: IntentId)
    | FeePot | RewardsContract | Unassigned

  datatype Why = Deposit | Charge | Reward | Refund | Fee | Delivery | Bounty | Flushed

  datatype Move = Move(token: Token, src: Account, dst: Account, amount: nat, why: Why)

  datatype Tx = Abort | Done(next: State, moves: seq<Move>)

  predicate External(a: Account) { a.Outside? || a.RewardsContract? }

  /** What a move adds to the contract's balance of its token. */
  function Delta(m: Move): int {
    (if External(m.src) then m.amount else 0) - (if External(m.dst) then m.amount else 0)
  }

  /** Carries out the transfers in order; a transfer the balance cannot cover aborts everything. */
  function Book(funds: map<Token, nat>, moves: seq<Move>): Option<map<Token, nat>>
    decreases |moves|
  {
    if moves == [] then Some(funds) else
      var after := Get(funds, moves[0].token) + Delta(moves[0]);
      if after < 0 then None else Book(funds[moves[0].token := after], moves[1..])
  }

  // ---------- Reads ----------

  function SetAt<K, V>(m: map<K, set<V>>, k: K): set<V> { if k in m then m[k] else {} }

  /** The protocol's share of a deposit. */
  function FeeOf(deposit: nat, bps: Bps): (fee: nat)
    ensures fee <= deposit
  {
    assert deposit * bps <= deposit * BPS;
    deposit * bps / BPS
  }

  /** A keeper's reward: what the fee leaves, capped when a cap is set. */
  function RewardOf(deposit: nat, cfg: Config): nat {
    var uncapped := deposit - FeeOf(deposit, cfg.feeBps);
    if 0 < cfg.maxReward < uncapped then cfg.maxReward else uncapped
  }

  /** The effective owner of a call, and whether a live clone key is speaking for it. */
  function Resolve(b: KeyBook, caller: Address, now: nat): (Address, bool) {
    if caller in b.props && now < b.props[caller].expiry then (b.props[caller].main, true) else (caller, false)
  }

  function Remaining(k: CloneKey): nat { SaturatingSub(k.limit, k.spent) }

  function KindOf(t: Terms): Kind {
    match t
    case Single(_) => SingleKind
    case Multi(_) => MultiKind
    case Tree(_) => TreeKind
  }

  predicate ValidTerms(t: Terms, amountIn: nat) {
    match t
    case Multi(ws) =>
      && 0 < |ws| <= MAX_OUTCOMES
      && forall i, j :: 0 <= i < j < |ws| ==> ws[i].token != ws[j].token
    case _ => amountIn > 0
  }

  function LeafDigest(c: Codec, leaf: Leaf): M.Digest { c.hash(c.encode(leaf)) }

  /** A tree intent needs a leaf whose proof climbs to the committed root. */
  predicate Proven(c: Codec, t: Terms, opening: Option<Opening>) {
    t.Tree? ==> opening.Some? && M.Accepts(c.hash, LeafDigest(c, opening.value.leaf), opening.value.proof, t.root)
  }

  /** The tokens a solver must bring; for a tree the leaf names them. */
  function WantsOf(t: Terms, opening: Option<Opening>): seq<Want> {
    match t
    case Single(w) => [w]
    case Multi(ws) => ws
    case Tree(_) => if opening.Some? then [opening.value.leaf.want] else []
  }

  /** Payments name a token and an amount; `minReturn` of the wanted side is the least accepted. */
  datatype Payment = Payment(token: nat, amount: nat)

  predicate Meets(payments: seq<Payment>, wants: seq<Want>) {
    && |payments| == |wants|
    && forall i :: 0 <= i < |wants| ==> payments[i].token == wants[i].token && payments[i].amount >= wants[i].minReturn
  }

  function Deliveries(payments: seq<Payment>, src: Address, dst: Address): seq<Move> {
    seq(|payments|, i requires 0 <= i < |payments| =>
      Move(Esdt(payments[i].token), Outside(src), Outside(dst), payments[i].amount, Delivery))
  }

  // ---------- Operations ----------

  /** Which endpoint schedules: an ordinary task, in a block round, or an encrypted one for an enclave. */
  datatype Lane = Quantum(round: nat) | Sovereign

  /** `admitted` stands for the checks on things outside this model: pausing, keeper registration,
      ripeness, gas, blacklists, token whitelist, payload ranges, zk proofs. */
  datatype TaskCall =
    | Schedule(caller: Address, h: Hash, attached: nat, requested: Option<nat>, lane: Lane, now: nat,
               admitted: bool)
    | Execute(caller: Address, h: Hash, confidential: bool, now: nat, admitted: bool)
    | Callback(promise: nat, ok: bool)
    | SettleXse(caller: Address, h: Hash, admitted: bool)
    | Rescue(caller: Address, h: Hash, now: nat, admitted: bool)
    | CancelTask(caller: Address, h: Hash, now: nat, admitted: bool)

  datatype KeyCall =
    | AuthorizeKey(caller: Address, clone: Address, attached: nat, ttl: nat, now: nat, admitted: bool)
    | FundKey(caller: Address, clone: Address, attached: nat, now: nat, admitted: bool)
    | RevokeKey(caller: Address, clone: Address)

  datatype IntentCall =
    | CreateIntent(caller: Address, terms: Terms, tokenIn: nat, amountIn: nat, attached: nat, fee: nat,
                   deadline: nat, now: nat, admitted: bool)
    | CancelIntent(caller: Address, id: IntentId)
    | SolveIntent(caller: Address, id: IntentId, payments: seq<Payment>, opening: Option<Opening>, now: nat,
                  admitted: bool)

  datatype FeeCall =
    | Flush(delivered: bool, admitted: bool)
    | SetFeeBps(bps: nat)
    | SetMaxReward(amount: nat)
    | SetDepositBounds(least: nat, most: nat)

  datatype Op = OnTask(t: TaskCall) | OnKey(k: KeyCall) | OnIntent(i: IntentCall) | OnFees(f: FeeCall)

  function AddTask(b: TaskBook, h: Hash, owner: Address, deposit: nat): TaskBook {
    b.(tasks := b.tasks[h := Task(owner, deposit, Pending, 0)],
       owners := b.owners[owner := SetAt(b.owners, owner) + {h}])
  }

  function DropTask(b: TaskBook, h: Hash): TaskBook
    requires h in b.tasks
  {
    var owner := b.tasks[h].owner;
    b.(tasks := b.tasks - {h}, owners := b.owners[owner := SetAt(b.owners, owner) - {h}])
  }

  /** Settlement also forgets which enclave keeper held the task. */
  function CloseTask(b: TaskBook, h: Hash): TaskBook
    requires h in b.tasks
  {
    DropTask(b, h).(enclave := b.enclave - {h})
  }

  predicate DepositAllowed(cfg: Config, deposit: nat) {
    cfg.minDeposit <= deposit && (cfg.maxDeposit > 0 ==> deposit <= cfg.maxDeposit)
  }

  /** Active tasks and tasks per round are limited for quantum tasks. */
  predicate RoomFor(s: State, owner: Address, lane: Lane) {
    lane.Quantum? ==>
      && |SetAt(s.book.owners, owner)| < MAX_ACTIVE_TASKS
      && (s.cfg.maxPerRound > 0 ==> Get(s.book.perRound, (owner, lane.round)) < s.cfg.maxPerRound)
  }

  function Counted(b: TaskBook, owner: Address, lane: Lane): TaskBook {
    if lane.Sovereign? then b else
      b.(perRound := b.perRound[(owner, lane.round) := Get(b.perRound, (owner, lane.round)) + 1])
  }

  function DoSchedule(s: State, caller: Address, h: Hash, attached: nat, requested: Option<nat>,
                      lane: Lane, now: nat): Tx
  {
    var (owner, isKey) := Resolve(s.keys, caller, now);
    if isKey && (attached != 0 || requested.None?) then Abort else
    var deposit := if isKey then requested.value else attached;
    if isKey && !CanCharge(s.keys.props[caller], deposit) then Abort else
    if !DepositAllowed(s.cfg, deposit) || h in s.book.tasks then Abort else
    if !RoomFor(s, owner, lane) then Abort else
    var book := AddTask(Counted(s.book, owner, lane), h, owner, deposit);
    if isKey then
      Done(s.(book := book, keys := ChargeKey(s.keys, caller, deposit)),
           [Move(Egld, OfKey(caller), OfTask(h), deposit, Charge)])
    else Done(s.(book := book), [Move(Egld, Outside(caller), OfTask(h), deposit, Deposit)])
  }

  predicate CanCharge(k: CloneKey, amount: nat) { k.spent + amount <= k.limit }

  function ChargeKey(b: KeyBook, clone: Address, amount: nat): KeyBook
    requires clone in b.props
  {
    b.(props := b.props[clone := b.props[clone].(spent := b.props[clone].spent + amount)])
  }

  function DoExecute(s: State, keeper: Address, h: Hash, confidential: bool, now: nat): Tx {
    if h !in s.book.tasks || s.book.tasks[h].status != Pending then Abort
    else Done(s.(book := StartTask(s.book, keeper, h, confidential, now)), [])
  }

  /** A confidential task is assigned to the keeper's enclave; any other is dispatched as a promise. */
  function StartTask(b: TaskBook, keeper: Address, h: Hash, confidential: bool, now: nat): TaskBook
    requires h in b.tasks
  {
    var b1 := b.(tasks := b.tasks[h := b.tasks[h].(status := Executing, executingAt := now)]);
    if confidential then b1.(enclave := b.enclave[h := keeper])
    else b1.(promises := b.promises[b.nextPromise := Promise(h, keeper)], nextPromise := b.nextPromise + 1)
  }

  /** Success: reward to the keeper, fee to the pot, the rest to the owner. */
  function FinalizeSuccess(s: State, h: Hash, keeper: Address): Tx
    requires h in s.book.tasks
  {
    var t := s.book.tasks[h];
    var fee, reward := FeeOf(t.deposit, s.cfg.feeBps), RewardOf(t.deposit, s.cfg);
    Done(s.(book := CloseTask(s.book, h), fees := s.fees + fee),
         [Move(Egld, OfTask(h), Outside(keeper), reward, Reward),
          Move(Egld, OfTask(h), Outside(t.owner), t.deposit - reward - fee, Refund),
          Move(Egld, OfTask(h), FeePot, fee, Fee)])
  }

  /** Failure and cancellation alike: the fee is kept and the owner gets the rest. */
  function ReturnLessFee(s: State, h: Hash, book: TaskBook): Tx
    requires h in s.book.tasks
  {
    var t := s.book.tasks[h];
    var fee := FeeOf(t.deposit, s.cfg.feeBps);
    Done(s.(book := book, fees := s.fees + fee),
         [Move(Egld, OfTask(h), Outside(t.owner), t.deposit - fee, Refund),
          Move(Egld, OfTask(h), FeePot, fee, Fee)])
  }

  /** A callback whose task is gone aborts; only the promise itself is used up. */
  function DoCallback(s: State, id: nat, ok: bool): Tx {
    if id !in s.book.promises then Abort else
    var p, s1 := s.book.promises[id], s.(book := s.book.(promises := s.book.promises - {id}));
    if p.h !in s.book.tasks then Done(s1, [])
    else if ok then FinalizeSuccess(s1, p.h, p.keeper)
    else ReturnLessFee(s1, p.h, CloseTask(s1.book, p.h))
  }

  function DoSettle(s: State, caller: Address, h: Hash): Tx {
    var b := s.book;
    if h !in b.enclave || b.enclave[h] != caller || h !in b.tasks || b.tasks[h].status != Executing then Abort
    else FinalizeSuccess(s, h, caller)
  }

  function DoRescue(s: State, caller: Address, h: Hash, now: nat): Tx {
    if h !in s.book.tasks || s.book.tasks[h].status != Executing then Abort else
    var t := s.book.tasks[h];
    if now < t.executingAt + STUCK_SECONDS || (caller != t.owner && caller != s.cfg.admin) then Abort else
    Done(s.(book := CloseTask(s.book, h)), [Move(Egld, OfTask(h), Outside(t.owner), t.deposit, Refund)])
  }

  function DoCancelTask(s: State, caller: Address, h: Hash, now: nat): Tx {
    if h !in s.book.tasks then Abort else
    var t := s.book.tasks[h];
    if t.owner != Resolve(s.keys, caller, now).0 || t.status != Pending then Abort
    else ReturnLessFee(s, h, DropTask(s.book, h))
  }

  function DoAuthorize(s: State, caller: Address, clone: Address, attached: nat, ttl: nat, now: nat): Tx {
    if !(0 < attached <= MAX_KEY_LIMIT) || !(MIN_KEY_TTL <= ttl <= MAX_KEY_TTL) || clone == caller then Abort else
    if clone in s.keys.props || |SetAt(s.keys.ofWallet, caller)| >= MAX_KEYS_PER_WALLET then Abort else
    Done(s.(keys := KeyBook(s.keys.props[clone := CloneKey(caller, attached, 0, now + ttl)],
                            s.keys.ofWallet[caller := SetAt(s.keys.ofWallet, caller) + {clone}])),
         [Move(Egld, Outside(caller), OfKey(clone), attached, Deposit)])
  }

  function DoFund(s: State, caller: Address, clone: Address, attached: nat, now: nat): Tx {
    if attached == 0 || clone !in s.keys.props || s.keys.props[clone].main != caller then Abort else
    var k := s.keys.props[clone];
    if now >= k.expiry || k.limit + attached > MAX_KEY_LIMIT then Abort else
    Done(s.(keys := s.keys.(props := s.keys.props[clone := k.(limit := k.limit + attached)])),
         [Move(Egld, Outside(caller), OfKey(clone), attached, Deposit)])
  }

  function DoRevoke(s: State, caller: Address, clone: Address): Tx {
    if clone !in s.keys.props || s.keys.props[clone].main != caller then Abort else
    Done(s.(keys := KeyBook(s.keys.props - {clone},
                            s.keys.ofWallet[caller := SetAt(s.keys.ofWallet, caller) - {clone}])),
         [Move(Egld, OfKey(clone), Outside(caller), Remaining(s.keys.props[clone]), Refund)])
  }

  function DoCreateIntent(s: State, caller: Address, terms: Terms, tokenIn: nat, amountIn: nat, attached: nat,
                          fee: nat, deadline: nat, now: nat): Tx
  {
    if attached != fee || !ValidTerms(terms, amountIn) || !(now < deadline < MAX_DEADLINE) then Abort else
    var n := Get(s.intents.nonces, KindOf(terms)) + 1;
    var id := IntentId(KindOf(terms), n);
    Done(s.(intents := IntentBook(
              s.intents.byId[id := Intent(caller, tokenIn, amountIn, terms, deadline, fee, Open)],
              s.intents.nonces[id.kind := n])),
         [Move(Egld, Outside(caller), OfIntent(id), fee, Deposit),
          Move(Esdt(tokenIn), Outside(caller), OfIntent(id), amountIn, Deposit)])
  }

  function CloseIntent(b: IntentBook, id: IntentId, status: IntentStatus): IntentBook
    requires id in b.byId
  {
    b.(byId := b.byId[id := b.byId[id].(status := status)])
  }

  function DoCancelIntent(s: State, caller: Address, id: IntentId): Tx {
    if id !in s.intents.byId then Abort else
    var x := s.intents.byId[id];
    if x.owner != caller || x.status != Open then Abort else
    Done(s.(intents := CloseIntent(s.intents, id, Cancelled)),
         [Move(Esdt(x.tokenIn), OfIntent(id), Outside(caller), x.amountIn, Refund),
          Move(Egld, OfIntent(id), Outside(caller), x.fee, Refund)])
  }

  function DoSolveIntent(s: State, caller: Address, id: IntentId, payments: seq<Payment>,
                         opening: Option<Opening>, now: nat): Tx
  {
    if id !in s.intents.byId then Abort else
    var x := s.intents.byId[id];
    if x.status != Open || now > x.deadline then Abort else
    if !Proven(s.codec, x.terms, opening) || !Meets(payments, WantsOf(x.terms, opening)) then Abort else
    Done(s.(intents := CloseIntent(s.intents, id, Settled(caller))),
         Deliveries(payments, caller, x.owner) +
         [Move(Esdt(x.tokenIn), OfIntent(id), Outside(caller), x.amountIn, Bounty),
          Move(Egld, OfIntent(id), Outside(caller), x.fee, Bounty)])
  }

  /** When the Rewards contract does not take the transfer, the EGLD comes back without a callback. */
  function DoFlush(s: State, delivered: bool): Tx {
    if s.fees == 0 then Abort else
    Done(s.(fees := 0), [Move(Egld, FeePot, if delivered then RewardsContract else Unassigned, s.fees, Flushed)])
  }

  function DraftTask(s: State, call: TaskCall): Tx {
    match call
    case Schedule(c, h, a, r, lane, now, adm) => if adm then DoSchedule(s, c, h, a, r, lane, now) else Abort
    case Execute(k, h, conf, now, adm) => if adm then DoExecute(s, k, h, conf, now) else Abort
    case Callback(id, ok) => DoCallback(s, id, ok)
    case SettleXse(c, h, adm) => if adm then DoSettle(s, c, h) else Abort
    case Rescue(c, h, now, adm) => if adm then DoRescue(s, c, h, now) else Abort
    case CancelTask(c, h, now, adm) => if adm then DoCancelTask(s, c, h, now) else Abort
  }

  function DraftKey(s: State, call: KeyCall): Tx {
    match call
    case AuthorizeKey(c, k, a, ttl, now, adm) => if adm then DoAuthorize(s, c, k, a, ttl, now) else Abort
    case FundKey(c, k, a, now, adm) => if adm then DoFund(s, c, k, a, now) else Abort
    case RevokeKey(c, k) => DoRevoke(s, c, k)
  }

  function DraftIntent(s: State, call: IntentCall): Tx {
    match call
    case CreateIntent(c, t, tok, a, att, fee, d, now, adm) =>
      if adm then DoCreateIntent(s, c, t, tok, a, att, fee, d, now) else Abort
    case CancelIntent(c, id) => DoCancelIntent(s, c, id)
    case SolveIntent(c, id, ps, opening, now, adm) =>
      if adm then DoSolveIntent(s, c, id, ps, opening, now) else Abort
  }

  function DraftFees(s: State, call: FeeCall): Tx {
    match call
    case Flush(delivered, adm) => if adm then DoFlush(s, delivered) else Abort
    case SetFeeBps(b) => if b > BPS then Abort else Done(s.(cfg := s.cfg.(feeBps := b)), [])
    case SetMaxReward(a) => Done(s.(cfg := s.cfg.(maxReward := a)), [])
    case SetDepositBounds(lo, hi) => Done(s.(cfg := s.cfg.(minDeposit := lo, maxDeposit := hi)), [])
  }

  /** The storage effect and postings of an operation, before the transfers are carried out. */
  function Draft(s: State, op: Op): Tx {
    match op
    case OnTask(call) => DraftTask(s, call)
    case OnKey(call) => DraftKey(s, call)
    case OnIntent(call) => DraftIntent(s, call)
    case OnFees(call) => DraftFees(s, call)
  }

  function Commit(s: State, draft: Tx): Tx {
    if draft.Abort? then Abort else
    match Book(s.funds, draft.moves)
    case None => Abort
    case Some(funds) => Done(draft.next.(funds := funds), draft.moves)
  }

  function Step(s: State, op: Op): Tx { Commit(s, Draft(s, op)) }

  function After(s: State, op: Op): State {
    var tx := Step(s, op);
    if tx.Done? then tx.next else s
  }

  function MovesOf(s: State, op: Op): seq<Move> {
    var tx := Step(s, op);
    if tx.Done? then tx.moves else []
  }

  ghost predicate Performs(s: State, op: Op, s': State, ok: bool, moves: seq<Move>) {
    && s' == After(s, op)
    && ok == Step(s, op).Done?
    && moves == MovesOf(s, op)
  }

  function Run(s: State, ops: seq<Op>): State
    decreases |ops|
  {
    if ops == [] then s else Run(After(s, ops[0]), ops[1..])
  }

  /** Every posting of a run, in order. */
  function Journal(s: State, ops: seq<Op>): seq<Move>
    decreases |ops|
  {
    if ops == [] then [] else MovesOf(s, ops[0]) + Journal(After(s, ops[0]), ops[1..])
  }
}
