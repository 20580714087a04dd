/** The two sorted-pair Merkle verifiers: the state-compression contract's, over one packed buffer of
    siblings, and the scheduler's, over a vector of them. The hash is a parameter; nothing is assumed of
    it but, for soundness, that it does not collide on the inputs actually hashed. */
module Merkle {

  type Byte = n: nat | n < 256
  type Digest = d: seq<Byte> | |d| == 32 witness seq(32, _ => 0)
  type Hash = seq<Byte> -> Digest

  const DIGEST_LEN: nat := 32
  const MAX_PACKED: nat := 1_024

  // ---------- Order and pairing ----------

  /** Lexicographic order on byte strings of equal length. */
  predicate Less(a: seq<Byte>, b: seq<Byte>)
    requires |a| == |b|
  {
    a != [] && (a[0] < b[0] || (a[0] == b[0] && Less(a[1..], b[1..])))
  }

  lemma {:induction false} Trichotomy(a: seq<Byte>, b: seq<Byte>)
    requires |a| == |b|
    ensures (Less(a, b) && !Less(b, a) && a != b) || (Less(b, a) && !Less(a, b) && a != b)
            || (a == b && !Less(a, b) && !Less(b, a))
  {
    if a != [] {
      Trichotomy(a[1..], b[1..]);
      assert a == [a[0]] + a[1..] && b == [b[0]] + b[1..];
    }
  }

  /** The 65 bytes hashed for an interior node: the domain prefix 0x01, then the children in order. */
  function Pair(a: Digest, b: Digest): seq<Byte> {
    if Less(a, b) then [1] + a + b else [1] + b + a
  }

  function Parent(h: Hash, a: Digest, b: Digest): Digest { h(Pair(a, b)) }

  lemma PairSymmetric(a: Digest, b: Digest)
    ensures Pair(a, b) == Pair(b, a)
  {
    Trichotomy(a, b);
  }

  lemma PairHalves(a: Digest, b: Digest)
    ensures |Pair(a, b)| == 65
    ensures Less(a, b) ==> Pair(a, b)[1..33] == a && Pair(a, b)[33..] == b
    ensures !Less(a, b) ==> Pair(a, b)[1..33] == b && Pair(a, b)[33..] == a
  {
  }

  /** A pair determines its two children up to order. */
  lemma PairInjective(a: Digest, b: Digest, c: Digest, d: Digest)
    requires Pair(a, b) == Pair(c, d)
    ensures (a == c && b == d) || (a == d && b == c)
  {
    PairHalves(a, b);
    PairHalves(c, d);
  }

  // ---------- Climbing ----------

  /** Hashes from a leaf up along its siblings. */
  function Climb(h: Hash, leaf: Digest, proof: seq<Digest>): Digest {
    if proof == [] then leaf else
      Parent(h, Climb(h, leaf, proof[..|proof| - 1]), proof[|proof| - 1])
  }

  predicate Accepts(h: Hash, leaf: Digest, proof: seq<Digest>, root: seq<Byte>) { Climb(h, leaf, proof) == root }

  // ---------- Trees ----------

  datatype Tree = Leaf(digest: Digest) | Node(left: Tree, right: Tree)

  predicate Perfect(t: Tree, depth: nat) {
    match t
    case Leaf(_) => depth == 0
    case Node(l, r) => depth > 0 && Perfect(l, depth - 1) && Perfect(r, depth - 1)
  }

  function Root(h: Hash, t: Tree): Digest {
    match t
    case Leaf(d) => d
    case Node(l, r) => Parent(h, Root(h, l), Root(h, r))
  }

  /** Whether a path, turning right where it says so, stays inside the tree. */
  predicate Inside(t: Tree, path: seq<bool>) {
    path == [] || (t.Node? && Inside(if path[0] then t.right else t.left, path[1..]))
  }

  /** The subtree a path leads to, starting at the root. */
  function Below(t: Tree, path: seq<bool>): Tree
    requires Inside(t, path)
  {
    if path == [] then t else Below(if path[0] then t.right else t.left, path[1..])
  }

  /** The siblings along that path, lowest level first. */
  function Siblings(h: Hash, t: Tree, path: seq<bool>): seq<Digest>
    requires Inside(t, path)
  {
    if path == [] then [] else
      Siblings(h, if path[0] then t.right else t.left, path[1..]) + [Root(h, if path[0] then t.left else t.right)]
  }

  /** In a perfect tree every path of the tree's depth leads to a leaf. */
  lemma {:induction false} PerfectPaths(t: Tree, path: seq<bool>)
    requires Perfect(t, |path|)
    ensures Inside(t, path) && Below(t, path).Leaf?
    decreases |path|
  {
    if path != [] {
      PerfectPaths(if path[0] then t.right else t.left, path[1..]);
    }
  }

  /** Completeness, in a tree of any shape: every subtree's root climbs its siblings to the root. */
  lemma {:induction false} Climbs(h: Hash, t: Tree, path: seq<bool>)
    requires Inside(t, path)
    ensures |Siblings(h, t, path)| == |path|
    ensures Accepts(h, Root(h, Below(t, path)), Siblings(h, t, path), Root(h, t))
    decreases |path|
  {
    if path != [] {
      var child := if path[0] then t.right else t.left;
      Climbs(h, child, path[1..]);
      var proof := Siblings(h, t, path);
      assert proof[..|proof| - 1] == Siblings(h, child, path[1..]);
      PairSymmetric(Root(h, t.left), Root(h, t.right));
    }
  }

  /** In any perfect tree every leaf's sibling path verifies. */
  lemma Complete(h: Hash, t: Tree, path: seq<bool>)
    requires Perfect(t, |path|)
    ensures Inside(t, path) && Below(t, path).Leaf? && |Siblings(h, t, path)| == |path|
    ensures Accepts(h, Below(t, path).digest, Siblings(h, t, path), Root(h, t))
  {
    PerfectPaths(t, path);
    Climbs(h, t, path);
  }

  /** The inputs hashed to build the tree, and to climb a proof. */
  function TreeInputs(h: Hash, t: Tree): set<seq<Byte>> {
    match t
    case Leaf(_) => {}
    case Node(l, r) => {Pair(Root(h, l), Root(h, r))} + TreeInputs(h, l) + TreeInputs(h, r)
  }

  function ProofInputs(h: Hash, leaf: Digest, proof: seq<Digest>): set<seq<Byte>> {
    if proof == [] then {} else
      var init := proof[..|proof| - 1];
      {Pair(Climb(h, leaf, init), proof[|proof| - 1])} + ProofInputs(h, leaf, init)
  }

  predicate NoCollision(h: Hash, inputs: set<seq<Byte>>) {
    forall x, y :: x in inputs && y in inputs && h(x) == h(y) ==> x == y
  }

  lemma FewerInputs(h: Hash, inputs: set<seq<Byte>>, more: set<seq<Byte>>)
    requires NoCollision(h, more) && inputs <= more
    ensures NoCollision(h, inputs)
  {
  }

  /** The last step of an accepted climb meets the root's two children. */
  lemma TopStep(h: Hash, t: Tree, leaf: Digest, proof: seq<Digest>)
    requires t.Node? && proof != [] && Accepts(h, leaf, proof, Root(h, t))
    requires NoCollision(h, TreeInputs(h, t) + ProofInputs(h, leaf, proof))
    ensures var current, last := Climb(h, leaf, proof[..|proof| - 1]), proof[|proof| - 1];
            || (current == Root(h, t.left) && last == Root(h, t.right))
            || (current == Root(h, t.right) && last == Root(h, t.left))
  {
    var current, last := Climb(h, leaf, proof[..|proof| - 1]), proof[|proof| - 1];
    assert Pair(current, last) in ProofInputs(h, leaf, proof);
    assert Pair(Root(h, t.left), Root(h, t.right)) in TreeInputs(h, t);
    PairInjective(current, last, Root(h, t.left), Root(h, t.right));
  }

  /** Whatever is hashed for a child of the root and a shorter proof was hashed before. */
  lemma ChildInputs(h: Hash, t: Tree, leaf: Digest, proof: seq<Digest>)
    requires t.Node? && proof != [] && NoCollision(h, TreeInputs(h, t) + ProofInputs(h, leaf, proof))
    ensures NoCollision(h, TreeInputs(h, t.left) + ProofInputs(h, leaf, proof[..|proof| - 1]))
    ensures NoCollision(h, TreeInputs(h, t.right) + ProofInputs(h, leaf, proof[..|proof| - 1]))
  {
    var all := TreeInputs(h, t) + ProofInputs(h, leaf, proof);
    FewerInputs(h, TreeInputs(h, t.left) + ProofInputs(h, leaf, proof[..|proof| - 1]), all);
    FewerInputs(h, TreeInputs(h, t.right) + ProofInputs(h, leaf, proof[..|proof| - 1]), all);
  }

  /** The path leads to the leaf, along the siblings of the proof. */
  predicate LeafPath(h: Hash, t: Tree, leaf: Digest, proof: seq<Digest>, path: seq<bool>) {
    Inside(t, path) && Below(t, path) == Leaf(leaf) && Siblings(h, t, path) == proof
  }

  lemma DescendLeft(h: Hash, t: Tree, rest: seq<bool>)
    requires t.Node? && Inside(t.left, rest)
    ensures Inside(t, [false] + rest) && Below(t, [false] + rest) == Below(t.left, rest)
    ensures Siblings(h, t, [false] + rest) == Siblings(h, t.left, rest) + [Root(h, t.right)]
  {
    assert ([false] + rest)[1..] == rest;
  }

  lemma DescendRight(h: Hash, t: Tree, rest: seq<bool>)
    requires t.Node? && Inside(t.right, rest)
    ensures Inside(t, [true] + rest) && Below(t, [true] + rest) == Below(t.right, rest)
    ensures Siblings(h, t, [true] + rest) == Siblings(h, t.right, rest) + [Root(h, t.left)]
  {
    assert ([true] + rest)[1..] == rest;
  }

  /** The proof, read from its end, is the list of siblings met on some way down from the root to the leaf. */
  predicate Follows(h: Hash, t: Tree, leaf: Digest, proof: seq<Digest>) {
    if proof == [] then t == Leaf(leaf) else
      var init, last := proof[..|proof| - 1], proof[|proof| - 1];
      && t.Node?
      && (|| (last == Root(h, t.right) && Follows(h, t.left, leaf, init))
          || (last == Root(h, t.left) && Follows(h, t.right, leaf, init)))
  }

  lemma {:induction false} AcceptedFollows(h: Hash, t: Tree, leaf: Digest, proof: seq<Digest>)
    requires Perfect(t, |proof|) && Accepts(h, leaf, proof, Root(h, t))
    requires NoCollision(h, TreeInputs(h, t) + ProofInputs(h, leaf, proof))
    ensures Follows(h, t, leaf, proof)
    decreases |proof|
  {
    if proof != [] {
      TopStep(h, t, leaf, proof);
      ChildInputs(h, t, leaf, proof);
      if Climb(h, leaf, proof[..|proof| - 1]) == Root(h, t.left) && proof[|proof| - 1] == Root(h, t.right) {
        AcceptedFollows(h, t.left, leaf, proof[..|proof| - 1]);
      } else {
        AcceptedFollows(h, t.right, leaf, proof[..|proof| - 1]);
      }
    }
  }

  lemma {:induction false} FollowsPath(h: Hash, t: Tree, leaf: Digest, proof: seq<Digest>) returns (path: seq<bool>)
    requires Follows(h, t, leaf, proof)
    ensures |path| == |proof| && LeafPath(h, t, leaf, proof, path)
    decreases |proof|
  {
    path := [];
    if proof != [] {
      var init, last := proof[..|proof| - 1], proof[|proof| - 1];
      assert proof == init + [last];
      if last == Root(h, t.right) && Follows(h, t.left, leaf, init) {
        var rest := FollowsPath(h, t.left, leaf, init);
        DescendLeft(h, t, rest);
        path := [false] + rest;
      } else {
        var rest := FollowsPath(h, t.right, leaf, init);
        DescendRight(h, t, rest);
        path := [true] + rest;
      }
    }
  }

  /** Soundness: a proof as long as the tree is deep is accepted only for an actual leaf, and then it is
      that leaf's sibling path, unless the hash collided on something that was hashed. */
  lemma Sound(h: Hash, t: Tree, leaf: Digest, proof: seq<Digest>) returns (path: seq<bool>)
    requires Perfect(t, |proof|) && Accepts(h, leaf, proof, Root(h, t))
    requires NoCollision(h, TreeInputs(h, t) + ProofInputs(h, leaf, proof))
    ensures |path| == |proof| && LeafPath(h, t, leaf, proof, path)
  {
    AcceptedFollows(h, t, leaf, proof);
    path := FollowsPath(h, t, leaf, proof);
  }

  /** Both directions at once: the proofs of the tree's depth accepted against a perfect tree's root are
      exactly its sibling paths. */
  lemma AcceptedIffSibling(h: Hash, t: Tree, leaf: Digest, proof: seq<Digest>)
    requires Perfect(t, |proof|) && NoCollision(h, TreeInputs(h, t) + ProofInputs(h, leaf, proof))
    ensures Accepts(h, leaf, proof, Root(h, t)) <==>
            exists path: seq<bool> :: |path| == |proof| && LeafPath(h, t, leaf, proof, path)
  {
    if Accepts(h, leaf, proof, Root(h, t)) {
      var path := Sound(h, t, leaf, proof);
    }
    forall path: seq<bool> | |path| == |proof| && LeafPath(h, t, leaf, proof, path)
      ensures Accepts(h, leaf, proof, Root(h, t))
    {
      Complete(h, t, path);
    }
  }

  // ---------- Committed entries, proofs of any length ----------

  /** What a committer signs: entries in a binary arrangement of any shape, each hashed once into a leaf. */
  datatype Plan = Entry(bytes: seq<Byte>) | Fork(left: Plan, right: Plan)

  function Sealed(h: Hash, p: Plan): Tree {
    match p
    case Entry(e) => Leaf(h(e))
    case Fork(l, r) => Node(Sealed(h, l), Sealed(h, r))
  }

  function Entries(p: Plan): set<seq<Byte>> {
    match p
    case Entry(e) => {e}
    case Fork(l, r) => Entries(l) + Entries(r)
  }

  /** The subplan a path leads to. */
  predicate Leads(p: Plan, path: seq<bool>) {
    path == [] || (p.Fork? && Leads(if path[0] then p.right else p.left, path[1..]))
  }

  function Subplan(p: Plan, path: seq<bool>): Plan
    requires Leads(p, path)
  {
    if path == [] then p else Subplan(if path[0] then p.right else p.left, path[1..])
  }

  /** What was hashed into the root of a plan. */
  function Preimage(h: Hash, p: Plan): seq<Byte> {
    match p
    case Entry(e) => e
    case Fork(l, r) => Pair(Root(h, Sealed(h, l)), Root(h, Sealed(h, r)))
  }

  lemma PreimageHashes(h: Hash, p: Plan)
    ensures Root(h, Sealed(h, p)) == h(Preimage(h, p))
  {
  }

  /** The shape of an interior node's input: 65 bytes, the first of them 0x01. */
  predicate NodeLike(e: seq<Byte>) { |e| == 65 && e[0] == 1 }

  lemma PairIsNodeLike(a: Digest, b: Digest)
    ensures NodeLike(Pair(a, b))
  {
  }

  /** Everything hashed to seal a plan and to check an entry against it. */
  function PlanInputs(h: Hash, p: Plan): set<seq<Byte>> { Entries(p) + TreeInputs(h, Sealed(h, p)) }

  function CheckInputs(h: Hash, e: seq<Byte>, proof: seq<Digest>): set<seq<Byte>> { {e} + ProofInputs(h, h(e), proof) }

  lemma {:induction false} LeadsInside(h: Hash, p: Plan, path: seq<bool>)
    requires Leads(p, path)
    ensures Inside(Sealed(h, p), path) && Below(Sealed(h, p), path) == Sealed(h, Subplan(p, path))
    decreases |path|
  {
    if path != [] {
      LeadsInside(h, if path[0] then p.right else p.left, path[1..]);
    }
  }

  /** `proof` opens the plan's root at `e`: some path leads to a subplan made from `e`, along those siblings. */
  ghost predicate Opens(h: Hash, p: Plan, e: seq<Byte>, proof: seq<Digest>) {
    exists path: seq<bool> :: OpensAt(h, p, e, proof, path)
  }

  predicate OpensAt(h: Hash, p: Plan, e: seq<Byte>, proof: seq<Digest>, path: seq<bool>) {
    && Leads(p, path) && Preimage(h, Subplan(p, path)) == e
    && Inside(Sealed(h, p), path) && Siblings(h, Sealed(h, p), path) == proof
  }

  /** The hypothesis of the soundness theorem. */
  predicate Honest(h: Hash, p: Plan, e: seq<Byte>, proof: seq<Digest>) {
    && (forall x :: x in Entries(p) ==> !NodeLike(x))
    && NoCollision(h, PlanInputs(h, p) + CheckInputs(h, e, proof))
  }

  /** A climb of at least one step ends in the hash of a node, so it never meets an entry's. */
  lemma EntryNotClimbed(h: Hash, x: seq<Byte>, e: seq<Byte>, proof: seq<Digest>)
    requires Honest(h, Entry(x), e, proof) && proof != []
    ensures Climb(h, h(e), proof) != h(x)
  {
    var init, last := proof[..|proof| - 1], proof[|proof| - 1];
    PairIsNodeLike(Climb(h, h(e), init), last);
    assert Pair(Climb(h, h(e), init), last) in CheckInputs(h, e, proof);
    assert x in PlanInputs(h, Entry(x));
  }

  /** The hypothesis holds of the children of the root too. */
  lemma HonestChild(h: Hash, p: Plan, e: seq<Byte>, proof: seq<Digest>)
    requires p.Fork? && proof != [] && Honest(h, p, e, proof)
    ensures Honest(h, p.left, e, proof[..|proof| - 1]) && Honest(h, p.right, e, proof[..|proof| - 1])
    ensures NoCollision(h, TreeInputs(h, Sealed(h, p)) + ProofInputs(h, h(e), proof))
  {
    var all, init := PlanInputs(h, p) + CheckInputs(h, e, proof), proof[..|proof| - 1];
    FewerInputs(h, PlanInputs(h, p.left) + CheckInputs(h, e, init), all);
    FewerInputs(h, PlanInputs(h, p.right) + CheckInputs(h, e, init), all);
    FewerInputs(h, TreeInputs(h, Sealed(h, p)) + ProofInputs(h, h(e), proof), all);
  }

  /** The proof, read from its end, leads down the plan to something made from `e`. */
  predicate Uncovers(h: Hash, p: Plan, e: seq<Byte>, proof: seq<Digest>) {
    if proof == [] then Preimage(h, p) == e else
      var init, last := proof[..|proof| - 1], proof[|proof| - 1];
      && p.Fork?
      && (|| (last == Root(h, Sealed(h, p.right)) && Uncovers(h, p.left, e, init))
          || (last == Root(h, Sealed(h, p.left)) && Uncovers(h, p.right, e, init)))
  }

  /** An empty proof is accepted only for what was hashed into the root. */
  lemma RootUncovered(h: Hash, p: Plan, e: seq<Byte>)
    requires Honest(h, p, e, []) && h(e) == Root(h, Sealed(h, p))
    ensures Preimage(h, p) == e
  {
    PreimageHashes(h, p);
    assert Preimage(h, p) in PlanInputs(h, p);
  }

  lemma {:induction false} AcceptedUncovers(h: Hash, p: Plan, e: seq<Byte>, proof: seq<Digest>)
    requires Honest(h, p, e, proof) && Accepts(h, h(e), proof, Root(h, Sealed(h, p)))
    ensures Uncovers(h, p, e, proof)
    decreases p
  {
    if proof == [] {
      RootUncovered(h, p, e);
    } else if p.Entry? {
      EntryNotClimbed(h, p.bytes, e, proof);
    } else {
      HonestChild(h, p, e, proof);
      TopStep(h, Sealed(h, p), h(e), proof);
      if Climb(h, h(e), proof[..|proof| - 1]) == Root(h, Sealed(h, p.left)) {
        AcceptedUncovers(h, p.left, e, proof[..|proof| - 1]);
      }
      if Climb(h, h(e), proof[..|proof| - 1]) == Root(h, Sealed(h, p.right)) {
        AcceptedUncovers(h, p.right, e, proof[..|proof| - 1]);
      }
    }
  }

  lemma {:induction false} UncoversPath(h: Hash, p: Plan, e: seq<Byte>, proof: seq<Digest>) returns (path: seq<bool>)
    requires Uncovers(h, p, e, proof)
    ensures OpensAt(h, p, e, proof, path)
    decreases |proof|
  {
    path := [];
    if proof != [] {
      var init, last := proof[..|proof| - 1], proof[|proof| - 1];
      assert proof == init + [last];
      if last == Root(h, Sealed(h, p.right)) && Uncovers(h, p.left, e, init) {
        var rest := UncoversPath(h, p.left, e, init);
        DescendLeft(h, Sealed(h, p), rest);
        path := [false] + rest;
        assert path[1..] == rest;
      } else {
        var rest := UncoversPath(h, p.right, e, init);
        DescendRight(h, Sealed(h, p), rest);
        path := [true] + rest;
        assert path[1..] == rest;
      }
    }
  }

  /** Soundness for proofs of any length: no proof climbs past the bottom of the tree, because an entry
      never looks like an interior node. */
  lemma SoundAnyLength(h: Hash, p: Plan, e: seq<Byte>, proof: seq<Digest>) returns (path: seq<bool>)
    requires Honest(h, p, e, proof) && Accepts(h, h(e), proof, Root(h, Sealed(h, p)))
    ensures OpensAt(h, p, e, proof, path)
  {
    AcceptedUncovers(h, p, e, proof);
    path := UncoversPath(h, p, e, proof);
  }

  /** Exactly what a verifier accepts, whatever the length of the proof and the shape of the tree: the
      plan's own entries, and its interior nodes presented as if they were entries. */
  lemma AcceptedIffOpens(h: Hash, p: Plan, e: seq<Byte>, proof: seq<Digest>)
    requires Honest(h, p, e, proof)
    ensures Accepts(h, h(e), proof, Root(h, Sealed(h, p))) <==> Opens(h, p, e, proof)
  {
    if Accepts(h, h(e), proof, Root(h, Sealed(h, p))) {
      var path := SoundAnyLength(h, p, e, proof);
    }
    forall path: seq<bool> | OpensAt(h, p, e, proof, path)
      ensures Accepts(h, h(e), proof, Root(h, Sealed(h, p)))
    {
      LeadsInside(h, p, path);
      PreimageHashes(h, Subplan(p, path));
      Climbs(h, Sealed(h, p), path);
    }
  }

  lemma {:induction false} SubplanEntries(p: Plan, path: seq<bool>)
    requires Leads(p, path)
    ensures Entries(Subplan(p, path)) <= Entries(p)
    decreases |path|
  {
    if path != [] {
      SubplanEntries(if path[0] then p.right else p.left, path[1..]);
    }
  }

  /** What the 0x01 prefix buys: an accepted entry that does not itself look like an interior node was
      committed. */
  lemma AcceptedIsCommitted(h: Hash, p: Plan, e: seq<Byte>, proof: seq<Digest>)
    requires Honest(h, p, e, proof) && Accepts(h, h(e), proof, Root(h, Sealed(h, p))) && !NodeLike(e)
    ensures e in Entries(p)
  {
    var path := SoundAnyLength(h, p, e, proof);
    var sub := Subplan(p, path);
    if sub.Fork? {
      PairIsNodeLike(Root(h, Sealed(h, sub.left)), Root(h, Sealed(h, sub.right)));
      assert false;
    }
    SubplanEntries(p, path);
  }

  /** And its limit: in every plan with more than one entry, 65 bytes that were never committed verify with
      an empty proof. */
  lemma InteriorAccepted(h: Hash, p: Plan)
    requires p.Fork? && forall x :: x in Entries(p) ==> !NodeLike(x)
    ensures var e := Preimage(h, p); e !in Entries(p) && Accepts(h, h(e), [], Root(h, Sealed(h, p)))
  {
    PreimageHashes(h, p);
    PairIsNodeLike(Root(h, Sealed(h, p.left)), Root(h, Sealed(h, p.right)));
  }

  // ---------- Packed proofs ----------

  datatype Result = Ok(accepted: bool) | Err

  function Pack(proof: seq<Digest>): seq<Byte> {
    if proof == [] then [] else Pack(proof[..|proof| - 1]) + proof[|proof| - 1]
  }

  /** The 32-byte pieces of a buffer. */
  function Unpack(packed: seq<Byte>): seq<Digest>
    requires |packed| % DIGEST_LEN == 0
  {
    if packed == [] then [] else
      Unpack(packed[..|packed| - DIGEST_LEN]) + [packed[|packed| - DIGEST_LEN..]]
  }

  lemma {:induction false} UnpackPack(proof: seq<Digest>)
    ensures |Pack(proof)| == DIGEST_LEN * |proof| && Unpack(Pack(proof)) == proof
  {
    if proof != [] {
      var init, last := proof[..|proof| - 1], proof[|proof| - 1];
      UnpackPack(init);
      assert Pack(proof)[..|Pack(proof)| - DIGEST_LEN] == Pack(init);
      assert Pack(proof)[|Pack(proof)| - DIGEST_LEN..] == last;
      assert proof == init + [last];
    }
  }

  /** What `verifyProof` answers; a malformed call fails. */
  function VerifyPacked(h: Hash, root: seq<Byte>, leaf: seq<Byte>, packed: seq<Byte>): Result {
    if |leaf| != DIGEST_LEN || |packed| % DIGEST_LEN != 0 || |packed| > MAX_PACKED then Err
    else Ok(Accepts(h, leaf, Unpack(packed), root))
  }

  lemma PackLength(proof: seq<Digest>)
    ensures |Pack(proof)| % DIGEST_LEN == 0 && (|Pack(proof)| <= MAX_PACKED <==> |proof| <= 32)
  {
    UnpackPack(proof);
  }

  lemma PackedVerdict(h: Hash, root: seq<Byte>, leaf: Digest, packed: seq<Byte>, proof: seq<Digest>)
    requires |packed| % DIGEST_LEN == 0 && Unpack(packed) == proof
    ensures VerifyPacked(h, root, leaf, packed) ==
            if |packed| <= MAX_PACKED then Ok(Accepts(h, leaf, proof, root)) else Err
  {
  }

  /** The two verifiers agree on every proof of at most 32 levels; longer ones only the packed one refuses. */
  lemma VerifiersAgree(h: Hash, root: seq<Byte>, leaf: Digest, proof: seq<Digest>)
    ensures VerifyPacked(h, root, leaf, Pack(proof)) ==
            if |proof| <= 32 then Ok(Accepts(h, leaf, proof, root)) else Err
  {
    PackLength(proof);
    assert Unpack(Pack(proof)) == proof by { UnpackPack(proof); }
    PackedVerdict(h, root, leaf, Pack(proof), proof);
  }

  lemma UnpackNext(packed: seq<Byte>, offset: nat)
    requires offset % DIGEST_LEN == 0 && offset + DIGEST_LEN <= |packed|
    ensures (offset + DIGEST_LEN) % DIGEST_LEN == 0
    ensures Unpack(packed[..offset + DIGEST_LEN]) ==
            Unpack(packed[..offset]) + [packed[offset..offset + DIGEST_LEN]]
  {
    var longer := packed[..offset + DIGEST_LEN];
    assert longer[..offset] == packed[..offset];
    assert longer[offset..] == packed[offset..offset + DIGEST_LEN];
  }

  lemma ClimbNext(h: Hash, leaf: Digest, proof: seq<Digest>, sibling: Digest)
    ensures Climb(h, leaf, proof + [sibling]) == Parent(h, Climb(h, leaf, proof), sibling)
  {
    assert (proof + [sibling])[..|proof|] == proof;
  }

  // ---------- The verifiers ----------

  lemma {:induction false} LessAt(a: seq<Byte>, b: seq<Byte>, i: nat)
    requires |a| == |b| && i < |a| && a[..i] == b[..i] && a[i] != b[i]
    ensures Less(a, b) <==> a[i] < b[i]
    decreases i
  {
    if i > 0 {
      assert a[0] == a[..i][0] && b[0] == b[..i][0];
      assert a[1..][..i - 1] == a[..i][1..] && b[1..][..i - 1] == b[..i][1..];
      LessAt(a[1..], b[1..], i - 1);
    }
  }

  /** `buf_compare`. */
  method Compare(a: Digest, b: Digest) returns (c: int)
    ensures (c < 0 <==> Less(a, b)) && (c == 0 <==> a == b) && (c > 0 <==> Less(b, a))
  {
    Trichotomy(a, b);
    for i := 0 to 32
      invariant a[..i] == b[..i]
    {
      if a[i] < b[i] {
        LessAt(a, b, i);
        return -1;
      }
      if a[i] > b[i] {
        LessAt(b, a, i);
        return 1;
      }
      assert a[..i + 1] == a[..i] + [a[i]] && b[..i + 1] == b[..i] + [b[i]];
    }
    assert a == a[..32] && b == b[..32];
    return 0;
  }

  /** `compute_parent_hash`: the smaller or equal child first. */
  method ComputeParentHash(h: Hash, a: Digest, b: Digest) returns (p: Digest)
    ensures p == Parent(h, a, b)
  {
    PairSymmetric(a, b);
    var c := Compare(a, b);
    var concat: seq<Byte> := [1];
    if c <= 0 {
      concat := concat + a + b;
    } else {
      concat := concat + b + a;
    }
    p := h(concat);
  }

  /** `verify_proof`, walking the packed buffer by offsets. */
  method VerifyProof(h: Hash, root: seq<Byte>, leaf: seq<Byte>, packed: seq<Byte>, paused: bool) returns (r: Result)
    ensures r == if paused then Err else VerifyPacked(h, root, leaf, packed)
  {
    if paused || |leaf| != 32 || |packed| % 32 != 0 || |packed| > 1_024 { return Err; }
    var computed: Digest := leaf;
    var offset := 0;
    while offset < |packed|
      invariant 0 <= offset <= |packed| && offset % 32 == 0
      invariant computed == Climb(h, leaf, Unpack(packed[..offset]))
    {
      var sibling: Digest := packed[offset..offset + 32];
      UnpackNext(packed, offset);
      ClimbNext(h, leaf, Unpack(packed[..offset]), sibling);
      computed := ComputeParentHash(h, computed, sibling);
      offset := offset + 32;
    }
    assert packed[..|packed|] == packed;
    return Ok(computed == root);
  }

  /** `verify_merkle_proof`: its own comparison loop, sibling first unless the current hash is strictly less. */
  method VerifyMerkleProof(h: Hash, leaf: Digest, proof: seq<Digest>, root: Digest) returns (accepted: bool)
    ensures accepted == Accepts(h, leaf, proof, root)
  {
    var current := leaf;
    for n := 0 to |proof|
      invariant current == Climb(h, leaf, proof[..n])
    {
      var sibling := proof[n];
      ClimbNext(h, leaf, proof[..n], sibling);
      assert proof[..n + 1] == proof[..n] + [sibling];
      var isLess := StrictlyLess(current, sibling);
      var combined: seq<Byte> := [1];
      if isLess {
        combined := combined + current + sibling;
      } else {
        combined := combined + sibling + current;
      }
      current := h(combined);
    }
    assert proof[..|proof|] == proof;
    accepted := current == root;
  }

  method StrictlyLess(a: Digest, b: Digest) returns (isLess: bool)
    ensures isLess == Less(a, b)
  {
    Trichotomy(a, b);
    isLess := false;
    for i := 0 to 32
      invariant a[..i] == b[..i] && !isLess
    {
      if a[i] < b[i] {
        LessAt(a, b, i);
        return true;
      }
      if a[i] > b[i] {
        LessAt(a, b, i);
        return false;
      }
      assert a[..i + 1] == a[..i] + [a[i]] && b[..i + 1] == b[..i] + [b[i]];
    }
    assert a == a[..32] && b == b[..32];
  }
}
