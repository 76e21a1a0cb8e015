/** The Merkle proof of the airdrop: a fold of sibling hashes from a leaf up to the root. */
module Merkle {
  import opened Common

  type Digest = nat

  /** SHA-256 over a (recipient, amount) leaf and over two concatenated digests; any functions at all. */
  datatype Hashing = Hashing(leaf: (Address, int) -> Digest, pair: (Digest, Digest) -> Digest)

  function Fold(h: Hashing, current: Digest, proof: seq<Digest>): Digest
    decreases |proof|
  {
    if proof == [] then current else Fold(h, h.pair(current, proof[0]), proof[1..])
  }

  predicate Accepts(h: Hashing, leaf: Digest, root: Digest, proof: seq<Digest>) {
    Fold(h, leaf, proof) == root
  }

  method VerifyMerkleProof(h: Hashing, leaf: Digest, root: Digest, proof: seq<Digest>) returns (ok: bool)
    ensures ok == Accepts(h, leaf, root, proof)
  {
    var current := leaf;
    var i := 0;
    while i < |proof|
      invariant 0 <= i <= |proof|
      invariant Fold(h, current, proof[i..]) == Fold(h, leaf, proof)
    {
      assert proof[i..][1..] == proof[i + 1..];
      current := h.pair(current, proof[i]);
      i := i + 1;
    }
    ok := current == root;
  }

  /**
   * The two folds of equally many siblings meet in a collision: at some level they hash two different pairs of
   * digests to the same parent. Which level and which pairs is computed from the proofs.
   */
  predicate NodeCollision(h: Hashing, x: Digest, proof: seq<Digest>, y: Digest, proof': seq<Digest>)
    requires |proof| == |proof'|
    decreases |proof|
  {
    && proof != []
    && (|| ((x != y || proof[0] != proof'[0]) && h.pair(x, proof[0]) == h.pair(y, proof'[0]))
        || NodeCollision(h, h.pair(x, proof[0]), proof[1..], h.pair(y, proof'[0]), proof'[1..]))
  }

  /** Two different claims with the same leaf. */
  predicate LeafCollision(h: Hashing, a: Address, x: int, b: Address, y: int) {
    (a != b || x != y) && h.leaf(a, x) == h.leaf(b, y)
  }

  /** Folding is injective up to collisions at the nodes: equal results over equally many siblings mean equal inputs. */
  lemma {:induction false} FoldDeterminesInput(
    h: Hashing, leaf: Digest, proof: seq<Digest>, leaf': Digest, proof': seq<Digest>)
    requires |proof| == |proof'| && Fold(h, leaf, proof) == Fold(h, leaf', proof')
    ensures (leaf == leaf' && proof == proof') || NodeCollision(h, leaf, proof, leaf', proof')
    decreases |proof|
  {
    if proof != [] {
      FoldDeterminesInput(h, h.pair(leaf, proof[0]), proof[1..], h.pair(leaf', proof'[0]), proof'[1..]);
      if !NodeCollision(h, leaf, proof, leaf', proof') {
        assert proof == [proof[0]] + proof[1..] && proof' == [proof'[0]] + proof'[1..];
      }
    }
  }

  /**
   * Two accepted proofs for one root. Unless the nodes they share collide, the shorter one is the tail of the longer,
   * and its leaf is the inner node the longer one passes there; for equal lengths leaf and siblings agree.
   */
  lemma {:induction false} AcceptedProofsAgree(
    h: Hashing, root: Digest, leaf: Digest, proof: seq<Digest>, leaf': Digest, proof': seq<Digest>)
    requires Accepts(h, leaf, root, proof) && Accepts(h, leaf', root, proof') && |proof'| <= |proof|
    ensures var k := |proof| - |proof'|; var inner := Fold(h, leaf, proof[..k]);
      || NodeCollision(h, inner, proof[k..], leaf', proof')
      || (proof[k..] == proof' && leaf' == inner && (k == 0 ==> leaf == leaf'))
  {
    var k := |proof| - |proof'|;
    FoldSplit(h, leaf, proof, k);
    FoldDeterminesInput(h, Fold(h, leaf, proof[..k]), proof[k..], leaf', proof');
  }

  lemma {:induction false} FoldSplit(h: Hashing, leaf: Digest, proof: seq<Digest>, k: nat)
    requires k <= |proof|
    ensures Fold(h, leaf, proof) == Fold(h, Fold(h, leaf, proof[..k]), proof[k..])
    decreases k
  {
    if k > 0 {
      FoldSplit(h, h.pair(leaf, proof[0]), proof[1..], k - 1);
      assert proof[..k][1..] == proof[1..][..k - 1] && proof[1..][k - 1..] == proof[k..];
    }
  }

  /** A longer proof hashes what the shorter one gives, on the left, with one more sibling, on the right. */
  lemma {:induction false} FoldAppend(h: Hashing, leaf: Digest, proof: seq<Digest>, sibling: Digest)
    ensures Fold(h, leaf, []) == leaf
    ensures Fold(h, leaf, proof + [sibling]) == h.pair(Fold(h, leaf, proof), sibling)
  {
    FoldSplit(h, leaf, proof + [sibling], |proof|);
    assert (proof + [sibling])[..|proof|] == proof && (proof + [sibling])[|proof|..] == [sibling];
    var current := Fold(h, leaf, proof);
    assert [sibling][1..] == [];
    assert Fold(h, current, [sibling]) == Fold(h, h.pair(current, sibling), []);
  }

  /** So a root pays one recipient and amount per proof path, or the two accepted claims exhibit a collision. */
  lemma {:induction false} ProofPathFixesClaim(
    h: Hashing, root: Digest, a: Address, x: int, b: Address, y: int, proof: seq<Digest>, proof': seq<Digest>)
    requires Accepts(h, h.leaf(a, x), root, proof) && Accepts(h, h.leaf(b, y), root, proof') && |proof| == |proof'|
    ensures || (a == b && x == y && proof == proof')
            || NodeCollision(h, h.leaf(a, x), proof, h.leaf(b, y), proof') || LeafCollision(h, a, x, b, y)
  {
    FoldDeterminesInput(h, h.leaf(a, x), proof, h.leaf(b, y), proof');
  }
}
