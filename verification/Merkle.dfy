/**
 The Merkle frontier kept over every entry hash of a ledger: a compact range
 maintained by binary carry, compared with the recursive tree of section 2.1.1
 of RFC 9162.  The hash function is a parameter, so nothing is assumed of it but
 the width of its digests, and tamper evidence is stated as "equal, or two inputs
 these very trees hash have one digest".
 */
module Merkle {
  newtype Byte = x: int | 0 <= x < 256
  type Bytes = seq<Byte>
  type HashFunction = Bytes -> Bytes

  const DIGEST_BYTES := 32

  ghost predicate FixedWidth(sha: HashFunction) {
    forall x :: |sha(x)| == DIGEST_BYTES
  }

  function LeafHash(sha: HashFunction, leaf: Bytes): Bytes {
    sha([0] + leaf)
  }

  function NodeHash(sha: HashFunction, left: Bytes, right: Bytes): Bytes {
    sha([1] + left + right)
  }

  function Pow2(j: nat): (p: nat)
    ensures p >= 1
  {
    if j == 0 then 1 else 2 * Pow2(j - 1)
  }

  /** The exponent of the largest power of two not above `n`. */
  function Log2(n: nat): (k: nat)
    requires n >= 1
    ensures Pow2(k) <= n < 2 * Pow2(k)
  {
    if n == 1 then 0 else 1 + Log2(n / 2)
  }

  /** How many one-bits `n` has. */
  function Ones(n: nat): nat {
    if n == 0 then 0 else n % 2 + Ones(n / 2)
  }

  /** Section 2.1.1 of RFC 9162: where a tree of `n > 1` leaves is cut, the
      largest power of two smaller than `n`. */
  function Cut(n: nat): (k: nat)
    requires n >= 2
    ensures k < n <= 2 * k
  {
    Pow2(Log2(n - 1))
  }

  /** The Merkle tree hash of section 2.1.1 of RFC 9162. */
  function TreeHash(sha: HashFunction, leaves: seq<Bytes>): Bytes {
    if |leaves| == 0 then sha([])
    else if |leaves| == 1 then LeafHash(sha, leaves[0])
    else
      var k := Cut(|leaves|);
      NodeHash(sha, TreeHash(sha, leaves[..k]), TreeHash(sha, leaves[k..]))
  }

  lemma TreeStep(sha: HashFunction, leaves: seq<Bytes>)
    requires |leaves| >= 2
    ensures var k := Cut(|leaves|);
            TreeHash(sha, leaves) == NodeHash(sha, TreeHash(sha, leaves[..k]), TreeHash(sha, leaves[k..]))
  {
  }

  /** The roots of the perfect trees a row of leaves splits into, one for each one-bit of
      its length, the widest first. */
  function Peaks(sha: HashFunction, leaves: seq<Bytes>): seq<Bytes> {
    if |leaves| == 0 then []
    else
      var k := Pow2(Log2(|leaves|));
      [TreeHash(sha, leaves[..k])] + Peaks(sha, leaves[k..])
  }

  lemma Pow2Monotone(i: nat, j: nat)
    requires i < j
    ensures 2 * Pow2(i) <= Pow2(j)
    decreases j
  {
    if i + 1 < j { Pow2Monotone(i, j - 1); }
  }

  lemma Log2Unique(n: nat, k: nat)
    requires Pow2(k) <= n < 2 * Pow2(k)
    ensures Log2(n) == k
  {
    if Log2(n) < k { Pow2Monotone(Log2(n), k); }
    if k < Log2(n) { Pow2Monotone(k, Log2(n)); }
  }

  /** A perfect tree is cut into two halves. */
  lemma CutPerfect(j: nat)
    ensures Cut(Pow2(j + 1)) == Pow2(j)
  {
    Log2Unique(Pow2(j + 1) - 1, j);
  }

  /** `c` shifted left by `j` bits. */
  function Shift(c: nat, j: nat): nat {
    if j == 0 then c else 2 * Shift(c, j - 1)
  }

  lemma ShiftAdd(a: nat, b: nat, j: nat)
    ensures Shift(a + b, j) == Shift(a, j) + Shift(b, j)
  {
    if j > 0 { ShiftAdd(a, b, j - 1); }
  }

  lemma ShiftCarry(c: nat, j: nat)
    ensures Shift(2 * c, j) == Shift(c, j + 1)
  {
  }

  lemma ShiftPow2(i: nat, j: nat)
    ensures Shift(Pow2(i), j) == Pow2(i + j)
  {
  }

  /** Shifting moves the top bit along. */
  lemma ShiftTop(c: nat, j: nat)
    requires c >= 1
    ensures Shift(c, j) >= 1 && Log2(Shift(c, j)) == Log2(c) + j
  {
    hide Log2;
    var t := Log2(c);
    ShiftAdd(Pow2(t), c - Pow2(t), j);
    ShiftAdd(c, 2 * Pow2(t) - c, j);
    ShiftPow2(t, j);
    ShiftPow2(t + 1, j);
    ShiftPositive(2 * Pow2(t) - c, j);
    Log2Unique(Shift(c, j), t + j);
  }

  lemma ShiftPositive(c: nat, j: nat)
    requires c >= 1
    ensures Shift(c, j) >= 1
  {
  }

  /** An odd number above one and the even one below it have the same top bit, and what is
      left of the odd one without it is odd. */
  lemma TopOfOdd(c: nat)
    requires c >= 3 && c % 2 == 1
    ensures var t := Log2(c); Log2(c - 1) == t && Pow2(t) < c && (c - Pow2(t)) % 2 == 1
  {
    hide Log2;
    var t := Log2(c);
    assert t >= 1;
    assert Pow2(t) == 2 * Pow2(t - 1);
    Log2Unique(c - 1, t);
  }

  lemma TopPart(c: nat, t: nat, j: nat)
    requires Pow2(t) <= c
    ensures Shift(c, j) == Pow2(t + j) + Shift(c - Pow2(t), j)
  {
    ShiftAdd(Pow2(t), c - Pow2(t), j);
    ShiftPow2(t, j);
  }

  lemma LowBit(d: nat, j: nat)
    requires d >= 1
    ensures Shift(d, j) == Shift(d - 1, j) + Pow2(j)
  {
    ShiftAdd(d - 1, 1, j);
    assert Pow2(0) == 1;
    ShiftPow2(0, j);
  }

  /** Taking off the lowest one-bit of a longer number leaves its top bit. */
  lemma TopStays(c: nat, j: nat) returns (k: nat, d: nat)
    requires c >= 3 && c % 2 == 1
    ensures d % 2 == 1 && d < c
    ensures Shift(c, j) == Pow2(k) + Shift(d, j) && Log2(Shift(c, j)) == k
    ensures Shift(c - 1, j) == Pow2(k) + Shift(d - 1, j) >= 1 && Log2(Shift(c - 1, j)) == k
    ensures Shift(d, j) == Shift(d - 1, j) + Pow2(j)
  {
    hide Log2, Shift, Pow2;
    var t := Log2(c);
    TopOfOdd(c);
    d := c - Pow2(t);
    k := t + j;
    ShiftTop(c, j);
    ShiftTop(c - 1, j);
    TopPart(c, t, j);
    TopPart(c - 1, t, j);
    LowBit(d, j);
  }

  /** The lowest one-bit of the length is the last peak. */
  lemma {:induction false} PeaksSplitLow(sha: HashFunction, leaves: seq<Bytes>, c: nat, j: nat)
    requires c % 2 == 1 && |leaves| == Shift(c, j)
    ensures |leaves| == Shift(c - 1, j) + Pow2(j)
    ensures var m := Shift(c - 1, j);
            Peaks(sha, leaves) == Peaks(sha, leaves[..m]) + [TreeHash(sha, leaves[m..])]
    decreases c
  {
    hide Peaks, TreeHash, Log2;
    ShiftAdd(c - 1, 1, j);
    ShiftPow2(0, j);
    var m := Shift(c - 1, j);
    if c == 1 {
      ShiftZero(j);
      ShiftTop(1, j);
      PeaksPerfect(sha, leaves, j);
      assert leaves[..m] == [] && leaves[m..] == leaves;
    } else {
      var k, d := TopStays(c, j);
      var q := Pow2(k);
      PeaksSplitLow(sha, leaves[q..], d, j);
      PeaksStep(sha, leaves, k);
      PeaksStep(sha, leaves[..m], k);
      assert leaves[..m][..q] == leaves[..q];
      assert leaves[q..][..m - q] == leaves[..m][q..];
      assert leaves[q..][m - q..] == leaves[m..];
    }
  }

  lemma ShiftZero(j: nat)
    ensures Shift(0, j) == 0
  {
  }

  lemma PeaksStep(sha: HashFunction, leaves: seq<Bytes>, k: nat)
    requires |leaves| >= 1 && k == Log2(|leaves|)
    ensures Peaks(sha, leaves)
         == [TreeHash(sha, leaves[..Pow2(k)])] + Peaks(sha, leaves[Pow2(k)..])
  {
  }

  lemma PeaksPerfect(sha: HashFunction, leaves: seq<Bytes>, j: nat)
    requires |leaves| == Pow2(j)
    ensures Peaks(sha, leaves) == Peaks(sha, []) + [TreeHash(sha, leaves)] == [TreeHash(sha, leaves)]
  {
    Log2Unique(|leaves|, j);
    PeaksStep(sha, leaves, j);
    assert leaves[..Pow2(j)] == leaves && leaves[Pow2(j)..] == [];
    assert Peaks(sha, []) == [];
  }

  /** Two perfect trees of one size make the perfect tree of twice the size. */
  lemma PerfectNode(sha: HashFunction, leaves: seq<Bytes>, j: nat)
    requires |leaves| == Pow2(j + 1)
    ensures TreeHash(sha, leaves)
         == NodeHash(sha, TreeHash(sha, leaves[..Pow2(j)]), TreeHash(sha, leaves[Pow2(j)..]))
  {
    CutPerfect(j);
  }

  /** One turn of the carry loop: the last peak and the new node, of one size,
      become one node of twice the size. */
  lemma CarryStep(sha: HashFunction, all: seq<Bytes>, m: nat, carry: nat, j: nat)
    requires carry % 2 == 1 && m == Shift(carry, j) && m + Pow2(j) == |all|
    ensures var lower := Shift(carry / 2, j + 1);
            && lower + Pow2(j + 1) == |all|
            && Peaks(sha, all[..m]) == Peaks(sha, all[..lower]) + [TreeHash(sha, all[lower..m])]
            && TreeHash(sha, all[lower..]) == NodeHash(sha, TreeHash(sha, all[lower..m]), TreeHash(sha, all[m..]))
  {
    hide Peaks, TreeHash, Log2;
    ShiftCarry(carry / 2, j);
    var lower := Shift(carry / 2, j + 1);
    assert 2 * (carry / 2) == carry - 1;
    PeaksSplitLow(sha, all[..m], carry, j);
    assert all[..m][..lower] == all[..lower];
    assert all[..m][lower..] == all[lower..m];
    PerfectNode(sha, all[lower..], j);
    assert all[lower..][..Pow2(j)] == all[lower..m];
    assert all[lower..][Pow2(j)..] == all[m..];
  }

  /** Where the carry loop ends from a stack, a carry and a node in hand. */
  function Grow(sha: HashFunction, stack: seq<Bytes>, carry: nat, node: Bytes): seq<Bytes>
    decreases carry
  {
    if carry % 2 == 1 && |stack| > 0 then
      Grow(sha, stack[..|stack| - 1], carry / 2, NodeHash(sha, stack[|stack| - 1], node))
    else stack + [node]
  }

  /** A frontier over `length` leaves, extended by one. */
  function Extend(sha: HashFunction, frontier: seq<Bytes>, length: nat, leaf: Bytes): seq<Bytes> {
    Grow(sha, frontier, length, LeafHash(sha, leaf))
  }

  /** A frontier with a node for every one-bit keeps one for every one-bit. */
  lemma {:induction false} GrowCount(sha: HashFunction, stack: seq<Bytes>, carry: nat, node: Bytes)
    requires |stack| == Ones(carry)
    ensures |Grow(sha, stack, carry, node)| == Ones(carry + 1)
    decreases carry
  {
    if carry % 2 == 1 {
      assert (carry + 1) / 2 == carry / 2 + 1 && (carry + 1) % 2 == 0;
      GrowCount(sha, stack[..|stack| - 1], carry / 2, NodeHash(sha, stack[|stack| - 1], node));
    } else {
      assert (carry + 1) / 2 == carry / 2;
    }
  }

  method FrontierAppend(sha: HashFunction, frontier: seq<Bytes>, length: nat, leaf: Bytes)
    returns (result: seq<Bytes>)
    requires |frontier| == Ones(length)
    ensures result == Extend(sha, frontier, length, leaf)
    ensures |result| == Ones(length + 1)
  {
    var node := LeafHash(sha, leaf);
    var stack := frontier;
    var carry := length;
    while carry % 2 == 1
      invariant |stack| == Ones(carry) && Ones(carry + 1) == Ones(length + 1)
      invariant Grow(sha, stack, carry, node) == Extend(sha, frontier, length, leaf)
      decreases carry
    {
      assert (carry + 1) / 2 == carry / 2 + 1 && (carry + 1) % 2 == 0;
      node := NodeHash(sha, stack[|stack| - 1], node);
      stack := stack[..|stack| - 1];
      carry := carry / 2;
    }
    assert (carry + 1) / 2 == carry / 2;
    result := stack + [node];
  }

  /** From the peaks of all but the entries the node in hand covers, the carry
      loop reaches the peaks of all of them. */
  lemma {:induction false} GrowPeaks(sha: HashFunction, all: seq<Bytes>, carry: nat, j: nat)
    requires Shift(carry, j) + Pow2(j) == |all|
    ensures var m := Shift(carry, j);
            Grow(sha, Peaks(sha, all[..m]), carry, TreeHash(sha, all[m..])) == Peaks(sha, all)
    decreases carry
  {
    hide Peaks, TreeHash;
    var m := Shift(carry, j);
    if carry % 2 == 1 {
      CarryStep(sha, all, m, carry, j);
      var lower := Shift(carry / 2, j + 1);
      var stack := Peaks(sha, all[..m]);
      assert stack[..|stack| - 1] == Peaks(sha, all[..lower]);
      GrowPeaks(sha, all, carry / 2, j + 1);
    } else {
      ShiftAdd(carry, 1, j);
      ShiftPow2(0, j);
      PeaksSplitLow(sha, all, carry + 1, j);
    }
  }

  /** One entry more turns the peaks of a chain into the peaks of the longer chain. */
  lemma ExtendPeaks(sha: HashFunction, leaves: seq<Bytes>, leaf: Bytes)
    ensures Extend(sha, Peaks(sha, leaves), |leaves|, leaf) == Peaks(sha, leaves + [leaf])
  {
    hide Peaks, TreeHash;
    var all := leaves + [leaf];
    SingleLeaf(sha, leaf);
    assert all[..|leaves|] == leaves && all[|leaves|..] == [leaf];
    GrowPeaks(sha, all, |leaves|, 0);
  }

  lemma SingleLeaf(sha: HashFunction, leaf: Bytes)
    ensures TreeHash(sha, [leaf]) == LeafHash(sha, leaf)
  {
  }

  /** The frontier a chain's entry hashes build, one append at a time. */
  function Folded(sha: HashFunction, leaves: seq<Bytes>): seq<Bytes> {
    if |leaves| == 0 then []
    else
      var init := leaves[..|leaves| - 1];
      Extend(sha, Folded(sha, init), |init|, leaves[|leaves| - 1])
  }

  /** Appending every entry hash in turn gives exactly the perfect subtrees the
      length's binary digits name. */
  lemma {:induction false} FoldedIsPeaks(sha: HashFunction, leaves: seq<Bytes>)
    ensures Folded(sha, leaves) == Peaks(sha, leaves)
  {
    hide Extend, Peaks;
    if |leaves| > 0 {
      var init := leaves[..|leaves| - 1];
      FoldedIsPeaks(sha, init);
      ExtendPeaks(sha, init, leaves[|leaves| - 1]);
      assert init + [leaves[|leaves| - 1]] == leaves;
    } else {
      NoPeaks(sha, leaves);
    }
  }

  lemma NoPeaks(sha: HashFunction, leaves: seq<Bytes>)
    requires |leaves| == 0
    ensures Peaks(sha, leaves) == []
  {
  }

  /** The right-to-left fold of a nonempty frontier. */
  function Bag(sha: HashFunction, peaks: seq<Bytes>): Bytes
    requires |peaks| > 0
  {
    if |peaks| == 1 then peaks[0] else NodeHash(sha, peaks[0], Bag(sha, peaks[1..]))
  }

  lemma {:induction false} BagPeaks(sha: HashFunction, leaves: seq<Bytes>)
    requires |leaves| > 0
    ensures |Peaks(sha, leaves)| > 0 && Bag(sha, Peaks(sha, leaves)) == TreeHash(sha, leaves)
    decreases |leaves|
  {
    hide Log2, Peaks, TreeHash;
    var n := |leaves|;
    var j := Log2(n);
    var k := Pow2(j);
    PeaksStep(sha, leaves, j);
    if k == n {
      PeaksPerfect(sha, leaves, j);
    } else {
      Log2Unique(n - 1, j);
      TreeStep(sha, leaves);
      BagPeaks(sha, leaves[k..]);
      assert Peaks(sha, leaves)[1..] == Peaks(sha, leaves[k..]);
    }
  }

  /** The root of a frontier. */
  function Root(sha: HashFunction, frontier: seq<Bytes>): Bytes {
    if |frontier| == 0 then sha([]) else Bag(sha, frontier)
  }

  method FrontierRoot(sha: HashFunction, frontier: seq<Bytes>) returns (root: Bytes)
    ensures root == Root(sha, frontier)
  {
    if |frontier| == 0 {
      return sha([]);
    }
    root := frontier[|frontier| - 1];
    var i := |frontier| - 1;
    while i > 0
      invariant 0 <= i < |frontier|
      invariant root == Bag(sha, frontier[i..])
    {
      i := i - 1;
      root := NodeHash(sha, frontier[i], root);
      assert frontier[i..][1..] == frontier[i + 1..];
    }
    assert frontier[0..] == frontier;
  }

  /** Folding the append over any entry hashes and taking the root gives the
      recursive tree hash of section 2.1.1 of RFC 9162 over those leaves. */
  lemma FrontierIsTheTree(sha: HashFunction, leaves: seq<Bytes>)
    ensures Root(sha, Folded(sha, leaves)) == TreeHash(sha, leaves)
    ensures |Folded(sha, leaves)| == Ones(|leaves|)
  {
    FoldedIsPeaks(sha, leaves);
    PeaksCount(sha, leaves);
    hide Folded;
    if |leaves| > 0 {
      BagPeaks(sha, leaves);
    }
  }

  lemma OnesTop(k: nat, r: nat)
    requires r < Pow2(k)
    ensures Ones(Pow2(k) + r) == 1 + Ones(r)
  {
    if k > 0 {
      OnesTop(k - 1, r / 2);
      assert (Pow2(k) + r) / 2 == Pow2(k - 1) + r / 2;
    }
  }

  /** The frontier of `n` entries has one node for every one-bit of `n`. */
  lemma {:induction false} PeaksCount(sha: HashFunction, leaves: seq<Bytes>)
    ensures |Peaks(sha, leaves)| == Ones(|leaves|)
    decreases |leaves|
  {
    hide Log2, Peaks;
    if |leaves| > 0 {
      var k := Log2(|leaves|);
      PeaksCount(sha, leaves[Pow2(k)..]);
      PeaksStep(sha, leaves, k);
      hide Pow2;
      OnesTop(k, |leaves| - Pow2(k));
      hide Ones;
    } else {
      NoPeaks(sha, leaves);
    }
  }

  /** Every input the hash function is given in hashing a tree of these leaves. */
  ghost function Hashed(sha: HashFunction, leaves: seq<Bytes>): set<Bytes>
    decreases |leaves|
  {
    if |leaves| == 0 then {[]}
    else if |leaves| == 1 then {[0] + leaves[0]}
    else
      var k := Cut(|leaves|);
      Hashed(sha, leaves[..k]) + Hashed(sha, leaves[k..])
      + {[1] + TreeHash(sha, leaves[..k]) + TreeHash(sha, leaves[k..])}
  }

  /** Two different inputs, one hashed for each tree, with one digest. */
  ghost predicate Clash(sha: HashFunction, a: seq<Bytes>, b: seq<Bytes>) {
    exists x, y :: x in Hashed(sha, a) && y in Hashed(sha, b) && x != y && sha(x) == sha(y)
  }

  lemma ClashAbove(sha: HashFunction, a: seq<Bytes>, b: seq<Bytes>, p: seq<Bytes>, q: seq<Bytes>)
    requires Clash(sha, p, q) && Hashed(sha, p) <= Hashed(sha, a) && Hashed(sha, q) <= Hashed(sha, b)
    ensures Clash(sha, a, b)
  {
    hide Hashed;
  }

  /** Equal length and root: the same leaves in the same order, unless hashing these two
      trees already met a collision. */
  lemma {:induction false} TreeCommits(sha: HashFunction, a: seq<Bytes>, b: seq<Bytes>)
    requires FixedWidth(sha) && |a| == |b| && TreeHash(sha, a) == TreeHash(sha, b)
    ensures a == b || Clash(sha, a, b)
    decreases |a|
  {
    hide TreeHash, Cut, Clash, Hashed;
    if |a| == 1 {
      LeafCommits(sha, a, b);
    } else if |a| > 1 && !Clash(sha, a, b) {
      var k := Cut(|a|);
      HashedStep(sha, a, k);
      HashedStep(sha, b, k);
      TreeStep(sha, a);
      TreeStep(sha, b);
      TreeHashWidth(sha, a[..k]);
      TreeHashWidth(sha, b[..k]);
      NodeCommits(sha, a, b, k);
      TreeCommits(sha, a[..k], b[..k]);
      if Clash(sha, a[..k], b[..k]) { ClashAbove(sha, a, b, a[..k], b[..k]); }
      TreeCommits(sha, a[k..], b[k..]);
      if Clash(sha, a[k..], b[k..]) { ClashAbove(sha, a, b, a[k..], b[k..]); }
      assert a == a[..k] + a[k..] && b == b[..k] + b[k..];
    }
  }

  /** The same of two frontiers, however each was built up. */
  lemma RootCommits(sha: HashFunction, a: seq<Bytes>, b: seq<Bytes>)
    requires FixedWidth(sha) && |a| == |b| && Root(sha, Folded(sha, a)) == Root(sha, Folded(sha, b))
    ensures a == b || Clash(sha, a, b)
  {
    FrontierIsTheTree(sha, a);
    FrontierIsTheTree(sha, b);
    hide Clash;
    TreeCommits(sha, a, b);
  }

  lemma LeafCommits(sha: HashFunction, a: seq<Bytes>, b: seq<Bytes>)
    requires |a| == |b| == 1 && TreeHash(sha, a) == TreeHash(sha, b)
    ensures a == b || Clash(sha, a, b)
  {
    var x, y := [0] + a[0], [0] + b[0];
    SingleLeaf(sha, a[0]);
    SingleLeaf(sha, b[0]);
    assert a == [a[0]] && b == [b[0]];
    assert x in Hashed(sha, a) && y in Hashed(sha, b);
    if x == y { assert a[0] == x[1..] == y[1..] == b[0]; }
  }

  lemma HashedStep(sha: HashFunction, leaves: seq<Bytes>, k: nat)
    requires |leaves| > 1 && k == Cut(|leaves|)
    ensures Hashed(sha, leaves[..k]) <= Hashed(sha, leaves) && Hashed(sha, leaves[k..]) <= Hashed(sha, leaves)
    ensures [1] + TreeHash(sha, leaves[..k]) + TreeHash(sha, leaves[k..]) in Hashed(sha, leaves)
  {
    hide TreeHash, Cut;
  }

  lemma NodeCommits(sha: HashFunction, a: seq<Bytes>, b: seq<Bytes>, k: nat)
    requires k <= |a| == |b| && |TreeHash(sha, a[..k])| == |TreeHash(sha, b[..k])|
    requires NodeHash(sha, TreeHash(sha, a[..k]), TreeHash(sha, a[k..]))
          == NodeHash(sha, TreeHash(sha, b[..k]), TreeHash(sha, b[k..]))
    requires [1] + TreeHash(sha, a[..k]) + TreeHash(sha, a[k..]) in Hashed(sha, a)
    requires [1] + TreeHash(sha, b[..k]) + TreeHash(sha, b[k..]) in Hashed(sha, b)
    ensures Clash(sha, a, b)
         || (TreeHash(sha, a[..k]) == TreeHash(sha, b[..k]) && TreeHash(sha, a[k..]) == TreeHash(sha, b[k..]))
  {
    hide TreeHash, Hashed;
    var la, ra, lb, rb := TreeHash(sha, a[..k]), TreeHash(sha, a[k..]), TreeHash(sha, b[..k]), TreeHash(sha, b[k..]);
    var x, y := [1] + la + ra, [1] + lb + rb;
    if x == y {
      assert la == x[1..1 + |la|] && ra == x[1 + |la|..];
      assert lb == y[1..1 + |la|] && rb == y[1 + |la|..];
    }
  }

  lemma TreeHashWidth(sha: HashFunction, leaves: seq<Bytes>)
    requires FixedWidth(sha)
    ensures |TreeHash(sha, leaves)| == DIGEST_BYTES
  {
  }
}
