/**
 * Tables made of equal-width blocks laid end to end: where each block
 * starts, how long the whole is, and where each block and element lands.
 */
module Blocks {
  /** Where block `c` of a table made of `n`-row blocks starts, counted block by block. */
  function BlockStart(c: nat, n: nat): nat
  {
    if c == 0 then 0 else BlockStart(c - 1, n) + n
  }

  /** Counting block by block agrees with multiplying. */
  lemma {:induction false} BlockStartIsProduct(c: nat, n: nat)
    ensures BlockStart(c, n) == c * n
  {
    if c > 0 {
      BlockStartIsProduct(c - 1, n);
      assert c * n == (c - 1) * n + n;
    }
  }

  /** The blocks laid end to end. */
  function Flatten<T>(blocks: seq<seq<T>>): seq<T>
  {
    if |blocks| == 0 then [] else blocks[0] + Flatten(blocks[1..])
  }

  /** Laying out `n`-row blocks end to end takes `BlockStart(|blocks|, n)` rows. */
  lemma {:induction false} FlattenLength<T>(blocks: seq<seq<T>>, n: nat)
    requires forall i :: 0 <= i < |blocks| ==> |blocks[i]| == n
    ensures |Flatten(blocks)| == BlockStart(|blocks|, n)
    decreases |blocks|
  {
    if |blocks| > 0 {
      FlattenLength(blocks[1..], n);
    }
  }

  /** Every element of the laid-out blocks comes from one of the blocks. */
  lemma {:induction false} InFlatten<T>(blocks: seq<seq<T>>, x: T)
    requires x in Flatten(blocks)
    ensures exists i :: 0 <= i < |blocks| && x in blocks[i]
    decreases |blocks|
  {
    if x !in blocks[0] {
      InFlatten(blocks[1..], x);
      var i :| 0 <= i < |blocks[1..]| && x in blocks[1..][i];
      assert blocks[1..][i] == blocks[i + 1];
    }
  }

  /** Laying out `n`-row blocks end to end puts block `c` at `BlockStart(c, n)`. */
  lemma {:induction false} FlattenBlock<T>(blocks: seq<seq<T>>, n: nat, c: nat, block: seq<T>)
    requires forall i :: 0 <= i < |blocks| ==> |blocks[i]| == n
    requires c < |blocks| && blocks[c] == block
    ensures BlockStart(c, n) + n <= |Flatten(blocks)|
    ensures Flatten(blocks)[BlockStart(c, n) .. BlockStart(c, n) + n] == block
    decreases c
  {
    var rest := Flatten(blocks[1..]);
    assert Flatten(blocks) == blocks[0] + rest;
    if c == 0 {
      assert (blocks[0] + rest)[0 .. n] == blocks[0];
    } else {
      assert blocks[1..][c - 1] == block;
      FlattenBlock(blocks[1..], n, c - 1, block);
      BlockOfConcat(blocks[0], rest, c, block);
    }
  }

  /** A slice lying wholly in the second part of a concatenation is a slice of that part. */
  lemma SliceOfConcat<T>(a: seq<T>, b: seq<T>, i: int, j: int)
    requires |a| <= i <= j <= |a| + |b|
    ensures (a + b)[i .. j] == b[i - |a| .. j - |a|]
  {
    assert forall k :: 0 <= k < j - i ==> (a + b)[i .. j][k] == b[i - |a| .. j - |a|][k];
  }

  /** Prepending one more block of the same width shifts every later block by one. */
  lemma BlockOfConcat<T>(head: seq<T>, rest: seq<T>, c: nat, block: seq<T>)
    requires 0 < c
    requires BlockStart(c - 1, |head|) + |head| <= |rest|
    requires rest[BlockStart(c - 1, |head|) .. BlockStart(c - 1, |head|) + |head|] == block
    ensures BlockStart(c, |head|) + |head| <= |head + rest|
    ensures (head + rest)[BlockStart(c, |head|) .. BlockStart(c, |head|) + |head|] == block
  {
    var n := |head|;
    var prev := BlockStart(c - 1, n);
    assert BlockStart(c, n) == n + prev;
    SliceOfConcat(head, rest, n + prev, n + prev + n);
  }

  /** An element of a slice is the element at the shifted index. */
  lemma SliceAt<T>(s: seq<T>, lo: nat, n: nat, block: seq<T>, d: nat)
    requires lo + n <= |s| && s[lo .. lo + n] == block && d < n
    ensures lo + d < |s| && s[lo + d] == block[d]
  {
    assert s[lo .. lo + n][d] == s[lo + d];
  }
}
