/** SplitAssigner: the train/validation assignment of every sample index
    (GetColorShapeImg.py:151-155, 208). The code shuffles an index list but
    never reads it: sample `i` is a training sample exactly when `i` is
    below the cut `split_idx`. The cut `int(N * (1 - VAL_RATIO))` is
    float-derived and is given as an integer. */
module SplitAssigner {

  datatype Split = Train | Val

  /** `split_map`: `"train" if idx < split_idx else "val"` for each index. */
  function SplitMap(n: nat, splitIdx: int): (r: seq<Split>)
    ensures |r| == n
    ensures forall i :: 0 <= i < n ==> (r[i] == Train <==> i < splitIdx)
  {
    seq(n, i requires 0 <= i < n => if i < splitIdx then Train else Val)
  }

  /** Number of entries of `s` equal to `v`. */
  function Count(s: seq<Split>, v: Split): nat
  {
    if |s| == 0 then 0
    else Count(s[..|s| - 1], v) + (if s[|s| - 1] == v then 1 else 0)
  }

  /** The number of indices below the cut among `0 .. n - 1`. */
  function TrainCount(n: nat, splitIdx: int): nat
  {
    if splitIdx < 0 then 0 else if splitIdx > n then n else splitIdx
  }

  /** Extending the index range by one index appends one entry. */
  lemma SplitMapSnoc(n: nat, splitIdx: int)
    ensures SplitMap(n + 1, splitIdx) == SplitMap(n, splitIdx) + [if n < splitIdx then Train else Val]
  {
  }

  /** The split is a deterministic cut: exactly `split_idx` training
      samples and `N - split_idx` validation samples when
      `0 <= split_idx <= N`; a cut outside that range acts as 0 or N. */
  lemma {:induction false} SplitCounts(n: nat, splitIdx: int)
    ensures Count(SplitMap(n, splitIdx), Train) == TrainCount(n, splitIdx)
    ensures Count(SplitMap(n, splitIdx), Val) == n - TrainCount(n, splitIdx)
  {
    if n > 0 {
      SplitCounts(n - 1, splitIdx);
      SplitMapSnoc(n - 1, splitIdx);
      assert SplitMap(n, splitIdx)[..n - 1] == SplitMap(n - 1, splitIdx);
    }
  }

  /** The training samples are a prefix and the validation samples the
      remaining suffix. */
  lemma TrainPrefix(n: nat, splitIdx: nat)
    requires splitIdx <= n
    ensures SplitMap(n, splitIdx)[..splitIdx] == seq(splitIdx, _ => Train)
    ensures SplitMap(n, splitIdx)[splitIdx..] == seq(n - splitIdx, _ => Val)
  {
  }

  /** With 2000 samples and a cut at 1600, 1600 samples train and 400
      validate. */
  lemma ConfiguredCounts()
    ensures Count(SplitMap(2000, 1600), Train) == 1600
    ensures Count(SplitMap(2000, 1600), Val) == 400
  {
    SplitCounts(2000, 1600);
  }
}
