/**
 * The causal mask `Pico.forward` builds once per call: a `(seq_len, seq_len)` block of `-inf`
 * cut to its strict upper triangle by `triu(diagonal=1)`, with `start_pos` zero columns stacked
 * in front of it when a cache is supplied. Entries are symbolic: the additive bias is 0 or -inf.
 */
module CausalMask {
  import opened Wrappers

  datatype MaskEntry = Zero | NegInf

  type Mask = seq<seq<MaskEntry>>

  /** `torch.full((rows, cols), e)` */
  function Full(rows: nat, cols: nat, e: MaskEntry): Mask
  {
    seq(rows, _ => seq(cols, _ => e))
  }

  /** `torch.triu(m, diagonal)`: keeps (i, j) when `j - i >= diagonal`, zeroes the rest. */
  function Triu(m: Mask, diagonal: int): Mask
  {
    seq(|m|, i requires 0 <= i < |m| =>
      seq(|m[i]|, j requires 0 <= j < |m[i]| => if j - i >= diagonal then m[i][j] else Zero))
  }

  /** `torch.hstack([a, b])`: row i of the result is row i of `a` followed by row i of `b`. */
  function HStack(a: Mask, b: Mask): Mask
    requires |a| == |b|
  {
    seq(|a|, i requires 0 <= i < |a| => a[i] + b[i])
  }

  /** Interpretation of a mask row-major shape. */
  ghost predicate HasShape(m: Mask, rows: nat, cols: nat)
  {
    |m| == rows && forall i :: 0 <= i < rows ==> |m[i]| == cols
  }

  /**
   * The mask of `Pico.forward` for `seqLen` new tokens; `hasPast` says whether a cache was
   * supplied and `startPos` is its length. `None` is the `mask = None` of single-token steps.
   */
  function Build(seqLen: nat, hasPast: bool, startPos: nat): (r: Option<Mask>)
    ensures r.None? <==> seqLen <= 1
  {
    if seqLen <= 1 then None
    else
      var m := Triu(Full(seqLen, seqLen, NegInf), 1);
      Some(if hasPast then HStack(Full(seqLen, startPos, Zero), m) else m)
  }

  /**
   * For two or more tokens the mask has one row per new token and one column per key (cached
   * and new); new token i may attend to key j exactly when j is not after its own absolute
   * position `offset + i`, where the offset is the cache length (0 without a cache).
   */
  lemma BuildPattern(seqLen: nat, hasPast: bool, startPos: nat)
    requires seqLen > 1
    ensures var offset := if hasPast then startPos else 0;
      && Build(seqLen, hasPast, startPos).Some?
      && HasShape(Build(seqLen, hasPast, startPos).value, seqLen, offset + seqLen)
      && forall i, j :: 0 <= i < seqLen && 0 <= j < offset + seqLen ==>
           (Build(seqLen, hasPast, startPos).value[i][j] == NegInf <==> j > offset + i)
  {
    var offset := if hasPast then startPos else 0;
    var m := Build(seqLen, hasPast, startPos).value;
    var tri := Triu(Full(seqLen, seqLen, NegInf), 1);
    forall i, j | 0 <= i < seqLen && 0 <= j < offset + seqLen
      ensures |m[i]| == offset + seqLen
      ensures m[i][j] == NegInf <==> j > offset + i
    {
      if hasPast {
        assert m[i] == Full(seqLen, startPos, Zero)[i] + tri[i];
        if j >= startPos {
          assert m[i][j] == tri[i][j - startPos];
        }
      }
    }
  }

  /** Every cached column is open to every new token: the prefix of each row is all Zero. */
  lemma CachedColumnsOpen(seqLen: nat, startPos: nat, i: nat, j: nat)
    requires seqLen > 1 && i < seqLen && j < startPos
    ensures Build(seqLen, true, startPos).value[i][j] == Zero
  {
    BuildPattern(seqLen, true, startPos);
  }

  /** Row i opens exactly the first `offset + i + 1` columns: the count of Zero entries. */
  function CountZero(row: seq<MaskEntry>): nat
  {
    if row == [] then 0 else (if row[0] == Zero then 1 else 0) + CountZero(row[1..])
  }

  lemma {:induction false} CountZeroPrefix(row: seq<MaskEntry>, k: nat)
    requires k <= |row|
    requires forall j :: 0 <= j < |row| ==> (row[j] == Zero <==> j < k)
    ensures CountZero(row) == k
  {
    if row != [] {
      if k > 0 {
        CountZeroPrefix(row[1..], k - 1);
      } else {
        CountZeroPrefix(row[1..], 0);
      }
    }
  }

  lemma VisibleKeys(seqLen: nat, hasPast: bool, startPos: nat, i: nat)
    requires seqLen > 1 && i < seqLen
    ensures var offset := if hasPast then startPos else 0;
      CountZero(Build(seqLen, hasPast, startPos).value[i]) == offset + i + 1
  {
    var offset := if hasPast then startPos else 0;
    BuildPattern(seqLen, hasPast, startPos);
    var row := Build(seqLen, hasPast, startPos).value[i];
    forall j | 0 <= j < |row| ensures row[j] == Zero <==> j < offset + i + 1 {
      assert row[j] == NegInf <==> j > offset + i;
    }
    CountZeroPrefix(row, offset + i + 1);
  }
}
