/**
 * The Luhn sum (ISO/IEC 7812-1, Annex B) exactly as the repository computes
 * it in three places: `sum(digits[-1::-2]) + sum(sum(divmod(d*2,10)) for d
 * in digits[-2::-2])`.  The slice form is related here to the textbook
 * definition: walk from the rightmost digit leftwards, alternately keeping a
 * digit and doubling it (folding a two-digit double into its digit sum).
 */
module Luhn {
  import opened Text

  /** `[int(d) for d in s]` */
  function Digits(s: string): (ds: seq<nat>)
    requires AllDigits(s)
    ensures |ds| == |s|
    ensures forall i :: 0 <= i < |s| ==> ds[i] == DigitValue(s[i])
  {
    seq(|s|, i requires 0 <= i < |s| => DigitValue(s[i]))
  }

  /** `ds[-1::-2]`: the last element, then every second one going left. */
  function EveryOtherFromLast(ds: seq<nat>): seq<nat> {
    if ds == [] then [] else [ds[|ds| - 1]] + EveryOtherFromLast(ds[..if |ds| >= 2 then |ds| - 2 else 0])
  }

  /** `ds[-2::-2]`: the second-to-last element, then every second one going left. */
  function EveryOtherFromSecondLast(ds: seq<nat>): seq<nat> {
    if ds == [] then [] else EveryOtherFromLast(ds[..|ds| - 1])
  }

  function Sum(xs: seq<nat>): nat {
    if xs == [] then 0 else xs[0] + Sum(xs[1..])
  }

  /** `sum(divmod(d*2, 10))` */
  function FoldDouble(d: nat): nat {
    (d * 2) / 10 + (d * 2) % 10
  }

  function SumFoldDoubles(xs: seq<nat>): nat {
    if xs == [] then 0 else FoldDouble(xs[0]) + SumFoldDoubles(xs[1..])
  }

  /** The Luhn sum as the repository writes it, over slices. */
  function LuhnSum(s: string): nat
    requires AllDigits(s)
  {
    var ds := Digits(s);
    Sum(EveryOtherFromLast(ds)) + SumFoldDoubles(EveryOtherFromSecondLast(ds))
  }

  /**
   * The textbook Luhn sum: from the rightmost digit leftwards, the digits
   * alternate between kept and doubled-and-folded; `doubleLast` says which
   * the rightmost one is.
   */
  function AlternatingSum(ds: seq<nat>, doubleLast: bool): nat {
    if ds == [] then 0
    else (if doubleLast then FoldDouble(ds[|ds| - 1]) else ds[|ds| - 1]) + AlternatingSum(ds[..|ds| - 1], !doubleLast)
  }

  lemma {:induction false} SlicesAlternate(ds: seq<nat>)
    ensures AlternatingSum(ds, false) == Sum(EveryOtherFromLast(ds)) + SumFoldDoubles(EveryOtherFromSecondLast(ds))
    ensures AlternatingSum(ds, true) == SumFoldDoubles(EveryOtherFromLast(ds)) + Sum(EveryOtherFromSecondLast(ds))
  {
    if ds != [] {
      var n := |ds|;
      var init := ds[..n - 1];
      var rest := ds[..if n >= 2 then n - 2 else 0];
      SlicesAlternate(init);
      assert EveryOtherFromSecondLast(init) == EveryOtherFromLast(rest) by {
        if n >= 2 {
          assert init[..|init| - 1] == rest;
        }
      }
      var head := [ds[n - 1]] + EveryOtherFromLast(rest);
      assert EveryOtherFromLast(ds) == head;
      assert head[1..] == EveryOtherFromLast(rest);
    }
  }

  /** The repository's slice sum is the textbook Luhn sum. */
  lemma LuhnSumIsAlternating(s: string)
    requires AllDigits(s)
    ensures LuhnSum(s) == AlternatingSum(Digits(s), false)
  {
    SlicesAlternate(Digits(s));
  }

  /** Appending a digit turns the old rightmost digit into a doubled one. */
  lemma LuhnSumAppend(base: string, c: char)
    requires AllDigits(base) && IsDigit(c)
    ensures AllDigits(base + [c])
    ensures LuhnSum(base + [c]) == DigitValue(c) + AlternatingSum(Digits(base), true)
  {
    var s := base + [c];
    LuhnSumIsAlternating(s);
    assert Digits(s)[..|s| - 1] == Digits(base);
  }

  lemma {:induction false} AlternatingSumOfZeros(ds: seq<nat>, doubleLast: bool)
    requires forall i :: 0 <= i < |ds| ==> ds[i] == 0
    ensures AlternatingSum(ds, doubleLast) == 0
  {
    if ds != [] {
      AlternatingSumOfZeros(ds[..|ds| - 1], !doubleLast);
    }
  }
}
