/**
  Arg-max and maximum of a row of class scores, with numpy's semantics:
  `argmax` scans left to right and only moves on a strictly larger value,
  so ties go to the lowest index; `max` is the largest value.
 */
module Scores {

  /** `m` is the largest value of `s` and occurs in it. */
  predicate IsMaxValue(s: seq<real>, m: real) {
    && (forall j :: 0 <= j < |s| ==> s[j] <= m)
    && (exists j :: 0 <= j < |s| && s[j] == m)
  }

  /** `k` is the first index of `s` holding its largest value. */
  predicate IsFirstMax(s: seq<real>, k: int) {
    && 0 <= k < |s|
    && (forall j :: 0 <= j < |s| ==> s[j] <= s[k])
    && (forall j :: 0 <= j < k ==> s[j] < s[k])
  }

  /** numpy's `max` of a non-empty row. */
  function Max(s: seq<real>): (m: real)
    requires |s| > 0
    ensures IsMaxValue(s, m)
  {
    if |s| == 1 then s[0]
    else
      var m := Max(s[..|s| - 1]);
      if s[|s| - 1] > m then s[|s| - 1] else m
  }

  /** numpy's `argmax` of a non-empty row. */
  function ArgMax(s: seq<real>): (k: nat)
    requires |s| > 0
    ensures IsFirstMax(s, k)
  {
    if |s| == 1 then 0
    else
      var k := ArgMax(s[..|s| - 1]);
      if s[|s| - 1] > s[k] then |s| - 1 else k
  }

  /** There is only one first index of the maximum, so `ArgMax` is fully determined by it. */
  lemma FirstMaxUnique(s: seq<real>, k1: int, k2: int)
    requires IsFirstMax(s, k1) && IsFirstMax(s, k2)
    ensures k1 == k2
  {
    assert s[k1] == s[k2];
  }

  /** The confidence `max(s)` is the score at the arg-max index. */
  lemma MaxAtArgMax(s: seq<real>)
    requires |s| > 0
    ensures s[ArgMax(s)] == Max(s)
  {
  }

  /**
    One left-to-right pass that computes arg-max and maximum together, as
    numpy does: the candidate changes only on a strictly larger value.
   */
  method ScanMax(s: seq<real>) returns (k: nat, m: real)
    requires |s| > 0
    ensures IsFirstMax(s, k)
    ensures m == s[k]
    ensures IsMaxValue(s, m)
    ensures k == ArgMax(s) && m == Max(s)
  {
    k, m := 0, s[0];
    var i := 1;
    while i < |s|
      invariant 1 <= i <= |s|
      invariant k < i && m == s[k]
      invariant forall j :: 0 <= j < i ==> s[j] <= m
      invariant forall j :: 0 <= j < k ==> s[j] < m
    {
      if s[i] > m {
        k, m := i, s[i];
      }
      i := i + 1;
    }
    FirstMaxUnique(s, k, ArgMax(s));
  }
}
