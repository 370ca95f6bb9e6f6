/**
 * Levenshtein edit distance (insertions, deletions and substitutions, each of cost 1),
 * the measure the JUnit check uses to decide that a method name is a near miss of a
 * conventional one.
 *
 * The distance is defined on suffixes a[i..] and b[j..], by index, so that concrete
 * distances between short literals can be evaluated cell by cell.
 */
module Levenshtein {

  function Abs(x: int): nat { if x < 0 then -x else x }

  function Max(x: nat, y: nat): nat { if x < y then y else x }

  function Min3(x: nat, y: nat, z: nat): (m: nat)
    ensures m <= x && m <= y && m <= z
    ensures m == x || m == y || m == z
  {
    if x <= y && x <= z then x else if y <= z then y else z
  }

  /** Edit distance between the suffixes a[i..] and b[j..]. */
  function SuffixDistance(a: string, b: string, i: nat, j: nat): nat
    requires i <= |a| && j <= |b|
    decreases |a| - i + |b| - j
  {
    if i == |a| then |b| - j
    else if j == |b| then |a| - i
    else Min3(SuffixDistance(a, b, i + 1, j) + 1,
              SuffixDistance(a, b, i, j + 1) + 1,
              SuffixDistance(a, b, i + 1, j + 1) + (if a[i] == b[j] then 0 else 1))
  }

  /** The edit distance between a and b: never less than the difference of their lengths,
      never more than the longer length, and zero exactly for equal strings. */
  function Distance(a: string, b: string): (d: nat)
    ensures Abs(|a| - |b|) <= d <= Max(|a|, |b|)
    ensures d == 0 <==> a == b
  {
    SuffixLengthGap(a, b, 0, 0);
    SuffixLengthBound(a, b, 0, 0);
    SuffixZeroIff(a, b, 0, 0);
    assert a[0..] == a && b[0..] == b;
    SuffixDistance(a, b, 0, 0)
  }

  lemma {:induction false} SuffixSymmetric(a: string, b: string, i: nat, j: nat)
    requires i <= |a| && j <= |b|
    ensures SuffixDistance(a, b, i, j) == SuffixDistance(b, a, j, i)
    decreases |a| - i + |b| - j
  {
    if i < |a| && j < |b| {
      SuffixSymmetric(a, b, i + 1, j);
      SuffixSymmetric(a, b, i, j + 1);
      SuffixSymmetric(a, b, i + 1, j + 1);
      SymmetricStep(a, b, i, j);
    } else {
      SymmetricBase(a, b, i, j);
    }
  }

  lemma SymmetricBase(a: string, b: string, i: nat, j: nat)
    requires i <= |a| && j <= |b| && (i == |a| || j == |b|)
    ensures SuffixDistance(a, b, i, j) == SuffixDistance(b, a, j, i)
  {
  }

  /** One step of the symmetry proof: the first two choices of the recurrence trade places. */
  lemma SymmetricStep(a: string, b: string, i: nat, j: nat)
    requires i < |a| && j < |b|
    requires SuffixDistance(a, b, i + 1, j) == SuffixDistance(b, a, j, i + 1)
    requires SuffixDistance(a, b, i, j + 1) == SuffixDistance(b, a, j + 1, i)
    requires SuffixDistance(a, b, i + 1, j + 1) == SuffixDistance(b, a, j + 1, i + 1)
    ensures SuffixDistance(a, b, i, j) == SuffixDistance(b, a, j, i)
  {
    var deletion, insertion := SuffixDistance(a, b, i + 1, j) + 1, SuffixDistance(a, b, i, j + 1) + 1;
    var substitution := SuffixDistance(a, b, i + 1, j + 1) + (if a[i] == b[j] then 0 else 1);
    assert SuffixDistance(b, a, j, i) == Min3(insertion, deletion, substitution);
    Min3Swap(deletion, insertion, substitution);
  }

  lemma Min3Swap(x: nat, y: nat, z: nat)
    ensures Min3(x, y, z) == Min3(y, x, z)
  {
  }

  /** Distance does not depend on the order of its arguments. */
  lemma DistanceSymmetric(a: string, b: string)
    ensures Distance(a, b) == Distance(b, a)
  {
    SuffixSymmetric(a, b, 0, 0);
  }

  /** Every edit changes the length by at most one. */
  lemma {:induction false} SuffixLengthGap(a: string, b: string, i: nat, j: nat)
    requires i <= |a| && j <= |b|
    ensures SuffixDistance(a, b, i, j) >= Abs((|a| - i) - (|b| - j))
    decreases |a| - i + |b| - j
  {
    if i < |a| && j < |b| {
      SuffixLengthGap(a, b, i + 1, j);
      SuffixLengthGap(a, b, i, j + 1);
      SuffixLengthGap(a, b, i + 1, j + 1);
    }
  }

  /** Substituting along the shorter string and inserting the rest never costs more than the longer length. */
  lemma {:induction false} SuffixLengthBound(a: string, b: string, i: nat, j: nat)
    requires i <= |a| && j <= |b|
    ensures SuffixDistance(a, b, i, j) <= Max(|a| - i, |b| - j)
    decreases |a| - i + |b| - j
  {
    if i < |a| && j < |b| {
      SuffixLengthBound(a, b, i + 1, j + 1);
    }
  }

  lemma {:induction false} SuffixZeroIff(a: string, b: string, i: nat, j: nat)
    requires i <= |a| && j <= |b|
    ensures SuffixDistance(a, b, i, j) == 0 <==> a[i..] == b[j..]
    decreases |a| - i + |b| - j
  {
    if i < |a| && j < |b| {
      SuffixZeroIff(a, b, i + 1, j + 1);
      assert a[i..] == [a[i]] + a[i + 1..];
      assert b[j..] == [b[j]] + b[j + 1..];
      if a[i..] == b[j..] {
        assert a[i] == b[j] && a[i + 1..] == b[j + 1..];
      }
    } else if i < |a| {
      assert |a[i..]| != |b[j..]|;
    } else if j < |b| {
      assert |a[i..]| != |b[j..]|;
    }
  }
}
