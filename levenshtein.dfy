/**
 * `levenshteinDistance(str1, str2)` of src/components/SearchDropdown.jsx:
 * the edit-distance matrix filled row by row, with rows indexed by the
 * prefixes of `str2` and columns by the prefixes of `str1`.
 */
module Levenshtein {

  /** The matrix entry at row `i`, column `j`: the entry the source computes
      for the first `i` characters of `b` against the first `j` of `a`. */
  function Cell(a: string, b: string, i: nat, j: nat): nat
    requires i <= |b| && j <= |a|
    decreases i + j
  {
    if i == 0 then j
    else if j == 0 then i
    else if b[i - 1] == a[j - 1] then Cell(a, b, i - 1, j - 1)
    else Min3(Cell(a, b, i - 1, j - 1) + 1, Cell(a, b, i, j - 1) + 1, Cell(a, b, i - 1, j) + 1)
  }

  function Min3(x: nat, y: nat, z: nat): (m: nat)
    ensures m <= x && m <= y && m <= z
    ensures m == x || m == y || m == z
  {
    if x <= y && x <= z then x else if y <= z then y else z
  }

  /** `levenshteinDistance(str1, str2)`: the bottom-right entry. */
  function Distance(str1: string, str2: string): nat {
    Cell(str1, str2, |str2|, |str1|)
  }

  method LevenshteinDistance(str1: string, str2: string) returns (d: nat)
    ensures d == Distance(str1, str2)
  {
    var matrix := new nat[|str2| + 1, |str1| + 1];
    var i := 0;
    while i <= |str2|
      invariant 0 <= i <= |str2| + 1
      invariant forall r :: 0 <= r < i ==> matrix[r, 0] == Cell(str1, str2, r, 0)
    {
      matrix[i, 0] := i;
      i := i + 1;
    }
    var j := 0;
    while j <= |str1|
      invariant 0 <= j <= |str1| + 1
      invariant forall r :: 0 <= r <= |str2| ==> matrix[r, 0] == Cell(str1, str2, r, 0)
      invariant forall c :: 0 <= c < j ==> matrix[0, c] == Cell(str1, str2, 0, c)
    {
      matrix[0, j] := j;
      j := j + 1;
    }
    i := 1;
    while i <= |str2|
      invariant 1 <= i <= |str2| + 1
      invariant forall r, c :: 0 <= r < i && 0 <= c <= |str1| ==> matrix[r, c] == Cell(str1, str2, r, c)
      invariant forall r :: i <= r <= |str2| ==> matrix[r, 0] == Cell(str1, str2, r, 0)
    {
      FillRow(matrix, str1, str2, i);
      i := i + 1;
    }
    d := matrix[|str2|, |str1|];
  }

  /** The inner loop: row `i` from column 1 on, from row `i - 1` and the
      entries of row `i` already filled. */
  method FillRow(matrix: array2<nat>, str1: string, str2: string, i: nat)
    requires matrix.Length0 == |str2| + 1 && matrix.Length1 == |str1| + 1
    requires 1 <= i <= |str2|
    requires forall r, c :: 0 <= r < i && 0 <= c <= |str1| ==> matrix[r, c] == Cell(str1, str2, r, c)
    requires forall r :: i <= r <= |str2| ==> matrix[r, 0] == Cell(str1, str2, r, 0)
    modifies matrix
    ensures forall r, c :: 0 <= r <= i && 0 <= c <= |str1| ==> matrix[r, c] == Cell(str1, str2, r, c)
    ensures forall r :: i < r <= |str2| ==> matrix[r, 0] == Cell(str1, str2, r, 0)
  {
    var j := 1;
    while j <= |str1|
      invariant 1 <= j <= |str1| + 1
      invariant forall r, c :: 0 <= r < i && 0 <= c <= |str1| ==> matrix[r, c] == Cell(str1, str2, r, c)
      invariant forall c :: 0 <= c < j ==> matrix[i, c] == Cell(str1, str2, i, c)
      invariant forall r :: i < r <= |str2| ==> matrix[r, 0] == Cell(str1, str2, r, 0)
    {
      var v: nat;
      if str2[i - 1] == str1[j - 1] {
        v := matrix[i - 1, j - 1];
      } else {
        v := Min3(matrix[i - 1, j - 1] + 1, matrix[i, j - 1] + 1, matrix[i - 1, j] + 1);
      }
      assert v == Cell(str1, str2, i, j);
      matrix[i, j] := v;
      forall c | 0 <= c < j + 1 ensures matrix[i, c] == Cell(str1, str2, i, c) {
        if c == j {
          assert matrix[i, c] == v;
        }
      }
      j := j + 1;
    }
  }

  // ---------------------------------------------------------------------
  // Properties of the distance

  /** Against the empty string the distance is the other string's length. */
  lemma DistanceToEmpty(s: string)
    ensures Distance(s, "") == |s| && Distance("", s) == |s|
  {
  }

  lemma {:induction false} CellDiagonalZero(s: string, i: nat)
    requires i <= |s|
    ensures Cell(s, s, i, i) == 0
  {
    if i > 0 {
      CellDiagonalZero(s, i - 1);
    }
  }

  /** A string is at distance 0 from itself. */
  lemma DistanceToSelf(s: string)
    ensures Distance(s, s) == 0
  {
    CellDiagonalZero(s, |s|);
  }

  lemma {:induction false} CellSymmetric(a: string, b: string, i: nat, j: nat)
    requires i <= |b| && j <= |a|
    ensures Cell(a, b, i, j) == Cell(b, a, j, i)
    decreases i + j
  {
    if i > 0 && j > 0 {
      CellSymmetric(a, b, i - 1, j - 1);
      if b[i - 1] != a[j - 1] {
        CellSymmetric(a, b, i, j - 1);
        CellSymmetric(a, b, i - 1, j);
        var x, y, z := Cell(a, b, i - 1, j - 1) + 1, Cell(a, b, i, j - 1) + 1, Cell(a, b, i - 1, j) + 1;
        assert Cell(a, b, i, j) == Min3(x, y, z);
        assert Cell(b, a, j, i) == Min3(x, z, y);
      }
    }
  }

  /** The distance does not depend on the order of its arguments. */
  lemma DistanceSymmetric(a: string, b: string)
    ensures Distance(a, b) == Distance(b, a)
  {
    CellSymmetric(a, b, |b|, |a|);
  }

  function Max(x: nat, y: nat): nat { if x >= y then x else y }

  function Gap(x: nat, y: nat): nat { if x >= y then x - y else y - x }

  lemma {:induction false} CellBounds(a: string, b: string, i: nat, j: nat)
    requires i <= |b| && j <= |a|
    ensures Gap(i, j) <= Cell(a, b, i, j) <= Max(i, j)
    decreases i + j
  {
    if i > 0 && j > 0 {
      CellBounds(a, b, i - 1, j - 1);
      CellBounds(a, b, i, j - 1);
      CellBounds(a, b, i - 1, j);
    }
  }

  /** The distance is at least the difference of the lengths and at most
      the longer length. */
  lemma DistanceBounds(a: string, b: string)
    ensures Gap(|a|, |b|) <= Distance(a, b) <= Max(|a|, |b|)
  {
    CellBounds(a, b, |b|, |a|);
  }
}
