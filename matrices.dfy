/**
 * mat3.h: a 3x3 matrix stored row-major in a nine-slot array, filled by
 * nested loops, and an element accessor that asserts both indices are below 3.
 */
module Matrices {
  import opened Wrappers

  /** row_vec: three scalars, one row of a row-list initialiser. */
  type RowVec = r: seq<real> | |r| == 3 witness [0.0, 0.0, 0.0]

  /** row_vec::operator[]: None stands for the failed `assert(i < 3)`. */
  function RowAt(r: RowVec, i: nat): (e: Option<real>)
    ensures e.Some? <==> i < 3
    ensures e.Some? ==> e.value == r[i]
  {
    if i < 3 then Some(r[i]) else None
  }

  /** The slot of entry (i, j) in the row-major array. */
  function Slot(i: nat, j: nat): nat
  {
    i * 3 + j
  }

  /** Row-major addressing gives each of the nine entries its own slot. */
  lemma SlotBijective(i: nat, j: nat, k: nat, l: nat)
    requires i < 3 && j < 3 && k < 3 && l < 3
    ensures Slot(i, j) < 9
    ensures Slot(i, j) == Slot(k, l) <==> i == k && j == l
  {
  }

  class Mat3 {
    var A: array<real>

    ghost predicate Valid()
      reads this
    {
      A.Length == 9
    }

    /** operator()(i, j): entry (i, j) of the row-major array; None stands
        for the failed `assert(i < 3 && j < 3)`. */
    function At(i: nat, j: nat): (r: Option<real>)
      reads this, A
      requires Valid()
      ensures r.Some? <==> i < 3 && j < 3
    {
      if i < 3 && j < 3 then Some(A[Slot(i, j)]) else None
    }

    /** Mat3(): every entry zero. */
    constructor ()
      ensures Valid() && fresh(A)
      ensures forall i: nat, j: nat :: i < 3 && j < 3 ==> At(i, j) == Some(0.0)
    {
      var a := new real[9];
      for i := 0 to 3
        invariant forall k :: 0 <= k < i * 3 ==> a[k] == 0.0
      {
        for j := 0 to 3
          invariant forall k :: 0 <= k < i * 3 + j ==> a[k] == 0.0
        {
          a[i * 3 + j] := 0.0;
        }
      }
      A := a;
    }

    /** Mat3(Mat3& M): entrywise copy through M's accessor. */
    constructor Copy(M: Mat3)
      requires M.Valid()
      ensures Valid() && fresh(A)
      ensures forall i: nat, j: nat :: At(i, j) == M.At(i, j)
    {
      var a := new real[9];
      for i := 0 to 3
        invariant forall k :: 0 <= k < i * 3 ==> a[k] == M.A[k]
      {
        for j := 0 to 3
          invariant forall k :: 0 <= k < i * 3 + j ==> a[k] == M.A[k]
        {
          a[i * 3 + j] := M.At(i, j).value;
        }
      }
      A := a;
    }

    /** Mat3(initializer_list<row_vec>): entry (i, j) is element j of row i.
        Exactly three rows are read whatever the list holds, so a list of
        fewer rows is read past its end: the model requires three. */
    constructor FromRows(l: seq<RowVec>)
      requires |l| >= 3
      ensures Valid() && fresh(A)
      ensures forall i: nat, j: nat :: i < 3 && j < 3 ==> At(i, j) == Some(l[i][j])
    {
      var a := new real[9];
      for i := 0 to 3
        invariant forall r: nat, c: nat :: r < i && c < 3 ==> a[r * 3 + c] == l[r][c]
      {
        for j := 0 to 3
          invariant forall r: nat, c: nat :: r < i && c < 3 ==> a[r * 3 + c] == l[r][c]
          invariant forall c: nat :: c < j ==> a[i * 3 + c] == l[i][c]
        {
          a[i * 3 + j] := RowAt(l[i], j).value;
        }
      }
      A := a;
    }

    /** A write through operator()(i, j): changes entry (i, j) and no other;
        ok is false, and nothing is written, where the assertion would fire. */
    method Set(i: nat, j: nat, v: real) returns (ok: bool)
      requires Valid()
      modifies A
      ensures Valid()
      ensures ok <==> i < 3 && j < 3
      ensures forall k: nat, l: nat :: k < 3 && l < 3 ==>
        At(k, l) == if ok && k == i && l == j then Some(v) else old(At(k, l))
    {
      ok := i < 3 && j < 3;
      if ok {
        A[Slot(i, j)] := v;
        forall k: nat, l: nat | k < 3 && l < 3
          ensures At(k, l) == if k == i && l == j then Some(v) else old(At(k, l))
        {
          SlotBijective(i, j, k, l);
        }
      }
    }
  }
}
