/** Values shared by the backend and frontend models: an optional value, a
    result-or-error value, and the two ways the backend reads a table
    (the first row that matches, and every row that matches). */
module Rows {

  datatype Option<+T> = None | Some(value: T)

  datatype Result<+R, +E> = Success(value: R) | Failure(error: E)

  /** The position of the first row satisfying `p`, in table order, or None
      when no row does: the meaning given here to an ORM's `findFirst`. */
  function FindFirst<T>(rows: seq<T>, p: T -> bool): (r: Option<nat>)
    ensures r.Some? ==> r.value < |rows| && p(rows[r.value])
    ensures r.Some? ==> forall j :: 0 <= j < r.value ==> !p(rows[j])
    ensures r.None? <==> forall j :: 0 <= j < |rows| ==> !p(rows[j])
  {
    if |rows| == 0 then None
    else if p(rows[0]) then Some(0)
    else match FindFirst(rows[1..], p)
      case None => None
      case Some(i) => Some(i + 1)
  }

  /** Every row satisfying `p`: the meaning given here to an ORM's `findMany`
      with a `where` filter. The contract states membership only, which is
      all the callers rely on. */
  function Where<T>(rows: seq<T>, p: T -> bool): (r: seq<T>)
    ensures |r| <= |rows|
    ensures forall i :: 0 <= i < |r| ==> r[i] in rows && p(r[i])
    ensures forall j :: 0 <= j < |rows| && p(rows[j]) ==> rows[j] in r
  {
    if |rows| == 0 then []
    else if p(rows[0]) then [rows[0]] + Where(rows[1..], p)
    else Where(rows[1..], p)
  }

  /** Inserting a row that fails `p` does not move the first match. */
  lemma {:induction false} FindFirstSkipsNonMatching<T>(front: seq<T>, x: T, back: seq<T>, p: T -> bool)
    requires !p(x)
    ensures FindFirst(front + [x] + back, p).None? <==> FindFirst(front + back, p).None?
    ensures FindFirst(front + back, p).Some? ==>
              (front + [x] + back)[FindFirst(front + [x] + back, p).value]
              == (front + back)[FindFirst(front + back, p).value]
  {
    var withX, without := front + [x] + back, front + back;
    match FindFirst(without, p)
    case None =>
      forall j | 0 <= j < |withX| ensures !p(withX[j]) {
        if j < |front| {
          assert withX[j] == without[j];
        } else if j > |front| {
          assert withX[j] == without[j - 1];
        }
      }
    case Some(i) =>
      var k := if i < |front| then i else i + 1;
      assert withX[k] == without[i];
      forall j | 0 <= j < k ensures !p(withX[j]) {
        if j < |front| {
          assert withX[j] == without[j];
        } else if j > |front| {
          assert withX[j] == without[j - 1];
        }
      }
      assert FindFirst(withX, p) == Some(k);
  }
}
