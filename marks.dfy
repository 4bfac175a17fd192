/**
 * The value-level queries of the grid game engine (a01a/sol2/LogicImpl.java):
 * cells, adjacency, the diagonal shift of every mark, the 1-based lookup of a
 * mark and the game-over test. Everything here is pure; the class in module
 * Logic and the transition function in module Engine are built on it.
 */
module Marks {
  import opened Wrappers

  /** A grid cell, compared by value. */
  datatype Position = Position(x: int, y: int)

  function Abs(n: int): nat {
    if n < 0 then -n else n
  }

  /** Chebyshev distance: the larger of the two coordinate differences. */
  function Chebyshev(p: Position, q: Position): nat {
    var dx, dy := Abs(p.x - q.x), Abs(p.y - q.y);
    if dx < dy then dy else dx
  }

  /** `neighbours`: both coordinate differences are at most one, so a cell is its own neighbour. */
  function Neighbours(p1: Position, p2: Position): (r: bool)
    ensures r <==> Chebyshev(p1, p2) <= 1
  {
    Abs(p1.x - p2.x) <= 1 && Abs(p1.y - p2.y) <= 1
  }

  lemma NeighboursSymmetric(p: Position, q: Position)
    ensures Neighbours(p, q) == Neighbours(q, p)
  {
  }

  /** `startMoving`: some mark is a neighbour of the clicked cell. */
  function StartMoving(marks: seq<Position>, p: Position): (r: bool)
    ensures r <==> exists i :: 0 <= i < |marks| && Neighbours(marks[i], p)
  {
    if marks == [] then false
    else if Neighbours(marks[0], p) then true
    else
      var rest := StartMoving(marks[1..], p);
      assert forall i :: 1 <= i < |marks| ==> marks[i] == marks[1..][i - 1];
      rest
  }

  /** The movement step applied to one mark: one column right, one row up (rows count from the top). */
  function Shift(p: Position): Position {
    Position(p.x + 1, p.y - 1)
  }

  lemma ShiftInjective(p: Position, q: Position)
    ensures Shift(p) == Shift(q) <==> p == q
  {
  }

  /** The stream `map` of `moveMarks`: every mark shifted, same length, same order. */
  function Moved(marks: seq<Position>): (r: seq<Position>)
    ensures |r| == |marks|
    ensures forall i :: 0 <= i < |r| ==> r[i] == Shift(marks[i])
  {
    if marks == [] then [] else [Shift(marks[0])] + Moved(marks[1..])
  }

  /** `List.indexOf`: the first index holding `p`, or -1 when there is none. */
  function IndexOf(marks: seq<Position>, p: Position): (r: int)
    ensures -1 <= r < |marks|
    ensures r == -1 <==> p !in marks
    ensures 0 <= r ==> marks[r] == p && forall j :: 0 <= j < r ==> marks[j] != p
  {
    if marks == [] then -1
    else if marks[0] == p then 0
    else
      var k := IndexOf(marks[1..], p);
      if k == -1 then -1 else k + 1
  }

  /** `getMark`: the 1-based number of the first mark on `p`, or nothing. */
  function GetMark(marks: seq<Position>, p: Position): (r: Option<nat>)
    ensures r.None? <==> p !in marks
    ensures r.Some? ==> 1 <= r.value <= |marks| && marks[r.value - 1] == p
    ensures r.Some? ==> forall j :: 0 <= j < r.value - 1 ==> marks[j] != p
  {
    var i := IndexOf(marks, p);
    if i >= 0 then Some(i + 1) else None
  }

  /** A mark on the right edge column `size` or on row -1, just above the top row, has left the board. */
  predicate AtEdge(size: int, p: Position) {
    p.x == size || p.y == -1
  }

  /** `isOver`: some mark has reached an edge. */
  function IsOver(size: int, marks: seq<Position>): (r: bool)
    ensures r <==> exists i :: 0 <= i < |marks| && AtEdge(size, marks[i])
  {
    if marks == [] then false
    else if AtEdge(size, marks[0]) then true
    else
      var rest := IsOver(size, marks[1..]);
      assert forall i :: 1 <= i < |marks| ==> marks[i] == marks[1..][i - 1];
      rest
  }

  /** No cell holds two marks. */
  predicate Distinct(marks: seq<Position>) {
    forall i, j :: 0 <= i < j < |marks| ==> marks[i] != marks[j]
  }

  /** No two marks are neighbours (which, cells being their own neighbours, implies Distinct). */
  predicate Apart(marks: seq<Position>) {
    forall i, j :: 0 <= i < j < |marks| ==> !Neighbours(marks[i], marks[j])
  }

  lemma ApartIsDistinct(marks: seq<Position>)
    requires Apart(marks)
    ensures Distinct(marks)
  {
  }

  /** Shifting is a translation, so it keeps marks on distinct cells. */
  lemma MovedDistinct(marks: seq<Position>)
    requires Distinct(marks)
    ensures Distinct(Moved(marks))
  {
  }

  /**
   * Numbers are positional: after a shift, the mark that was on `q` is found
   * on `Shift(q)` under the same number, and a cell not reached by any shifted
   * mark holds none.
   */
  lemma {:induction false} MovedKeepsNumbers(marks: seq<Position>, q: Position)
    ensures GetMark(Moved(marks), Shift(q)) == GetMark(marks, q)
  {
    MovedKeepsIndex(marks, q);
  }

  lemma {:induction false} MovedKeepsIndex(marks: seq<Position>, q: Position)
    ensures IndexOf(Moved(marks), Shift(q)) == IndexOf(marks, q)
    decreases |marks|
  {
    if marks != [] {
      var ms := Moved(marks);
      assert ms[1..] == Moved(marks[1..]);
      ShiftInjective(marks[0], q);
      MovedKeepsIndex(marks[1..], q);
    }
  }

  /** A mark appended off the edges does not end the game; one on an edge does. */
  lemma IsOverAppend(size: int, marks: seq<Position>, p: Position)
    ensures IsOver(size, marks + [p]) <==> IsOver(size, marks) || AtEdge(size, p)
  {
    var ms := marks + [p];
    if IsOver(size, marks) {
      var i :| 0 <= i < |marks| && AtEdge(size, marks[i]);
      assert ms[i] == marks[i];
    }
    if AtEdge(size, p) {
      assert ms[|marks|] == p;
    }
  }
}
