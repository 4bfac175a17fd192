/**
 * The grid game engine as the object the front end drives
 * (a01a/sol2/LogicImpl.java): a fixed board size, the ordered marks and the
 * movement latch, updated in place by `Hit`. Each mutating method is tied to
 * the transition function `Engine.Hit`, whose properties are proved there.
 */
module Logic {
  import opened Wrappers
  import opened Marks
  import Engine

  class LogicImpl {
    const size: int
    var marks: seq<Position>
    var moving: bool

    constructor (size: int)
      ensures this.size == size && marks == [] && !moving
      ensures State() == Engine.Start(size) && Valid()
    {
      this.size := size;
      marks := [];
      moving := false;
    }

    /** The engine state as a value. */
    function State(): Engine.Game
      reads this
    {
      Engine.Game(size, marks, moving)
    }

    /** The object invariant: marks on distinct cells, pairwise apart while placing. */
    predicate Valid()
      reads this
    {
      Engine.Valid(State())
    }

    /** `hit`: one click. */
    method Hit(position: Position) returns (r: Option<nat>)
      modifies this
      ensures Engine.Hit(old(State()), position) == Engine.Step(State(), r)
      ensures old(IsOver()) ==> r == None && marks == old(marks) && moving == old(moving)
      ensures !old(IsOver()) && (old(moving) || StartMoving(old(marks), position)) ==>
        r == None && moving && marks == Moved(old(marks))
      ensures !old(IsOver()) && !old(moving) && !StartMoving(old(marks), position) ==>
        r == Some(|old(marks)| + 1) && !moving && marks == old(marks) + [position]
      ensures old(moving) ==> moving
      ensures old(Valid()) ==> Valid()
    {
      if Valid() { Engine.HitPreservesValid(State(), position); }
      if IsOver() {
        return None;
      }
      if moving || StartMoving(marks, position) {
        moving := true;
        MoveMarks();
        return None;
      }
      marks := marks + [position];
      r := Some(|marks|);
    }

    /** `moveMarks`: replace the marks by their shifted copies, in the same order. */
    method MoveMarks()
      modifies this`marks
      ensures marks == Moved(old(marks))
    {
      marks := Moved(marks);
    }

    /** `getMark`: the 1-based number of the first mark on `position`, or nothing. */
    function GetMark(position: Position): (r: Option<nat>)
      reads this
      ensures r.None? <==> position !in marks
      ensures r.Some? ==> 1 <= r.value <= |marks| && marks[r.value - 1] == position
      ensures r.Some? ==> forall j :: 0 <= j < r.value - 1 ==> marks[j] != position
    {
      Marks.GetMark(marks, position)
    }

    /** `isOver`: some mark has reached column `size` or row -1. */
    function IsOver(): (r: bool)
      reads this
      ensures r <==> exists i :: 0 <= i < |marks| && AtEdge(size, marks[i])
    {
      Marks.IsOver(size, marks)
    }
  }

  /**
   * Board 10, driven through the object: the first click places mark 1 and
   * the game goes on; a click next to it moves it onto column 10, so the game
   * is over and a further click answers nothing.
   */
  method ApplicationEnds() returns (first: Option<nat>, overAfterFirst: bool, second: Option<nat>, third: Option<nat>, over: bool)
    ensures first == Some(1) && !overAfterFirst
    ensures second == None && third == None && over
  {
    var logic := new LogicImpl(10);
    first := logic.Hit(Position(9, 9));
    overAfterFirst := logic.IsOver();
    assert logic.marks[0] == Position(9, 9);
    assert Neighbours(logic.marks[0], Position(9, 8));
    second := logic.Hit(Position(9, 8));
    assert logic.marks[0] == Position(10, 8);
    third := logic.Hit(Position(0, 0));
    over := logic.IsOver();
  }
}
