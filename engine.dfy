/**
 * The grid game engine (a01a/sol2/LogicImpl.java) as a transition function on
 * values. `Hit` is one click; `Run` is a sequence of clicks. The lemmas state
 * what the engine promises across clicks: sequential numbering, the one-way
 * movement latch, the finality of a finished game, and the invariant that
 * marks never share a cell (and never touch while placing).
 */
module Engine {
  import opened Wrappers
  import opened Marks

  /** The engine state: the board size, the ordered marks and the movement latch. */
  datatype Game = Game(size: int, marks: seq<Position>, moving: bool)

  /** The state after one click and the click's answer. */
  datatype Step = Step(game: Game, mark: Option<nat>)

  /** A new engine: no marks, not moving. */
  function Start(size: int): Game {
    Game(size, [], false)
  }

  predicate Over(g: Game) {
    IsOver(g.size, g.marks)
  }

  /** The engine invariant: marks on distinct cells, and pairwise apart while placing. */
  predicate Valid(g: Game) {
    Distinct(g.marks) && (!g.moving ==> Apart(g.marks))
  }

  /**
   * `hit`: nothing once the game is over; otherwise a shift of every mark
   * (latching `moving`) when already moving or when the click touches a mark;
   * otherwise the click is appended and its number returned.
   */
  function Hit(g: Game, p: Position): (s: Step)
    ensures s.game.size == g.size
    ensures g.moving ==> s.game.moving
    ensures s.mark.Some? ==> s.game.marks == g.marks + [p] && s.mark.value == |s.game.marks|
    ensures s.mark.None? ==> s.game.marks == g.marks || s.game.marks == Moved(g.marks)
  {
    if Over(g) then Step(g, None)
    else if g.moving || StartMoving(g.marks, p) then Step(Game(g.size, Moved(g.marks), true), None)
    else
      var marks := g.marks + [p];
      Step(Game(g.size, marks, false), Some(|marks|))
  }

  /** Once the game is over a click answers nothing and changes nothing. */
  lemma HitWhenOver(g: Game, p: Position)
    requires Over(g)
    ensures Hit(g, p) == Step(g, None)
  {
  }

  /** A click at Chebyshev distance two or more from every mark, while placing, appends it. */
  lemma HitFarPlaces(g: Game, p: Position)
    requires !Over(g) && !g.moving
    requires forall i :: 0 <= i < |g.marks| ==> Chebyshev(g.marks[i], p) >= 2
    ensures Hit(g, p) == Step(Game(g.size, g.marks + [p], false), Some(|g.marks| + 1))
  {
  }

  /**
   * A click within distance one of some mark (the mark's own cell included)
   * never places: it latches `moving` and shifts every mark.
   */
  lemma HitNearMoves(g: Game, p: Position, i: nat)
    requires !Over(g) && i < |g.marks| && Chebyshev(g.marks[i], p) <= 1
    ensures Hit(g, p) == Step(Game(g.size, Moved(g.marks), true), None)
  {
  }

  /** Once moving, the clicked cell is irrelevant. */
  lemma MovingIgnoresClick(g: Game, p: Position, q: Position)
    requires g.moving
    ensures Hit(g, p) == Hit(g, q)
  {
  }

  /** After a placement answering n, looking the clicked cell up answers n. */
  lemma PlacedMarkIsFound(g: Game, p: Position)
    requires Hit(g, p).mark.Some?
    ensures GetMark(Hit(g, p).game.marks, p) == Hit(g, p).mark
  {
    assert Neighbours(p, p);
    assert p !in g.marks;
    var marks := g.marks + [p];
    assert marks[..|g.marks|] == g.marks;
  }

  /** A movement keeps every mark's number: the mark that was on q is now on Shift(q). */
  lemma MoveKeepsNumbers(g: Game, p: Position, q: Position)
    requires !Over(g) && Hit(g, p).mark.None?
    ensures GetMark(Hit(g, p).game.marks, Shift(q)) == GetMark(g.marks, q)
  {
    MovedKeepsNumbers(g.marks, q);
  }

  /** Every click preserves the invariant. */
  lemma HitPreservesValid(g: Game, p: Position)
    requires Valid(g)
    ensures Valid(Hit(g, p).game)
  {
    var s := Hit(g, p);
    if Over(g) {
    } else if s.mark.None? {
      if !g.moving { ApartIsDistinct(g.marks); }
      MovedDistinct(g.marks);
    } else {
      var marks := g.marks + [p];
      forall i, j | 0 <= i < j < |marks|
        ensures !Neighbours(marks[i], marks[j])
      {
        if j == |g.marks| {
          NeighboursSymmetric(marks[i], p);
        }
      }
      ApartIsDistinct(marks);
    }
  }

  /** The state and the answers after a sequence of clicks. */
  datatype Trace = Trace(game: Game, marks: seq<Option<nat>>)

  function Run(g: Game, ps: seq<Position>): (t: Trace)
    ensures |t.marks| == |ps|
    decreases |ps|
  {
    if ps == [] then Trace(g, [])
    else
      var s := Hit(g, ps[0]);
      var t := Run(s.game, ps[1..]);
      Trace(t.game, [s.mark] + t.marks)
  }

  /** The invariant holds after any sequence of clicks from a valid state. */
  lemma {:induction false} RunPreservesValid(g: Game, ps: seq<Position>)
    requires Valid(g)
    ensures Valid(Run(g, ps).game)
    decreases |ps|
  {
    if ps != [] {
      HitPreservesValid(g, ps[0]);
      RunPreservesValid(Hit(g, ps[0]).game, ps[1..]);
    }
  }

  /**
   * Sequential numbering: clicks that are pairwise apart and apart from every
   * existing mark, placed while not moving, are numbered on from the current
   * count and end up appended in order, provided no click but the last lands
   * on an edge (an edge mark ends the game, so the clicks after it do nothing).
   */
  lemma {:induction false} SequentialNumbering(g: Game, ps: seq<Position>)
    requires !g.moving && !Over(g)
    requires Apart(g.marks + ps)
    requires forall i :: 0 <= i < |ps| - 1 ==> !AtEdge(g.size, ps[i])
    ensures Run(g, ps).game == Game(g.size, g.marks + ps, false)
    ensures forall i :: 0 <= i < |ps| ==> Run(g, ps).marks[i] == Some(|g.marks| + i + 1)
    decreases |ps|
  {
    if ps != [] {
      var p := ps[0];
      var all := g.marks + ps;
      forall i | 0 <= i < |g.marks|
        ensures !Neighbours(g.marks[i], p)
      {
        assert all[i] == g.marks[i] && all[|g.marks|] == p;
      }
      var g' := Game(g.size, g.marks + [p], false);
      assert Hit(g, p) == Step(g', Some(|g.marks| + 1));
      assert g'.marks + ps[1..] == all;
      if |ps| > 1 {
        IsOverAppend(g.size, g.marks, p);
        SequentialNumbering(g', ps[1..]);
      }
      forall i | 1 <= i < |ps|
        ensures Run(g, ps).marks[i] == Some(|g.marks| + i + 1)
      {
        assert Run(g, ps).marks[i] == Run(g', ps[1..]).marks[i - 1];
      }
    }
  }

  /** The movement latch is one-way: once set, every later click answers nothing and it stays set. */
  lemma {:induction false} LatchIsSticky(g: Game, ps: seq<Position>)
    requires g.moving
    ensures Run(g, ps).game.moving
    ensures forall i :: 0 <= i < |ps| ==> Run(g, ps).marks[i] == None
    decreases |ps|
  {
    if ps != [] {
      LatchIsSticky(Hit(g, ps[0]).game, ps[1..]);
    }
  }

  /** A finished game stays finished: every later click answers nothing and changes nothing. */
  lemma {:induction false} OverIsFinal(g: Game, ps: seq<Position>)
    requires Over(g)
    ensures Run(g, ps).game == g
    ensures forall i :: 0 <= i < |ps| ==> Run(g, ps).marks[i] == None
    decreases |ps|
  {
    if ps != [] {
      OverIsFinal(g, ps[1..]);
    }
  }

  /** Board 10: a lone mark is placed as number 1; a click next to it pushes it to column 10, ending the game. */
  lemma ApplicationEnds()
    ensures var s1 := Hit(Start(10), Position(9, 9));
      s1.mark == Some(1) && !Over(s1.game)
      && var s2 := Hit(s1.game, Position(9, 8));
      s2 == Step(Game(10, [Position(10, 8)], true), None) && Over(s2.game)
      && Hit(s2.game, Position(0, 0)) == Step(s2.game, None)
  {
  }

  /** Board 10: on a fresh engine nothing is found; a placement is then found under its number. */
  lemma PlacementAndRetrieval()
    ensures GetMark(Start(10).marks, Position(4, 4)) == None
    ensures var s := Hit(Start(10), Position(4, 4));
      s.mark == Some(1) && GetMark(s.game.marks, Position(4, 4)) == s.mark
  {
    assert [Position(4, 4)][0] == Position(4, 4);
  }

  /** Board 10: four clicks, each apart from the marks before it, are numbered 1 to 4. */
  lemma CoveragePlacements()
    ensures var s1 := Hit(Start(10), Position(7, 7));
      var s2 := Hit(s1.game, Position(5, 7));
      var s3 := Hit(s2.game, Position(7, 9));
      var s4 := Hit(s3.game, Position(4, 4));
      [s1.mark, s2.mark, s3.mark, s4.mark] == [Some(1), Some(2), Some(3), Some(4)]
      && s4.game == Game(10, [Position(7, 7), Position(5, 7), Position(7, 9), Position(4, 4)], false)
  {
  }

  /** Continuing on board 10: a click next to the fourth mark moves all four; mark 4 is now on (5, 3). */
  lemma CoverageFirstMove()
    ensures var s := Hit(Game(10, [Position(7, 7), Position(5, 7), Position(7, 9), Position(4, 4)], false), Position(3, 5));
      s == Step(Game(10, [Position(8, 6), Position(6, 6), Position(8, 8), Position(5, 3)], true), None)
      && GetMark(s.game.marks, Position(5, 3)) == Some(4)
  {
    var g := Game(10, [Position(7, 7), Position(5, 7), Position(7, 9), Position(4, 4)], false);
    assert Neighbours(g.marks[3], Position(3, 5));
    var ms := [Position(8, 6), Position(6, 6), Position(8, 8), Position(5, 3)];
    assert GetMark(ms, Position(5, 3)) == Some(4);
  }

  /** Continuing: now moving, the next click moves all four again; mark 4 is now on (6, 2). */
  lemma CoverageSecondMove()
    ensures var s := Hit(Game(10, [Position(8, 6), Position(6, 6), Position(8, 8), Position(5, 3)], true), Position(4, 4));
      s == Step(Game(10, [Position(9, 5), Position(7, 5), Position(9, 7), Position(6, 2)], true), None)
      && GetMark(s.game.marks, Position(6, 2)) == Some(4)
  {
    var ms := [Position(9, 5), Position(7, 5), Position(9, 7), Position(6, 2)];
    assert GetMark(ms, Position(6, 2)) == Some(4);
  }
}
