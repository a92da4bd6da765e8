/** The sparse infection walk: a carrier walks over a grid whose infected
    cells are kept in a set, turning and toggling the cell it stands on at
    every burst, and counting the cells it infects. */
module Infection {

  /** Headings, listed clockwise. */
  datatype Direction = Up | Right | Down | Left

  /** A cell of the grid: `x` is the column, `y` the row, and rows grow
      downwards (row 0 is the first line of the input). */
  datatype Coord = Coord(x: int, y: int)

  /** Position of a heading in the clockwise order Up, Right, Down, Left. */
  function Index(d: Direction): (i: nat)
    ensures i < 4
  {
    match d
    case Up => 0
    case Right => 1
    case Down => 2
    case Left => 3
  }

  /** `Direction::turn`: a quarter turn of `heading` towards `d`; only Left
      and Right are turns (the source panics on Up or Down). A right turn
      moves one step clockwise, a left turn one step counter-clockwise. */
  function Turn(heading: Direction, d: Direction): (r: Direction)
    requires d == Left || d == Right
    ensures Index(r) == (Index(heading) + (if d == Right then 1 else 3)) % 4
  {
    match d
    case Left =>
      (match heading
       case Up => Left
       case Down => Right
       case Left => Down
       case Right => Up)
    case Right =>
      (match heading
       case Up => Right
       case Down => Left
       case Left => Up
       case Right => Down)
  }

  /** Headings are determined by their clockwise position. */
  lemma IndexInjective(a: Direction, b: Direction)
    ensures Index(a) == Index(b) ==> a == b
  {
  }

  /** A left turn undoes a right turn and a right turn undoes a left turn. */
  lemma {:induction false} TurnsCancel(h: Direction)
    ensures Turn(Turn(h, Left), Right) == h
    ensures Turn(Turn(h, Right), Left) == h
  {
    IndexInjective(Turn(Turn(h, Left), Right), h);
    IndexInjective(Turn(Turn(h, Right), Left), h);
  }

  /** Four quarter turns the same way bring the carrier back to its heading. */
  lemma {:induction false} FourTurns(h: Direction, d: Direction)
    requires d == Left || d == Right
    ensures Turn(Turn(Turn(Turn(h, d), d), d), d) == h
  {
    IndexInjective(Turn(Turn(Turn(Turn(h, d), d), d), d), h);
  }

  /** A turn always changes the axis of travel: vertical headings become
      horizontal and horizontal ones vertical. */
  lemma {:induction false} TurnChangesAxis(h: Direction, d: Direction)
    requires d == Left || d == Right
    ensures (h == Up || h == Down) <==> (Turn(h, d) == Left || Turn(h, d) == Right)
  {
    assert Index(Turn(h, d)) % 2 != Index(h) % 2;
  }

  function Abs(n: int): nat {
    if n < 0 then -n else n
  }

  /** `Coord::go`: one step along heading `d`. Up decreases the row and
      Left the column. */
  function Go(c: Coord, d: Direction): (r: Coord)
    ensures Abs(r.x - c.x) + Abs(r.y - c.y) == 1
    ensures (d == Up || d == Down) <==> r.x == c.x
    ensures d == Up ==> r.y < c.y
    ensures d == Down ==> r.y > c.y
    ensures d == Left ==> r.x < c.x
    ensures d == Right ==> r.x > c.x
  {
    match d
    case Up => Coord(c.x, c.y - 1)
    case Down => Coord(c.x, c.y + 1)
    case Left => Coord(c.x - 1, c.y)
    case Right => Coord(c.x + 1, c.y)
  }

  /** Turning around (two right turns) and stepping again returns to the
      cell the carrier left. */
  lemma GoBack(c: Coord, d: Direction)
    ensures Go(Go(c, d), Turn(Turn(d, Right), Right)) == c
  {
  }

  /** The cells of one input line: column `col` of row `row` is infected
      when the line holds '#' there. */
  function RowCells(line: string, row: int): (r: set<Coord>)
    ensures forall c :: c in r <==> c.y == row && 0 <= c.x < |line| && line[c.x] == '#'
    decreases |line|
  {
    if line == [] then {}
    else
      var init, col := line[..|line| - 1], |line| - 1;
      RowCells(init, row) + (if line[col] == '#' then {Coord(col, row)} else {})
  }

  /** The pure part of `Grid::from_file`: the infected cells of the lines
      read from the file, line number as row and character position as
      column. */
  function CellsOf(lines: seq<string>): (r: set<Coord>)
    ensures forall c :: c in r <==>
              0 <= c.y < |lines| && 0 <= c.x < |lines[c.y]| && lines[c.y][c.x] == '#'
    decreases |lines|
  {
    if lines == [] then {}
    else
      var init, row := lines[..|lines| - 1], |lines| - 1;
      CellsOf(init) + RowCells(lines[row], row)
  }

  /** How far a cell reaches towards the bottom-right: the larger of its
      column and its row. */
  function Reach(c: Coord): (r: int)
    ensures c.x <= r && c.y <= r
    ensures r == c.x || r == c.y
  {
    if c.x >= c.y then c.x else c.y
  }

  /** The largest `Reach` over a non-empty set of cells; `middle` halves it. */
  ghost function Extent(cells: set<Coord>): (m: int)
    requires cells != {}
    ensures exists c :: c in cells && Reach(c) == m
    ensures forall c :: c in cells ==> Reach(c) <= m
    decreases |cells|
  {
    var c :| c in cells;
    if cells == {c} then Reach(c)
    else
      var rest := Extent(cells - {c});
      if Reach(c) >= rest then Reach(c) else rest
  }

  /** The carrier's state during `infect`: the infected cells, where it
      stands, where it is heading and how many cells it has infected. */
  datatype Carrier = Carrier(infected: set<Coord>, pos: Coord, heading: Direction, infections: nat)

  /** One burst (one iteration of the loop in `infect`). */
  function Burst(s: Carrier): (r: Carrier)
    ensures forall c :: c != s.pos ==> (c in r.infected <==> c in s.infected)
    ensures s.pos in r.infected <==> s.pos !in s.infected
    ensures r.heading == Turn(s.heading, if s.pos in s.infected then Right else Left)
    ensures r.pos == Go(s.pos, r.heading)
    ensures r.infections == s.infections + (if s.pos in s.infected then 0 else 1)
  {
    if s.pos in s.infected then
      var heading := Turn(s.heading, Right);
      Carrier(s.infected - {s.pos}, Go(s.pos, heading), heading, s.infections)
    else
      var heading := Turn(s.heading, Left);
      Carrier(s.infected + {s.pos}, Go(s.pos, heading), heading, s.infections + 1)
  }

  /** A burst adds one infected cell when it infects and removes one when it
      cleans. */
  lemma BurstSize(s: Carrier)
    ensures s.pos in s.infected ==> |Burst(s).infected| + 1 == |s.infected|
    ensures s.pos !in s.infected ==> |Burst(s).infected| == |s.infected| + 1
  {
    var r := Burst(s);
    if s.pos in s.infected {
      assert r.infected == s.infected - {s.pos};
    } else {
      assert r.infected == s.infected + {s.pos};
    }
  }

  /** The state after `n` bursts; the counter never falls and grows by at
      most one per burst. */
  function Walk(s: Carrier, n: nat): (r: Carrier)
    ensures s.infections <= r.infections <= s.infections + n
  {
    if n == 0 then s else Burst(Walk(s, n - 1))
  }

  /** Every burst that does not infect cleans a cell, so after `n` bursts the
      infected set is as large as it began plus the infections minus the
      cleanings. */
  lemma {:induction false} WalkCounts(s: Carrier, n: nat)
    ensures |Walk(s, n).infected| + n == |s.infected| + 2 * (Walk(s, n).infections - s.infections)
  {
    if n > 0 {
      WalkCounts(s, n - 1);
      BurstSize(Walk(s, n - 1));
    }
  }

  /** A cell the carrier never stood on during the walk keeps its state. */
  lemma {:induction false} WalkUntouched(s: Carrier, n: nat, c: Coord)
    requires forall i :: 0 <= i < n ==> Walk(s, i).pos != c
    ensures c in Walk(s, n).infected <==> c in s.infected
  {
    if n > 0 {
      assert Walk(s, n - 1).pos != c;
      WalkUntouched(s, n - 1, c);
    }
  }

  /** The grid of `Grid`: the set of infected cells, updated in place by
      `infect`. */
  class Grid {
    var cells: set<Coord>

    /** `Grid::from_file` once the file's lines have been read. */
    constructor (lines: seq<string>)
      ensures cells == CellsOf(lines)
    {
      cells := CellsOf(lines);
    }

    /** `Grid::middle`: half the largest `Reach` of an infected cell, on both
        axes. The set must not be empty and that maximum must be even. */
    method Middle() returns (centre: Coord)
      requires cells != {} && Extent(cells) % 2 == 0
      ensures centre.x == centre.y
      ensures forall c :: c in cells ==> Reach(c) <= 2 * centre.x
      ensures exists c :: c in cells && Reach(c) == 2 * centre.x
    {
      var first :| first in cells;
      var m := Reach(first);
      var rest := cells - {first};
      while rest != {}
        invariant rest <= cells
        invariant first in cells - rest && Reach(first) <= m
        invariant forall c :: c in cells - rest ==> Reach(c) <= m
        invariant exists c :: c in cells - rest && Reach(c) == m
        decreases |rest|
      {
        var c :| c in rest;
        if Reach(c) > m {
          m := Reach(c);
        }
        rest := rest - {c};
      }
      assert m == Extent(cells);
      centre := Coord(m / 2, m / 2);
    }

    /** `Grid::infect`: `n` bursts from the centre, heading up; returns the
        number of bursts that infected a cell. */
    method Infect(n: nat) returns (infected: nat)
      requires cells != {} && Extent(cells) % 2 == 0
      modifies this
      ensures var start := Carrier(old(cells), Coord(Extent(old(cells)) / 2, Extent(old(cells)) / 2), Up, 0);
              cells == Walk(start, n).infected && infected == Walk(start, n).infections
      ensures infected <= n
    {
      var pos := Middle();
      ghost var start := Carrier(cells, pos, Up, 0);
      var direction := Up;
      infected := 0;
      for i := 0 to n
        invariant Walk(start, i) == Carrier(cells, pos, direction, infected)
      {
        if pos in cells {
          cells := cells - {pos};
          direction := Turn(direction, Right);
        } else {
          direction := Turn(direction, Left);
          cells := cells + {pos};
          infected := infected + 1;
        }
        pos := Go(pos, direction);
      }
    }
  }

  /** Bursts compose: `a` bursts then `b` more are `a + b` bursts. */
  lemma {:induction false} WalkAdd(s: Carrier, a: nat, b: nat)
    ensures Walk(Walk(s, a), b) == Walk(s, a + b)
    decreases b
  {
    if b > 0 {
      WalkAdd(s, a, b - 1);
    }
  }

  /** The grid `..#`, `#..`, `...` has two infected cells and centre (1, 1). */
  lemma TestGrid()
    ensures CellsOf(["..#", "#..", "..."]) == {Coord(2, 0), Coord(0, 1)}
    ensures Extent({Coord(2, 0), Coord(0, 1)}) == 2
  {
    var r := CellsOf(["..#", "#..", "..."]);
    forall c | c in r ensures c == Coord(2, 0) || c == Coord(0, 1) {
    }
  }

  /** On that grid, `infect(7)` infects five cells. */
  lemma WalkExample()
    ensures CellsOf(["..#", "#..", "..."]) != {}
    ensures var cells := CellsOf(["..#", "#..", "..."]);
            Walk(Carrier(cells, Coord(Extent(cells) / 2, Extent(cells) / 2), Up, 0), 7).infections == 5
  {
    TestGrid();
    var s := Carrier({Coord(2, 0), Coord(0, 1)}, Coord(1, 1), Up, 0);
    WalkExampleStart();
    WalkExampleEnd();
    WalkAdd(s, 4, 3);
  }

  lemma WalkExampleStart()
    ensures Walk(Carrier({Coord(2, 0), Coord(0, 1)}, Coord(1, 1), Up, 0), 4) == Carrier({Coord(-1, 0), Coord(0, 0), Coord(1, 1), Coord(2, 0)}, Coord(-1, 1), Down, 3)
  {
    var s := Carrier({Coord(2, 0), Coord(0, 1)}, Coord(1, 1), Up, 0);
    assert Walk(s, 1) == Carrier({Coord(0, 1), Coord(1, 1), Coord(2, 0)}, Coord(0, 1), Left, 1);
    assert Walk(s, 2) == Carrier({Coord(1, 1), Coord(2, 0)}, Coord(0, 0), Up, 1);
    assert Walk(s, 3) == Carrier({Coord(0, 0), Coord(1, 1), Coord(2, 0)}, Coord(-1, 0), Left, 2);
    assert Walk(s, 4) == Carrier({Coord(-1, 0), Coord(0, 0), Coord(1, 1), Coord(2, 0)}, Coord(-1, 1), Down, 3);
  }

  lemma WalkExampleEnd()
    ensures Walk(Carrier({Coord(-1, 0), Coord(0, 0), Coord(1, 1), Coord(2, 0)}, Coord(-1, 1), Down, 3), 3) == Carrier({Coord(-1, 0), Coord(-1, 1), Coord(0, 1), Coord(1, 1), Coord(2, 0)}, Coord(1, 0), Right, 5)
  {
    var s := Carrier({Coord(-1, 0), Coord(0, 0), Coord(1, 1), Coord(2, 0)}, Coord(-1, 1), Down, 3);
    assert Walk(s, 1) == Carrier({Coord(-1, 0), Coord(-1, 1), Coord(0, 0), Coord(1, 1), Coord(2, 0)}, Coord(0, 1), Right, 4);
    assert Walk(s, 2) == Carrier({Coord(-1, 0), Coord(-1, 1), Coord(0, 0), Coord(0, 1), Coord(1, 1), Coord(2, 0)}, Coord(0, 0), Up, 5);
    assert Walk(s, 3) == Carrier({Coord(-1, 0), Coord(-1, 1), Coord(0, 1), Coord(1, 1), Coord(2, 0)}, Coord(1, 0), Right, 5);
  }
}
