/**
 * Center-surround convergence between two populations of equal size, laid out on a square grid
 * of side `sN`: a one-to-one center projection, and a surround projection from every unit onto
 * its up to eight grid neighbours. Unit `k` sits at row `k / sN`, column `k % sN`.
 *
 * The surround is built as eight blocks of (source cell, target cell) pairs, one per direction,
 * in the order up, down, right, left, up-right, up-left, down-right, down-left; each block lists
 * its source cells row by row.
 */
module Retina {
  import opened Wrappers
  import opened Network

  /** A grid cell: (row, column). */
  type Cell = (nat, nat)

  function Index(s: nat, p: Cell): nat
  {
    p.0 * s + p.1
  }

  predicate InGrid(s: nat, p: Cell)
  {
    p.0 < s && p.1 < s
  }

  /** Two distinct cells at most one row and one column apart. */
  predicate Neighbours(p: Cell, q: Cell)
  {
    p != q && -1 <= q.0 - p.0 <= 1 && -1 <= q.1 - p.1 <= 1
  }

  /** Cells (r, c0) .. (r, c1 - 1), each paired with the cell (dr, dc) away. */
  function BlockRow(r: nat, c0: nat, c1: nat, dr: int, dc: int): seq<(Cell, Cell)>
    requires r + dr >= 0 && c0 + dc >= 0
    decreases c1 - c0
  {
    if c1 <= c0 then []
    else BlockRow(r, c0, c1 - 1, dr, dc) + [((r, c1 - 1), ((r + dr) as nat, (c1 - 1 + dc) as nat))]
  }

  /** Rows r0 .. r1 - 1 of `BlockRow`, in row order. */
  function Block(r0: nat, r1: nat, c0: nat, c1: nat, dr: int, dc: int): seq<(Cell, Cell)>
    requires r0 + dr >= 0 && c0 + dc >= 0
    decreases r1 - r0
  {
    if r1 <= r0 then []
    else Block(r0, r1 - 1, c0, c1, dr, dc) + BlockRow(r1 - 1, c0, c1, dr, dc)
  }

  datatype Direction = Up | Down | Right | Left | UpRight | UpLeft | DownRight | DownLeft

  function RowStep(d: Direction): int
  {
    match d
    case Up | UpRight | UpLeft => -1
    case Down | DownRight | DownLeft => 1
    case Right | Left => 0
  }

  function ColStep(d: Direction): int
  {
    match d
    case Right | UpRight | DownRight => 1
    case Left | UpLeft | DownLeft => -1
    case Up | Down => 0
  }

  /**
   * The block of moves in direction `d`: its source cells are those whose neighbour in that
   * direction is inside the grid (the slice `k[1:, :sN-1]` for up-right, and so on).
   */
  function Moves(s: nat, d: Direction): seq<(Cell, Cell)>
    requires s >= 1
  {
    var r0, r1 := if RowStep(d) == -1 then 1 else 0, if RowStep(d) == 1 then s - 1 else s;
    var c0, c1 := if ColStep(d) == -1 then 1 else 0, if ColStep(d) == 1 then s - 1 else s;
    Block(r0, r1, c0, c1, RowStep(d), ColStep(d))
  }

  /** The surround pairs in cell form, block by block. */
  function SurroundCells(s: nat): seq<(Cell, Cell)>
  {
    if s == 0 then []
    else Moves(s, Up) + Moves(s, Down) + Moves(s, Right) + Moves(s, Left)
         + Moves(s, UpRight) + Moves(s, UpLeft) + Moves(s, DownRight) + Moves(s, DownLeft)
  }

  /** The surround's source list `i`. */
  function Sources(s: nat): seq<nat>
  {
    var cells := SurroundCells(s);
    seq(|cells|, k requires 0 <= k < |cells| => Index(s, cells[k].0))
  }

  /** The surround's target list `j`, aligned with `Sources`. */
  function Targets(s: nat): seq<nat>
  {
    var cells := SurroundCells(s);
    seq(|cells|, k requires 0 <= k < |cells| => Index(s, cells[k].1))
  }

  /** The cell of unit `i`. */
  function CellOf(s: nat, i: nat): Cell
    requires s > 0
  {
    (i / s, i % s)
  }

  /** Some position of the aligned lists holds the pair (i, j). */
  predicate Wired(s: nat, i: nat, j: nat)
  {
    exists k :: 0 <= k < |Sources(s)| && k < |Targets(s)| && Sources(s)[k] == i && Targets(s)[k] == j
  }

  // ---------------------------------------------------------------------------------------
  // Integer square root: `int(np.sqrt(N))`

  function FloorSqrtFrom(n: nat, r: nat): (q: nat)
    requires r * r <= n
    ensures q * q <= n < (q + 1) * (q + 1)
    decreases n - r
  {
    if (r + 1) * (r + 1) > n then r
    else
      assert r + 1 <= (r + 1) * (r + 1);
      FloorSqrtFrom(n, r + 1)
  }

  function FloorSqrt(n: nat): (q: nat)
    ensures q * q <= n < (q + 1) * (q + 1)
  {
    FloorSqrtFrom(n, 0)
  }

  /** `reshape(sN, sN)` succeeds exactly for perfect squares. */
  predicate IsSquare(n: nat)
  {
    FloorSqrt(n) * FloorSqrt(n) == n
  }

  lemma SquareMonotone(a: nat, b: nat)
    requires a < b
    ensures a * a < b * b
  {
    assert a * a <= a * b;
    assert a * b < b * b;
  }

  /** The integer square root is the only `t` with `t² <= n < (t + 1)²`. */
  lemma FloorSqrtUnique(n: nat, t: nat)
    requires t * t <= n < (t + 1) * (t + 1)
    ensures FloorSqrt(n) == t
  {
    var q := FloorSqrt(n);
    if q < t {
      SquareMonotone(q + 1, t + 1);
      if q + 1 < t {
        SquareMonotone(q + 1, t);
      }
    } else if t < q {
      SquareMonotone(t + 1, q + 1);
      if t + 1 < q {
        SquareMonotone(t + 1, q);
      }
    }
  }

  /** Every perfect square is accepted, with side `t`. */
  lemma SquareAccepted(t: nat)
    ensures FloorSqrt(t * t) == t && IsSquare(t * t)
  {
    SquareMonotone(t, t + 1);
    FloorSqrtUnique(t * t, t);
  }

  // ---------------------------------------------------------------------------------------
  // Blocks

  lemma {:induction false} BlockRowMembers(r: nat, c0: nat, c1: nat, dr: int, dc: int, x: (Cell, Cell))
    requires r + dr >= 0 && c0 + dc >= 0
    ensures x in BlockRow(r, c0, c1, dr, dc) <==>
              x.0.0 == r && c0 <= x.0.1 < c1 && x.1.0 == r + dr && x.1.1 == x.0.1 + dc
    decreases c1 - c0
  {
    if c0 < c1 {
      BlockRowMembers(r, c0, c1 - 1, dr, dc, x);
    }
  }

  lemma {:induction false} BlockMembers(r0: nat, r1: nat, c0: nat, c1: nat, dr: int, dc: int, x: (Cell, Cell))
    requires r0 + dr >= 0 && c0 + dc >= 0
    ensures x in Block(r0, r1, c0, c1, dr, dc) <==>
              r0 <= x.0.0 < r1 && c0 <= x.0.1 < c1 && x.1.0 == x.0.0 + dr && x.1.1 == x.0.1 + dc
    decreases r1 - r0
  {
    if r0 < r1 {
      BlockMembers(r0, r1 - 1, c0, c1, dr, dc, x);
      BlockRowMembers(r1 - 1, c0, c1, dr, dc, x);
    }
  }

  lemma {:induction false} BlockRowSize(r: nat, c0: nat, c1: nat, dr: int, dc: int)
    requires r + dr >= 0 && c0 + dc >= 0 && c0 <= c1
    ensures |BlockRow(r, c0, c1, dr, dc)| == c1 - c0
    decreases c1 - c0
  {
    if c0 < c1 {
      BlockRowSize(r, c0, c1 - 1, dr, dc);
    }
  }

  lemma {:induction false} BlockSize(r0: nat, r1: nat, c0: nat, c1: nat, dr: int, dc: int)
    requires r0 + dr >= 0 && c0 + dc >= 0 && r0 <= r1 && c0 <= c1
    ensures |Block(r0, r1, c0, c1, dr, dc)| == (r1 - r0) * (c1 - c0)
    decreases r1 - r0
  {
    if r0 < r1 {
      BlockSize(r0, r1 - 1, c0, c1, dr, dc);
      BlockRowSize(r1 - 1, c0, c1, dr, dc);
      assert (r1 - r0) * (c1 - c0) == (r1 - 1 - r0) * (c1 - c0) + (c1 - c0);
    }
  }

  /** How many pairs of `pairs` start at cell `p`. */
  function Degree(pairs: seq<(Cell, Cell)>, p: Cell): nat
  {
    if pairs == [] then 0
    else (if pairs[0].0 == p then 1 else 0) + Degree(pairs[1..], p)
  }

  lemma {:induction false} DegreeConcat(a: seq<(Cell, Cell)>, b: seq<(Cell, Cell)>, p: Cell)
    ensures Degree(a + b, p) == Degree(a, p) + Degree(b, p)
    decreases |a|
  {
    if a != [] {
      assert (a + b)[1..] == a[1..] + b;
      DegreeConcat(a[1..], b, p);
    } else {
      assert a + b == b;
    }
  }

  lemma {:induction false} BlockRowDegree(r: nat, c0: nat, c1: nat, dr: int, dc: int, p: Cell)
    requires r + dr >= 0 && c0 + dc >= 0
    ensures Degree(BlockRow(r, c0, c1, dr, dc), p) == if p.0 == r && c0 <= p.1 < c1 then 1 else 0
    decreases c1 - c0
  {
    if c0 < c1 {
      var last := ((r, c1 - 1), ((r + dr) as nat, (c1 - 1 + dc) as nat));
      BlockRowDegree(r, c0, c1 - 1, dr, dc, p);
      DegreeConcat(BlockRow(r, c0, c1 - 1, dr, dc), [last], p);
      assert Degree([last], p) == (if last.0 == p then 1 else 0) + Degree([], p);
    }
  }

  lemma {:induction false} BlockDegree(r0: nat, r1: nat, c0: nat, c1: nat, dr: int, dc: int, p: Cell)
    requires r0 + dr >= 0 && c0 + dc >= 0
    ensures Degree(Block(r0, r1, c0, c1, dr, dc), p) == if r0 <= p.0 < r1 && c0 <= p.1 < c1 then 1 else 0
    decreases r1 - r0
  {
    if r0 < r1 {
      BlockDegree(r0, r1 - 1, c0, c1, dr, dc, p);
      BlockRowDegree(r1 - 1, c0, c1, dr, dc, p);
      DegreeConcat(Block(r0, r1 - 1, c0, c1, dr, dc), BlockRow(r1 - 1, c0, c1, dr, dc), p);
    }
  }

  /** The cell one step from `p` in direction `d`. */
  function Shift(p: Cell, d: Direction): (int, int)
  {
    (p.0 + RowStep(d), p.1 + ColStep(d))
  }

  /** The block of direction `d` pairs every cell with its in-grid neighbour in that direction. */
  lemma MovesMembers(s: nat, d: Direction, x: (Cell, Cell))
    requires s >= 1
    ensures x in Moves(s, d) <==> InGrid(s, x.0) && InGrid(s, x.1) && (x.1.0, x.1.1) == Shift(x.0, d)
  {
    var r0, r1 := if RowStep(d) == -1 then 1 else 0, if RowStep(d) == 1 then s - 1 else s;
    var c0, c1 := if ColStep(d) == -1 then 1 else 0, if ColStep(d) == 1 then s - 1 else s;
    BlockMembers(r0, r1, c0, c1, RowStep(d), ColStep(d), x);
  }

  lemma MovesDegree(s: nat, d: Direction, p: Cell)
    requires s >= 1 && InGrid(s, p)
    ensures Degree(Moves(s, d), p) == if 0 <= Shift(p, d).0 < s && 0 <= Shift(p, d).1 < s then 1 else 0
  {
    var r0, r1 := if RowStep(d) == -1 then 1 else 0, if RowStep(d) == 1 then s - 1 else s;
    var c0, c1 := if ColStep(d) == -1 then 1 else 0, if ColStep(d) == 1 then s - 1 else s;
    BlockDegree(r0, r1, c0, c1, RowStep(d), ColStep(d), p);
  }

  lemma MovesSize(s: nat, d: Direction)
    requires s >= 1
    ensures |Moves(s, d)| == (if RowStep(d) == 0 then s else s - 1) * (if ColStep(d) == 0 then s else s - 1)
  {
    var r0, r1 := if RowStep(d) == -1 then 1 else 0, if RowStep(d) == 1 then s - 1 else s;
    var c0, c1 := if ColStep(d) == -1 then 1 else 0, if ColStep(d) == 1 then s - 1 else s;
    BlockSize(r0, r1, c0, c1, RowStep(d), ColStep(d));
  }

  /** The direction from `p` to its neighbour `q`. */
  function DirectionOf(p: Cell, q: Cell): (d: Direction)
    requires Neighbours(p, q)
    ensures (q.0, q.1) == Shift(p, d)
  {
    if q.0 < p.0 then (if q.1 > p.1 then UpRight else if q.1 < p.1 then UpLeft else Up)
    else if q.0 > p.0 then (if q.1 > p.1 then DownRight else if q.1 < p.1 then DownLeft else Down)
    else if q.1 > p.1 then Right
    else Left
  }

  // ---------------------------------------------------------------------------------------
  // The surround in cell form

  /** A cell pair is in the surround iff both cells are in the grid and they are neighbours. */
  lemma SurroundMembers(s: nat, x: (Cell, Cell))
    ensures x in SurroundCells(s) <==> InGrid(s, x.0) && InGrid(s, x.1) && Neighbours(x.0, x.1)
  {
    if s >= 1 {
      MovesMembers(s, Up, x);
      MovesMembers(s, Down, x);
      MovesMembers(s, Right, x);
      MovesMembers(s, Left, x);
      MovesMembers(s, UpRight, x);
      MovesMembers(s, UpLeft, x);
      MovesMembers(s, DownRight, x);
      MovesMembers(s, DownLeft, x);
      if InGrid(s, x.0) && InGrid(s, x.1) && Neighbours(x.0, x.1) {
        var d := DirectionOf(x.0, x.1);
        assert x in Moves(s, d);
      }
    }
  }

  /** The surround relation is symmetric: each block has its mirror block. */
  lemma SurroundSymmetric(s: nat, p: Cell, q: Cell)
    ensures (p, q) in SurroundCells(s) <==> (q, p) in SurroundCells(s)
  {
    SurroundMembers(s, (p, q));
    SurroundMembers(s, (q, p));
  }

  /** The surround has `4 sN (sN - 1) + 4 (sN - 1)²` pairs. */
  lemma SurroundSize(s: nat)
    requires s >= 1
    ensures |SurroundCells(s)| == 4 * s * (s - 1) + 4 * (s - 1) * (s - 1)
  {
    MovesSize(s, Up);
    MovesSize(s, Down);
    MovesSize(s, Right);
    MovesSize(s, Left);
    MovesSize(s, UpRight);
    MovesSize(s, UpLeft);
    MovesSize(s, DownRight);
    MovesSize(s, DownLeft);
  }

  /** How many of the eight cells around `p` lie in the grid. */
  function InGridAround(s: nat, p: Cell): nat
  {
    var up, down, left, right := p.0 > 0, p.0 + 1 < s, p.1 > 0, p.1 + 1 < s;
    (if up then 1 else 0) + (if down then 1 else 0) + (if right then 1 else 0) + (if left then 1 else 0)
    + (if up && right then 1 else 0) + (if up && left then 1 else 0)
    + (if down && right then 1 else 0) + (if down && left then 1 else 0)
  }

  lemma SurroundDegreeSum(s: nat, p: Cell)
    requires s >= 1
    ensures Degree(SurroundCells(s), p)
            == Degree(Moves(s, Up), p) + Degree(Moves(s, Down), p) + Degree(Moves(s, Right), p)
               + Degree(Moves(s, Left), p) + Degree(Moves(s, UpRight), p) + Degree(Moves(s, UpLeft), p)
               + Degree(Moves(s, DownRight), p) + Degree(Moves(s, DownLeft), p)
  {
    var s2 := Moves(s, Up) + Moves(s, Down);
    var s3 := s2 + Moves(s, Right);
    var s4 := s3 + Moves(s, Left);
    var s5 := s4 + Moves(s, UpRight);
    var s6 := s5 + Moves(s, UpLeft);
    var s7 := s6 + Moves(s, DownRight);
    DegreeConcat(Moves(s, Up), Moves(s, Down), p);
    DegreeConcat(s2, Moves(s, Right), p);
    DegreeConcat(s3, Moves(s, Left), p);
    DegreeConcat(s4, Moves(s, UpRight), p);
    DegreeConcat(s5, Moves(s, UpLeft), p);
    DegreeConcat(s6, Moves(s, DownRight), p);
    DegreeConcat(s7, Moves(s, DownLeft), p);
  }

  /** A cell is the source of one surround pair per in-grid cell around it. */
  lemma SurroundDegree(s: nat, p: Cell)
    requires InGrid(s, p)
    ensures Degree(SurroundCells(s), p) == InGridAround(s, p)
  {
    SurroundDegreeSum(s, p);
    MovesDegree(s, Up, p);
    MovesDegree(s, Down, p);
    MovesDegree(s, Right, p);
    MovesDegree(s, Left, p);
    MovesDegree(s, UpRight, p);
    MovesDegree(s, UpLeft, p);
    MovesDegree(s, DownRight, p);
    MovesDegree(s, DownLeft, p);
  }

  /** Interior cells have 8 surround targets. */
  lemma InteriorDegree(s: nat, p: Cell)
    requires 0 < p.0 < s - 1 && 0 < p.1 < s - 1
    ensures Degree(SurroundCells(s), p) == 8
  {
    SurroundDegree(s, p);
  }

  /** Edge cells away from the corners have 5. */
  lemma EdgeDegree(s: nat, p: Cell)
    requires || ((p.0 == 0 || p.0 == s - 1) && 0 < p.1 < s - 1)
             || ((p.1 == 0 || p.1 == s - 1) && 0 < p.0 < s - 1)
    ensures Degree(SurroundCells(s), p) == 5
  {
    SurroundDegree(s, p);
  }

  /** Corner cells of a grid of side at least 2 have 3. */
  lemma CornerDegree(s: nat, p: Cell)
    requires s >= 2 && (p.0 == 0 || p.0 == s - 1) && (p.1 == 0 || p.1 == s - 1)
    ensures Degree(SurroundCells(s), p) == 3
  {
    SurroundDegree(s, p);
  }

  // ---------------------------------------------------------------------------------------
  // The surround as index lists

  lemma IndexBounds(s: nat, p: Cell)
    requires InGrid(s, p)
    ensures Index(s, p) < s * s
  {
    var r: nat := s - 1 - p.0;
    assert (s - 1) * s == p.0 * s + r * s;
    assert s * s == (s - 1) * s + s;
  }

  lemma MulAtLeast(k: int, s: nat)
    requires k >= 1
    ensures k * s >= s
  {
  }

  /** Euclidean division is unique: `q * s + r` with `0 <= r < s` divides to `q`, remainder `r`. */
  lemma DivUnique(i: int, s: nat, q: int, r: int)
    requires s > 0 && 0 <= r < s && i == q * s + r
    ensures i / s == q && i % s == r
  {
    var q', r' := i / s, i % s;
    assert q' * s + r' == i;
    if q > q' {
      MulAtLeast(q - q', s);
    } else if q < q' {
      MulAtLeast(q' - q, s);
    }
  }

  lemma IndexDecodes(s: nat, p: Cell)
    requires InGrid(s, p)
    ensures CellOf(s, Index(s, p)) == p
  {
    DivUnique(Index(s, p), s, p.0, p.1);
  }

  lemma CellOfInGrid(s: nat, i: nat)
    requires s > 0 && i < s * s
    ensures InGrid(s, CellOf(s, i)) && Index(s, CellOf(s, i)) == i
  {
    if i / s >= s {
      assert s * s <= (i / s) * s;
    }
  }

  lemma SourcesTargetsAligned(s: nat)
    ensures |Sources(s)| == |Targets(s)| == |SurroundCells(s)|
  {
  }

  /**
   * The surround wires unit `i` to unit `j` iff both are units of the `sN × sN` grid and their
   * cells are neighbours: no pair leaves the grid, none is a self-pair, and no move wraps from
   * the end of one row to the start of another.
   */
  lemma SurroundExact(s: nat, i: nat, j: nat)
    requires s > 0
    ensures Wired(s, i, j) <==> i < s * s && j < s * s && Neighbours(CellOf(s, i), CellOf(s, j))
  {
    var cells := SurroundCells(s);
    if Wired(s, i, j) {
      var k :| 0 <= k < |Sources(s)| && k < |Targets(s)| && Sources(s)[k] == i && Targets(s)[k] == j;
      SurroundMembers(s, cells[k]);
      IndexBounds(s, cells[k].0);
      IndexBounds(s, cells[k].1);
      IndexDecodes(s, cells[k].0);
      IndexDecodes(s, cells[k].1);
    }
    if i < s * s && j < s * s && Neighbours(CellOf(s, i), CellOf(s, j)) {
      var x := (CellOf(s, i), CellOf(s, j));
      CellOfInGrid(s, i);
      CellOfInGrid(s, j);
      SurroundMembers(s, x);
      var k :| 0 <= k < |cells| && cells[k] == x;
      assert Sources(s)[k] == i && Targets(s)[k] == j;
    }
  }

  /** Every surround pair joins two distinct units of the grid. */
  lemma SurroundInRange(s: nat, k: nat)
    requires k < |Sources(s)| && k < |Targets(s)|
    ensures Sources(s)[k] < s * s && Targets(s)[k] < s * s && Sources(s)[k] != Targets(s)[k]
  {
    var x := SurroundCells(s)[k];
    SurroundMembers(s, x);
    IndexBounds(s, x.0);
    IndexBounds(s, x.1);
    IndexDecodes(s, x.0);
    IndexDecodes(s, x.1);
  }

  // ---------------------------------------------------------------------------------------
  // `Addconverge` and the retina

  /** A synaptic projection `Synapses(A, B)` with its connection pattern and weight in mV. */
  datatype Projection = Projection(src: string, dst: string, pattern: Pattern, weight: int)

  datatype Failure = Missing(name: string) | NotAGroup(name: string) | NotSquare(size: nat)

  datatype Outcome = Done | Failed(reason: Failure)

  /** `net[name]` as a population size, or why it is not one. */
  function GroupSize(r: Registry, name: string): Result<nat, Failure>
  {
    match Lookup(r, name)
    case None => Failure(Missing(name))
    case Some(Population(_, n)) => Success(n)
    case Some(_) => Failure(NotAGroup(name))
  }

  /**
   * `Addconverge(net, a, b, centerw, surroundw)`: the projections it adds, in order, and how it
   * ends. The center is added before the grid side is computed, so a size that is not a perfect
   * square leaves the center in place.
   */
  function Converge(r: Registry, a: string, b: string, centerw: int, surroundw: int): (seq<Projection>, Outcome)
  {
    match GroupSize(r, a)
    case Failure(e) => ([], Failed(e))
    case Success(n) =>
      match GroupSize(r, b)
      case Failure(e) => ([], Failed(e))
      case Success(_) =>
        var center := Projection(a, b, OneToOne, centerw);
        var s := FloorSqrt(n);
        if s * s != n then ([center], Failed(NotSquare(n)))
        else ([center, Projection(a, b, Pairs(Sources(s), Targets(s)), surroundw)], Done)
  }

  /** The name and weights of the on-center off-surround retina. */
  const RetinaName := "retina"
  const CenterWeight := 12
  const SurroundWeight := -4

  /**
   * `AddOnCenterOffSuroundRetina(net, s)`: a default-behaviour population `retina` of the size of
   * `s`, then the convergence from `s` onto it.
   */
  function AddRetina(r: Registry, s: string): (Registry, seq<Projection>, Outcome)
  {
    match GroupSize(r, s)
    case Failure(e) => (r, [], Failed(e))
    case Success(n) =>
      var r' := Register(r, Pop(RetinaName, Neurons(Default), n));
      var (projections, outcome) := Converge(r', s, RetinaName, CenterWeight, SurroundWeight);
      (r', projections, outcome)
  }

  /**
   * Convergence succeeds iff both names are populations and the source size is a perfect square;
   * the center is one-to-one with weight `centerw` whenever both names are populations.
   */
  lemma ConvergeOutcome(r: Registry, a: string, b: string, centerw: int, surroundw: int)
    ensures var (ps, outcome) := Converge(r, a, b, centerw, surroundw);
            && (outcome == Done <==>
                  GroupSize(r, a).Success? && GroupSize(r, b).Success? && IsSquare(GroupSize(r, a).value))
            && (GroupSize(r, a).Success? && GroupSize(r, b).Success? ==>
                  1 <= |ps| && ps[0] == Projection(a, b, OneToOne, centerw))
            && (GroupSize(r, a).Success? && GroupSize(r, b).Success? && !IsSquare(GroupSize(r, a).value) ==>
                  ps == [Projection(a, b, OneToOne, centerw)]
                  && outcome == Failed(NotSquare(GroupSize(r, a).value)))
  {
  }

  /**
   * A completed convergence adds a second projection whose aligned lists wire exactly the grid
   * neighbours, with `4 sN (sN - 1) + 4 (sN - 1)²` pairs, `sN² = N`.
   */
  lemma ConvergeSurround(r: Registry, a: string, b: string, centerw: int, surroundw: int)
    requires Converge(r, a, b, centerw, surroundw).1 == Done
    ensures var ps := Converge(r, a, b, centerw, surroundw).0;
            var n := GroupSize(r, a).value;
            var s := FloorSqrt(n);
            && |ps| == 2 && s * s == n
            && ps[1].src == a && ps[1].dst == b && ps[1].weight == surroundw
            && ps[1].pattern == Pairs(Sources(s), Targets(s))
            && |Sources(s)| == |Targets(s)| == (if n == 0 then 0 else 4 * s * (s - 1) + 4 * (s - 1) * (s - 1))
  {
    var n := GroupSize(r, a).value;
    if n > 0 {
      SurroundSize(FloorSqrt(n));
    }
  }

  /**
   * Over a population `s` of a perfect-square size, with the name `retina` free, the retina is a
   * default-behaviour population of the same size, driven one-to-one with weight 12 and from
   * the grid neighbours with weight -4.
   */
  lemma RetinaWiring(r: Registry, s: string, t: nat)
    requires GroupSize(r, s) == Success(t * t) && Named(RetinaName) !in r.entries
    ensures var (r', ps, outcome) := AddRetina(r, s);
            && outcome == Done
            && Lookup(r', RetinaName) == Some(Population(Neurons(Default), t * t))
            && ps == [Projection(s, RetinaName, OneToOne, CenterWeight),
                      Projection(s, RetinaName, Pairs(Sources(t), Targets(t)), SurroundWeight)]
  {
    SquareAccepted(t);
    var r' := Register(r, Pop(RetinaName, Neurons(Default), t * t));
    assert Named(s) in r.entries;
    assert GroupSize(r', s) == Success(t * t);
  }
}
