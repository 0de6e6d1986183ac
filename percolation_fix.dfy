/** The grid with backwash corrected: beside the grid of module
    PercolationSpec it keeps a second union-find universe that receives
    every union `open` makes except the one with the bottom anchor, and
    `isFull` asks that second universe. The grid part behaves exactly as
    `src/Percolation.java` (so `percolates()` is unchanged); only `isFull`
    differs, and it then answers true exactly for the sites a path of open
    sites reaches from the first row. */
module PercolationFix {
  import opened UnionFind
  import opened PercolationSpec
  import opened PercolationProperties
  import opened PercolationPaths

  /** `grid` is the grid as written; `fill` is the labels of the second
      universe, of the same size n*n + 3. */
  datatype FixedGrid = FixedGrid(grid: State, fill: seq<int>)

  /** The grid seen through the second universe. */
  function FillState(f: FixedGrid): State {
    f.grid.(labels := f.fill)
  }

  ghost predicate FixedWellFormed(f: FixedGrid) {
    WellFormed(f.grid) && |f.fill| == UniverseSize(f.grid.n)
  }

  /** The classes of both universes are the components of their graphs:
      with the bottom anchor linked for `grid`, without it for `fill`. */
  ghost predicate FixedInv(f: FixedGrid) {
    FixedWellFormed(f) && Tracks(f.grid, true) && Tracks(FillState(f), false)
  }

  /** The constructor: both universes start as singletons. */
  function FixedNew(n: int): (r: Result<FixedGrid>)
    ensures r.Failure? <==> n < 0
    ensures r.Failure? ==> r.error == InvalidSize
    ensures r.Success? ==> FixedWellFormed(r.value) && r.value.grid == New(n).value
  {
    if n < 0 then Failure(InvalidSize)
    else Success(FixedGrid(New(n).value, Singletons(UniverseSize(n))))
  }

  /** `open(row, col)`: the grid as written, and the same unions in the
      second universe except the one with the bottom anchor. */
  function FixedOpen(f: FixedGrid, row: int, col: int): (r: Result<FixedGrid>)
    requires FixedWellFormed(f)
    ensures r.Failure? <==> !InBounds(f.grid.n, row, col)
    ensures r.Failure? ==> r.error == OutOfBounds
    ensures r.Success? ==> FixedWellFormed(r.value) && r.value.grid == OpenSpec(f.grid, row, col).value
  {
    if !InBounds(f.grid.n, row, col) then Failure(OutOfBounds)
    else
      var u := OpenWith(FillState(f), row - 1, col - 1, false);
      Success(FixedGrid(OpenAt(f.grid, row - 1, col - 1), u.labels))
  }

  /** `isFull(row, col)`, asked of the second universe. */
  function FixedIsFull(f: FixedGrid, row: int, col: int): Result<bool>
    requires FixedWellFormed(f)
  {
    if !InBounds(f.grid.n, row, col) then Failure(OutOfBounds)
    else Success(Same(f.fill, Id(f.grid.n, row - 1, col - 1), VirtualTop(f.grid.n)))
  }

  /** One `open` call; a call that throws leaves the grid as it was. */
  function FixedApply(f: FixedGrid, move: (int, int)): (g: FixedGrid)
    requires FixedWellFormed(f)
    ensures FixedWellFormed(g) && g.grid == Apply(f.grid, move)
  {
    match FixedOpen(f, move.0, move.1)
    case Success(g) => g
    case Failure(_) => f
  }

  /** A sequence of `open` calls, in order; the grid part is the grid as
      written after the same calls. */
  function FixedRun(f: FixedGrid, moves: seq<(int, int)>): (g: FixedGrid)
    requires FixedWellFormed(f)
    ensures FixedWellFormed(g) && g.grid == Run(f.grid, moves)
    decreases |moves|
  {
    if moves == [] then f else FixedRun(FixedApply(f, moves[0]), moves[1..])
  }

  // ---------------------------------------------------------------------
  // The invariant
  // ---------------------------------------------------------------------

  lemma FixedNewInv(n: nat)
    ensures FixedInv(FixedNew(n).value)
  {
    NewTracks(n, true);
    NewTracks(n, false);
    assert FillState(FixedNew(n).value) == New(n).value;
  }

  /** The second universe after `open` is `OpenWith` without the bottom
      anchor applied to the grid seen through it. */
  lemma FixedOpenFill(f: FixedGrid, row: int, col: int)
    requires FixedWellFormed(f) && InBounds(f.grid.n, row, col)
    ensures FillState(FixedOpen(f, row, col).value) == OpenWith(FillState(f), row - 1, col - 1, false)
  {
    OpenAtSites(f.grid, row - 1, col - 1);
    OpenWithSites(FillState(f), row - 1, col - 1, false);
  }

  lemma FixedOpenInv(f: FixedGrid, row: int, col: int)
    requires FixedInv(f)
    ensures FixedOpen(f, row, col).Success? ==> FixedInv(FixedOpen(f, row, col).value)
  {
    if InBounds(f.grid.n, row, col) {
      OpenAtTracks(f.grid, row - 1, col - 1);
      OpenWithTracks(FillState(f), row - 1, col - 1, false);
      FixedOpenFill(f, row, col);
    }
  }

  lemma {:induction false} FixedRunInv(f: FixedGrid, moves: seq<(int, int)>)
    requires FixedInv(f)
    ensures FixedInv(FixedRun(f, moves))
    decreases |moves|
  {
    if moves != [] {
      FixedOpenInv(f, moves[0].0, moves[0].1);
      FixedRunInv(FixedApply(f, moves[0]), moves[1..]);
    }
  }

  // ---------------------------------------------------------------------
  // What the corrected isFull answers
  // ---------------------------------------------------------------------

  /** The corrected `isFull` throws exactly out of bounds, and in bounds it
      answers true exactly when a path of open sites reaches the site from
      the first row. */
  lemma FullIffFilled(f: FixedGrid, row: int, col: int)
    requires FixedInv(f)
    ensures FixedIsFull(f, row, col).Failure? <==> !InBounds(f.grid.n, row, col)
    ensures FixedIsFull(f, row, col).Failure? ==> FixedIsFull(f, row, col).error == OutOfBounds
    ensures InBounds(f.grid.n, row, col) ==>
      (FixedIsFull(f, row, col) == Success(true) <==> FilledFromTop(f.grid.n, f.grid.states, row - 1, col - 1))
  {
    if InBounds(f.grid.n, row, col) {
      var s := FillState(f);
      var n := s.n;
      var site := Cell(row - 1, col - 1);
      SameIffReach(s, false, Top, site);
      if FixedIsFull(f, row, col) == Success(true) {
        assert Same(s.labels, NodeId(n, Top), NodeId(n, site));
        var w :| Walk(n, s.states, false, w) && w[0] == Top && w[|w| - 1] == site;
        WalkFromTop(n, s.states, false, w, row - 1, col - 1);
      }
      if FilledFromTop(n, s.states, row - 1, col - 1) {
        var p: seq<(nat, nat)> :| OpenPath(n, s.states, p) && p[0].0 == 0 && p[|p| - 1] == (row - 1, col - 1);
        PathWalk(n, s.states, false, p);
        assert Same(s.labels, NodeId(n, Top), NodeId(n, site));
      }
    }
  }

  /** Every corrected grid the calls can reach: it percolates exactly when
      a path of open sites spans the rows, and a site is full exactly when
      such a path reaches it from the first row. */
  lemma FixedMeaning(n: nat, moves: seq<(int, int)>)
    ensures var f := FixedRun(FixedNew(n).value, moves);
      && f.grid == Run(New(n).value, moves)
      && (Percolates(f.grid) <==> Spans(n, f.grid.states))
      && forall row, col :: InBounds(n, row, col) ==>
           (FixedIsFull(f, row, col) == Success(true) <==> FilledFromTop(n, f.grid.states, row - 1, col - 1))
  {
    var f := FixedRun(FixedNew(n).value, moves);
    FixedNewInv(n);
    FixedRunInv(FixedNew(n).value, moves);
    PercolatesIffSpans(f.grid);
    forall row, col | InBounds(n, row, col)
      ensures FixedIsFull(f, row, col) == Success(true) <==> FilledFromTop(n, f.grid.states, row - 1, col - 1)
    {
      FullIffFilled(f, row, col);
    }
  }

  /** The calls that show backwash in the grid as written: after them the
      grid percolates and the corrected `isFull(3, 3)` answers false, where
      the one as written answers true. */
  lemma NoBackwash(f0: FixedGrid, f1: FixedGrid, f2: FixedGrid, f3: FixedGrid, f4: FixedGrid)
    requires f0 == FixedNew(3).value
    requires f1 == FixedOpen(f0, 1, 1).value && f2 == FixedOpen(f1, 2, 1).value
    requires f3 == FixedOpen(f2, 3, 1).value && f4 == FixedOpen(f3, 3, 3).value
    ensures FixedIsFull(f4, 3, 3) == Success(false)
    ensures IsFull(f4.grid, 3, 3) == Success(true)
  {
    FixedNewInv(3);
    FixedOpenInv(f0, 1, 1);
    FixedOpenInv(f1, 2, 1);
    FixedOpenInv(f2, 3, 1);
    FixedOpenInv(f3, 3, 3);
    Backwash(f0.grid, f1.grid, f2.grid, f3.grid, f4.grid);
    FullIffFilled(f4, 3, 3);
  }
}
