/** The percolation grid as the mutable object of the Java class
    `Percolation`: an n-by-n
    array of sites, the open-site counter and the union-find object with
    its two anchors. Every method is proved to move the object exactly as
    the corresponding function of PercolationSpec moves its value. */
module Percolation {
  import opened UnionFind
  import opened PercolationSpec
  import opened PercolationProperties

  class Percolation {
    const gridSize: nat
    const grid: array2<Site>
    var numOpenSites: int
    const wqu: QuickFindUF
    const virtualTop: int
    const virtualBottom: int

    /** The states of the sites, row by row. */
    ghost function States(): seq<seq<SiteState>>
      reads this, grid
      requires grid.Length0 == gridSize && grid.Length1 == gridSize
    {
      seq(gridSize, i requires 0 <= i < gridSize reads grid =>
        seq(gridSize, j requires 0 <= j < gridSize reads grid => grid[i, j].state))
    }

    /** The value this object stands for. */
    ghost function Model(): (s: State)
      reads this, grid, wqu.id
      requires Shape()
      ensures WellFormed(s)
    {
      State(gridSize, States(), wqu.id[..], numOpenSites)
    }

    /** The layout fixed by the constructor (array sizes, row-major site
        ids, the anchor positions) and a valid union-find object. */
    ghost predicate Shape()
      reads this, grid, wqu.id
    {
      && grid.Length0 == gridSize && grid.Length1 == gridSize
      && wqu.id.Length == UniverseSize(gridSize) && wqu.Valid()
      && virtualTop == VirtualTop(gridSize) && virtualBottom == VirtualBottom(gridSize)
      && forall i, j :: 0 <= i < gridSize && 0 <= j < gridSize ==> grid[i, j].id == Id(gridSize, i, j)
    }

    ghost predicate Valid()
      reads this, grid, wqu.id
    {
      Shape() && Inv(Model())
    }

    /** The grid the constructor fills: every site blocked, ids counted
        up from 0 in row-major order. */
    static method BlockedGrid(n: nat) returns (g: array2<Site>)
      ensures fresh(g) && g.Length0 == n && g.Length1 == n
      ensures forall a, b :: 0 <= a < n && 0 <= b < n ==> g[a, b] == Site(Blocked, Id(n, a, b))
    {
      g := new Site[n, n];
      var idCounter := 0;
      var i := 0;
      while i < n
        invariant 0 <= i <= n
        invariant idCounter == i * n
        invariant forall a, b :: 0 <= a < i && 0 <= b < n ==> g[a, b] == Site(Blocked, Id(n, a, b))
      {
        var j := 0;
        while j < n
          invariant 0 <= j <= n
          invariant idCounter == i * n + j
          invariant forall a, b :: 0 <= a < i && 0 <= b < n ==> g[a, b] == Site(Blocked, Id(n, a, b))
          invariant forall b :: 0 <= b < j ==> g[i, b] == Site(Blocked, Id(n, i, b))
        {
          g[i, j] := Site(Blocked, idCounter);
          idCounter := idCounter + 1;
          j := j + 1;
        }
        assert idCounter == (i + 1) * n;
        i := i + 1;
      }
    }

    /** `new Percolation(n)` for a non-negative n: every site blocked, with
        ids 0 .. n*n - 1 in row-major order, and a universe of n*n + 3. */
    constructor (n: nat)
      ensures Valid() && fresh(grid) && fresh(wqu) && fresh(wqu.id)
      ensures Model() == New(n).value
    {
      var g := Percolation.BlockedGrid(n);
      grid := g;
      gridSize := n;
      numOpenSites := 0;
      wqu := new QuickFindUF(n * n + 3);
      virtualTop := n * n + 1;
      virtualBottom := n * n + 2;
      new;
      NewGrid(n);
      ghost var s := New(n).value;
      forall i | 0 <= i < n
        ensures States()[i] == s.states[i]
      {
        assert forall j :: 0 <= j < n ==> States()[i][j] == Blocked;
      }
      assert States() == s.states;
      assert wqu.id[..] == s.labels;
      assert Model() == s;
    }

    /** `new Percolation(n)`, throwing for a negative n. */
    static method Create(n: int) returns (r: Result<Percolation>)
      ensures r.Failure? <==> n < 0
      ensures r.Failure? ==> r.error == InvalidSize
      ensures r.Success? ==> fresh(r.value) && r.value.Valid() && r.value.Model() == New(n).value
      ensures r.Success? ==> fresh(r.value.grid) && fresh(r.value.wqu) && fresh(r.value.wqu.id)
    {
      if n < 0 {
        return Failure(InvalidSize);
      }
      var p := new Percolation(n);
      return Success(p);
    }

    /** `isOpen(row, col)`. */
    method IsOpen(row: int, col: int) returns (r: Result<bool>)
      requires Valid()
      ensures r == PercolationSpec.IsOpen(Model(), row, col)
    {
      if row < 1 || col < 1 || row > gridSize || col > gridSize {
        return Failure(OutOfBounds);
      }
      if grid[row - 1, col - 1].state != Blocked {
        return Success(true);
      } else {
        return Success(false);
      }
    }

    /** `isFull(row, col)`: whether the site's class is the top anchor's. */
    method IsFull(row: int, col: int) returns (r: Result<bool>)
      requires Valid()
      ensures r == PercolationSpec.IsFull(Model(), row, col)
    {
      if row < 1 || col < 1 || row > gridSize || col > gridSize {
        return Failure(OutOfBounds);
      }
      IdRange(gridSize, row - 1, col - 1);
      var root := wqu.Find(grid[row - 1, col - 1].id);
      var connected := wqu.Connected(root, virtualTop);
      if connected {
        return Success(true);
      } else {
        return Success(false);
      }
    }

    /** `numberOfOpenSites()`: the number of open sites, at most n*n. */
    method NumberOfOpenSites() returns (count: int)
      requires Valid()
      ensures count == CountOpen(Model().states)
      ensures 0 <= count <= gridSize * gridSize
    {
      CounterInRange(Model());
      count := numOpenSites;
    }

    /** `percolates()`: whether the bottom anchor lies in the top anchor's class. */
    method Percolates() returns (b: bool)
      requires Valid()
      ensures b == PercolationSpec.Percolates(Model())
    {
      b := wqu.Connected(virtualBottom, virtualTop);
    }

    /** One neighbour block of `open`: when (nr, nc) is open and not yet
        connected to (gr, gc), unite their classes. */
    method LinkNeighbor(gr: nat, gc: nat, nr: nat, nc: nat)
      requires Shape() && gr < gridSize && gc < gridSize && nr < gridSize && nc < gridSize
      modifies wqu.id
      ensures Shape() && Model() == Link(old(Model()), gr, gc, nr, nc)
    {
      ghost var s := Model();
      if grid[nr, nc].state != Blocked {
        IdRange(gridSize, gr, gc);
        IdRange(gridSize, nr, nc);
        var start := wqu.Find(grid[gr, gc].id);
        var neighbor := wqu.Find(grid[nr, nc].id);
        var connected := wqu.Connected(start, neighbor);
        assert connected <==> Same(s.labels, Id(gridSize, gr, gc), Id(gridSize, nr, nc));
        if !connected {
          wqu.Union(start, neighbor);
          assert wqu.id[..] == Merge(s.labels, Id(gridSize, gr, gc), Id(gridSize, nr, nc));
        }
      }
      assert Model() == Link(s, gr, gc, nr, nc);
    }

    /** The first half of `open` on a blocked site: mark it OPEN and count
        it. */
    method MarkOpen(gr: nat, gc: nat)
      requires Shape() && gr < gridSize && gc < gridSize
      modifies this, grid
      ensures Shape() && Model() == Flip(old(Model()), gr, gc)
    {
      ghost var s0 := Model();
      grid[gr, gc] := grid[gr, gc].(state := SiteState.Open);
      numOpenSites := numOpenSites + 1;
      forall i | 0 <= i < gridSize
        ensures States()[i] == s0.states[gr := s0.states[gr][gc := SiteState.Open]][i]
      {
        if i == gr {
          assert forall j :: 0 <= j < gridSize ==> States()[i][j] == s0.states[gr][gc := SiteState.Open][j];
        } else {
          assert forall j :: 0 <= j < gridSize ==> States()[i][j] == s0.states[i][j];
        }
      }
      assert States() == s0.states[gr := s0.states[gr][gc := SiteState.Open]];
    }

    /** `wqu.union(wqu.find(id), anchor)` for the site (gr, gc). */
    method UnionWithAnchor(gr: nat, gc: nat, anchor: int)
      requires Shape() && gr < gridSize && gc < gridSize
      requires anchor == virtualTop || anchor == virtualBottom
      modifies wqu.id
      ensures Shape() && Model() == JoinAnchor(old(Model()), gr, gc, anchor)
    {
      IdRange(gridSize, gr, gc);
      var root := wqu.Find(grid[gr, gc].id);
      wqu.Union(root, anchor);
    }

    /** The first half of `open` on a blocked site, continued: in the first
        row unite the site's class with the top anchor, in the last row
        with the bottom anchor. */
    method JoinAnchorUnions(gr: nat, gc: nat)
      requires Shape() && gr < gridSize && gc < gridSize
      modifies wqu.id
      ensures Shape() && Model() == JoinAnchors(old(Model()), gr, gc)
    {
      if gr + 1 == 1 {
        UnionWithAnchor(gr, gc, virtualTop);
      }
      if gr + 1 == gridSize {
        UnionWithAnchor(gr, gc, virtualBottom);
      }
    }

    /** The neighbour blocks of `open` for up and down, each for a
        neighbour inside the grid. */
    method LinkVertical(gr: nat, gc: nat)
      requires Shape() && gr < gridSize && gc < gridSize
      modifies wqu.id
      ensures Shape() && Model() == LinkEach(old(Model()), gr, gc, VerticalNeighbors(gridSize, gr, gc))
    {
      ghost var s1 := Model();
      ghost var done: seq<(nat, nat)> := [];
      if gr > 0 {
        LinkNeighbor(gr, gc, gr - 1, gc);
        LinkEachSnoc(s1, gr, gc, done, (gr - 1, gc));
        done := done + [(gr - 1, gc)];
      }
      if gr < gridSize - 1 {
        LinkNeighbor(gr, gc, gr + 1, gc);
        LinkEachSnoc(s1, gr, gc, done, (gr + 1, gc));
        done := done + [(gr + 1, gc)];
      }
      assert done == VerticalNeighbors(gridSize, gr, gc);
    }

    /** The neighbour blocks of `open` for left and right, each for a
        neighbour inside the grid. */
    method LinkHorizontal(gr: nat, gc: nat)
      requires Shape() && gr < gridSize && gc < gridSize
      modifies wqu.id
      ensures Shape() && Model() == LinkEach(old(Model()), gr, gc, HorizontalNeighbors(gridSize, gr, gc))
    {
      ghost var s1 := Model();
      ghost var done: seq<(nat, nat)> := [];
      if gc > 0 {
        LinkNeighbor(gr, gc, gr, gc - 1);
        LinkEachSnoc(s1, gr, gc, done, (gr, gc - 1));
        done := done + [(gr, gc - 1)];
      }
      if gc < gridSize - 1 {
        LinkNeighbor(gr, gc, gr, gc + 1);
        LinkEachSnoc(s1, gr, gc, done, (gr, gc + 1));
        done := done + [(gr, gc + 1)];
      }
      assert done == HorizontalNeighbors(gridSize, gr, gc);
    }

    /** The second half of `open`: the four neighbour blocks in order. */
    method LinkNeighbors(gr: nat, gc: nat)
      requires Shape() && gr < gridSize && gc < gridSize
      modifies wqu.id
      ensures Shape() && Model() == LinkEach(old(Model()), gr, gc, Neighbors(gridSize, gr, gc))
    {
      ghost var s1 := Model();
      LinkVertical(gr, gc);
      LinkHorizontal(gr, gc);
      LinkEachAppend(s1, gr, gc, VerticalNeighbors(gridSize, gr, gc), HorizontalNeighbors(gridSize, gr, gc));
    }

    /** `open(row, col)`: throws for coordinates outside the grid; otherwise
        opens a blocked site, counts it and joins it to its anchors, then
        unites it with each open neighbour. */
    method Open(row: int, col: int) returns (r: Result<()>)
      requires Valid()
      modifies this, grid, wqu.id
      ensures Valid()
      ensures OpenSpec(old(Model()), row, col).Failure? ==>
        r == Failure(OpenSpec(old(Model()), row, col).error) && Model() == old(Model())
      ensures OpenSpec(old(Model()), row, col).Success? ==>
        r == Success(()) && Model() == OpenSpec(old(Model()), row, col).value
    {
      if row < 1 || col < 1 || row > gridSize || col > gridSize {
        return Failure(OutOfBounds);
      }
      var gr, gc := row - 1, col - 1;
      ghost var s0 := Model();
      var isOpen := IsOpen(row, col);
      if isOpen == Success(false) {
        MarkOpen(gr, gc);
        JoinAnchorUnions(gr, gc);
      }
      LinkNeighbors(gr, gc);
      OpenAtKeepsInv(s0, gr, gc);
      r := Success(());
    }
  }
}
