/** The percolation grid as a value: the n-by-n site states, the labels of
    the union-find universe and the open-site counter, together with the
    meaning of every public operation of the grid as a function of that
    value. The class in module Percolation is proved to follow these
    functions; the lemmas here are the properties the grid promises. */
module PercolationSpec {
  import opened UnionFind

  datatype SiteState = Blocked | Open

  /** A grid cell: its state and its row-major id in the union-find universe. */
  datatype Site = Site(state: SiteState, id: int)

  /** The two ways the grid throws IllegalArgumentException. */
  datatype Error = InvalidSize | OutOfBounds

  datatype Result<T> = Success(value: T) | Failure(error: Error)

  /** `states[i][j]` is the state of the site in 0-based row `i` and column
      `j`; `labels` is the union-find universe of size n*n + 3; `numOpen`
      is the counter kept beside the grid. */
  datatype State = State(n: nat, states: seq<seq<SiteState>>, labels: seq<int>, numOpen: int)

  /** The id the constructor gives the site in 0-based row `i`, column `j`. */
  function Id(n: nat, i: int, j: int): int {
    i * n + j
  }

  function UniverseSize(n: nat): nat {
    n * n + 3
  }

  function VirtualTop(n: nat): int {
    n * n + 1
  }

  function VirtualBottom(n: nat): int {
    n * n + 2
  }

  /** The 1-based coordinates `row`, `col` name a site of an n-by-n grid. */
  predicate InBounds(n: nat, row: int, col: int): (b: bool)
    ensures b ==> 0 <= Id(n, row - 1, col - 1) < n * n
  {
    if row < 1 || col < 1 || row > n || col > n then false
    else IdRange(n, row - 1, col - 1); true
  }

  /** Site ids lie in [0, n*n) and no two sites share one. */
  lemma IdRange(n: nat, i: int, j: int)
    requires 0 <= i < n && 0 <= j < n
    ensures 0 <= Id(n, i, j) < n * n
  {
    assert (i + 1) * n <= n * n by {
      assert (i + 1) * n == i * n + n;
      assert n * n - (i + 1) * n == (n - i - 1) * n;
    }
  }

  lemma MulMono(a: int, b: int, n: nat)
    requires a <= b
    ensures a * n <= b * n
  {
    assert b * n == a * n + (b - a) * n;
  }

  lemma IdInjective(n: nat, i: int, j: int, k: int, l: int)
    requires 0 <= i < n && 0 <= j < n && 0 <= k < n && 0 <= l < n
    requires Id(n, i, j) == Id(n, k, l)
    ensures i == k && j == l
  {
    if i < k {
      MulMono(i + 1, k, n);
    } else if k < i {
      MulMono(k + 1, i, n);
    }
  }

  /** The shape every state of an n-by-n grid has. */
  ghost predicate WellFormed(s: State) {
    && |s.states| == s.n
    && (forall i :: 0 <= i < s.n ==> |s.states[i]| == s.n)
    && |s.labels| == UniverseSize(s.n)
  }

  /** `v` is connected to nothing but itself. */
  ghost predicate Isolated(labels: seq<int>, v: int) {
    forall x :: Same(labels, x, v) ==> x == v
  }

  function OpenBit(st: SiteState): nat {
    if st == Open then 1 else 0
  }

  function CountRow(row: seq<SiteState>): nat {
    if row == [] then 0 else OpenBit(row[0]) + CountRow(row[1..])
  }

  /** The number of OPEN cells of a grid. */
  function CountOpen(g: seq<seq<SiteState>>): nat {
    if g == [] then 0 else CountRow(g[0]) + CountOpen(g[1..])
  }

  ghost predicate CounterMatches(s: State) {
    s.numOpen == CountOpen(s.states)
  }

  /** A blocked site has never taken part in a union. */
  ghost predicate BlockedIsolated(s: State)
    requires WellFormed(s)
  {
    forall i, j :: 0 <= i < s.n && 0 <= j < s.n && s.states[i][j] == Blocked ==> Isolated(s.labels, Id(s.n, i, j))
  }

  /** Every open site of the first row is joined to the top anchor and every
      open site of the last row to the bottom anchor. */
  ghost predicate AnchorsJoined(s: State)
    requires WellFormed(s)
  {
    s.n > 0 ==> RowJoined(s, 0, VirtualTop(s.n)) && RowJoined(s, s.n - 1, VirtualBottom(s.n))
  }

  /** Every open site of row `i` is connected to `anchor`. */
  ghost predicate RowJoined(s: State, i: nat, anchor: int)
    requires WellFormed(s) && i < s.n
  {
    forall j :: 0 <= j < s.n && s.states[i][j] == Open ==> Same(s.labels, Id(s.n, i, j), anchor)
  }

  /** The invariant of every grid the operations can reach. */
  ghost predicate Inv(s: State) {
    WellFormed(s) && Canonical(s.labels) && CounterMatches(s) && BlockedIsolated(s) && AnchorsJoined(s)
  }

  // ---------------------------------------------------------------------
  // Operations
  // ---------------------------------------------------------------------

  /** `new Percolation(n)`. */
  function New(n: int): (r: Result<State>)
    ensures r.Failure? <==> n < 0
    ensures r.Failure? ==> r.error == InvalidSize
    ensures r.Success? ==> WellFormed(r.value) && r.value.n == n && r.value.numOpen == 0
  {
    if n < 0 then Failure(InvalidSize)
    else Success(State(n, seq(n, i => seq(n, j => Blocked)), Singletons(UniverseSize(n)), 0))
  }

  /** Step 1 of `open` on a blocked site: the state flip and the counter. */
  function Flip(s: State, gr: nat, gc: nat): (t: State)
    requires WellFormed(s) && gr < s.n && gc < s.n
    ensures WellFormed(t) && t.n == s.n && t.labels == s.labels
  {
    s.(states := s.states[gr := s.states[gr][gc := Open]], numOpen := s.numOpen + 1)
  }

  /** `union(find(id), anchor)` for the site (gr, gc): the site's class
      joins the anchor's. `find(id)` names the site's class, so the union
      is stated on the site itself. */
  function JoinAnchor(s: State, gr: nat, gc: nat, anchor: int): (t: State)
    requires WellFormed(s) && gr < s.n && gc < s.n && 0 <= anchor < |s.labels|
    ensures WellFormed(t) && t.n == s.n && t.states == s.states && t.numOpen == s.numOpen
  {
    IdRange(s.n, gr, gc);
    s.(labels := Merge(s.labels, Id(s.n, gr, gc), anchor))
  }

  /** Step 1 of `open` on a blocked site: the unions with the anchors. */
  function JoinAnchors(s: State, gr: nat, gc: nat): (t: State)
    requires WellFormed(s) && gr < s.n && gc < s.n
    ensures WellFormed(t) && t.n == s.n && t.states == s.states && t.numOpen == s.numOpen
  {
    var s1 := if gr == 0 then JoinAnchor(s, gr, gc, VirtualTop(s.n)) else s;
    if gr == s.n - 1 then JoinAnchor(s1, gr, gc, VirtualBottom(s.n)) else s1
  }

  /** Step 2 of `open`, for one neighbour (nr, nc) of (gr, gc): an open
      neighbour whose class is not the site's is united with it. The
      Java code compares and unites the two `find` results, which name the
      same two classes. */
  function Link(s: State, gr: nat, gc: nat, nr: nat, nc: nat): (t: State)
    requires WellFormed(s) && gr < s.n && gc < s.n && nr < s.n && nc < s.n
    ensures WellFormed(t) && t.n == s.n && t.states == s.states && t.numOpen == s.numOpen
  {
    if s.states[nr][nc] == Blocked then s
    else
      IdRange(s.n, gr, gc);
      IdRange(s.n, nr, nc);
      var site := Id(s.n, gr, gc);
      var neighbor := Id(s.n, nr, nc);
      if Same(s.labels, site, neighbor) then s
      else s.(labels := Merge(s.labels, site, neighbor))
  }

  /** `open` once the bounds check has passed, on 0-based coordinates:
      a blocked site is flipped and joined to its anchors, then the
      neighbour step runs whether or not the site was blocked. */
  function OpenAt(s: State, gr: nat, gc: nat): (t: State)
    requires WellFormed(s) && gr < s.n && gc < s.n
    ensures WellFormed(t) && t.n == s.n
  {
    var s1 := if s.states[gr][gc] == Blocked then JoinAnchors(Flip(s, gr, gc), gr, gc) else s;
    LinkEach(s1, gr, gc, Neighbors(s.n, gr, gc))
  }

  /** The cells that share an edge with (gr, gc). */
  predicate Adjacent(gr: nat, gc: nat, i: nat, j: nat) {
    (i == gr && (j == gc + 1 || j + 1 == gc)) || (j == gc && (i == gr + 1 || i + 1 == gr))
  }

  ghost predicate InGrid(n: nat, cells: seq<(nat, nat)>) {
    forall k :: 0 <= k < |cells| ==> cells[k].0 < n && cells[k].1 < n
  }

  /** The neighbours `open` visits, in its order: up, down, left, right,
      each only when it lies inside the grid. */
  function Neighbors(n: nat, gr: nat, gc: nat): (cells: seq<(nat, nat)>)
    requires gr < n && gc < n
    ensures InGrid(n, cells)
  {
    VerticalNeighbors(n, gr, gc) + HorizontalNeighbors(n, gr, gc)
  }

  function VerticalNeighbors(n: nat, gr: nat, gc: nat): (cells: seq<(nat, nat)>)
    requires gr < n && gc < n
    ensures InGrid(n, cells)
  {
    (if gr > 0 then [(gr - 1, gc)] else []) + (if gr < n - 1 then [(gr + 1, gc)] else [])
  }

  function HorizontalNeighbors(n: nat, gr: nat, gc: nat): (cells: seq<(nat, nat)>)
    requires gr < n && gc < n
    ensures InGrid(n, cells)
  {
    (if gc > 0 then [(gr, gc - 1)] else []) + (if gc < n - 1 then [(gr, gc + 1)] else [])
  }

  /** Step 2 of `open`: the neighbour step for each cell of `cells`, in order. */
  function LinkEach(s: State, gr: nat, gc: nat, cells: seq<(nat, nat)>): (t: State)
    requires WellFormed(s) && gr < s.n && gc < s.n && InGrid(s.n, cells)
    ensures WellFormed(t) && t.n == s.n && t.states == s.states && t.numOpen == s.numOpen
    decreases |cells|
  {
    if cells == [] then s
    else LinkEach(Link(s, gr, gc, cells[0].0, cells[0].1), gr, gc, cells[1..])
  }

  /** `open(row, col)`. */
  function OpenSpec(s: State, row: int, col: int): (r: Result<State>)
    requires WellFormed(s)
    ensures r.Failure? <==> !InBounds(s.n, row, col)
    ensures r.Failure? ==> r.error == OutOfBounds
    ensures r.Success? ==> WellFormed(r.value) && r.value.n == s.n && r.value.states[row - 1][col - 1] == Open
  {
    if !InBounds(s.n, row, col) then Failure(OutOfBounds)
    else Success(OpenAt(s, row - 1, col - 1))
  }

  /** `isOpen(row, col)`. */
  function IsOpen(s: State, row: int, col: int): (r: Result<bool>)
    requires WellFormed(s)
    ensures r.Failure? <==> !InBounds(s.n, row, col)
    ensures r.Failure? ==> r.error == OutOfBounds
  {
    if !InBounds(s.n, row, col) then Failure(OutOfBounds)
    else Success(s.states[row - 1][col - 1] != Blocked)
  }

  /** `isFull(row, col)`: the site's class is the class of the top anchor. */
  function IsFull(s: State, row: int, col: int): (r: Result<bool>)
    requires WellFormed(s)
    ensures r.Failure? <==> !InBounds(s.n, row, col)
    ensures r.Failure? ==> r.error == OutOfBounds
  {
    if !InBounds(s.n, row, col) then Failure(OutOfBounds)
    else Success(Same(s.labels, Id(s.n, row - 1, col - 1), VirtualTop(s.n)))
  }

  /** `percolates()`: the two anchors lie in one class. */
  predicate Percolates(s: State) {
    Same(s.labels, VirtualBottom(s.n), VirtualTop(s.n))
  }
}
