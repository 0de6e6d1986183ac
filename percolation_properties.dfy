/** What the percolation grid promises, proved about the functions of
    PercolationSpec: the constructor's initial state, the effect of `open`
    on the sites, the counter and the connectivity, the invariant every
    reachable grid keeps, idempotence of `open`, monotonicity of
    `percolates`, and three small scenarios: n = 1, a 2-by-2 column and a
    2-by-2 diagonal. */
module PercolationProperties {
  import opened UnionFind
  import opened PercolationSpec

  // ---------------------------------------------------------------------
  // Counting open sites
  // ---------------------------------------------------------------------

  lemma {:induction false} CountRowUpdate(row: seq<SiteState>, j: nat, v: SiteState)
    requires j < |row|
    ensures CountRow(row[j := v]) == CountRow(row) - OpenBit(row[j]) + OpenBit(v)
  {
    if j == 0 {
      assert row[j := v][1..] == row[1..];
    } else {
      assert row[j := v][1..] == row[1..][j - 1 := v];
      CountRowUpdate(row[1..], j - 1, v);
    }
  }

  lemma {:induction false} CountOpenUpdate(g: seq<seq<SiteState>>, i: nat, r: seq<SiteState>)
    requires i < |g|
    ensures CountOpen(g[i := r]) == CountOpen(g) - CountRow(g[i]) + CountRow(r)
  {
    if i == 0 {
      assert g[i := r][1..] == g[1..];
    } else {
      assert g[i := r][1..] == g[1..][i - 1 := r];
      CountOpenUpdate(g[1..], i - 1, r);
    }
  }

  /** Opening one blocked cell adds exactly one to the count of OPEN cells. */
  lemma CountAfterOpen(g: seq<seq<SiteState>>, i: nat, j: nat)
    requires i < |g| && j < |g[i]|
    ensures CountOpen(g[i := g[i][j := Open]]) == CountOpen(g) + (if g[i][j] == Blocked then 1 else 0)
  {
    CountRowUpdate(g[i], j, Open);
    CountOpenUpdate(g, i, g[i][j := Open]);
  }

  lemma {:induction false} CountRowBound(row: seq<SiteState>)
    ensures CountRow(row) <= |row|
    ensures (forall j :: 0 <= j < |row| ==> row[j] == Blocked) ==> CountRow(row) == 0
  {
    if row != [] {
      CountRowBound(row[1..]);
    }
  }

  /** A grid of `|g|` rows of `n` cells has between 0 and |g| * n OPEN
      cells, and none when every cell is blocked. */
  lemma {:induction false} CountOpenBound(g: seq<seq<SiteState>>, n: nat)
    requires forall i :: 0 <= i < |g| ==> |g[i]| == n
    ensures CountOpen(g) <= |g| * n
    ensures (forall i, j :: 0 <= i < |g| && 0 <= j < n ==> g[i][j] == Blocked) ==> CountOpen(g) == 0
  {
    if g != [] {
      CountRowBound(g[0]);
      CountOpenBound(g[1..], n);
      assert |g| * n == n + (|g| - 1) * n;
    }
  }

  /** numberOfOpenSites() lies in [0, n*n] in every reachable grid. */
  lemma CounterInRange(s: State)
    requires Inv(s)
    ensures 0 <= s.numOpen <= s.n * s.n
  {
    CountOpenBound(s.states, s.n);
  }

  // ---------------------------------------------------------------------
  // The constructor
  // ---------------------------------------------------------------------

  /** Site ids are row-major, distinct and inside [0, n*n); the anchors are
      two further distinct ids inside the universe. */
  lemma SiteIds(n: nat)
    ensures forall i, j :: 0 <= i < n && 0 <= j < n ==> 0 <= Id(n, i, j) < n * n
    ensures forall i, j, k, l :: 0 <= i < n && 0 <= j < n && 0 <= k < n && 0 <= l < n && Id(n, i, j) == Id(n, k, l) ==> i == k && j == l
    ensures n * n < VirtualTop(n) < VirtualBottom(n) < UniverseSize(n)
  {
    forall i, j | 0 <= i < n && 0 <= j < n
      ensures 0 <= Id(n, i, j) < n * n
    {
      IdRange(n, i, j);
    }
    forall i, j, k, l | 0 <= i < n && 0 <= j < n && 0 <= k < n && 0 <= l < n && Id(n, i, j) == Id(n, k, l)
      ensures i == k && j == l
    {
      IdInjective(n, i, j, k, l);
    }
  }

  /** `new Percolation(n)` throws for a negative n; otherwise every site is
      blocked, the counter is 0, the grid does not percolate and the
      invariant holds. */
  lemma NewGrid(n: int)
    ensures New(n).Failure? <==> n < 0
    ensures New(n).Failure? ==> New(n).error == InvalidSize
    ensures n >= 0 ==>
      var s := New(n).value;
      && Inv(s) && s.n == n && s.numOpen == 0 && !Percolates(s)
      && forall i, j :: 0 <= i < n && 0 <= j < n ==> s.states[i][j] == Blocked
  {
    if n >= 0 {
      var s := New(n).value;
      CountOpenBound(s.states, n);
      forall i, j | 0 <= i < n && 0 <= j < n && s.states[i][j] == Blocked
        ensures Isolated(s.labels, Id(n, i, j))
      {
      }
    }
  }

  // ---------------------------------------------------------------------
  // The steps of open
  // ---------------------------------------------------------------------

  /** After `union(p, q)`, an element that was alone and in neither class
      is still alone. */
  lemma MergeKeepsIsolated(labels: seq<int>, p: int, q: int, v: int)
    requires 0 <= p < |labels| && 0 <= q < |labels|
    requires Isolated(labels, v) && !Same(labels, p, v) && !Same(labels, q, v)
    ensures Isolated(Merge(labels, p, q), v)
  {
    MergeSame(labels, p, q);
  }

  /** Helper: `BlockedIsolated` unfolded for one blocked site and one other
      element, which is then not in the blocked site's class. */
  lemma NotWithBlocked(s: State, i: nat, j: nat, v: int)
    requires WellFormed(s) && BlockedIsolated(s) && i < s.n && j < s.n
    requires s.states[i][j] == Blocked && 0 <= v < |s.labels| && v != Id(s.n, i, j)
    ensures !Same(s.labels, v, Id(s.n, i, j))
  {
  }

  /** The site (gr, gc) is open, so its class holds no blocked site. */
  lemma OpenSiteNotBlocked(s: State, gr: nat, gc: nat, i: nat, j: nat)
    requires WellFormed(s) && BlockedIsolated(s) && gr < s.n && gc < s.n && i < s.n && j < s.n
    requires s.states[gr][gc] == Open && s.states[i][j] == Blocked
    ensures !Same(s.labels, Id(s.n, gr, gc), Id(s.n, i, j))
  {
    IdRange(s.n, gr, gc);
    IdRange(s.n, i, j);
    if Id(s.n, gr, gc) == Id(s.n, i, j) {
      IdInjective(s.n, gr, gc, i, j);
    }
    NotWithBlocked(s, i, j, Id(s.n, gr, gc));
  }

  /** A union of the open site (gr, gc) with an anchor keeps every blocked
      site alone. */
  lemma JoinAnchorKeepsIsolated(s: State, gr: nat, gc: nat, anchor: int)
    requires WellFormed(s) && BlockedIsolated(s) && gr < s.n && gc < s.n && s.states[gr][gc] == Open
    requires s.n * s.n <= anchor < |s.labels|
    ensures BlockedIsolated(JoinAnchor(s, gr, gc, anchor))
  {
    var n := s.n;
    IdRange(n, gr, gc);
    forall i, j | 0 <= i < n && 0 <= j < n && s.states[i][j] == Blocked
      ensures Isolated(JoinAnchor(s, gr, gc, anchor).labels, Id(n, i, j))
    {
      OpenSiteNotBlocked(s, gr, gc, i, j);
      IdRange(n, i, j);
      NotWithBlocked(s, i, j, anchor);
      MergeKeepsIsolated(s.labels, Id(n, gr, gc), anchor, Id(n, i, j));
    }
  }

  lemma JoinAnchorsKeepsIsolated(s: State, gr: nat, gc: nat)
    requires WellFormed(s) && BlockedIsolated(s) && gr < s.n && gc < s.n && s.states[gr][gc] == Open
    ensures BlockedIsolated(JoinAnchors(s, gr, gc))
  {
    var s1 := if gr == 0 then JoinAnchor(s, gr, gc, VirtualTop(s.n)) else s;
    if gr == 0 {
      JoinAnchorKeepsIsolated(s, gr, gc, VirtualTop(s.n));
    }
    if gr == s.n - 1 {
      JoinAnchorKeepsIsolated(s1, gr, gc, VirtualBottom(s.n));
    }
  }

  lemma LinkKeepsIsolated(s: State, gr: nat, gc: nat, nr: nat, nc: nat)
    requires WellFormed(s) && BlockedIsolated(s)
    requires gr < s.n && gc < s.n && nr < s.n && nc < s.n && s.states[gr][gc] == Open
    ensures BlockedIsolated(Link(s, gr, gc, nr, nc))
  {
    var n := s.n;
    if s.states[nr][nc] == Open {
      IdRange(n, gr, gc);
      IdRange(n, nr, nc);
      forall i, j | 0 <= i < n && 0 <= j < n && s.states[i][j] == Blocked
        ensures Isolated(Link(s, gr, gc, nr, nc).labels, Id(n, i, j))
      {
        OpenSiteNotBlocked(s, gr, gc, i, j);
        OpenSiteNotBlocked(s, nr, nc, i, j);
        IdRange(n, i, j);
        MergeKeepsIsolated(s.labels, Id(n, gr, gc), Id(n, nr, nc), Id(n, i, j));
      }
    }
  }

  /** The anchor unions keep one representative per class. */
  lemma JoinAnchorsKeepsCanonical(s: State, gr: nat, gc: nat)
    requires WellFormed(s) && Canonical(s.labels) && gr < s.n && gc < s.n
    ensures Canonical(JoinAnchors(s, gr, gc).labels)
  {
    IdRange(s.n, gr, gc);
    var s1 := if gr == 0 then JoinAnchor(s, gr, gc, VirtualTop(s.n)) else s;
    if gr == 0 {
      MergeCanonical(s.labels, Id(s.n, gr, gc), VirtualTop(s.n));
    }
    if gr == s.n - 1 {
      MergeCanonical(s1.labels, Id(s.n, gr, gc), VirtualBottom(s.n));
    }
  }

  /** The anchor unions lose no connection. */
  lemma JoinAnchorsGrows(s: State, gr: nat, gc: nat)
    requires WellFormed(s) && gr < s.n && gc < s.n
    ensures forall x, y :: Same(s.labels, x, y) ==> Same(JoinAnchors(s, gr, gc).labels, x, y)
  {
    IdRange(s.n, gr, gc);
    var s1 := if gr == 0 then JoinAnchor(s, gr, gc, VirtualTop(s.n)) else s;
    if gr == 0 {
      MergeSame(s.labels, Id(s.n, gr, gc), VirtualTop(s.n));
    }
    if gr == s.n - 1 {
      MergeSame(s1.labels, Id(s.n, gr, gc), VirtualBottom(s.n));
    }
  }

  /** A site of the first row is connected to the top anchor after the
      unions, and a site of the last row to the bottom anchor. */
  lemma JoinAnchorsConnects(s: State, gr: nat, gc: nat)
    requires WellFormed(s) && gr < s.n && gc < s.n
    ensures var t := JoinAnchors(s, gr, gc);
      && (gr == 0 ==> Same(t.labels, Id(s.n, gr, gc), VirtualTop(s.n)))
      && (gr == s.n - 1 ==> Same(t.labels, Id(s.n, gr, gc), VirtualBottom(s.n)))
  {
    IdRange(s.n, gr, gc);
    var s1 := if gr == 0 then JoinAnchor(s, gr, gc, VirtualTop(s.n)) else s;
    if gr == 0 {
      MergeSame(s.labels, Id(s.n, gr, gc), VirtualTop(s.n));
    }
    if gr == s.n - 1 {
      MergeSame(s1.labels, Id(s.n, gr, gc), VirtualBottom(s.n));
    }
  }

  /** One neighbour block keeps one representative per class. */
  lemma LinkKeepsCanonical(s: State, gr: nat, gc: nat, nr: nat, nc: nat)
    requires WellFormed(s) && Canonical(s.labels) && gr < s.n && gc < s.n && nr < s.n && nc < s.n
    ensures Canonical(Link(s, gr, gc, nr, nc).labels)
  {
    IdRange(s.n, gr, gc);
    IdRange(s.n, nr, nc);
    MergeCanonical(s.labels, Id(s.n, gr, gc), Id(s.n, nr, nc));
  }

  /** One neighbour block loses no connection. */
  lemma LinkGrows(s: State, gr: nat, gc: nat, nr: nat, nc: nat)
    requires WellFormed(s) && gr < s.n && gc < s.n && nr < s.n && nc < s.n
    ensures forall x, y :: Same(s.labels, x, y) ==> Same(Link(s, gr, gc, nr, nc).labels, x, y)
  {
    IdRange(s.n, gr, gc);
    IdRange(s.n, nr, nc);
    MergeSame(s.labels, Id(s.n, gr, gc), Id(s.n, nr, nc));
  }

  /** After one neighbour block, an open neighbour is connected to the site. */
  lemma LinkConnects(s: State, gr: nat, gc: nat, nr: nat, nc: nat)
    requires WellFormed(s) && gr < s.n && gc < s.n && nr < s.n && nc < s.n
    requires s.states[nr][nc] == Open
    ensures Same(Link(s, gr, gc, nr, nc).labels, Id(s.n, gr, gc), Id(s.n, nr, nc))
  {
    IdRange(s.n, gr, gc);
    IdRange(s.n, nr, nc);
    MergeSame(s.labels, Id(s.n, gr, gc), Id(s.n, nr, nc));
  }

  /** A neighbour block does nothing for a blocked neighbour or one already
      connected to the site. */
  lemma LinkNoop(s: State, gr: nat, gc: nat, nr: nat, nc: nat)
    requires WellFormed(s) && gr < s.n && gc < s.n && nr < s.n && nc < s.n
    requires s.states[nr][nc] == Blocked || Same(s.labels, Id(s.n, gr, gc), Id(s.n, nr, nc))
    ensures Link(s, gr, gc, nr, nc) == s
  {
    IdRange(s.n, gr, gc);
    IdRange(s.n, nr, nc);
  }

  // ---------------------------------------------------------------------
  // The neighbour step
  // ---------------------------------------------------------------------

  /** `Neighbors` lists exactly the in-bounds cells adjacent to the site. */
  lemma NeighborsExact(n: nat, gr: nat, gc: nat)
    requires gr < n && gc < n
    ensures forall i: nat, j: nat :: (i, j) in Neighbors(n, gr, gc) <==> i < n && j < n && Adjacent(gr, gc, i, j)
  {
  }

  /** Running the neighbour step over two lists is running it over the first
      and then over the second. */
  lemma {:induction false} LinkEachAppend(s: State, gr: nat, gc: nat, cells: seq<(nat, nat)>, more: seq<(nat, nat)>)
    requires WellFormed(s) && gr < s.n && gc < s.n && InGrid(s.n, cells) && InGrid(s.n, more)
    ensures InGrid(s.n, cells + more)
    ensures LinkEach(s, gr, gc, cells + more) == LinkEach(LinkEach(s, gr, gc, cells), gr, gc, more)
    decreases |cells|
  {
    if cells == [] {
      assert cells + more == more;
    } else {
      assert (cells + more)[1..] == cells[1..] + more;
      LinkEachAppend(Link(s, gr, gc, cells[0].0, cells[0].1), gr, gc, cells[1..], more);
    }
  }

  /** Running the neighbour step over one more cell is one more `Link`. */
  lemma {:induction false} LinkEachSnoc(s: State, gr: nat, gc: nat, cells: seq<(nat, nat)>, c: (nat, nat))
    requires WellFormed(s) && gr < s.n && gc < s.n && InGrid(s.n, cells) && c.0 < s.n && c.1 < s.n
    ensures InGrid(s.n, cells + [c])
    ensures LinkEach(s, gr, gc, cells + [c]) == Link(LinkEach(s, gr, gc, cells), gr, gc, c.0, c.1)
    decreases |cells|
  {
    if cells == [] {
      assert cells + [c] == [c];
    } else {
      assert (cells + [c])[1..] == cells[1..] + [c];
      LinkEachSnoc(Link(s, gr, gc, cells[0].0, cells[0].1), gr, gc, cells[1..], c);
    }
  }

  /** The neighbour step loses no connection. */
  lemma {:induction false} LinkEachGrows(s: State, gr: nat, gc: nat, cells: seq<(nat, nat)>)
    requires WellFormed(s) && gr < s.n && gc < s.n && InGrid(s.n, cells)
    ensures forall x, y :: Same(s.labels, x, y) ==> Same(LinkEach(s, gr, gc, cells).labels, x, y)
    decreases |cells|
  {
    if cells != [] {
      var s1 := Link(s, gr, gc, cells[0].0, cells[0].1);
      LinkGrows(s, gr, gc, cells[0].0, cells[0].1);
      LinkEachGrows(s1, gr, gc, cells[1..]);
    }
  }

  /** After the neighbour step the site is connected to each listed cell
      that is open. */
  lemma {:induction false} LinkEachConnects(s: State, gr: nat, gc: nat, cells: seq<(nat, nat)>)
    requires WellFormed(s) && gr < s.n && gc < s.n && InGrid(s.n, cells)
    ensures var t := LinkEach(s, gr, gc, cells);
      forall k :: 0 <= k < |cells| && s.states[cells[k].0][cells[k].1] == Open ==>
        Same(t.labels, Id(s.n, gr, gc), Id(s.n, cells[k].0, cells[k].1))
    decreases |cells|
  {
    if cells != [] {
      var s1 := Link(s, gr, gc, cells[0].0, cells[0].1);
      var t := LinkEach(s1, gr, gc, cells[1..]);
      assert t == LinkEach(s, gr, gc, cells);
      LinkEachConnects(s1, gr, gc, cells[1..]);
      if s.states[cells[0].0][cells[0].1] == Open {
        LinkConnects(s, gr, gc, cells[0].0, cells[0].1);
        LinkEachGrows(s1, gr, gc, cells[1..]);
      }
      forall k | 1 <= k < |cells| && s.states[cells[k].0][cells[k].1] == Open
        ensures Same(t.labels, Id(s.n, gr, gc), Id(s.n, cells[k].0, cells[k].1))
      {
        assert cells[k] == cells[1..][k - 1];
      }
    }
  }

  /** The neighbour step keeps one representative per class. */
  lemma {:induction false} LinkEachKeepsCanonical(s: State, gr: nat, gc: nat, cells: seq<(nat, nat)>)
    requires WellFormed(s) && Canonical(s.labels) && gr < s.n && gc < s.n && InGrid(s.n, cells)
    ensures Canonical(LinkEach(s, gr, gc, cells).labels)
    decreases |cells|
  {
    if cells != [] {
      var s1 := Link(s, gr, gc, cells[0].0, cells[0].1);
      LinkKeepsCanonical(s, gr, gc, cells[0].0, cells[0].1);
      LinkEachKeepsCanonical(s1, gr, gc, cells[1..]);
    }
  }

  /** The neighbour step keeps every blocked site alone, because it only
      unites the open site with open neighbours. */
  lemma {:induction false} LinkEachKeepsIsolated(s: State, gr: nat, gc: nat, cells: seq<(nat, nat)>)
    requires WellFormed(s) && BlockedIsolated(s) && gr < s.n && gc < s.n && InGrid(s.n, cells)
    requires s.states[gr][gc] == Open
    ensures BlockedIsolated(LinkEach(s, gr, gc, cells))
    decreases |cells|
  {
    if cells != [] {
      var s1 := Link(s, gr, gc, cells[0].0, cells[0].1);
      LinkKeepsIsolated(s, gr, gc, cells[0].0, cells[0].1);
      LinkEachKeepsIsolated(s1, gr, gc, cells[1..]);
    }
  }

  /** When the site is already connected to every open listed cell, the
      neighbour step changes nothing. */
  lemma {:induction false} LinkEachNoop(s: State, gr: nat, gc: nat, cells: seq<(nat, nat)>)
    requires WellFormed(s) && gr < s.n && gc < s.n && InGrid(s.n, cells)
    requires forall k :: 0 <= k < |cells| && s.states[cells[k].0][cells[k].1] == Open ==>
      Same(s.labels, Id(s.n, gr, gc), Id(s.n, cells[k].0, cells[k].1))
    ensures LinkEach(s, gr, gc, cells) == s
    decreases |cells|
  {
    if cells != [] {
      LinkNoop(s, gr, gc, cells[0].0, cells[0].1);
      assert forall k :: 0 <= k < |cells| - 1 ==> cells[1..][k] == cells[k + 1];
      LinkEachNoop(s, gr, gc, cells[1..]);
    }
  }

  // ---------------------------------------------------------------------
  // open
  // ---------------------------------------------------------------------

  /** `open` makes the site OPEN, leaves every other site as it was, and
      adds one to the counter exactly when the site was blocked. */
  lemma OpenAtSites(s: State, gr: nat, gc: nat)
    requires WellFormed(s) && gr < s.n && gc < s.n
    ensures var t := OpenAt(s, gr, gc);
      && t.states == s.states[gr := s.states[gr][gc := Open]]
      && t.numOpen == s.numOpen + (if s.states[gr][gc] == Blocked then 1 else 0)
  {
    if s.states[gr][gc] == Open {
      assert s.states[gr][gc := Open] == s.states[gr];
      assert s.states[gr := s.states[gr]] == s.states;
    }
  }

  /** No union is ever undone: every pair connected before `open` is
      connected after it. */
  lemma OpenAtGrows(s: State, gr: nat, gc: nat)
    requires WellFormed(s) && gr < s.n && gc < s.n
    ensures forall x, y :: Same(s.labels, x, y) ==> Same(OpenAt(s, gr, gc).labels, x, y)
  {
    var s1 := if s.states[gr][gc] == Blocked then JoinAnchors(Flip(s, gr, gc), gr, gc) else s;
    if s.states[gr][gc] == Blocked { JoinAnchorsGrows(Flip(s, gr, gc), gr, gc); }
    LinkEachGrows(s1, gr, gc, Neighbors(s.n, gr, gc));
  }

  /** After `open`, the site is connected to every in-bounds adjacent site
      that is open. */
  lemma OpenAtJoinsNeighbors(s: State, gr: nat, gc: nat)
    requires WellFormed(s) && gr < s.n && gc < s.n
    ensures var t := OpenAt(s, gr, gc);
      forall i: nat, j: nat :: i < s.n && j < s.n && Adjacent(gr, gc, i, j) && t.states[i][j] == Open ==>
        Same(t.labels, Id(s.n, gr, gc), Id(s.n, i, j))
  {
    var s1 := if s.states[gr][gc] == Blocked then JoinAnchors(Flip(s, gr, gc), gr, gc) else s;
    var cells := Neighbors(s.n, gr, gc);
    var t := OpenAt(s, gr, gc);
    LinkEachConnects(s1, gr, gc, cells);
    NeighborsExact(s.n, gr, gc);
    forall i: nat, j: nat | i < s.n && j < s.n && Adjacent(gr, gc, i, j) && t.states[i][j] == Open
      ensures Same(t.labels, Id(s.n, gr, gc), Id(s.n, i, j))
    {
      assert (i, j) in cells;
      var k :| 0 <= k < |cells| && cells[k] == (i, j);
    }
  }

  /** After `open`, a site of the first row is connected to the top anchor
      and a site of the last row to the bottom anchor, whether this call
      opened it or an earlier one did. */
  lemma OpenAtJoinsAnchors(s: State, gr: nat, gc: nat)
    requires Inv(s) && gr < s.n && gc < s.n
    ensures var t := OpenAt(s, gr, gc);
      && (gr == 0 ==> Same(t.labels, Id(s.n, gr, gc), VirtualTop(s.n)))
      && (gr == s.n - 1 ==> Same(t.labels, Id(s.n, gr, gc), VirtualBottom(s.n)))
  {
    var s1 := if s.states[gr][gc] == Blocked then JoinAnchors(Flip(s, gr, gc), gr, gc) else s;
    if s.states[gr][gc] == Blocked {
      JoinAnchorsConnects(Flip(s, gr, gc), gr, gc);
    } else {
      assert gr == 0 ==> RowJoined(s, 0, VirtualTop(s.n));
      assert gr == s.n - 1 ==> RowJoined(s, s.n - 1, VirtualBottom(s.n));
    }
    LinkEachGrows(s1, gr, gc, Neighbors(s.n, gr, gc));
  }

  /** A row stays joined to its anchor when one site of the grid is
      opened, no connection is lost and the opened site, if it lies in
      that row, is joined to the anchor. */
  lemma RowStaysJoined(s: State, t: State, gr: nat, gc: nat, row: nat, anchor: int)
    requires WellFormed(s) && WellFormed(t) && t.n == s.n && gr < s.n && gc < s.n && row < s.n
    requires t.states == s.states[gr := s.states[gr][gc := Open]]
    requires forall x, y :: Same(s.labels, x, y) ==> Same(t.labels, x, y)
    requires RowJoined(s, row, anchor)
    requires row == gr ==> Same(t.labels, Id(s.n, gr, gc), anchor)
    ensures RowJoined(t, row, anchor)
  {
    forall j | 0 <= j < s.n && t.states[row][j] == Open
      ensures Same(t.labels, Id(s.n, row, j), anchor)
    {
      if j != gc || gr != row {
        assert s.states[row][j] == Open;
      }
    }
  }

  /** `open` keeps every blocked site alone. */
  lemma OpenAtKeepsIsolated(s: State, gr: nat, gc: nat)
    requires WellFormed(s) && BlockedIsolated(s) && gr < s.n && gc < s.n
    ensures BlockedIsolated(OpenAt(s, gr, gc))
  {
    var s1 := if s.states[gr][gc] == Blocked then JoinAnchors(Flip(s, gr, gc), gr, gc) else s;
    if s.states[gr][gc] == Blocked {
      assert BlockedIsolated(Flip(s, gr, gc));
      JoinAnchorsKeepsIsolated(Flip(s, gr, gc), gr, gc);
    }
    LinkEachKeepsIsolated(s1, gr, gc, Neighbors(s.n, gr, gc));
  }

  /** `open` keeps one representative per class. */
  lemma OpenAtKeepsCanonical(s: State, gr: nat, gc: nat)
    requires WellFormed(s) && Canonical(s.labels) && gr < s.n && gc < s.n
    ensures Canonical(OpenAt(s, gr, gc).labels)
  {
    var s1 := if s.states[gr][gc] == Blocked then JoinAnchors(Flip(s, gr, gc), gr, gc) else s;
    if s.states[gr][gc] == Blocked {
      JoinAnchorsKeepsCanonical(Flip(s, gr, gc), gr, gc);
    }
    LinkEachKeepsCanonical(s1, gr, gc, Neighbors(s.n, gr, gc));
  }

  /** `open` keeps the counter equal to the number of open sites. */
  lemma OpenAtKeepsCounter(s: State, gr: nat, gc: nat)
    requires WellFormed(s) && CounterMatches(s) && gr < s.n && gc < s.n
    ensures CounterMatches(OpenAt(s, gr, gc))
  {
    OpenAtSites(s, gr, gc);
    CountAfterOpen(s.states, gr, gc);
  }

  /** `open` keeps the open sites of the first and last rows joined to
      their anchors. */
  lemma OpenAtKeepsAnchors(s: State, gr: nat, gc: nat)
    requires Inv(s) && gr < s.n && gc < s.n
    ensures AnchorsJoined(OpenAt(s, gr, gc))
  {
    var t := OpenAt(s, gr, gc);
    OpenAtSites(s, gr, gc);
    OpenAtJoinsAnchors(s, gr, gc);
    OpenAtGrows(s, gr, gc);
    RowStaysJoined(s, t, gr, gc, 0, VirtualTop(s.n));
    RowStaysJoined(s, t, gr, gc, s.n - 1, VirtualBottom(s.n));
  }

  /** `open` keeps the invariant of reachable grids. */
  lemma OpenAtKeepsInv(s: State, gr: nat, gc: nat)
    requires Inv(s) && gr < s.n && gc < s.n
    ensures Inv(OpenAt(s, gr, gc))
  {
    OpenAtKeepsCanonical(s, gr, gc);
    OpenAtKeepsIsolated(s, gr, gc);
    OpenAtKeepsCounter(s, gr, gc);
    OpenAtKeepsAnchors(s, gr, gc);
  }

  /** Opening a site a second time changes nothing: `open` is idempotent. */
  lemma OpenIdempotent(s: State, gr: nat, gc: nat)
    requires WellFormed(s) && gr < s.n && gc < s.n
    ensures OpenAt(OpenAt(s, gr, gc), gr, gc) == OpenAt(s, gr, gc)
  {
    var t := OpenAt(s, gr, gc);
    var cells := Neighbors(s.n, gr, gc);
    OpenAtSites(s, gr, gc);
    OpenAtJoinsNeighbors(s, gr, gc);
    NeighborsExact(s.n, gr, gc);
    forall k | 0 <= k < |cells| && t.states[cells[k].0][cells[k].1] == Open
      ensures Same(t.labels, Id(s.n, gr, gc), Id(s.n, cells[k].0, cells[k].1))
    {
      assert cells[k] in cells;
    }
    LinkEachNoop(t, gr, gc, cells);
  }

  /** The whole `open(row, col)` call: it throws exactly when the
      coordinates are out of bounds; otherwise the site is open afterwards,
      the counter grows by one exactly when the site was blocked, every
      other site keeps its state and the invariant still holds. */
  lemma OpenCall(s: State, row: int, col: int)
    requires Inv(s)
    ensures OpenSpec(s, row, col).Failure? <==> !InBounds(s.n, row, col)
    ensures OpenSpec(s, row, col).Failure? ==> OpenSpec(s, row, col).error == OutOfBounds
    ensures OpenSpec(s, row, col).Success? ==>
      var t := OpenSpec(s, row, col).value;
      && Inv(t) && t.n == s.n
      && IsOpen(t, row, col) == Success(true)
      && t.numOpen == s.numOpen + (if IsOpen(s, row, col) == Success(false) then 1 else 0)
      && forall r, c :: InBounds(s.n, r, c) && (r, c) != (row, col) ==> IsOpen(t, r, c) == IsOpen(s, r, c)
  {
    if InBounds(s.n, row, col) {
      OpenedSite(s, row - 1, col - 1);
      OpenAtKeepsInv(s, row - 1, col - 1);
    }
  }

  /** `open` on in-bounds 0-based coordinates, as the caller sees it. */
  lemma OpenedSite(s: State, gr: nat, gc: nat)
    requires WellFormed(s) && gr < s.n && gc < s.n
    ensures var t := OpenAt(s, gr, gc);
      && t.n == s.n
      && IsOpen(t, gr + 1, gc + 1) == Success(true)
      && t.numOpen == s.numOpen + (if IsOpen(s, gr + 1, gc + 1) == Success(false) then 1 else 0)
      && forall r, c :: InBounds(s.n, r, c) && (r, c) != (gr + 1, gc + 1) ==> IsOpen(t, r, c) == IsOpen(s, r, c)
  {
    OpenAtSites(s, gr, gc);
    SetOpen(s, OpenAt(s, gr, gc), gr, gc);
  }

  /** A grid that differs from `s` only in the site (gr, gc) being OPEN
      answers `isOpen` as `s` does everywhere else. */
  lemma SetOpen(s: State, t: State, gr: nat, gc: nat)
    requires WellFormed(s) && WellFormed(t) && t.n == s.n && gr < s.n && gc < s.n
    requires t.states == s.states[gr := s.states[gr][gc := Open]]
    ensures IsOpen(t, gr + 1, gc + 1) == Success(true)
    ensures forall r, c :: InBounds(s.n, r, c) && (r, c) != (gr + 1, gc + 1) ==> IsOpen(t, r, c) == IsOpen(s, r, c)
  {
    forall r, c | InBounds(s.n, r, c) && (r, c) != (gr + 1, gc + 1)
      ensures IsOpen(t, r, c) == IsOpen(s, r, c)
    {
      assert t.states[r - 1][c - 1] == s.states[r - 1][c - 1];
    }
  }

  // ---------------------------------------------------------------------
  // Queries
  // ---------------------------------------------------------------------

  /** A full site is open: `isFull(r, c)` implies `isOpen(r, c)`, and both
      throw for the same coordinates. */
  lemma FullImpliesOpen(s: State, row: int, col: int)
    requires Inv(s)
    ensures IsFull(s, row, col).Failure? <==> IsOpen(s, row, col).Failure?
    ensures IsFull(s, row, col) == Success(true) ==> IsOpen(s, row, col) == Success(true)
  {
    if InBounds(s.n, row, col) && s.states[row - 1][col - 1] == Blocked {
      IdRange(s.n, row - 1, col - 1);
      NotWithBlocked(s, row - 1, col - 1, VirtualTop(s.n));
    }
  }

  /** A blocked site is connected to nothing but itself. */
  lemma BlockedAlone(s: State, row: int, col: int, x: int)
    requires Inv(s) && IsOpen(s, row, col) == Success(false)
    requires Same(s.labels, x, Id(s.n, row - 1, col - 1))
    ensures x == Id(s.n, row - 1, col - 1)
  {
  }

  // ---------------------------------------------------------------------
  // Sequences of calls
  // ---------------------------------------------------------------------

  /** One `open(row, col)` call; a call that throws leaves the grid as it was. */
  function Apply(s: State, move: (int, int)): (t: State)
    requires WellFormed(s)
    ensures WellFormed(t) && t.n == s.n
  {
    match OpenSpec(s, move.0, move.1)
    case Success(t) => t
    case Failure(_) => s
  }

  /** A sequence of `open` calls, in order. */
  function Run(s: State, moves: seq<(int, int)>): (t: State)
    requires WellFormed(s)
    ensures WellFormed(t) && t.n == s.n
    decreases |moves|
  {
    if moves == [] then s else Run(Apply(s, moves[0]), moves[1..])
  }

  /** `open` never decreases the counter, never blocks an open site and
      never loses a connection. */
  lemma OpenAtMonotone(s: State, gr: nat, gc: nat)
    requires WellFormed(s) && gr < s.n && gc < s.n
    ensures var t := OpenAt(s, gr, gc);
      && s.numOpen <= t.numOpen
      && (forall i, j :: 0 <= i < s.n && 0 <= j < s.n && s.states[i][j] == Open ==> t.states[i][j] == Open)
      && (forall x, y :: Same(s.labels, x, y) ==> Same(t.labels, x, y))
  {
    var t := OpenAt(s, gr, gc);
    OpenAtSites(s, gr, gc);
    OpenAtGrows(s, gr, gc);
    forall i, j | 0 <= i < s.n && 0 <= j < s.n && s.states[i][j] == Open
      ensures t.states[i][j] == Open
    {
    }
  }

  /** One call keeps the invariant, never decreases the counter, never
      blocks an open site and never loses a connection. */
  lemma ApplyMonotone(s: State, move: (int, int))
    requires Inv(s)
    ensures var t := Apply(s, move);
      && Inv(t)
      && s.numOpen <= t.numOpen
      && (forall i, j :: 0 <= i < s.n && 0 <= j < s.n && s.states[i][j] == Open ==> t.states[i][j] == Open)
      && (forall x, y :: Same(s.labels, x, y) ==> Same(t.labels, x, y))
  {
    if InBounds(s.n, move.0, move.1) {
      OpenAtMonotone(s, move.0 - 1, move.1 - 1);
      OpenAtKeepsInv(s, move.0 - 1, move.1 - 1);
    }
  }

  /** Across any sequence of calls the invariant holds, the counter never
      decreases, no site goes back to BLOCKED, no connection is lost, and
      so a grid that percolates keeps percolating. */
  lemma {:induction false} RunMonotone(s: State, moves: seq<(int, int)>)
    requires Inv(s)
    ensures var t := Run(s, moves);
      && Inv(t)
      && s.numOpen <= t.numOpen
      && (forall i, j :: 0 <= i < s.n && 0 <= j < s.n && s.states[i][j] == Open ==> t.states[i][j] == Open)
      && (forall x, y :: Same(s.labels, x, y) ==> Same(t.labels, x, y))
      && (Percolates(s) ==> Percolates(t))
    decreases |moves|
  {
    if moves != [] {
      var s1 := Apply(s, moves[0]);
      ApplyMonotone(s, moves[0]);
      RunMonotone(s1, moves[1..]);
    }
  }

  // ---------------------------------------------------------------------
  // Scenarios
  // ---------------------------------------------------------------------

  /** n = 1: opening the only site fires both anchor unions, so the grid
      percolates with one open site. */
  lemma SingleSitePercolates()
    ensures New(1).Success?
    ensures !Percolates(New(1).value)
    ensures var r := OpenSpec(New(1).value, 1, 1);
      r.Success? && Percolates(r.value) && r.value.numOpen == 1
  {
    NewGrid(1);
    var s := New(1).value;
    OpenAtJoinsAnchors(s, 0, 0);
    OpenAtSites(s, 0, 0);
  }

  /** n = 2: opening (1, 1) opens site 0 and joins it to the top anchor. */
  lemma ColumnFirstStep(s0: State)
    requires s0 == New(2).value
    ensures var s1 := OpenAt(s0, 0, 0);
      Inv(s1) && s1.n == 2 && s1.states[0][0] == Open && Same(s1.labels, Id(2, 0, 0), VirtualTop(2))
  {
    NewGrid(2);
    OpenAtJoinsAnchors(s0, 0, 0);
    OpenAtKeepsInv(s0, 0, 0);
    OpenAtSites(s0, 0, 0);
  }

  /** n = 2, continued: opening (2, 1) joins the first column to both anchors. */
  lemma ColumnSecondStep(s1: State)
    requires Inv(s1) && s1.n == 2 && s1.states[0][0] == Open && Same(s1.labels, Id(2, 0, 0), VirtualTop(2))
    ensures var s2 := OpenAt(s1, 1, 0);
      && Same(s2.labels, Id(2, 0, 0), VirtualTop(2)) && Same(s2.labels, Id(2, 1, 0), VirtualBottom(2))
      && Percolates(s2) && IsFull(s2, 2, 1) == Success(true)
  {
    var s2 := OpenAt(s1, 1, 0);
    OpenAtJoinsAnchors(s1, 1, 0);
    OpenAtJoinsNeighbors(s1, 1, 0);
    OpenAtGrows(s1, 1, 0);
    OpenAtSites(s1, 1, 0);
    assert Same(s2.labels, Id(2, 0, 0), VirtualTop(2));
    assert Same(s2.labels, Id(2, 1, 0), Id(2, 0, 0));
  }

  /** n = 2: opening (1, 1) then (2, 1) opens the whole first column, so
      the grid percolates and (2, 1) is full. */
  lemma ColumnPercolates()
    ensures var s0 := New(2).value;
      var s1 := OpenSpec(s0, 1, 1).value;
      var s2 := OpenSpec(s1, 2, 1).value;
      Percolates(s2) && IsFull(s2, 2, 1) == Success(true)
  {
    var s0 := New(2).value;
    ColumnFirstStep(s0);
    ColumnSecondStep(OpenAt(s0, 0, 0));
  }

  /** n = 2: opening (1, 1) joins site 0 to the top anchor and nothing else. */
  lemma DiagonalFirstStep()
    ensures OpenAt(New(2).value, 0, 0).labels == [5, 1, 2, 3, 4, 5, 6]
  {
    var s0 := New(2).value;
    assert s0.labels == [0, 1, 2, 3, 4, 5, 6];
    var f0 := Flip(s0, 0, 0);
    RelabelAll(f0.labels, 0, 5);
    assert JoinAnchors(f0, 0, 0).labels == [5, 1, 2, 3, 4, 5, 6];
    LinkEachNoop(JoinAnchors(f0, 0, 0), 0, 0, Neighbors(2, 0, 0));
  }

  /** n = 2, continued: opening (2, 2) joins site 3 to the bottom anchor
      only, its two neighbours being blocked. */
  lemma DiagonalSecondStep(s1: State)
    requires s1 == OpenAt(New(2).value, 0, 0)
    ensures OpenAt(s1, 1, 1).labels == [5, 1, 2, 6, 4, 5, 6]
  {
    DiagonalFirstStep();
    OpenAtSites(New(2).value, 0, 0);
    var f1 := Flip(s1, 1, 1);
    RelabelAll(f1.labels, 3, 6);
    assert JoinAnchors(f1, 1, 1).labels == [5, 1, 2, 6, 4, 5, 6];
    LinkEachNoop(JoinAnchors(f1, 1, 1), 1, 1, Neighbors(2, 1, 1));
  }

  /** n = 2: opening the diagonal (1, 1) and (2, 2) leaves two sites that
      are not adjacent, so the grid does not percolate. */
  lemma DiagonalDoesNotPercolate()
    ensures var s0 := New(2).value;
      var s1 := OpenSpec(s0, 1, 1).value;
      var s2 := OpenSpec(s1, 2, 2).value;
      !Percolates(s2)
  {
    var s1 := OpenAt(New(2).value, 0, 0);
    DiagonalSecondStep(s1);
  }
}
