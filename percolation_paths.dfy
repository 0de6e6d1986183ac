/** What the answers of `isFull` and `percolates` mean on the grid itself.
    The grid is read as a graph whose nodes are the sites and the two
    anchors: two open sites that share an edge are linked, an open site of
    the first row is linked to the top anchor and, when `bottom` holds, an
    open site of the last row is linked to the bottom anchor. In every
    reachable grid the union-find classes are exactly the connected
    components of that graph. Hence `percolates` holds exactly when a path
    of open sites runs from the first row to the last, and a site reached
    from the first row through open sites is full. The converse fails:
    `Backwash` exhibits a full site that no such path reaches. */
module PercolationPaths {
  import opened UnionFind
  import opened PercolationSpec
  import opened PercolationProperties

  // ---------------------------------------------------------------------
  // The grid graph
  // ---------------------------------------------------------------------

  datatype Node = Cell(i: nat, j: nat) | Top | Bottom

  predicate ValidNode(n: nat, u: Node) {
    u.Cell? ==> u.i < n && u.j < n
  }

  /** The element of the union-find universe that stands for a node. */
  function NodeId(n: nat, u: Node): (id: int)
    ensures ValidNode(n, u) ==> 0 <= id < UniverseSize(n)
    ensures ValidNode(n, u) && u.Cell? ==> id < n * n
  {
    match u
    case Cell(i, j) =>
      if i < n && j < n then IdRange(n, i, j); Id(n, i, j) else Id(n, i, j)
    case Top => VirtualTop(n)
    case Bottom => VirtualBottom(n)
  }

  /** Distinct nodes stand for distinct elements. */
  lemma NodeIdInjective(n: nat, u: Node, v: Node)
    requires ValidNode(n, u) && ValidNode(n, v) && NodeId(n, u) == NodeId(n, v)
    ensures u == v
  {
    match (u, v)
    case (Cell(i, j), Cell(k, l)) => IdInjective(n, i, j, k, l);
    case (Cell(i, j), _) =>
    case (_, Cell(k, l)) =>
    case _ =>
  }

  /** The site (i, j) lies in the grid and is OPEN in `g`. */
  ghost predicate OpenCell(n: nat, g: seq<seq<SiteState>>, i: nat, j: nat) {
    i < n && j < n && i < |g| && j < |g[i]| && g[i][j] == Open
  }

  /** The links of the graph of `g`. */
  ghost predicate Edge(n: nat, g: seq<seq<SiteState>>, bottom: bool, u: Node, v: Node) {
    match (u, v)
    case (Cell(i, j), Cell(k, l)) => OpenCell(n, g, i, j) && OpenCell(n, g, k, l) && Adjacent(i, j, k, l)
    case (Cell(i, j), Top) => i == 0 && OpenCell(n, g, i, j)
    case (Top, Cell(i, j)) => i == 0 && OpenCell(n, g, i, j)
    case (Cell(i, j), Bottom) => bottom && i + 1 == n && OpenCell(n, g, i, j)
    case (Bottom, Cell(i, j)) => bottom && i + 1 == n && OpenCell(n, g, i, j)
    case _ => false
  }

  /** `w` is a walk of the graph: a sequence of nodes, each linked to the next. */
  ghost predicate Walk(n: nat, g: seq<seq<SiteState>>, bottom: bool, w: seq<Node>) {
    && |w| > 0
    && (forall k :: 0 <= k < |w| ==> ValidNode(n, w[k]))
    && (forall k :: 0 <= k < |w| - 1 ==> Edge(n, g, bottom, w[k], w[k + 1]))
  }

  ghost predicate Reach(n: nat, g: seq<seq<SiteState>>, bottom: bool, u: Node, v: Node) {
    exists w :: Walk(n, g, bottom, w) && w[0] == u && w[|w| - 1] == v
  }

  /** Every site of `g` that is open is open in `h`. */
  ghost predicate OpensMore(n: nat, g: seq<seq<SiteState>>, h: seq<seq<SiteState>>) {
    forall i: nat, j: nat :: OpenCell(n, g, i, j) ==> OpenCell(n, h, i, j)
  }

  lemma ReachRefl(n: nat, g: seq<seq<SiteState>>, bottom: bool, u: Node)
    requires ValidNode(n, u)
    ensures Reach(n, g, bottom, u, u)
  {
    assert Walk(n, g, bottom, [u]);
  }

  lemma ReachEdge(n: nat, g: seq<seq<SiteState>>, bottom: bool, u: Node, v: Node)
    requires Edge(n, g, bottom, u, v)
    ensures Reach(n, g, bottom, u, v) && Reach(n, g, bottom, v, u)
  {
    assert Walk(n, g, bottom, [u, v]);
    assert Walk(n, g, bottom, [v, u]);
  }

  /** Two walks that meet join into one. */
  lemma ReachTrans(n: nat, g: seq<seq<SiteState>>, bottom: bool, u: Node, v: Node, x: Node)
    requires Reach(n, g, bottom, u, v) && Reach(n, g, bottom, v, x)
    ensures Reach(n, g, bottom, u, x)
  {
    var w1 :| Walk(n, g, bottom, w1) && w1[0] == u && w1[|w1| - 1] == v;
    var w2 :| Walk(n, g, bottom, w2) && w2[0] == v && w2[|w2| - 1] == x;
    var w := w1 + w2[1..];
    forall k | 0 <= k < |w|
      ensures ValidNode(n, w[k])
    {
      if k >= |w1| {
        assert w[k] == w2[k - |w1| + 1];
      }
    }
    forall k | 0 <= k < |w| - 1
      ensures Edge(n, g, bottom, w[k], w[k + 1])
    {
      if k < |w1| - 1 {
        assert w[k] == w1[k] && w[k + 1] == w1[k + 1];
      } else {
        var m := k - (|w1| - 1);
        assert w[k] == w2[m] && w[k + 1] == w2[m + 1];
      }
    }
    assert Walk(n, g, bottom, w);
  }

  /** Opening sites only adds links. */
  lemma ReachMono(n: nat, g: seq<seq<SiteState>>, h: seq<seq<SiteState>>, bottom: bool, u: Node, v: Node)
    requires OpensMore(n, g, h) && Reach(n, g, bottom, u, v)
    ensures Reach(n, h, bottom, u, v)
  {
    var w :| Walk(n, g, bottom, w) && w[0] == u && w[|w| - 1] == v;
    forall k | 0 <= k < |w| - 1
      ensures Edge(n, h, bottom, w[k], w[k + 1])
    {
      assert Edge(n, g, bottom, w[k], w[k + 1]);
    }
    assert Walk(n, h, bottom, w);
  }

  // ---------------------------------------------------------------------
  // Classes and components
  // ---------------------------------------------------------------------

  /** Every class lies inside one component. */
  ghost predicate Sound(n: nat, labels: seq<int>, g: seq<seq<SiteState>>, bottom: bool) {
    forall u, v :: ValidNode(n, u) && ValidNode(n, v) && Same(labels, NodeId(n, u), NodeId(n, v)) ==>
      Reach(n, g, bottom, u, v)
  }

  /** The two ends of every link lie in one class. */
  ghost predicate Joined(n: nat, labels: seq<int>, g: seq<seq<SiteState>>, bottom: bool) {
    forall u, v :: Edge(n, g, bottom, u, v) ==> Same(labels, NodeId(n, u), NodeId(n, v))
  }

  /** The classes of `s` are exactly the components of its graph. */
  ghost predicate Tracks(s: State, bottom: bool) {
    Sound(s.n, s.labels, s.states, bottom) && Joined(s.n, s.labels, s.states, bottom)
  }

  /** Along a walk whose links are all joined, the two ends lie in one class. */
  lemma {:induction false} WalkSame(n: nat, labels: seq<int>, g: seq<seq<SiteState>>, bottom: bool, w: seq<Node>)
    requires |labels| == UniverseSize(n) && Joined(n, labels, g, bottom) && Walk(n, g, bottom, w)
    ensures Same(labels, NodeId(n, w[0]), NodeId(n, w[|w| - 1]))
    decreases |w|
  {
    if |w| > 1 {
      var w' := w[..|w| - 1];
      assert Walk(n, g, bottom, w');
      WalkSame(n, labels, g, bottom, w');
      assert Edge(n, g, bottom, w[|w| - 2], w[|w| - 1]);
    }
  }

  /** Where the classes track the graph, two nodes lie in one class exactly
      when a walk joins them. */
  lemma SameIffReach(s: State, bottom: bool, u: Node, v: Node)
    requires WellFormed(s) && Tracks(s, bottom) && ValidNode(s.n, u) && ValidNode(s.n, v)
    ensures Same(s.labels, NodeId(s.n, u), NodeId(s.n, v)) <==> Reach(s.n, s.states, bottom, u, v)
  {
    if Reach(s.n, s.states, bottom, u, v) {
      var w :| Walk(s.n, s.states, bottom, w) && w[0] == u && w[|w| - 1] == v;
      WalkSame(s.n, s.labels, s.states, bottom, w);
    }
  }

  /** The new grid: every class is a singleton and no site is open, so
      there are no links. */
  lemma NewTracks(n: nat, bottom: bool)
    ensures Tracks(New(n).value, bottom)
  {
    var s := New(n).value;
    forall u, v | ValidNode(n, u) && ValidNode(n, v) && Same(s.labels, NodeId(n, u), NodeId(n, v))
      ensures Reach(n, s.states, bottom, u, v)
    {
      NodeIdInjective(n, u, v);
      ReachRefl(n, s.states, bottom, u);
    }
    forall u, v
      ensures !Edge(n, s.states, bottom, u, v)
    {
      if u.Cell? {
        assert !OpenCell(n, s.states, u.i, u.j);
      }
      if v.Cell? {
        assert !OpenCell(n, s.states, v.i, v.j);
      }
    }
  }

  /** A union of the two ends of a link keeps every class inside one
      component. */
  lemma MergeSound(n: nat, labels: seq<int>, g: seq<seq<SiteState>>, bottom: bool, p: Node, q: Node)
    requires |labels| == UniverseSize(n) && Sound(n, labels, g, bottom) && Edge(n, g, bottom, p, q)
    ensures Sound(n, Merge(labels, NodeId(n, p), NodeId(n, q)), g, bottom)
  {
    var x, y := NodeId(n, p), NodeId(n, q);
    MergeSame(labels, x, y);
    ReachEdge(n, g, bottom, p, q);
    forall u, v | ValidNode(n, u) && ValidNode(n, v) && Same(Merge(labels, x, y), NodeId(n, u), NodeId(n, v))
      ensures Reach(n, g, bottom, u, v)
    {
      var a, c := NodeId(n, u), NodeId(n, v);
      if Same(labels, a, c) {
      } else if Same(labels, a, x) && Same(labels, c, y) {
        assert Same(labels, NodeId(n, q), NodeId(n, v));
        ReachTrans(n, g, bottom, u, p, q);
        ReachTrans(n, g, bottom, u, q, v);
      } else {
        assert Same(labels, NodeId(n, p), NodeId(n, v));
        ReachTrans(n, g, bottom, u, q, p);
        ReachTrans(n, g, bottom, u, p, v);
      }
    }
  }

  lemma SoundMono(n: nat, labels: seq<int>, g: seq<seq<SiteState>>, h: seq<seq<SiteState>>, bottom: bool)
    requires Sound(n, labels, g, bottom) && OpensMore(n, g, h)
    ensures Sound(n, labels, h, bottom)
  {
    forall u, v | ValidNode(n, u) && ValidNode(n, v) && Same(labels, NodeId(n, u), NodeId(n, v))
      ensures Reach(n, h, bottom, u, v)
    {
      ReachMono(n, g, h, bottom, u, v);
    }
  }

  // ---------------------------------------------------------------------
  // open, with the bottom union optional
  // ---------------------------------------------------------------------

  /** The anchor unions of `open` for a blocked site; the union with the
      bottom anchor only when `bottom` holds. */
  function JoinAnchorsWith(s: State, gr: nat, gc: nat, bottom: bool): (t: State)
    requires WellFormed(s) && gr < s.n && gc < s.n
    ensures WellFormed(t) && t.n == s.n && t.states == s.states && t.numOpen == s.numOpen
  {
    if bottom then JoinAnchors(s, gr, gc)
    else if gr == 0 then JoinAnchor(s, gr, gc, VirtualTop(s.n))
    else s
  }

  /** `open` on in-bounds 0-based coordinates, with the union with the
      bottom anchor only when `bottom` holds: `OpenWith(s, gr, gc, true)`
      is `OpenAt(s, gr, gc)` (OpenWithBottom); without it, it is the second
      union-find of the corrected grid in module PercolationFix. */
  function OpenWith(s: State, gr: nat, gc: nat, bottom: bool): (t: State)
    requires WellFormed(s) && gr < s.n && gc < s.n
    ensures WellFormed(t) && t.n == s.n
  {
    var s1 := if s.states[gr][gc] == Blocked then JoinAnchorsWith(Flip(s, gr, gc), gr, gc, bottom) else s;
    LinkEach(s1, gr, gc, Neighbors(s.n, gr, gc))
  }

  lemma OpenWithBottom(s: State, gr: nat, gc: nat)
    requires WellFormed(s) && gr < s.n && gc < s.n
    ensures OpenWith(s, gr, gc, true) == OpenAt(s, gr, gc)
  {
  }

  /** Whichever the anchor unions, `open` makes the site OPEN, changes no
      other site and counts the site exactly when it was blocked. */
  lemma OpenWithSites(s: State, gr: nat, gc: nat, bottom: bool)
    requires WellFormed(s) && gr < s.n && gc < s.n
    ensures var t := OpenWith(s, gr, gc, bottom);
      && t.states == s.states[gr := s.states[gr][gc := Open]]
      && t.numOpen == s.numOpen + (if s.states[gr][gc] == Blocked then 1 else 0)
  {
    if s.states[gr][gc] == Open {
      assert s.states[gr][gc := Open] == s.states[gr];
      assert s.states[gr := s.states[gr]] == s.states;
    }
  }

  lemma JoinAnchorsWithGrows(s: State, gr: nat, gc: nat, bottom: bool)
    requires WellFormed(s) && gr < s.n && gc < s.n
    ensures forall x, y :: Same(s.labels, x, y) ==> Same(JoinAnchorsWith(s, gr, gc, bottom).labels, x, y)
  {
    if bottom {
      JoinAnchorsGrows(s, gr, gc);
    } else if gr == 0 {
      IdRange(s.n, gr, gc);
      MergeSame(s.labels, Id(s.n, gr, gc), VirtualTop(s.n));
    }
  }

  lemma JoinAnchorsWithConnects(s: State, gr: nat, gc: nat, bottom: bool)
    requires WellFormed(s) && gr < s.n && gc < s.n
    ensures var t := JoinAnchorsWith(s, gr, gc, bottom);
      && (gr == 0 ==> Same(t.labels, Id(s.n, gr, gc), VirtualTop(s.n)))
      && (bottom && gr == s.n - 1 ==> Same(t.labels, Id(s.n, gr, gc), VirtualBottom(s.n)))
  {
    if bottom {
      JoinAnchorsConnects(s, gr, gc);
    } else if gr == 0 {
      IdRange(s.n, gr, gc);
      MergeSame(s.labels, Id(s.n, gr, gc), VirtualTop(s.n));
    }
  }

  /** The anchor unions of an open site keep every class inside one
      component. */
  lemma JoinAnchorsWithSound(s: State, gr: nat, gc: nat, bottom: bool)
    requires WellFormed(s) && gr < s.n && gc < s.n && s.states[gr][gc] == Open
    requires Sound(s.n, s.labels, s.states, bottom)
    ensures Sound(s.n, JoinAnchorsWith(s, gr, gc, bottom).labels, s.states, bottom)
  {
    var n := s.n;
    var c := Cell(gr, gc);
    var s1 := if gr == 0 then JoinAnchor(s, gr, gc, VirtualTop(n)) else s;
    if gr == 0 {
      assert Edge(n, s.states, bottom, c, Top);
      MergeSound(n, s.labels, s.states, bottom, c, Top);
    }
    if bottom && gr == n - 1 {
      assert Edge(n, s.states, bottom, c, Bottom);
      MergeSound(n, s1.labels, s.states, bottom, c, Bottom);
    }
  }

  /** A neighbour block of an open site keeps every class inside one
      component. */
  lemma LinkSound(s: State, gr: nat, gc: nat, nr: nat, nc: nat, bottom: bool)
    requires WellFormed(s) && gr < s.n && gc < s.n && nr < s.n && nc < s.n
    requires s.states[gr][gc] == Open && Adjacent(gr, gc, nr, nc)
    requires Sound(s.n, s.labels, s.states, bottom)
    ensures Sound(s.n, Link(s, gr, gc, nr, nc).labels, s.states, bottom)
  {
    if s.states[nr][nc] == Open {
      assert Edge(s.n, s.states, bottom, Cell(gr, gc), Cell(nr, nc));
      MergeSound(s.n, s.labels, s.states, bottom, Cell(gr, gc), Cell(nr, nc));
    }
  }

  lemma {:induction false} LinkEachSound(s: State, gr: nat, gc: nat, cells: seq<(nat, nat)>, bottom: bool)
    requires WellFormed(s) && gr < s.n && gc < s.n && InGrid(s.n, cells) && s.states[gr][gc] == Open
    requires forall k :: 0 <= k < |cells| ==> Adjacent(gr, gc, cells[k].0, cells[k].1)
    requires Sound(s.n, s.labels, s.states, bottom)
    ensures Sound(s.n, LinkEach(s, gr, gc, cells).labels, s.states, bottom)
    decreases |cells|
  {
    if cells != [] {
      var s1 := Link(s, gr, gc, cells[0].0, cells[0].1);
      LinkSound(s, gr, gc, cells[0].0, cells[0].1, bottom);
      assert forall k :: 0 <= k < |cells| - 1 ==> cells[1..][k] == cells[k + 1];
      LinkEachSound(s1, gr, gc, cells[1..], bottom);
    }
  }

  /** `open` keeps every class inside one component of the new graph. */
  lemma OpenWithSound(s: State, gr: nat, gc: nat, bottom: bool)
    requires WellFormed(s) && gr < s.n && gc < s.n && Sound(s.n, s.labels, s.states, bottom)
    ensures var t := OpenWith(s, gr, gc, bottom); Sound(t.n, t.labels, t.states, bottom)
  {
    var n := s.n;
    var g := s.states[gr := s.states[gr][gc := Open]];
    OpenWithSites(s, gr, gc, bottom);
    assert OpensMore(n, s.states, g);
    SoundMono(n, s.labels, s.states, g, bottom);
    var s1 := if s.states[gr][gc] == Blocked then JoinAnchorsWith(Flip(s, gr, gc), gr, gc, bottom) else s;
    if s.states[gr][gc] == Blocked {
      JoinAnchorsWithSound(Flip(s, gr, gc), gr, gc, bottom);
    } else {
      assert s.states[gr][gc := Open] == s.states[gr];
      assert g == s.states;
    }
    var cells := Neighbors(n, gr, gc);
    NeighborsExact(n, gr, gc);
    forall k | 0 <= k < |cells|
      ensures Adjacent(gr, gc, cells[k].0, cells[k].1)
    {
      assert cells[k] in cells;
    }
    LinkEachSound(s1, gr, gc, cells, bottom);
  }

  lemma OpenWithGrows(s: State, gr: nat, gc: nat, bottom: bool)
    requires WellFormed(s) && gr < s.n && gc < s.n
    ensures forall x, y :: Same(s.labels, x, y) ==> Same(OpenWith(s, gr, gc, bottom).labels, x, y)
  {
    var s1 := if s.states[gr][gc] == Blocked then JoinAnchorsWith(Flip(s, gr, gc), gr, gc, bottom) else s;
    if s.states[gr][gc] == Blocked {
      JoinAnchorsWithGrows(Flip(s, gr, gc), gr, gc, bottom);
    }
    LinkEachGrows(s1, gr, gc, Neighbors(s.n, gr, gc));
  }

  /** After `open` the site is joined to every open adjacent site. */
  lemma OpenWithJoinsNeighbors(s: State, gr: nat, gc: nat, bottom: bool)
    requires WellFormed(s) && gr < s.n && gc < s.n
    ensures var t := OpenWith(s, gr, gc, bottom);
      forall i: nat, j: nat :: i < s.n && j < s.n && Adjacent(gr, gc, i, j) && t.states[i][j] == Open ==>
        Same(t.labels, Id(s.n, gr, gc), Id(s.n, i, j))
  {
    var s1 := if s.states[gr][gc] == Blocked then JoinAnchorsWith(Flip(s, gr, gc), gr, gc, bottom) else s;
    var cells := Neighbors(s.n, gr, gc);
    var t := OpenWith(s, gr, gc, bottom);
    LinkEachConnects(s1, gr, gc, cells);
    NeighborsExact(s.n, gr, gc);
    forall i: nat, j: nat | i < s.n && j < s.n && Adjacent(gr, gc, i, j) && t.states[i][j] == Open
      ensures Same(t.labels, Id(s.n, gr, gc), Id(s.n, i, j))
    {
      assert (i, j) in cells;
      var k :| 0 <= k < |cells| && cells[k] == (i, j);
    }
  }

  /** After `open` a first-row site is joined to the top anchor and, with
      `bottom`, a last-row site to the bottom anchor, whether or not this
      call opened it. */
  lemma OpenWithJoinsAnchors(s: State, gr: nat, gc: nat, bottom: bool)
    requires WellFormed(s) && gr < s.n && gc < s.n && Joined(s.n, s.labels, s.states, bottom)
    ensures var t := OpenWith(s, gr, gc, bottom);
      && (gr == 0 ==> Same(t.labels, Id(s.n, gr, gc), VirtualTop(s.n)))
      && (bottom && gr == s.n - 1 ==> Same(t.labels, Id(s.n, gr, gc), VirtualBottom(s.n)))
  {
    var n := s.n;
    var s1 := if s.states[gr][gc] == Blocked then JoinAnchorsWith(Flip(s, gr, gc), gr, gc, bottom) else s;
    if s.states[gr][gc] == Blocked {
      JoinAnchorsWithConnects(Flip(s, gr, gc), gr, gc, bottom);
    } else {
      if gr == 0 {
        assert Edge(n, s.states, bottom, Cell(gr, gc), Top);
      }
      if bottom && gr == n - 1 {
        assert Edge(n, s.states, bottom, Cell(gr, gc), Bottom);
      }
    }
    LinkEachGrows(s1, gr, gc, Neighbors(n, gr, gc));
  }

  /** A link of the new graph that does not touch the opened site is a
      link of the old one. */
  lemma EdgeElsewhere(s: State, gr: nat, gc: nat, g: seq<seq<SiteState>>, bottom: bool, u: Node, v: Node)
    requires WellFormed(s) && gr < s.n && gc < s.n && g == s.states[gr := s.states[gr][gc := Open]]
    requires Edge(s.n, g, bottom, u, v) && u != Cell(gr, gc) && v != Cell(gr, gc)
    ensures Edge(s.n, s.states, bottom, u, v)
  {
    forall i: nat, j: nat | (i, j) != (gr, gc) && OpenCell(s.n, g, i, j)
      ensures OpenCell(s.n, s.states, i, j)
    {
      assert g[i][j] == s.states[i][j];
    }
  }

  /** `open` joins the two ends of every link of the new graph. */
  lemma OpenWithJoined(s: State, gr: nat, gc: nat, bottom: bool)
    requires WellFormed(s) && gr < s.n && gc < s.n && Joined(s.n, s.labels, s.states, bottom)
    ensures var t := OpenWith(s, gr, gc, bottom); Joined(t.n, t.labels, t.states, bottom)
  {
    var n := s.n;
    var t := OpenWith(s, gr, gc, bottom);
    var c := Cell(gr, gc);
    OpenWithSites(s, gr, gc, bottom);
    OpenWithGrows(s, gr, gc, bottom);
    OpenWithJoinsNeighbors(s, gr, gc, bottom);
    OpenWithJoinsAnchors(s, gr, gc, bottom);
    forall u, v | Edge(n, t.states, bottom, u, v)
      ensures Same(t.labels, NodeId(n, u), NodeId(n, v))
    {
      if u == c || v == c {
        var o := if u == c then v else u;
        assert Edge(n, t.states, bottom, c, o);
        assert Same(t.labels, NodeId(n, c), NodeId(n, o));
      } else {
        EdgeElsewhere(s, gr, gc, t.states, bottom, u, v);
      }
    }
  }

  /** `open` keeps the classes equal to the components of the graph. */
  lemma OpenWithTracks(s: State, gr: nat, gc: nat, bottom: bool)
    requires WellFormed(s) && gr < s.n && gc < s.n && Tracks(s, bottom)
    ensures Tracks(OpenWith(s, gr, gc, bottom), bottom)
  {
    OpenWithSound(s, gr, gc, bottom);
    OpenWithJoined(s, gr, gc, bottom);
  }

  /** The grid as written: `open` keeps its classes equal to the
      components of its graph with both anchors. */
  lemma OpenAtTracks(s: State, gr: nat, gc: nat)
    requires WellFormed(s) && gr < s.n && gc < s.n && Tracks(s, true)
    ensures Tracks(OpenAt(s, gr, gc), true)
  {
    OpenWithBottom(s, gr, gc);
    OpenWithTracks(s, gr, gc, true);
  }

  lemma {:induction false} RunTracks(s: State, moves: seq<(int, int)>)
    requires WellFormed(s) && Tracks(s, true)
    ensures Tracks(Run(s, moves), true)
    decreases |moves|
  {
    if moves != [] {
      if InBounds(s.n, moves[0].0, moves[0].1) {
        OpenAtTracks(s, moves[0].0 - 1, moves[0].1 - 1);
      }
      RunTracks(Apply(s, moves[0]), moves[1..]);
    }
  }

  // ---------------------------------------------------------------------
  // Paths of open sites
  // ---------------------------------------------------------------------

  /** `p` is a path of open sites, each sharing an edge with the next. */
  ghost predicate OpenPath(n: nat, g: seq<seq<SiteState>>, p: seq<(nat, nat)>) {
    && |p| > 0
    && (forall k :: 0 <= k < |p| ==> OpenCell(n, g, p[k].0, p[k].1))
    && (forall k :: 0 <= k < |p| - 1 ==> Adjacent(p[k].0, p[k].1, p[k + 1].0, p[k + 1].1))
  }

  /** The site (i, j) is reached from the first row through open sites. */
  ghost predicate FilledFromTop(n: nat, g: seq<seq<SiteState>>, i: nat, j: nat) {
    exists p: seq<(nat, nat)> :: OpenPath(n, g, p) && p[0].0 == 0 && p[|p| - 1] == (i, j)
  }

  /** A path of open sites runs from the first row to the last. */
  ghost predicate Spans(n: nat, g: seq<seq<SiteState>>) {
    exists p: seq<(nat, nat)> :: OpenPath(n, g, p) && p[0].0 == 0 && p[|p| - 1].0 == n - 1
  }

  /** A path of open sites from the first row is a walk from the top anchor. */
  lemma PathWalk(n: nat, g: seq<seq<SiteState>>, bottom: bool, p: seq<(nat, nat)>)
    requires OpenPath(n, g, p) && p[0].0 == 0
    ensures Reach(n, g, bottom, Top, Cell(p[|p| - 1].0, p[|p| - 1].1))
  {
    var w := [Top] + seq(|p|, k requires 0 <= k < |p| => Cell(p[k].0, p[k].1));
    forall k | 0 <= k < |w|
      ensures ValidNode(n, w[k])
    {
      if k > 0 {
        assert w[k] == Cell(p[k - 1].0, p[k - 1].1);
      }
    }
    forall k | 0 <= k < |w| - 1
      ensures Edge(n, g, bottom, w[k], w[k + 1])
    {
      assert w[k + 1] == Cell(p[k].0, p[k].1);
      if k > 0 {
        assert w[k] == Cell(p[k - 1].0, p[k - 1].1);
      }
    }
    assert Walk(n, g, bottom, w);
  }

  /** A walk from the top anchor to a site yields a path of open sites from
      the first row to that site, or, when the bottom anchor is linked, a
      path of open sites from the first row to the last. */
  lemma {:induction false} WalkFromTop(n: nat, g: seq<seq<SiteState>>, bottom: bool, w: seq<Node>, i: nat, j: nat)
    requires Walk(n, g, bottom, w) && w[0] == Top && w[|w| - 1] == Cell(i, j)
    ensures FilledFromTop(n, g, i, j) || (bottom && Spans(n, g))
    decreases |w|
  {
    var prev := w[|w| - 2];
    assert Edge(n, g, bottom, prev, Cell(i, j));
    var w' := w[..|w| - 1];
    assert Walk(n, g, bottom, w');
    match prev
    case Top =>
      assert OpenPath(n, g, [(i, j)]);
    case Cell(k, l) =>
      WalkFromTop(n, g, bottom, w', k, l);
      if FilledFromTop(n, g, k, l) {
        var p: seq<(nat, nat)> :| OpenPath(n, g, p) && p[0].0 == 0 && p[|p| - 1] == (k, l);
        var q := p + [(i, j)];
        assert OpenPath(n, g, q);
        assert q[0].0 == 0 && q[|q| - 1] == (i, j);
      }
    case Bottom =>
      var pp := w[|w| - 3];
      assert Edge(n, g, bottom, pp, Bottom);
      var w'' := w[..|w| - 2];
      assert Walk(n, g, bottom, w'');
      WalkFromTop(n, g, bottom, w'', pp.i, pp.j);
      if FilledFromTop(n, g, pp.i, pp.j) {
        var p: seq<(nat, nat)> :| OpenPath(n, g, p) && p[0].0 == 0 && p[|p| - 1] == (pp.i, pp.j);
        assert p[|p| - 1].0 == n - 1;
      }
  }

  // ---------------------------------------------------------------------
  // What percolates and isFull answer
  // ---------------------------------------------------------------------

  /** `percolates()` holds exactly when a path of open sites runs from the
      first row to the last. */
  lemma PercolatesIffSpans(s: State)
    requires WellFormed(s) && Tracks(s, true)
    ensures Percolates(s) <==> Spans(s.n, s.states)
  {
    var n := s.n;
    if Percolates(s) {
      assert Same(s.labels, NodeId(n, Top), NodeId(n, Bottom));
      var w :| Walk(n, s.states, true, w) && w[0] == Top && w[|w| - 1] == Bottom;
      var prev := w[|w| - 2];
      assert Edge(n, s.states, true, prev, Bottom);
      var w' := w[..|w| - 1];
      assert Walk(n, s.states, true, w');
      WalkFromTop(n, s.states, true, w', prev.i, prev.j);
      if FilledFromTop(n, s.states, prev.i, prev.j) {
        var p: seq<(nat, nat)> :| OpenPath(n, s.states, p) && p[0].0 == 0 && p[|p| - 1] == (prev.i, prev.j);
        assert p[|p| - 1].0 == n - 1;
      }
    }
    if Spans(n, s.states) {
      var p: seq<(nat, nat)> :| OpenPath(n, s.states, p) && p[0].0 == 0 && p[|p| - 1].0 == n - 1;
      var last := Cell(p[|p| - 1].0, p[|p| - 1].1);
      PathWalk(n, s.states, true, p);
      assert Edge(n, s.states, true, last, Bottom);
      ReachEdge(n, s.states, true, last, Bottom);
      ReachTrans(n, s.states, true, Top, last, Bottom);
      SameIffReach(s, true, Top, Bottom);
    }
  }

  /** A site reached from the first row through open sites answers
      `isFull` true. */
  lemma FilledIsFull(s: State, row: int, col: int)
    requires WellFormed(s) && Tracks(s, true) && InBounds(s.n, row, col)
    requires FilledFromTop(s.n, s.states, row - 1, col - 1)
    ensures IsFull(s, row, col) == Success(true)
  {
    var n := s.n;
    var p: seq<(nat, nat)> :| OpenPath(n, s.states, p) && p[0].0 == 0 && p[|p| - 1] == (row - 1, col - 1);
    PathWalk(n, s.states, true, p);
    SameIffReach(s, true, Top, Cell(row - 1, col - 1));
  }

  /** Every grid the calls can reach: its classes are the components of its
      graph, `percolates()` holds exactly when a path of open sites spans
      the rows, and a site that such a path reaches from the first row is
      full. */
  lemma ReachableMeaning(n: nat, moves: seq<(int, int)>)
    ensures var t := Run(New(n).value, moves);
      && Tracks(t, true)
      && (Percolates(t) <==> Spans(n, t.states))
      && forall row, col :: InBounds(n, row, col) && FilledFromTop(n, t.states, row - 1, col - 1) ==>
           IsFull(t, row, col) == Success(true)
  {
    var s := New(n).value;
    var t := Run(s, moves);
    NewTracks(n, true);
    RunTracks(s, moves);
    PercolatesIffSpans(t);
    forall row, col | InBounds(n, row, col) && FilledFromTop(n, t.states, row - 1, col - 1)
      ensures IsFull(t, row, col) == Success(true)
    {
      FilledIsFull(t, row, col);
    }
  }

  /** A site outside the first row whose adjacent sites are all blocked is
      reached from the first row by no path of open sites. */
  lemma Enclosed(n: nat, g: seq<seq<SiteState>>, i: nat, j: nat)
    requires i > 0
    requires forall k: nat, l: nat :: Adjacent(k, l, i, j) ==> !OpenCell(n, g, k, l)
    ensures !FilledFromTop(n, g, i, j)
  {
    if FilledFromTop(n, g, i, j) {
      var p: seq<(nat, nat)> :| OpenPath(n, g, p) && p[0].0 == 0 && p[|p| - 1] == (i, j);
      LastStep(n, g, p);
      assert false;
    }
  }

  /** A path of more than one site enters its last site from an open
      adjacent one. */
  lemma LastStep(n: nat, g: seq<seq<SiteState>>, p: seq<(nat, nat)>)
    requires OpenPath(n, g, p)
    ensures |p| > 1 ==> OpenCell(n, g, p[|p| - 2].0, p[|p| - 2].1)
    ensures |p| > 1 ==> Adjacent(p[|p| - 2].0, p[|p| - 2].1, p[|p| - 1].0, p[|p| - 1].1)
  {
  }

  /** `isFull` as written answers through the top anchor in the union-find
      that also holds the bottom anchor, so once the grid percolates every
      open last-row site is full ("backwash"). With n = 3, after open(1, 1),
      open(2, 1), open(3, 1) and open(3, 3), site (3, 3) is full although
      its neighbours (2, 3) and (3, 2) are blocked and no path of open
      sites reaches it from the first row. */
  lemma Backwash(s0: State, s1: State, s2: State, s3: State, s4: State)
    requires s0 == New(3).value
    requires s1 == OpenAt(s0, 0, 0) && s2 == OpenAt(s1, 1, 0)
    requires s3 == OpenAt(s2, 2, 0) && s4 == OpenAt(s3, 2, 2)
    ensures IsFull(s4, 3, 3) == Success(true)
    ensures !FilledFromTop(3, s4.states, 2, 2)
  {
    NewGrid(3);
    OpenAtKeepsInv(s0, 0, 0);
    OpenAtKeepsInv(s1, 1, 0);
    OpenAtKeepsInv(s2, 2, 0);
    OpenAtSites(s0, 0, 0);
    OpenAtSites(s1, 1, 0);
    OpenAtSites(s2, 2, 0);
    OpenAtSites(s3, 2, 2);
    OpenAtJoinsAnchors(s0, 0, 0);
    OpenAtGrows(s1, 1, 0);
    OpenAtJoinsNeighbors(s1, 1, 0);
    OpenAtGrows(s2, 2, 0);
    OpenAtJoinsNeighbors(s2, 2, 0);
    OpenAtJoinsAnchors(s2, 2, 0);
    OpenAtGrows(s3, 2, 2);
    OpenAtJoinsAnchors(s3, 2, 2);
    assert Same(s2.labels, Id(3, 0, 0), VirtualTop(3));
    assert Same(s2.labels, Id(3, 1, 0), Id(3, 0, 0));
    assert Same(s3.labels, Id(3, 2, 0), Id(3, 1, 0));
    assert Same(s3.labels, Id(3, 2, 0), VirtualBottom(3));
    assert Same(s3.labels, VirtualBottom(3), VirtualTop(3));
    assert Same(s4.labels, Id(3, 2, 2), VirtualTop(3));
    assert s4.states[1][2] == Blocked && s4.states[2][1] == Blocked;
    forall k: nat, l: nat | Adjacent(k, l, 2, 2)
      ensures !OpenCell(3, s4.states, k, l)
    {
    }
    Enclosed(3, s4.states, 2, 2);
  }
}
