# Percolation grid, modelled in Dafny

A model of the `Percolation` class of the percolation project. The class
keeps an n-by-n grid of sites. Each site is BLOCKED or OPEN, and each has a
row-major id `i * n + j`. Beside the grid it keeps a disjoint-set structure
over the site ids plus two anchors, `VIRTUAL_TOP` (n*n + 1) and
`VIRTUAL_BOTTOM` (n*n + 2), in a universe of n*n + 3 elements.

- `open(row, col)` works on 1-based coordinates. It opens a blocked site and
  counts it, and unites a first-row site with the top anchor and a last-row
  site with the bottom anchor. It then unites the site with each open
  neighbour: up, down, left, right.
- `isOpen` and `isFull` are queries; `isFull` asks whether the site is
  connected to the top anchor.
- `numberOfOpenSites` returns the counter.
- `percolates` asks whether the two anchors are connected.

The project has six modules, one per file:

- `union_find.dfy` (`UnionFind`) models the disjoint-set library. Every
  element carries the label of its class (quick-find). `Merge` is what
  `union` does to the labels. `QuickFindUF` is the mutable object, and its
  `Find`, `Connected` and `Union` are proved against `Same` and `Merge`.
- `percolation_spec.dfy` (`PercolationSpec`) holds the grid as a value
  `State`: the site states, the labels and the counter. Each public
  operation is a function of that value (`New`, `OpenSpec`, `IsOpen`,
  `IsFull`, `Percolates`). `Inv` is the invariant of every reachable grid:
  - the counter equals the number of OPEN cells;
  - every blocked site is alone in its class;
  - the open sites of the first and last rows are joined to their anchors;
  - each class has one representative.
- `percolation_properties.dfy` (`PercolationProperties`) proves what the
  grid promises about those functions: the constructor, the effect of
  `open`, the invariant, idempotence, monotonicity over any sequence of
  calls, and small scenarios.
- `percolation.dfy` (`Percolation`) is the class itself. It holds an
  `array2<Site>`, the counter field and the union-find object. Every method
  states its result or new state through `Model()`, the `State` the object
  stands for. The constructor fills the grid with nested loops.
- `percolation_paths.dfy` (`PercolationPaths`) gives the connectivity its
  meaning on the grid. It builds the graph of open sites and anchors, and
  proves that the classes of every reachable grid are exactly its
  components. From that it proves that `percolates()` holds exactly when a
  path of open sites runs from the first row to the last, and that a site
  such a path reaches from the first row is full. It also proves that the
  converse fails (backwash, see "## Findings").
- `percolation_fix.dfy` (`PercolationFix`) is the corrected grid. It keeps
  a second union-find that receives every union except the one with the
  bottom anchor, and `isFull` asks that one. Its `isFull` answers true
  exactly for the sites reached from the first row through open sites. The
  class in `percolation.dfy` still follows the Java code as written.

The anchors are at n*n + 1 and n*n + 2 in a universe of n*n + 3 elements
(src/Percolation.java:30-32). Slot n*n is unused.

## Model

| member | source | states |
|---|---|---|
| `UnionFind.Singletons` | src/Percolation.java:30 | a fresh union-find universe of n elements has each element in its own class and nothing else connected |
| `UnionFind.MergeCanonical` | src/Percolation.java:50-53 | a union keeps exactly one representative per class |
| `UnionFind.MergeSame` | src/Percolation.java:66-68 | after `union(p, q)` two elements are connected exactly when they were before or one was in p's class and the other in q's; no other pair becomes connected |
| `UnionFind.MergeConnected` | src/Percolation.java:66-68 | uniting two elements already in one class changes nothing |
| `UnionFind.Merge` | src/Percolation.java:67 | after `union(p, q)` the labels keep their number and p and q lie in one class |
| `UnionFind.RelabelAll` | src/Percolation.java:67 | the relabelling that `union` performs, in closed form: every label of p's class becomes q's label, all others stay |
| `UnionFind.QuickFindUF.constructor` | src/Percolation.java:30 | the object starts as n singleton classes |
| `UnionFind.QuickFindUF.Find` | src/Percolation.java:64-65 | `find(p)` returns the representative of p's class |
| `UnionFind.QuickFindUF.Connected` | src/Percolation.java:135 | `connected(p, q)` holds exactly when p and q lie in one class |
| `UnionFind.QuickFindUF.Union` | src/Percolation.java:67 | `union(p, q)` leaves the labels as `Merge` says and keeps them canonical |
| `PercolationSpec.New` | src/Percolation.java:14-33 | the constructor fails with an argument error exactly when n < 0; otherwise the grid is n by n, the universe has n*n + 3 elements and the counter is 0 |
| `PercolationSpec.InBounds` | src/Percolation.java:37 | 1-based coordinates that pass the range check name a site id in [0, n*n) |
| `PercolationSpec.OpenSpec` | src/Percolation.java:35-104 | `open` fails with an argument error exactly out of bounds; otherwise the grid keeps its shape and the site is OPEN |
| `PercolationSpec.IsOpen` | src/Percolation.java:106-115 | `isOpen` fails with an argument error exactly out of bounds |
| `PercolationSpec.IsFull` | src/Percolation.java:117-128 | `isFull` fails with an argument error exactly out of bounds |
| `PercolationSpec.IdRange` | src/Percolation.java:20-27 | the row-major id of a site lies in [0, n*n) |
| `PercolationSpec.IdInjective` | src/Percolation.java:20-27 | two sites never share an id |
| `PercolationSpec.Flip` | src/Percolation.java:47-48 | marking a site OPEN and counting it leaves the connectivity untouched |
| `PercolationSpec.JoinAnchor` | src/Percolation.java:50 | a union with an anchor changes only the connectivity, not the site states or the counter |
| `PercolationSpec.JoinAnchors` | src/Percolation.java:49-54 | the anchor unions change only the connectivity |
| `PercolationSpec.Link` | src/Percolation.java:62-70 | a neighbour block changes only the connectivity |
| `PercolationSpec.Neighbors` | src/Percolation.java:62-103 | the neighbours visited all lie inside the grid |
| `PercolationSpec.LinkEach` | src/Percolation.java:61-103 | the neighbour blocks together change only the connectivity |
| `PercolationSpec.OpenAt` | src/Percolation.java:41-103 | an in-bounds `open` keeps the shape of the grid |
| `PercolationProperties.CountRowUpdate` | src/Percolation.java:47-48 | changing one cell of a row changes the row's OPEN count by the difference of the two cells |
| `PercolationProperties.CountOpenUpdate` | src/Percolation.java:47-48 | replacing one row changes the grid's OPEN count by the difference of the two rows' counts |
| `PercolationProperties.CountAfterOpen` | src/Percolation.java:46-48 | opening a cell adds one to the number of OPEN cells exactly when it was blocked |
| `PercolationProperties.CountRowBound` | src/Percolation.java:130-132 | a row has at most as many OPEN cells as cells, and none when all are blocked |
| `PercolationProperties.CountOpenBound` | src/Percolation.java:130-132 | an n-wide grid has at most rows * n OPEN cells, and none when all are blocked |
| `PercolationProperties.CounterInRange` | src/Percolation.java:130-132 | in every reachable grid `numberOfOpenSites()` lies in [0, n*n] |
| `PercolationProperties.SiteIds` | src/Percolation.java:20-32 | site ids are row-major, distinct and inside [0, n*n); the anchors are distinct, above every site id and inside the universe |
| `PercolationProperties.NewGrid` | src/Percolation.java:14-33 | the constructor fails with an argument error exactly when n < 0; otherwise every site is blocked, the counter is 0, the grid does not percolate and the invariant holds |
| `PercolationProperties.MergeKeepsIsolated` | src/Percolation.java:50-67 | a union of two classes that do not hold an isolated element leaves it isolated |
| `PercolationProperties.OpenSiteNotBlocked` | src/Percolation.java:46-103 | an open site and a blocked site are never connected |
| `PercolationProperties.JoinAnchorKeepsIsolated` | src/Percolation.java:50 | a union of the opened site with an anchor keeps every blocked site isolated |
| `PercolationProperties.JoinAnchorsKeepsIsolated` | src/Percolation.java:49-54 | the anchor unions keep every blocked site isolated |
| `PercolationProperties.LinkKeepsIsolated` | src/Percolation.java:62-70 | a neighbour block unites only open sites, so every blocked site stays isolated |
| `PercolationProperties.JoinAnchorsKeepsCanonical` | src/Percolation.java:49-54 | the anchor unions keep one representative per class |
| `PercolationProperties.JoinAnchorsGrows` | src/Percolation.java:49-54 | the anchor unions disconnect nothing |
| `PercolationProperties.JoinAnchorsConnects` | src/Percolation.java:49-54 | after the anchor unions a first-row site is connected to the top anchor and a last-row site to the bottom anchor |
| `PercolationProperties.LinkKeepsCanonical` | src/Percolation.java:62-70 | a neighbour block keeps one representative per class |
| `PercolationProperties.LinkGrows` | src/Percolation.java:62-70 | a neighbour block disconnects nothing |
| `PercolationProperties.LinkConnects` | src/Percolation.java:62-70 | after a neighbour block an open neighbour is connected to the site |
| `PercolationProperties.LinkNoop` | src/Percolation.java:63-68 | a neighbour block changes nothing when the neighbour is blocked or already connected |
| `PercolationProperties.NeighborsExact` | src/Percolation.java:61-103 | the visited neighbours are exactly the in-bounds sites adjacent to the site |
| `PercolationProperties.LinkEachAppend` | src/Percolation.java:61-103 | running the neighbour blocks over two lists is running them over the first, then the second |
| `PercolationProperties.LinkEachSnoc` | src/Percolation.java:61-103 | one more neighbour block is one more `Link` |
| `PercolationProperties.LinkEachGrows` | src/Percolation.java:61-103 | the neighbour blocks disconnect nothing |
| `PercolationProperties.LinkEachConnects` | src/Percolation.java:61-103 | after the neighbour blocks the site is connected to every visited neighbour that is open |
| `PercolationProperties.LinkEachKeepsCanonical` | src/Percolation.java:61-103 | the neighbour blocks keep one representative per class |
| `PercolationProperties.LinkEachKeepsIsolated` | src/Percolation.java:61-103 | the neighbour blocks keep every blocked site isolated |
| `PercolationProperties.LinkEachNoop` | src/Percolation.java:61-103 | the neighbour blocks change nothing when the site is already connected to every open neighbour |
| `PercolationProperties.OpenAtSites` | src/Percolation.java:46-48 | after `open` the site is OPEN, every other site keeps its state, and the counter grows by one exactly when the site was blocked |
| `PercolationProperties.OpenAtGrows` | src/Percolation.java:46-103 | `open` disconnects nothing |
| `PercolationProperties.OpenAtJoinsNeighbors` | src/Percolation.java:61-103 | after `open` the site is connected to every in-bounds adjacent site that is open |
| `PercolationProperties.OpenAtJoinsAnchors` | src/Percolation.java:49-54 | after `open` a first-row site is connected to the top anchor and a last-row site to the bottom anchor, whether or not this call opened it |
| `PercolationProperties.RowStaysJoined` | src/Percolation.java:49-54 | a row's open sites stay joined to the anchor when one more site opens and nothing is disconnected |
| `PercolationProperties.OpenAtKeepsIsolated` | src/Percolation.java:46-103 | `open` keeps every blocked site isolated |
| `PercolationProperties.OpenAtKeepsCanonical` | src/Percolation.java:46-103 | `open` keeps one representative per class |
| `PercolationProperties.OpenAtKeepsCounter` | src/Percolation.java:46-48 | `open` keeps the counter equal to the number of OPEN cells |
| `PercolationProperties.OpenAtKeepsAnchors` | src/Percolation.java:49-54 | `open` keeps the open first-row and last-row sites joined to their anchors |
| `PercolationProperties.OpenAtKeepsInv` | src/Percolation.java:35-104 | `open` keeps the invariant of reachable grids |
| `PercolationProperties.OpenIdempotent` | src/Percolation.java:46-103 | opening the same site twice leaves the grid exactly as after the first call |
| `PercolationProperties.OpenCall` | src/Percolation.java:35-104 | `open` fails with an argument error exactly for out-of-bounds coordinates; otherwise the site is open, the counter grows by one exactly when it was blocked, no other site changes and the invariant holds |
| `PercolationProperties.OpenedSite` | src/Percolation.java:41-48 | an in-bounds `open` makes the site answer `isOpen` true, counts it once, and leaves every other site's answer as it was |
| `PercolationProperties.SetOpen` | src/Percolation.java:106-115 | opening one cell changes `isOpen` at that cell only |
| `PercolationProperties.FullImpliesOpen` | src/Percolation.java:117-128 | `isFull` and `isOpen` fail for the same coordinates, and a full site is open |
| `PercolationProperties.BlockedAlone` | src/Percolation.java:110-114 | a site `isOpen` reports blocked is connected to nothing but itself |
| `PercolationProperties.Apply` | src/Percolation.java:35-39 | a call, failed or not, keeps the shape of the grid |
| `PercolationProperties.Run` | src/Percolation.java:35-104 | any sequence of calls keeps the shape of the grid |
| `PercolationProperties.OpenAtMonotone` | src/Percolation.java:46-103 | `open` never lowers the counter, never blocks an open site and disconnects nothing |
| `PercolationProperties.ApplyMonotone` | src/Percolation.java:35-104 | one call, failed or not, keeps the invariant, never lowers the counter, never blocks an open site and disconnects nothing |
| `PercolationProperties.RunMonotone` | src/Percolation.java:134-140 | over any sequence of calls the invariant holds, the counter never decreases, no site is blocked again, nothing is disconnected, and a grid that percolates keeps percolating |
| `PercolationProperties.SingleSitePercolates` | src/Percolation.java:49-54 | with n = 1 the new grid does not percolate, and one `open(1, 1)` fires both anchor unions and makes it percolate with one open site |
| `PercolationProperties.ColumnFirstStep` | src/Percolation.java:49-51 | with n = 2, `open(1, 1)` opens site 0 and joins it to the top anchor |
| `PercolationProperties.ColumnSecondStep` | src/Percolation.java:52-70 | with n = 2, after `open(1, 1)`, `open(2, 1)` leaves (1, 1) joined to the top anchor and joins (2, 1) to the bottom anchor, so the grid percolates and (2, 1) is full |
| `PercolationProperties.ColumnPercolates` | src/Percolation.java:117-140 | with n = 2, opening (1, 1) and (2, 1) makes the grid percolate and (2, 1) full |
| `PercolationProperties.DiagonalFirstStep` | src/Percolation.java:49-51 | with n = 2, `open(1, 1)` joins site 0 to the top anchor and to nothing else |
| `PercolationProperties.DiagonalSecondStep` | src/Percolation.java:52-103 | with n = 2, `open(2, 2)` then joins site 3 to the bottom anchor only, its two neighbours being blocked |
| `PercolationProperties.DiagonalDoesNotPercolate` | src/Percolation.java:134-140 | with n = 2, opening the diagonal (1, 1), (2, 2) does not make the grid percolate |
| `Percolation.Percolation.BlockedGrid` | src/Percolation.java:19-28 | the nested loops leave every site blocked with id i * n + j |
| `Percolation.Percolation.constructor` | src/Percolation.java:19-32 | the new object stands for the initial grid and satisfies the invariant |
| `Percolation.Percolation.Create` | src/Percolation.java:14-33 | construction fails with an argument error exactly when n < 0, and otherwise gives a fresh object, with fresh arrays, standing for the initial grid |
| `Percolation.Percolation.IsOpen` | src/Percolation.java:106-115 | the answer is the one `IsOpen` gives for the object's grid |
| `Percolation.Percolation.IsFull` | src/Percolation.java:117-128 | `connected(find(id), VIRTUAL_TOP)` answers whether the site is in the top anchor's class |
| `Percolation.Percolation.NumberOfOpenSites` | src/Percolation.java:130-132 | the counter equals the number of OPEN cells and lies in [0, n*n] |
| `Percolation.Percolation.Percolates` | src/Percolation.java:134-140 | the answer is whether the two anchors lie in one class |
| `Percolation.Percolation.MarkOpen` | src/Percolation.java:47-48 | the in-place update opens exactly one cell and counts it |
| `Percolation.Percolation.UnionWithAnchor` | src/Percolation.java:50 | `union(find(id), anchor)` unites the site's class with the anchor's |
| `Percolation.Percolation.JoinAnchorUnions` | src/Percolation.java:49-54 | the two guarded anchor unions move the object as `JoinAnchors` says |
| `Percolation.Percolation.LinkNeighbor` | src/Percolation.java:62-70 | one neighbour block (`find`, `find`, `connected`, `union`) moves the object as `Link` says |
| `Percolation.Percolation.LinkVertical` | src/Percolation.java:61-81 | the up and down blocks run `Link` for each in-bounds vertical neighbour, in order |
| `Percolation.Percolation.LinkHorizontal` | src/Percolation.java:83-103 | the left and right blocks run `Link` for each in-bounds horizontal neighbour, in order |
| `Percolation.Percolation.LinkNeighbors` | src/Percolation.java:61-103 | the four neighbour blocks move the object as `LinkEach` over `Neighbors` says |
| `Percolation.Percolation.Open` | src/Percolation.java:35-104 | out of bounds: an argument error and no change; otherwise the object moves exactly as `OpenSpec` says, and the invariant still holds |
| `PercolationPaths.NodeIdInjective` | src/Percolation.java:20-32 | sites and anchors stand for distinct elements of the universe |
| `PercolationPaths.SameIffReach` | src/Percolation.java:66-67 | when classes track the graph, two nodes lie in one class exactly when a walk of links joins them |
| `PercolationPaths.NewTracks` | src/Percolation.java:30 | the singleton classes of a new grid are the components of its graph, which has no links |
| `PercolationPaths.MergeSound` | src/Percolation.java:66-67 | uniting the two ends of a link keeps every class inside one component |
| `PercolationPaths.OpenWith` | src/Percolation.java:44-103 | `open`, with or without the union with the bottom anchor, keeps the shape of the grid |
| `PercolationPaths.OpenWithBottom` | src/Percolation.java:44-103 | with the bottom-anchor union, `OpenWith` is exactly `open` as written |
| `PercolationPaths.OpenWithSites` | src/Percolation.java:46-48 | whichever anchor unions run, `open` opens the site, changes no other site and counts the site once |
| `PercolationPaths.JoinAnchorsWithConnects` | src/Percolation.java:49-54 | the anchor unions join a first-row site to the top anchor, and a last-row site to the bottom anchor when that union runs |
| `PercolationPaths.LinkEachSound` | src/Percolation.java:61-103 | the neighbour unions keep every class inside one component |
| `PercolationPaths.OpenWithSound` | src/Percolation.java:44-103 | `open` keeps every class inside one component of the new graph |
| `PercolationPaths.OpenWithJoinsAnchors` | src/Percolation.java:49-54 | after `open` the opened site is joined to the top anchor when it lies in the first row and, when the bottom union runs, to the bottom anchor when it lies in the last row |
| `PercolationPaths.OpenWithJoined` | src/Percolation.java:44-103 | after `open` the two ends of every link of the new graph lie in one class |
| `PercolationPaths.OpenWithTracks` | src/Percolation.java:44-103 | `open` keeps the classes equal to the components of the graph of open sites |
| `PercolationPaths.OpenAtTracks` | src/Percolation.java:35-104 | `open` as written keeps the classes equal to the components, the bottom anchor included |
| `PercolationPaths.RunTracks` | src/Percolation.java:35-104 | over any sequence of calls the classes stay equal to the components |
| `PercolationPaths.PathWalk` | src/Percolation.java:49-51 | a path of open sites from the first row is a walk from the top anchor |
| `PercolationPaths.WalkFromTop` | src/Percolation.java:49-103 | a walk from the top anchor to a site yields a path of open sites from the first row to it, or, through the bottom anchor, one from the first row to the last |
| `PercolationPaths.PercolatesIffSpans` | src/Percolation.java:134-140 | `percolates()` holds exactly when a path of open sites runs from the first row to the last |
| `PercolationPaths.FilledIsFull` | src/Percolation.java:117-128 | a site reached from the first row through open sites answers `isFull` true |
| `PercolationPaths.ReachableMeaning` | src/Percolation.java:117-140 | in every reachable grid the classes are the components, `percolates()` means a spanning path, and every site reached from the first row is full |
| `PercolationPaths.Enclosed` | src/Percolation.java:61-103 | a site outside the first row whose adjacent sites are all blocked is reached from the first row by no path |
| `PercolationPaths.Backwash` | src/Percolation.java:117-128 | with n = 3, after opening (1, 1), (2, 1), (3, 1) and (3, 3), `isFull(3, 3)` is true though no path of open sites reaches (3, 3) |
| `PercolationFix.FixedNew` | src/Percolation.java:14-33 | the corrected constructor fails exactly when n < 0, and its grid is the grid as written |
| `PercolationFix.FixedOpen` | src/Percolation.java:35-104 | the corrected `open` fails exactly out of bounds, and its grid moves exactly as `open` as written |
| `PercolationFix.FixedApply` | src/Percolation.java:35-39 | one corrected call moves the grid as one call as written |
| `PercolationFix.FixedRun` | src/Percolation.java:35-104 | any sequence of corrected calls moves the grid as the same calls as written |
| `PercolationFix.FixedOpenFill` | src/Percolation.java:44-103 | the second union-find after `open` is `OpenWith` without the bottom-anchor union |
| `PercolationFix.FixedOpenInv` | src/Percolation.java:35-104 | the corrected `open` keeps both universes equal to the components of their graphs |
| `PercolationFix.FixedRunInv` | src/Percolation.java:35-104 | any sequence of corrected calls keeps both universes equal to the components |
| `PercolationFix.FullIffFilled` | src/Percolation.java:117-128 | the corrected `isFull` fails exactly out of bounds, and in bounds answers true exactly when a path of open sites reaches the site from the first row |
| `PercolationFix.FixedMeaning` | src/Percolation.java:117-140 | in every reachable corrected grid `percolates()` means a spanning path and `isFull` means reached from the first row |
| `PercolationFix.NoBackwash` | src/Percolation.java:117-128 | on the backwash calls the corrected `isFull(3, 3)` answers false while the one as written answers true |

## Left out

- `PercolationStats` is not part of this model. It runs a Monte Carlo simulation over random draws, floating-point statistics and square roots.
- `toString` and `main` are not part of this model. They only build debug text and print.
- The disjoint-set library is not part of this model beyond its contract. Its weighting (union by size) changes only the cost of its operations, not the partition it keeps. Its representatives are therefore modelled as quick-find labels. Lemmas that compute concrete labels (`DiagonalFirstStep`, `DiagonalSecondStep`) speak of these labels, not of the library's trees.
- The library's range checks on its arguments are preconditions of `QuickFindUF`'s methods. The grid only ever passes site ids and anchors, which the model proves are in range.
- 32-bit arithmetic is not modelled. `n * n + 3` and the ids are unbounded integers, so the overflow that a very large `n` (above 46340) causes in Java is not captured.
- `Site` is a datatype value stored in the `array2`, and `setState` is an element update. Each `Site` object in the Java code is referenced from one cell only, so no aliasing is lost.
- The thrown `IllegalArgumentException` is modelled as a `Failure` result carrying `InvalidSize` or `OutOfBounds`. Its message text is not modelled.
- The unused slot n*n of the universe is kept, as in the code, but it is not given a meaning.
- `Percolation.Percolation.IsFull` and `PercolationSpec.IsFull` follow the Java code as written, backwash included. The corrected `isFull` is modelled on values only, in `PercolationFix`, and not as a second mutable object.

## Findings

| source | as written | input that shows it | evidently intended | confidence | as-written member | corrected member |
|---|---|---|---|---|---|---|
| src/Percolation.java:117-128 | `isFull` asks the one union-find that also holds `VIRTUAL_BOTTOM`, so once the grid percolates every open last-row site is full ("backwash") | n = 3; `open(1, 1)`, `open(2, 1)`, `open(3, 1)`, `open(3, 3)`; then `isFull(3, 3)` is true although (2, 3) and (3, 2) are blocked | a site is full exactly when a path of open sites reaches it from the first row; `isFull` asks a second union-find that never receives the bottom-anchor union | high; not executed | `PercolationPaths.Backwash` | `PercolationFix.FullIffFilled` |
