/** How the example programs divide a global array among the ranks of a communicator. Each rank
    lists the offsets that it owns, counting from 1. */
module Decomp {

  predicate On(maps: seq<seq<int>>, r: int, k: int) {
    0 <= r < |maps| && 0 <= k < |maps[r]|
  }

  ghost predicate Listed(maps: seq<seq<int>>, o: int) {
    exists r, k :: On(maps, r, k) && maps[r][k] == o
  }

  /** The ranks' lists contain every offset 1..total exactly once, and nothing else. */
  ghost predicate ExactlyOnce(maps: seq<seq<int>>, total: int) {
    && (forall r, k :: On(maps, r, k) ==> 1 <= maps[r][k] <= total)
    && (forall o :: 1 <= o <= total ==> Listed(maps, o))
    && (forall r, k, r', k' ::
          (On(maps, r, k) && On(maps, r', k') && maps[r][k] == maps[r'][k']) ==> r == r' && k == k')
  }

  lemma DivModIs(k: int, w: int, q: int, r: int)
    requires 0 <= r < w && k == q * w + r
    ensures k / w == q && k % w == r
  {
    var d := q - k / w;
    assert d * w == k % w - r;
    assert d >= 1 ==> d * w >= w;
    assert d <= -1 ==> d * w <= -w;
  }

  lemma DivMod(k: int, w: int)
    requires w > 0
    ensures w * (k / w) + k % w == k
  {
  }

  /** Counting on by one in rows of width w. */
  lemma NextInRow(k: nat, w: nat)
    requires w > 0
    ensures if k % w + 1 >= w then (k + 1) / w == k / w + 1 && (k + 1) % w == 0
            else (k + 1) / w == k / w && (k + 1) % w == k % w + 1
  {
    DivMod(k, w);
    if k % w + 1 >= w {
      DivModIs(k + 1, w, k / w + 1, 0);
    } else {
      DivModIs(k + 1, w, k / w, k % w + 1);
    }
  }

  lemma Times(a: int, b: int, c: int)
    requires a <= b && c >= 0
    ensures a * c <= b * c
  {
  }

  /** What a rank owns of n items: a share each, and the last rank takes the rest. */
  function Share(n: nat, ranks: nat): (per: nat)
    requires ranks > 0
    ensures per >= 1 && (n >= ranks ==> per * ranks <= n)
  {
    if n / ranks >= 1 then n / ranks else 1
  }

  function Width(n: nat, ranks: nat, rank: nat): int
    requires rank < ranks
  {
    if rank < ranks - 1 then Share(n, ranks) else n - rank * Share(n, ranks)
  }

  /** The ranks before the last one share evenly: each has as many items as fit that often into all
      of them, or one if there are fewer items than ranks. */
  lemma EvenWidth(n: nat, ranks: nat, rank: nat)
    requires rank < ranks - 1
    ensures n >= ranks ==> Width(n, ranks, rank) * ranks <= n < (Width(n, ranks, rank) + 1) * ranks
    ensures n < ranks ==> Width(n, ranks, rank) == 1
  {
    DivMod(n, ranks);
    var q := n / ranks;
    assert q <= 0 ==> ranks * q <= 0;
    assert (q + 1) * ranks == ranks * q + ranks;
  }

  lemma EvenSize(w: nat, v: nat, n: nat, ranks: nat)
    requires w * ranks <= n < (w + 1) * ranks && v >= 1
    ensures (v * w) * ranks <= v * n < (v * w + v) * ranks
  {
    Scaled(w * ranks, n, v);
    Scaled(n + 1, (w + 1) * ranks, v);
    assert v * (w * ranks) == (v * w) * ranks;
    assert v * ((w + 1) * ranks) == (v * w + v) * ranks by {
      assert (w + 1) * ranks == w * ranks + ranks;
      assert v * (w * ranks + ranks) == v * (w * ranks) + v * ranks;
    }
    assert v * (n + 1) == v * n + v;
  }

  lemma Scaled(a: int, b: int, v: int)
    requires a <= b && v >= 0
    ensures v * a <= v * b
  {
  }

  /** The last rank's share is not negative, and everybody's share fits, exactly if there is at
      most one rank more than there are items. */
  lemma WidthFits(n: nat, ranks: nat, rank: nat)
    requires rank < ranks
    ensures n >= ranks - 1 ==> Width(n, ranks, rank) >= 0 && rank * Share(n, ranks) + Width(n, ranks, rank) <= n
    ensures n < ranks - 1 ==> Width(n, ranks, ranks - 1) < 0
  {
    var per := Share(n, ranks);
    if n >= ranks {
      Times(rank + 1, ranks, per);
    } else {
      assert per == 1;
    }
  }

  /** Item x is in the block of width w that starts after `before` items. */
  predicate Within(x: int, before: int, w: int) {
    before <= x < before + w
  }

  predicate Owns(n: nat, ranks: nat, rank: nat, x: int)
    requires rank < ranks
  {
    Within(x, rank * Share(n, ranks), Width(n, ranks, rank))
  }

  lemma BlockIndex(per: nat, ranks: nat, x: nat) returns (rank: nat)
    requires per > 0 && ranks > 0
    ensures rank < ranks && rank * per <= x && (rank < ranks - 1 ==> x < rank * per + per)
  {
    var q := x / per;
    assert q * per <= x < q * per + per;
    if q < ranks - 1 {
      rank := q;
    } else {
      rank := ranks - 1;
      Times(rank, q, per);
    }
  }

  lemma BlocksApart(per: nat, rank: nat, rank': nat, x: int)
    requires rank < rank' && rank' * per <= x
    ensures x >= rank * per + per
  {
    Times(rank + 1, rank', per);
  }

  /** The item with index x belongs to exactly one rank. */
  lemma Owner(n: nat, ranks: nat, x: nat) returns (rank: nat)
    requires ranks > 0 && x < n
    ensures rank < ranks && Owns(n, ranks, rank, x)
  {
    rank := BlockIndex(Share(n, ranks), ranks, x);
  }

  lemma OneOwner(n: nat, ranks: nat, x: nat, rank: nat, rank': nat)
    requires rank < ranks && rank' < ranks && Owns(n, ranks, rank, x) && Owns(n, ranks, rank', x)
    ensures rank == rank'
  {
    if rank < rank' {
      BlocksApart(Share(n, ranks), rank, rank', x);
    } else if rank' < rank {
      BlocksApart(Share(n, ranks), rank', rank, x);
    }
  }

  /** Longitude columns of a lat x lon grid, row after row. */
  datatype Grid = Grid(nlat: nat, nlon: nat, ranks: nat)

  ghost predicate IsGrid(g: Grid, rank: nat) {
    rank < g.ranks && g.nlat >= 1
  }

  function LocalSize(g: Grid, rank: nat): int
    requires rank < g.ranks
  {
    g.nlat * Width(g.nlon, g.ranks, rank)
  }

  /** The closed form of the k-th offset of a rank. */
  function LonOffset(g: Grid, rank: nat, k: nat): int
    requires rank < g.ranks && Width(g.nlon, g.ranks, rank) > 0
  {
    var w := Width(g.nlon, g.ranks, rank);
    k / w * g.nlon + rank * Share(g.nlon, g.ranks) + k % w + 1
  }

  lemma SizeSign(g: Grid, rank: nat)
    requires IsGrid(g, rank)
    ensures LocalSize(g, rank) > 0 <==> Width(g.nlon, g.ranks, rank) > 0
    ensures LocalSize(g, rank) < 0 <==> Width(g.nlon, g.ranks, rank) < 0
  {
    var w := Width(g.nlon, g.ranks, rank);
    if w > 0 { Times(1, w, g.nlat); }
    if w < 0 { Times(w, -1, g.nlat); }
  }

  function LonMap(g: Grid, rank: nat): (m: seq<int>)
    requires rank < g.ranks
  {
    var w := Width(g.nlon, g.ranks, rank);
    if w <= 0 || LocalSize(g, rank) < 0 then [] else seq(LocalSize(g, rank), k requires 0 <= k => LonOffset(g, rank, k))
  }

  function LonMaps(g: Grid): seq<seq<int>> {
    seq(g.ranks, rank requires 0 <= rank < g.ranks => LonMap(g, rank))
  }

  lemma RowAndColumn(nlat: nat, nlon: nat, before: nat, w: nat, k: nat)
    requires w > 0 && before + w <= nlon && k < nlat * w
    ensures k / w < nlat && Within(before + k % w, before, w)
    ensures
      var o := k / w * nlon + before + k % w + 1;
      1 <= o <= nlat * nlon && (o - 1) / nlon == k / w && (o - 1) % nlon == before + k % w
  {
    var row, col := k / w, before + k % w;
    assert row * w <= k;
    assert row < nlat by {
      if row >= nlat { Times(nlat, row, w); }
    }
    Times(0, row, nlon);
    DivModIs(row * nlon + col, nlon, row, col);
    Times(row + 1, nlat, nlon);
  }

  /** From an offset back to the position on the list of its column's owner. */
  lemma Position(nlat: nat, nlon: nat, before: nat, w: nat, o: int) returns (k: nat)
    requires 1 <= o <= nlat * nlon && nlon > 0 && Within((o - 1) % nlon, before, w)
    ensures k < nlat * w && k / w * nlon + before + k % w + 1 == o
  {
    var row, col := (o - 1) / nlon, (o - 1) % nlon;
    assert row < nlat by {
      assert row * nlon + col == o - 1;
      if row >= nlat { Times(nlat, row, nlon); }
    }
    Times(0, row, w);
    k := row * w + (col - before);
    DivModIs(k, w, row, col - before);
    Times(row + 1, nlat, w);
  }

  /** The column of an offset belongs to the rank that lists it. */
  lemma LonOffsetIs(g: Grid, rank: nat, k: nat)
    requires IsGrid(g, rank) && g.nlon >= g.ranks - 1 && k < LocalSize(g, rank) && Width(g.nlon, g.ranks, rank) > 0
    ensures
      var o := LonOffset(g, rank, k);
      && 1 <= o <= g.nlat * g.nlon && Owns(g.nlon, g.ranks, rank, (o - 1) % g.nlon)
      && k / Width(g.nlon, g.ranks, rank) == (o - 1) / g.nlon
      && k % Width(g.nlon, g.ranks, rank) == (o - 1) % g.nlon - rank * Share(g.nlon, g.ranks)
  {
    WidthFits(g.nlon, g.ranks, rank);
    RowAndColumn(g.nlat, g.nlon, rank * Share(g.nlon, g.ranks), Width(g.nlon, g.ranks, rank), k);
  }

  /** Every offset is on some rank's list. */
  lemma LonCovers(g: Grid, o: int) returns (rank: nat, k: nat)
    requires IsGrid(g, 0) && 1 <= o <= g.nlat * g.nlon
    ensures rank < g.ranks && Width(g.nlon, g.ranks, rank) > 0 && k < LocalSize(g, rank) && LonOffset(g, rank, k) == o
  {
    rank := Owner(g.nlon, g.ranks, (o - 1) % g.nlon);
    k := Position(g.nlat, g.nlon, rank * Share(g.nlon, g.ranks), Width(g.nlon, g.ranks, rank), o);
  }

  lemma LonOnce(g: Grid, rank: nat, k: nat, rank': nat, k': nat)
    requires IsGrid(g, rank) && IsGrid(g, rank') && g.nlon >= g.ranks - 1
    requires Width(g.nlon, g.ranks, rank) > 0 && Width(g.nlon, g.ranks, rank') > 0
    requires k < LocalSize(g, rank) && k' < LocalSize(g, rank') && LonOffset(g, rank, k) == LonOffset(g, rank', k')
    ensures rank == rank' && k == k'
  {
    LonOffsetIs(g, rank, k);
    LonOffsetIs(g, rank', k');
    OneOwner(g.nlon, g.ranks, (LonOffset(g, rank, k) - 1) % g.nlon, rank, rank');
    SameDivMod(k, k', Width(g.nlon, g.ranks, rank));
  }

  lemma SameDivMod(k: nat, k': nat, w: nat)
    requires w > 0 && k / w == k' / w && k % w == k' % w
    ensures k == k'
  {
    assert k == k / w * w + k % w;
  }

  lemma LonOnceAll(g: Grid)
    requires IsGrid(g, 0) && g.nlon >= g.ranks - 1
    ensures ExactlyOnce(LonMaps(g), g.nlat * g.nlon)
  {
    var maps := LonMaps(g);
    assert forall r, k :: On(maps, r, k) ==>
             Width(g.nlon, g.ranks, r) > 0 && k < LocalSize(g, r) && maps[r][k] == LonOffset(g, r, k);
    forall r, k | On(maps, r, k) ensures 1 <= maps[r][k] <= g.nlat * g.nlon {
      LonOffsetIs(g, r, k);
    }
    forall o | 1 <= o <= g.nlat * g.nlon ensures Listed(maps, o) {
      var r, k := LonCovers(g, o);
      assert On(maps, r, k);
    }
    forall r, k, r', k' | On(maps, r, k) && On(maps, r', k') && maps[r][k] == maps[r'][k'] ensures r == r' && k == k' {
      LonOnce(g, r, k, r', k');
    }
  }

  /** With more than one rank too many, the rank that follows the last column lists an offset that
      lies beyond the grid or belongs to the first rank too. */
  lemma LonOverlaps(g: Grid)
    requires g.nlat >= 1 && g.nlon < g.ranks - 1
    ensures !ExactlyOnce(LonMaps(g), g.nlat * g.nlon)
  {
    var maps, r := LonMaps(g), g.nlon;
    assert Share(g.nlon, g.ranks) == 1;
    assert Width(g.nlon, g.ranks, r) == 1 && LocalSize(g, r) == g.nlat;
    assert On(maps, r, 0) && maps[r][0] == g.nlon + 1;
    if g.nlat > 1 && g.nlon > 0 {
      assert LocalSize(g, 0) == g.nlat && LonOffset(g, 0, 1) == g.nlon + 1;
      assert On(maps, 0, 1) && maps[0][1] == g.nlon + 1;
    } else {
      assert g.nlat * g.nlon < g.nlon + 1;
    }
  }

  /** The ranks' lists contain every offset of the grid exactly once if and only if there is at
      most one rank more than there are columns. */
  lemma LonPartition(g: Grid)
    requires g.ranks >= 1 && g.nlat >= 1
    ensures ExactlyOnce(LonMaps(g), g.nlat * g.nlon) <==> g.nlon >= g.ranks - 1
  {
    if g.nlon >= g.ranks - 1 {
      LonOnceAll(g);
    } else {
      LonOverlaps(g);
    }
  }

  /** And only then can every rank make its list: no local size is negative. */
  lemma LonSizes(g: Grid)
    requires g.ranks >= 1 && g.nlat >= 1
    ensures (forall rank :: 0 <= rank < g.ranks ==> LocalSize(g, rank) >= 0) <==> g.nlon >= g.ranks - 1
  {
    if g.nlon >= g.ranks - 1 {
      forall rank | 0 <= rank < g.ranks ensures LocalSize(g, rank) >= 0 {
        WidthFits(g.nlon, g.ranks, rank);
        SizeSign(g, rank);
      }
    } else {
      WidthFits(g.nlon, g.ranks, g.ranks - 1);
      SizeSign(g, g.ranks - 1);
    }
  }

  /** The generator of the columns of one rank. */
  class LonGenerator {
    const rank: nat
    const last: bool
    const nlon: nat
    const per: nat
    var ilat: nat
    var ilon: nat

    constructor (rank: nat, last: bool, nlon: nat, per: nat)
      ensures this.rank == rank && this.last == last && this.nlon == nlon && this.per == per
      ensures ilat == 0 && ilon == 0
    {
      this.rank, this.last, this.nlon, this.per := rank, last, nlon, per;
      ilat, ilon := 0, 0;
    }

    ghost predicate For(g: Grid, rank: nat)
      requires rank < g.ranks
    {
      && this.rank == rank && last == (rank == g.ranks - 1) && nlon == g.nlon && per == Share(g.nlon, g.ranks)
    }

    /** The generator after k calls. */
    ghost predicate After(w: int, k: nat)
      requires w > 0
      reads this
    {
      ilat == k / w && ilon == k % w
    }

    method Next(ghost g: Grid, ghost k: nat) returns (val: int)
      requires rank < g.ranks && For(g, rank) && Width(g.nlon, g.ranks, rank) > 0
      requires After(Width(g.nlon, g.ranks, rank), k)
      modifies this
      ensures val == LonOffset(g, rank, k)
      ensures After(Width(g.nlon, g.ranks, rank), k + 1)
    {
      NextInRow(k, Width(g.nlon, g.ranks, rank));
      val := ilat * nlon + rank * per + ilon + 1;
      ilon := ilon + 1;
      if !last {
        if ilon >= per { ilon := 0; ilat := ilat + 1; }
      } else {
        if ilon >= nlon - rank * per { ilon := 0; ilat := ilat + 1; }
      }
    }
  }

  /** One rank's list, which cannot be made if its local size is negative. */
  method LonDecomp(nlat: nat, nlon: nat, rank: nat, ranks: nat) returns (ok: bool, m: seq<int>)
    requires rank < ranks && nlat >= 1
    ensures ok <==> LocalSize(Grid(nlat, nlon, ranks), rank) >= 0
    ensures ok ==> m == LonMap(Grid(nlat, nlon, ranks), rank)
    ensures rank < ranks - 1 && nlon >= ranks ==> ok && |m| * ranks <= nlat * nlon < (|m| + nlat) * ranks
    ensures rank < ranks - 1 && nlon < ranks ==> ok && |m| == nlat
  {
    var last := rank == ranks - 1;
    var per := if nlon / ranks >= 1 then nlon / ranks else 1;
    var lsz: int := if !last then nlat * per else nlat * (nlon - rank * per);
    ghost var g := Grid(nlat, nlon, ranks);
    m := [];
    SizeSign(g, rank);
    if lsz < 0 { return false, m; }
    var gen := new LonGenerator(rank, last, nlon, per);
    var k := 0;
    while k < lsz
      invariant 0 <= k <= lsz && gen.rank == rank && gen.For(g, rank)
      invariant lsz > 0 ==> gen.After(Width(nlon, ranks, rank), k)
      invariant if lsz > 0 then m == LonMap(g, rank)[..k] else m == []
    {
      var val := gen.Next(g, k);
      m := m + [val];
      k := k + 1;
    }
    ok := true;
    if rank < ranks - 1 {
      LonLength(g, rank);
    }
  }

  lemma LonLength(g: Grid, rank: nat)
    requires IsGrid(g, rank) && rank < g.ranks - 1
    ensures g.nlon >= g.ranks ==>
              |LonMap(g, rank)| * g.ranks <= g.nlat * g.nlon < (|LonMap(g, rank)| + g.nlat) * g.ranks
    ensures g.nlon < g.ranks ==> |LonMap(g, rank)| == g.nlat
  {
    var w := Width(g.nlon, g.ranks, rank);
    EvenWidth(g.nlon, g.ranks, rank);
    SizeSign(g, rank);
    if g.nlon >= g.ranks {
      EvenSize(w, g.nlat, g.nlon, g.ranks);
    }
  }

  const NLEV: nat := 3
  const NCOL_PER_PROC: nat := 4

  /** Levels and columns of a grid with the same number of columns on every rank. */
  function LevGrid(ranks: nat): Grid {
    Grid(NLEV, ranks * NCOL_PER_PROC, ranks)
  }

  /** The column generator of the atmosphere example is the longitude generator on a grid that
      divides evenly, and no rank's list is longer than another's. */
  lemma LevPartition(ranks: nat)
    requires ranks >= 1
    ensures ExactlyOnce(LonMaps(LevGrid(ranks)), 12 * ranks)
    ensures forall rank :: 0 <= rank < ranks ==> |LonMap(LevGrid(ranks), rank)| == 12
    ensures LevGrid(ranks) == Grid(3, 4 * ranks, ranks)
  {
    var g := LevGrid(ranks);
    LonPartition(g);
    LevShare(ranks);
  }

  lemma LevShare(ranks: nat)
    requires ranks >= 1
    ensures Share(ranks * NCOL_PER_PROC, ranks) == NCOL_PER_PROC
    ensures (ranks * NCOL_PER_PROC - (ranks - 1) * NCOL_PER_PROC) == NCOL_PER_PROC
  {
    DivModIs(ranks * NCOL_PER_PROC, ranks, NCOL_PER_PROC, 0);
  }

  method LevDecomp(rank: nat, ranks: nat) returns (m: seq<int>)
    requires rank < ranks
    ensures m == LonMap(LevGrid(ranks), rank)
  {
    var ncol := ranks * NCOL_PER_PROC;
    var last := rank == ranks - 1;
    var lsz: int := NLEV * (if !last then NCOL_PER_PROC else ncol - rank * NCOL_PER_PROC);
    ghost var g := LevGrid(ranks);
    LevShare(ranks);
    var gen := new LonGenerator(rank, last, ncol, NCOL_PER_PROC);
    m := [];
    var k := 0;
    while k < lsz
      invariant 0 <= k <= lsz && gen.rank == rank && gen.For(g, rank)
      invariant gen.After(Width(g.nlon, ranks, rank), k) && m == LonMap(g, rank)[..k]
    {
      var val := gen.Next(g, k);
      m := m + [val];
      k := k + 1;
    }
  }

  /** Edges with their vertical levels, level after level of an edge. */
  datatype Mesh = Mesh(nedges: nat, nvertlevels: nat, ranks: nat)

  function EdgeSize(h: Mesh, rank: nat): int
    requires rank < h.ranks
  {
    h.nvertlevels * Width(h.nedges, h.ranks, rank)
  }

  /** How many offsets come before those of a rank. */
  function EdgeStart(h: Mesh, rank: nat): nat
    requires rank < h.ranks
  {
    rank * (Share(h.nedges, h.ranks) * h.nvertlevels)
  }

  /** A consecutive block of offsets. */
  function EdgeMap(h: Mesh, rank: nat): seq<int>
    requires rank < h.ranks
  {
    if EdgeSize(h, rank) < 0 then [] else seq(EdgeSize(h, rank), k => EdgeStart(h, rank) + k + 1)
  }

  function EdgeMaps(h: Mesh): seq<seq<int>> {
    seq(h.ranks, rank requires 0 <= rank < h.ranks => EdgeMap(h, rank))
  }

  /** The blocks follow one another without gaps, and the last one ends at the end. */
  lemma EdgeBlocks(h: Mesh, rank: nat)
    requires rank < h.ranks && h.nvertlevels >= 1
    ensures rank + 1 < h.ranks ==> EdgeStart(h, rank + 1) == EdgeStart(h, rank) + EdgeSize(h, rank)
    ensures rank + 1 == h.ranks ==> EdgeStart(h, rank) + EdgeSize(h, rank) == h.nedges * h.nvertlevels
    ensures EdgeStart(h, 0) == 0
  {
    var per, v := Share(h.nedges, h.ranks), h.nvertlevels;
    assert (rank + 1) * (per * v) == rank * (per * v) + v * per;
    if rank + 1 == h.ranks {
      assert rank * (per * v) == (rank * per) * v;
      assert v * (h.nedges - rank * per) == h.nedges * v - (rank * per) * v;
    }
  }

  function Upto(n: nat): seq<int> {
    seq(n, i => i + 1)
  }

  function Joined(maps: seq<seq<int>>): seq<int> {
    if maps == [] then [] else Joined(maps[..|maps| - 1]) + maps[|maps| - 1]
  }

  lemma EdgeSizeFits(h: Mesh, rank: nat)
    requires rank < h.ranks && h.nvertlevels >= 1
    ensures h.nedges >= h.ranks - 1 ==> EdgeSize(h, rank) >= 0
    ensures h.nedges < h.ranks - 1 ==> EdgeSize(h, h.ranks - 1) < 0
  {
    WidthFits(h.nedges, h.ranks, rank);
    if h.nedges >= h.ranks - 1 {
      Times(0, Width(h.nedges, h.ranks, rank), h.nvertlevels);
    } else {
      Times(Width(h.nedges, h.ranks, h.ranks - 1), -1, h.nvertlevels);
    }
  }

  lemma {:induction false} EdgesJoined(h: Mesh, n: nat)
    requires 1 <= n <= h.ranks && h.nvertlevels >= 1 && h.nedges >= h.ranks - 1
    ensures EdgeStart(h, n - 1) + EdgeSize(h, n - 1) >= 0
    ensures Joined(EdgeMaps(h)[..n]) == Upto(EdgeStart(h, n - 1) + EdgeSize(h, n - 1))
  {
    EdgeSizeFits(h, n - 1);
    assert EdgeMaps(h)[..n][..n - 1] == EdgeMaps(h)[..n - 1];
    if n > 1 {
      EdgesJoined(h, n - 1);
      EdgeBlocks(h, n - 2);
    } else {
      EdgeBlocks(h, 0);
      assert Joined(EdgeMaps(h)[..0]) == [];
    }
  }

  lemma {:induction false} JoinedLength(maps: seq<seq<int>>, v: nat)
    requires forall i :: 0 <= i < |maps| ==> |maps[i]| == v
    ensures |Joined(maps)| == |maps| * v
  {
    if maps != [] {
      JoinedLength(maps[..|maps| - 1], v);
      assert |maps| * v == (|maps| - 1) * v + v;
    }
  }

  lemma OneEdge(h: Mesh, rank: nat)
    requires h.nedges < h.ranks - 1 && rank < h.ranks - 1
    ensures |EdgeMap(h, rank)| == h.nvertlevels
  {
    assert Share(h.nedges, h.ranks) == 1;
  }

  /** With more than one rank too many, the lists before the last one are too long together. */
  lemma EdgesBefore(h: Mesh, before: seq<seq<int>>)
    requires h.nedges < h.ranks - 1 && before == EdgeMaps(h)[..h.ranks - 1]
    ensures |Joined(before)| == (h.ranks - 1) * h.nvertlevels
  {
    forall i | 0 <= i < |before| ensures |before[i]| == h.nvertlevels {
      OneEdge(h, i);
    }
    JoinedLength(before, h.nvertlevels);
  }

  lemma LongerByOne(maps: seq<seq<int>>, before: seq<seq<int>>)
    requires maps != [] && before == maps[..|maps| - 1]
    ensures |Joined(maps)| >= |Joined(before)|
  {
  }

  lemma MoreThan(a: nat, n: nat, v: nat)
    requires a < n && v >= 1
    ensures n * v > a * v
  {
    Times(a + 1, n, v);
  }

  lemma EdgesOverrun(h: Mesh)
    requires h.nvertlevels >= 1 && h.nedges < h.ranks - 1
    ensures |Joined(EdgeMaps(h))| > h.nedges * h.nvertlevels
  {
    var before := EdgeMaps(h)[..h.ranks - 1];
    EdgesBefore(h, before);
    LongerByOne(EdgeMaps(h), before);
    MoreThan(h.nedges, h.ranks - 1, h.nvertlevels);
  }

  /** One list after another is 1, 2, 3, ... up to the end if and only if there is at most one rank
      more than there are edges. */
  lemma EdgePartition(h: Mesh)
    requires h.ranks >= 1 && h.nvertlevels >= 1
    ensures Joined(EdgeMaps(h)) == Upto(h.nedges * h.nvertlevels) <==> h.nedges >= h.ranks - 1
  {
    if h.nedges >= h.ranks - 1 {
      EdgesJoined(h, h.ranks);
      EdgeBlocks(h, h.ranks - 1);
      assert EdgeMaps(h)[..h.ranks] == EdgeMaps(h);
    } else {
      EdgesOverrun(h);
    }
  }

  /** And only then can every rank make its list. */
  lemma EdgeSizes(h: Mesh)
    requires h.ranks >= 1 && h.nvertlevels >= 1
    ensures (forall rank :: 0 <= rank < h.ranks ==> EdgeSize(h, rank) >= 0) <==> h.nedges >= h.ranks - 1
  {
    if h.nedges >= h.ranks - 1 {
      forall rank | 0 <= rank < h.ranks ensures EdgeSize(h, rank) >= 0 {
        EdgeSizeFits(h, rank);
      }
    } else {
      EdgeSizeFits(h, h.ranks - 1);
    }
  }

  /** The generator of the edges of one rank. It starts over at a bound that the rank's own list
      does not reach before its end. */
  class EdgeGenerator {
    const rank: nat
    const last: bool
    const nedges: nat
    const per: nat
    const nvertlevels: nat
    var idx: nat

    constructor (rank: nat, last: bool, nedges: nat, per: nat, nvertlevels: nat)
      ensures this.rank == rank && this.last == last && this.nedges == nedges && this.per == per
      ensures this.nvertlevels == nvertlevels && idx == 0
    {
      this.rank, this.last, this.nedges, this.per, this.nvertlevels := rank, last, nedges, per, nvertlevels;
      idx := 0;
    }

    function Bound(): int {
      if !last then (rank + 1) * per * nvertlevels else (nedges - rank * per) * nvertlevels
    }

    function Start(): int {
      rank * (per * nvertlevels)
    }

    method Next() returns (val: int)
      modifies this
      ensures val == Start() + old(idx) + 1
      ensures idx == if old(idx) + 1 >= Bound() then 0 else old(idx) + 1
    {
      val := rank * (per * nvertlevels) + idx + 1;
      idx := idx + 1;
      if !last {
        if idx >= (rank + 1) * per * nvertlevels { idx := 0; }
      } else {
        if idx >= (nedges - rank * per) * nvertlevels { idx := 0; }
      }
    }
  }

  lemma NonNegative(h: Mesh, rank: nat)
    requires rank < h.ranks
    ensures rank < h.ranks - 1 ==> EdgeSize(h, rank) >= 0
  {
    if rank < h.ranks - 1 {
      Times(0, Share(h.nedges, h.ranks), h.nvertlevels);
    }
  }

  /** The bound at which a rank's generator starts over. */
  function EdgeBound(h: Mesh, rank: nat): int
    requires rank < h.ranks
  {
    var per := Share(h.nedges, h.ranks);
    if rank < h.ranks - 1 then (rank + 1) * per * h.nvertlevels else (h.nedges - rank * per) * h.nvertlevels
  }

  /** No generator starts over within its own list; afterwards only the first and the last rank's
      are at their bound, so the others would run on into their neighbours' offsets. */
  lemma NoWrap(h: Mesh, rank: nat)
    requires rank < h.ranks && h.nvertlevels >= 1
    ensures EdgeBound(h, rank) >= EdgeSize(h, rank)
    ensures EdgeBound(h, rank) == EdgeSize(h, rank) <==> rank == 0 || rank == h.ranks - 1
  {
    if rank < h.ranks - 1 {
      AboveOne(rank, Share(h.nedges, h.ranks), h.nvertlevels);
    }
  }

  lemma AboveOne(rank: nat, per: nat, v: nat)
    requires per > 0 && v > 0
    ensures (rank + 1) * per * v >= v * per
    ensures (rank + 1) * per * v == v * per <==> rank == 0
  {
    var before := rank * per;
    assert (rank + 1) * per == before + per;
    assert (before + per) * v == before * v + per * v;
    Times(1, per, v);
    if rank > 0 {
      Times(1, rank, per);
      Times(per, before, v);
    }
  }

  method EdgeDecomp(nedges: nat, nvertlevels: nat, rank: nat, ranks: nat) returns (ok: bool, m: seq<int>)
    requires rank < ranks && nvertlevels >= 1
    ensures ok <==> EdgeSize(Mesh(nedges, nvertlevels, ranks), rank) >= 0
    ensures ok ==> m == EdgeMap(Mesh(nedges, nvertlevels, ranks), rank)
    ensures rank < ranks - 1 && nedges >= ranks ==>
              ok && |m| * ranks <= nvertlevels * nedges < (|m| + nvertlevels) * ranks
    ensures rank < ranks - 1 && nedges < ranks ==> ok && |m| == nvertlevels
  {
    var last := rank == ranks - 1;
    var per := if nedges / ranks >= 1 then nedges / ranks else 1;
    var lsz: int := nvertlevels * (if !last then per else nedges - rank * per);
    ghost var h := Mesh(nedges, nvertlevels, ranks);
    m := [];
    if lsz < 0 {
      NonNegative(h, rank);
      return false, m;
    }
    NoWrap(h, rank);
    var gen := new EdgeGenerator(rank, last, nedges, per, nvertlevels);
    assert gen.Bound() == EdgeBound(h, rank) && gen.Start() == EdgeStart(h, rank);
    ghost var start, bound := EdgeStart(h, rank), EdgeBound(h, rank);
    var k := 0;
    while k < lsz
      invariant 0 <= k <= lsz && gen.Start() == start && gen.Bound() == bound
      invariant k < lsz ==> gen.idx == k
      invariant m == EdgeMap(h, rank)[..k]
    {
      var val := gen.Next();
      m := m + [val];
      k := k + 1;
    }
    ok := true;
    if rank < ranks - 1 {
      EdgeLength(h, rank);
    }
  }

  lemma EdgeLength(h: Mesh, rank: nat)
    requires rank < h.ranks - 1 && h.nvertlevels >= 1
    ensures h.nedges >= h.ranks ==>
              |EdgeMap(h, rank)| * h.ranks <= h.nvertlevels * h.nedges < (|EdgeMap(h, rank)| + h.nvertlevels) * h.ranks
    ensures h.nedges < h.ranks ==> |EdgeMap(h, rank)| == h.nvertlevels
  {
    var w := Width(h.nedges, h.ranks, rank);
    EvenWidth(h.nedges, h.ranks, rank);
    if h.nedges >= h.ranks {
      EvenSize(w, h.nvertlevels, h.nedges, h.ranks);
    }
  }

  /** A rank's start and count in a balanced distribution of `length` elements. */
  method StartCount(length: nat, rank: nat, ranks: nat) returns (start: nat, count: nat)
    requires rank < ranks
    ensures start == BlockStart(length, ranks, rank)
    ensures count == BlockStart(length, ranks, rank + 1) - BlockStart(length, ranks, rank)
  {
    BlocksGrow(length, ranks, rank);
    count := length / ranks;
    if rank < length % ranks {
      count := count + 1;
      start := rank * count;
    } else {
      start := rank * count + length % ranks;
    }
  }

  /** Where a rank's block starts; the rank after the last one would start at the end. */
  function BlockStart(length: nat, ranks: nat, rank: nat): nat
    requires 0 < ranks && rank <= ranks
  {
    rank * (length / ranks) + if rank < length % ranks then rank else length % ranks
  }

  lemma BlocksGrow(length: nat, ranks: nat, rank: nat)
    requires rank < ranks
    ensures BlockStart(length, ranks, rank + 1) - BlockStart(length, ranks, rank)
            == length / ranks + if rank < length % ranks then 1 else 0
  {
    assert (rank + 1) * (length / ranks) == rank * (length / ranks) + length / ranks;
  }

  function BlockCount(length: nat, ranks: nat, rank: nat): int
    requires rank < ranks
  {
    BlockStart(length, ranks, rank + 1) - BlockStart(length, ranks, rank)
  }

  lemma StartsGrow(q: nat, rem: nat, a: nat, b: nat)
    requires a <= b
    ensures a * q + (if a < rem then a else rem) <= b * q + if b < rem then b else rem
  {
    Times(a, b, q);
  }

  /** The blocks tile the elements in rank order: the first starts at 0, each ends where the next
      one starts, and the last ends at the end. */
  lemma BlocksTile(length: nat, ranks: nat, rank: nat)
    requires rank < ranks
    ensures BlockStart(length, ranks, 0) == 0 && BlockStart(length, ranks, ranks) == length
    ensures BlockStart(length, ranks, rank + 1) == BlockStart(length, ranks, rank) + BlockCount(length, ranks, rank)
    ensures BlockCount(length, ranks, rank) >= 0
  {
    BlocksGrow(length, ranks, rank);
    DivMod(length, ranks);
  }

  /** Larger blocks come first, and sizes differ by at most one. */
  lemma BlocksBalanced(length: nat, ranks: nat, rank: nat, rank': nat)
    requires rank <= rank' < ranks
    ensures BlockCount(length, ranks, rank') <= BlockCount(length, ranks, rank) <= BlockCount(length, ranks, rank') + 1
  {
    BlocksGrow(length, ranks, rank);
    BlocksGrow(length, ranks, rank');
  }

  lemma BlocksInOrder(length: nat, ranks: nat, rank: nat, rank': nat)
    requires rank < rank' <= ranks
    ensures BlockStart(length, ranks, rank + 1) <= BlockStart(length, ranks, rank')
  {
    StartsGrow(length / ranks, length % ranks, rank + 1, rank');
  }

  /** Every element is in exactly one block. */
  lemma {:induction false} BlockOf(length: nat, ranks: nat, x: nat, n: nat) returns (rank: nat)
    requires 0 < n <= ranks && x < BlockStart(length, ranks, n)
    ensures rank < n && BlockStart(length, ranks, rank) <= x < BlockStart(length, ranks, rank + 1)
    ensures forall r :: 0 <= r < ranks && BlockStart(length, ranks, r) <= x < BlockStart(length, ranks, r + 1)
                        ==> r == rank
    decreases n
  {
    if BlockStart(length, ranks, n - 1) <= x {
      rank := n - 1;
      forall r | 0 <= r < ranks && BlockStart(length, ranks, r) <= x < BlockStart(length, ranks, r + 1)
        ensures r == rank
      {
        if r < rank {
          BlocksInOrder(length, ranks, r, rank);
        } else if rank < r {
          BlocksInOrder(length, ranks, rank, r);
        }
      }
    } else {
      if n == 1 { BlocksTile(length, ranks, 0); }
      rank := BlockOf(length, ranks, x, n - 1);
    }
  }
}
