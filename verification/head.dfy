/** The detection head (`YOLOLayer`): its derived counts, its grid cache
    and the reshaping of a prediction map. Tensors are nested lists indexed
    [batch][channel][y][x] on the way in; the element type is left open
    and the element-wise decoding of inference mode is a parameter. */
module Head {

  import opened Common
  import opened Records
  import opened Units

  /** `g` has dimensions d0 x d1. */
  predicate Shaped2<V>(g: seq<seq<V>>, d0: nat, d1: nat) {
    |g| == d0 && forall i :: 0 <= i < d0 ==> |g[i]| == d1
  }

  predicate Shaped3<V>(m: seq<seq<seq<V>>>, d0: nat, d1: nat, d2: nat) {
    |m| == d0 && forall i :: 0 <= i < d0 ==> Shaped2(m[i], d1, d2)
  }

  predicate Shaped4<V>(t: seq<seq<seq<seq<V>>>>, d0: nat, d1: nat, d2: nat, d3: nat) {
    |t| == d0 && forall i :: 0 <= i < d0 ==> Shaped3(t[i], d1, d2, d3)
  }

  predicate Shaped5<V>(p: seq<seq<seq<seq<seq<V>>>>>, d0: nat, d1: nat, d2: nat, d3: nat, d4: nat) {
    |p| == d0 && forall i :: 0 <= i < d0 ==> Shaped4(p[i], d1, d2, d3, d4)
  }

  /** Channel `a*no + k` of a map with `no` channels per anchor is output
      `k` of anchor `a`. */
  lemma ChannelSplit(a: nat, k: nat, no: nat)
    requires k < no
    ensures (a * no + k) / no == a && (a * no + k) % no == k
  {
    var c := a * no + k;
    var q, m := c / no, c % no;
    assert c == q * no + m;
    MulMono(q + 1, a, no);
    MulMono(a + 1, q, no);
    assert (q + 1) * no == q * no + no;
    assert (a + 1) * no == a * no + no;
  }

  /** A position below `n * w` splits into a block below `n` and an offset
      below `w`. */
  lemma ChannelBound(c: nat, n: nat, w: nat)
    requires c < n * w
    ensures w > 0 && c / w < n && c == (c / w) * w + c % w && c % w < w
  {
    MulMono(n, 0, w);
    assert w != 0;
    MulMono(n, c / w, w);
  }

  lemma ChannelIndex(a: nat, k: nat, na: nat, no: nat)
    requires a < na && k < no
    ensures a * no + k < na * no
  {
    MulMono(a + 1, na, no);
    assert (a + 1) * no == a * no + no;
  }

  /** The `no` channels of anchor `a` in one batch entry `m`, indexed
      [channel][y][x]. */
  function AnchorChannels<V>(m: seq<seq<seq<V>>>, na: nat, no: nat, ny: nat, nx: nat, a: nat)
    : (r: seq<seq<seq<V>>>)
    requires Shaped3(m, na * no, ny, nx) && a < na
    ensures Shaped3(r, no, ny, nx)
    ensures forall k :: 0 <= k < no ==> a * no + k < na * no && r[k] == m[a * no + k]
  {
    MulMono(a + 1, na, no);
    assert (a + 1) * no == a * no + no;
    m[a * no .. a * no + no]
  }

  /** The outputs at (y, x) of one anchor's channels. */
  function Cell<V>(chans: seq<seq<seq<V>>>, no: nat, ny: nat, nx: nat, y: nat, x: nat): (r: seq<V>)
    requires Shaped3(chans, no, ny, nx) && y < ny && x < nx
    ensures |r| == no
    ensures forall k :: 0 <= k < no ==> r[k] == chans[k][y][x]
  {
    seq(no, k requires 0 <= k < no => chans[k][y][x])
  }

  function CellRow<V>(chans: seq<seq<seq<V>>>, no: nat, ny: nat, nx: nat, y: nat): (r: seq<seq<V>>)
    requires Shaped3(chans, no, ny, nx) && y < ny
    ensures Shaped2(r, nx, no)
    ensures forall x :: 0 <= x < nx ==> r[x] == Cell(chans, no, ny, nx, y, x)
  {
    seq(nx, x requires 0 <= x < nx => Cell(chans, no, ny, nx, y, x))
  }

  function AnchorGrid<V>(chans: seq<seq<seq<V>>>, no: nat, ny: nat, nx: nat): (r: seq<seq<seq<V>>>)
    requires Shaped3(chans, no, ny, nx)
    ensures Shaped3(r, ny, nx, no)
    ensures forall y :: 0 <= y < ny ==> r[y] == CellRow(chans, no, ny, nx, y)
  {
    seq(ny, y requires 0 <= y < ny => CellRow(chans, no, ny, nx, y))
  }

  function ArrangeBatch<V>(m: seq<seq<seq<V>>>, na: nat, no: nat, ny: nat, nx: nat)
    : (r: seq<seq<seq<seq<V>>>>)
    requires Shaped3(m, na * no, ny, nx)
    ensures Shaped4(r, na, ny, nx, no)
    ensures forall a :: 0 <= a < na ==> r[a] == AnchorGrid(AnchorChannels(m, na, no, ny, nx, a), no, ny, nx)
  {
    seq(na, a requires 0 <= a < na => AnchorGrid(AnchorChannels(m, na, no, ny, nx, a), no, ny, nx))
  }

  /** `view(bs, na, no, ny, nx).permute(0, 1, 3, 4, 2)` of a map of shape
      (bs, na*no, ny, nx). */
  function Arrange<V>(t: seq<seq<seq<seq<V>>>>, bs: nat, na: nat, no: nat, ny: nat, nx: nat)
    : (r: seq<seq<seq<seq<seq<V>>>>>)
    requires Shaped4(t, bs, na * no, ny, nx)
    ensures Shaped5(r, bs, na, ny, nx, no)
    ensures forall b :: 0 <= b < bs ==> r[b] == ArrangeBatch(t[b], na, no, ny, nx)
  {
    seq(bs, b requires 0 <= b < bs => ArrangeBatch(t[b], na, no, ny, nx))
  }

  /** The training reshape is an index permutation: output `k` of anchor `a`
      at (y, x) is channel `a*no + k` at (y, x). */
  lemma ArrangeAt<V>(t: seq<seq<seq<seq<V>>>>, bs: nat, na: nat, no: nat, ny: nat, nx: nat,
                     b: nat, a: nat, y: nat, x: nat, k: nat, c: nat)
    requires Shaped4(t, bs, na * no, ny, nx)
    requires b < bs && a < na && y < ny && x < nx && k < no && c == a * no + k
    ensures c < na * no
    ensures Arrange(t, bs, na, no, ny, nx)[b][a][y][x][k] == t[b][c][y][x]
  {
    ChannelIndex(a, k, na, no);
    assert Shaped3(t[b], na * no, ny, nx);
    var chans := AnchorChannels(t[b], na, no, ny, nx, a);
    var g := AnchorGrid(chans, no, ny, nx);
    assert Arrange(t, bs, na, no, ny, nx)[b] == ArrangeBatch(t[b], na, no, ny, nx);
    assert ArrangeBatch(t[b], na, no, ny, nx)[a] == g;
    assert g[y][x] == Cell(chans, no, ny, nx, y, x);
    assert chans[k] == t[b][a * no + k];
  }

  /** Channel `c` at (y, x) of one arranged batch entry `q`. */
  function UnarrangeRow<V>(q: seq<seq<seq<seq<V>>>>, na: nat, no: nat, ny: nat, nx: nat, c: nat, y: nat)
    : (r: seq<V>)
    requires Shaped4(q, na, ny, nx, no) && c < na * no && y < ny
    ensures |r| == nx
    ensures forall x :: 0 <= x < nx ==> no > 0 && c / no < na && r[x] == q[c / no][y][x][c % no]
  {
    ChannelBound(c, na, no);
    seq(nx, x requires 0 <= x < nx => q[c / no][y][x][c % no])
  }

  function UnarrangeChannel<V>(q: seq<seq<seq<seq<V>>>>, na: nat, no: nat, ny: nat, nx: nat, c: nat)
    : (r: seq<seq<V>>)
    requires Shaped4(q, na, ny, nx, no) && c < na * no
    ensures Shaped2(r, ny, nx)
    ensures forall y :: 0 <= y < ny ==> r[y] == UnarrangeRow(q, na, no, ny, nx, c, y)
  {
    seq(ny, y requires 0 <= y < ny => UnarrangeRow(q, na, no, ny, nx, c, y))
  }

  function UnarrangeBatch<V>(q: seq<seq<seq<seq<V>>>>, na: nat, no: nat, ny: nat, nx: nat)
    : (r: seq<seq<seq<V>>>)
    requires Shaped4(q, na, ny, nx, no)
    ensures Shaped3(r, na * no, ny, nx)
    ensures forall c :: 0 <= c < na * no ==> r[c] == UnarrangeChannel(q, na, no, ny, nx, c)
  {
    seq(na * no, c requires 0 <= c < na * no => UnarrangeChannel(q, na, no, ny, nx, c))
  }

  /** The inverse arrangement, back to [batch][channel][y][x]. */
  function Unarrange<V>(p: seq<seq<seq<seq<seq<V>>>>>, bs: nat, na: nat, no: nat, ny: nat, nx: nat)
    : (r: seq<seq<seq<seq<V>>>>)
    requires Shaped5(p, bs, na, ny, nx, no)
    ensures Shaped4(r, bs, na * no, ny, nx)
    ensures forall b :: 0 <= b < bs ==> r[b] == UnarrangeBatch(p[b], na, no, ny, nx)
  {
    seq(bs, b requires 0 <= b < bs => UnarrangeBatch(p[b], na, no, ny, nx))
  }

  /** The arrangement loses nothing: undoing it gives back the map. */
  lemma ArrangeRoundTrip<V>(t: seq<seq<seq<seq<V>>>>, bs: nat, na: nat, no: nat, ny: nat, nx: nat)
    requires Shaped4(t, bs, na * no, ny, nx)
    ensures Unarrange(Arrange(t, bs, na, no, ny, nx), bs, na, no, ny, nx) == t
  {
    var p := Arrange(t, bs, na, no, ny, nx);
    var u := Unarrange(p, bs, na, no, ny, nx);
    forall b, c, y, x | 0 <= b < bs && 0 <= c < na * no && 0 <= y < ny && 0 <= x < nx
      ensures u[b][c][y][x] == t[b][c][y][x]
    {
      UnarrangeAt(p, bs, na, no, ny, nx, b, c, y, x);
      ArrangeAt(t, bs, na, no, ny, nx, b, c / no, y, x, c % no, c);
    }
    ShapedEqual4(u, t, bs, na * no, ny, nx);
  }

  /** Element `[b][c][y][x]` of the undone map is element
      `[b][c / no][y][x][c % no]` of the arranged one. */
  lemma UnarrangeAt<V>(p: seq<seq<seq<seq<seq<V>>>>>, bs: nat, na: nat, no: nat, ny: nat, nx: nat,
                       b: nat, c: nat, y: nat, x: nat)
    requires Shaped5(p, bs, na, ny, nx, no)
    requires b < bs && c < na * no && y < ny && x < nx
    ensures no > 0 && c / no < na && c % no < no && c == (c / no) * no + c % no
    ensures Unarrange(p, bs, na, no, ny, nx)[b][c][y][x] == p[b][c / no][y][x][c % no]
  {
    ChannelBound(c, na, no);
    assert Shaped4(p[b], na, ny, nx, no);
    assert Unarrange(p, bs, na, no, ny, nx)[b] == UnarrangeBatch(p[b], na, no, ny, nx);
    assert UnarrangeBatch(p[b], na, no, ny, nx)[c] == UnarrangeChannel(p[b], na, no, ny, nx, c);
    assert UnarrangeChannel(p[b], na, no, ny, nx, c)[y] == UnarrangeRow(p[b], na, no, ny, nx, c, y);
  }

  /** And arranging the undone form gives back the arrangement. */
  lemma UnarrangeRoundTrip<V>(p: seq<seq<seq<seq<seq<V>>>>>, bs: nat, na: nat, no: nat, ny: nat, nx: nat)
    requires Shaped5(p, bs, na, ny, nx, no)
    ensures Arrange(Unarrange(p, bs, na, no, ny, nx), bs, na, no, ny, nx) == p
  {
    var t := Unarrange(p, bs, na, no, ny, nx);
    var q := Arrange(t, bs, na, no, ny, nx);
    forall b, a, y, x, k | 0 <= b < bs && 0 <= a < na && 0 <= y < ny && 0 <= x < nx && 0 <= k < no
      ensures q[b][a][y][x][k] == p[b][a][y][x][k]
    {
      ArrangeAt(t, bs, na, no, ny, nx, b, a, y, x, k, a * no + k);
      ChannelSplit(a, k, no);
      assert t[b][a * no + k][y][x] == p[b][a][y][x][k];
    }
    ShapedEqual5(q, p, bs, na, ny, nx, no);
  }

  lemma ShapedEqual2<V>(s: seq<seq<V>>, t: seq<seq<V>>, d0: nat, d1: nat)
    requires Shaped2(s, d0, d1) && Shaped2(t, d0, d1)
    requires forall i, j :: 0 <= i < d0 && 0 <= j < d1 ==> s[i][j] == t[i][j]
    ensures s == t
  {
    forall i | 0 <= i < d0 ensures s[i] == t[i] {
      assert forall j :: 0 <= j < d1 ==> s[i][j] == t[i][j];
    }
  }

  lemma ShapedEqual4<V>(s: seq<seq<seq<seq<V>>>>, t: seq<seq<seq<seq<V>>>>, d0: nat, d1: nat, d2: nat, d3: nat)
    requires Shaped4(s, d0, d1, d2, d3) && Shaped4(t, d0, d1, d2, d3)
    requires forall b, c, y, x :: 0 <= b < d0 && 0 <= c < d1 && 0 <= y < d2 && 0 <= x < d3 ==>
      s[b][c][y][x] == t[b][c][y][x]
    ensures s == t
  {
    forall b | 0 <= b < d0 ensures s[b] == t[b] {
      forall c | 0 <= c < d1 ensures s[b][c] == t[b][c] {
        ShapedEqual2(s[b][c], t[b][c], d2, d3);
      }
    }
  }

  lemma ShapedEqual5<V>(s: seq<seq<seq<seq<seq<V>>>>>, t: seq<seq<seq<seq<seq<V>>>>>,
                        d0: nat, d1: nat, d2: nat, d3: nat, d4: nat)
    requires Shaped5(s, d0, d1, d2, d3, d4) && Shaped5(t, d0, d1, d2, d3, d4)
    requires forall b, a, y, x, k :: 0 <= b < d0 && 0 <= a < d1 && 0 <= y < d2 && 0 <= x < d3 && 0 <= k < d4 ==>
      s[b][a][y][x][k] == t[b][a][y][x][k]
    ensures s == t
  {
    forall b | 0 <= b < d0 ensures s[b] == t[b] {
      forall a | 0 <= a < d1 ensures s[b][a] == t[b][a] {
        forall y | 0 <= y < d2 ensures s[b][a][y] == t[b][a][y] {
          ShapedEqual2(s[b][a][y], t[b][a][y], d3, d4);
        }
      }
    }
  }

  /** The inference decoding applied to every element: the new value of
      output `k` of anchor `a` at (y, x) depends on those positions and on
      the value there. */
  function DecodeCell<V>(cell: seq<V>, a: nat, y: nat, x: nat, decode: (nat, nat, nat, nat, V) -> V)
    : (r: seq<V>)
    ensures |r| == |cell|
    ensures forall k :: 0 <= k < |cell| ==> r[k] == decode(a, y, x, k, cell[k])
  {
    seq(|cell|, k requires 0 <= k < |cell| => decode(a, y, x, k, cell[k]))
  }

  function DecodeGrid<V>(g: seq<seq<seq<V>>>, a: nat, decode: (nat, nat, nat, nat, V) -> V)
    : (r: seq<seq<seq<V>>>)
    ensures |r| == |g|
    ensures forall y :: 0 <= y < |g| ==> |r[y]| == |g[y]|
    ensures forall y, x :: 0 <= y < |g| && 0 <= x < |g[y]| ==> r[y][x] == DecodeCell(g[y][x], a, y, x, decode)
  {
    seq(|g|, y requires 0 <= y < |g| =>
      seq(|g[y]|, x requires 0 <= x < |g[y]| => DecodeCell(g[y][x], a, y, x, decode)))
  }

  function DecodeAll<V>(p: seq<seq<seq<seq<seq<V>>>>>, decode: (nat, nat, nat, nat, V) -> V)
    : (r: seq<seq<seq<seq<seq<V>>>>>)
    ensures |r| == |p|
    ensures forall b :: 0 <= b < |p| ==> |r[b]| == |p[b]|
    ensures forall b, a :: 0 <= b < |p| && 0 <= a < |p[b]| ==> r[b][a] == DecodeGrid(p[b][a], a, decode)
  {
    seq(|p|, b requires 0 <= b < |p| =>
      seq(|p[b]|, a requires 0 <= a < |p[b]| => DecodeGrid(p[b][a], a, decode)))
  }

  /** Decoding keeps the shape and changes each element on its own. */
  lemma DecodeAt<V>(p: seq<seq<seq<seq<seq<V>>>>>, decode: (nat, nat, nat, nat, V) -> V,
                    bs: nat, na: nat, ny: nat, nx: nat, no: nat)
    requires Shaped5(p, bs, na, ny, nx, no)
    ensures Shaped5(DecodeAll(p, decode), bs, na, ny, nx, no)
    ensures forall b, a, y, x, k :: 0 <= b < bs && 0 <= a < na && 0 <= y < ny && 0 <= x < nx && 0 <= k < no ==>
      DecodeAll(p, decode)[b][a][y][x][k] == decode(a, y, x, k, p[b][a][y][x][k])
  {
    var d := DecodeAll(p, decode);
    forall b, a | 0 <= b < bs && 0 <= a < na
      ensures Shaped3(d[b][a], ny, nx, no)
    {
      assert forall y :: 0 <= y < ny ==> Shaped2(d[b][a][y], nx, no);
    }
    assert forall b :: 0 <= b < bs ==> Shaped4(d[b], na, ny, nx, no);
  }

  /** `view(bs, -1, no)`: per batch entry, the cells of every anchor's grid
      in order, one row of `no` values per cell. */
  function Flatten<V>(p: seq<seq<seq<seq<seq<V>>>>>): (r: seq<seq<seq<V>>>)
    ensures |r| == |p|
  {
    seq(|p|, b requires 0 <= b < |p| => Concat(AnchorCells(p[b])))
  }

  /** Concatenating `d0` blocks of `d1` rows each gives `d0*d1` rows. */
  lemma GridConcatLength<V>(g: seq<seq<V>>, d0: nat, d1: nat)
    requires |g| == d0 && forall i :: 0 <= i < d0 ==> |g[i]| == d1
    ensures |Concat(g)| == d0 * d1
  {
    ConcatLength(g, d1);
  }

  /** Row `j` of block `i` lands at position `i*d1 + j`. */
  lemma GridConcatAt<V>(g: seq<seq<V>>, d0: nat, d1: nat, i: nat, j: nat)
    requires |g| == d0 && forall m :: 0 <= m < d0 ==> |g[m]| == d1
    requires i < d0 && j < d1
    ensures i * d1 + j < d0 * d1 == |Concat(g)| && Concat(g)[i * d1 + j] == g[i][j]
  {
    ConcatAt(g, d1, i, j);
  }

  /** Concatenating `d0` blocks of `d1` rows of width `d2` gives rows of
      width `d2`. */
  lemma GridRows<V>(g: seq<seq<seq<V>>>, d0: nat, d1: nat, d2: nat)
    requires Shaped3(g, d0, d1, d2)
    ensures Shaped2(Concat(g), d0 * d1, d2)
  {
    GridConcatLength(g, d0, d1);
    forall row | 0 <= row < d0 * d1
      ensures |Concat(g)[row]| == d2
    {
      ChannelBound(row, d0, d1);
      var i, j := row / d1, row % d1;
      GridConcatAt(g, d0, d1, i, j);
      assert Shaped2(g[i], d1, d2);
    }
  }

  /** One batch entry of the flattened output: the cells of each anchor's
      grid, anchor after anchor. */
  function AnchorCells<V>(q: seq<seq<seq<seq<V>>>>): seq<seq<seq<V>>> {
    seq(|q|, a requires 0 <= a < |q| => Concat(q[a]))
  }

  lemma AnchorCellsShape<V>(q: seq<seq<seq<seq<V>>>>, na: nat, ny: nat, nx: nat, no: nat)
    requires Shaped4(q, na, ny, nx, no)
    ensures Shaped3(AnchorCells(q), na, ny * nx, no)
  {
    forall a | 0 <= a < na
      ensures Shaped2(AnchorCells(q)[a], ny * nx, no)
    {
      GridRows(q[a], ny, nx, no);
    }
  }

  /** The flattened output has `na*ny*nx` rows of width `no`. */
  lemma FlattenShape<V>(p: seq<seq<seq<seq<seq<V>>>>>, bs: nat, na: nat, ny: nat, nx: nat, no: nat)
    requires Shaped5(p, bs, na, ny, nx, no)
    ensures Shaped3(Flatten(p), bs, na * ny * nx, no)
  {
    forall b | 0 <= b < bs
      ensures Shaped2(Flatten(p)[b], na * ny * nx, no)
    {
      AnchorCellsShape(p[b], na, ny, nx, no);
      assert Flatten(p)[b] == Concat(AnchorCells(p[b]));
      GridRows(AnchorCells(p[b]), na, ny * nx, no);
      assert na * (ny * nx) == na * ny * nx;
    }
  }

  /** The row of anchor `a` at (y, x) is number `(a*ny + y)*nx + x`. */
  lemma FlattenAt<V>(p: seq<seq<seq<seq<seq<V>>>>>, bs: nat, na: nat, ny: nat, nx: nat, no: nat,
                     b: nat, a: nat, y: nat, x: nat, row: nat)
    requires Shaped5(p, bs, na, ny, nx, no)
    requires b < bs && a < na && y < ny && x < nx && row == (a * ny + y) * nx + x
    ensures row < na * ny * nx == |Flatten(p)[b]|
    ensures Flatten(p)[b][row] == p[b][a][y][x]
  {
    assert Flatten(p)[b] == Concat(AnchorCells(p[b]));
    CellsAt(p[b], na, ny, nx, no, a, y, x, row);
  }

  lemma CellsAt<V>(q: seq<seq<seq<seq<V>>>>, na: nat, ny: nat, nx: nat, no: nat,
                    a: nat, y: nat, x: nat, row: nat)
    requires Shaped4(q, na, ny, nx, no)
    requires a < na && y < ny && x < nx && row == (a * ny + y) * nx + x
    ensures row < na * ny * nx == |Concat(AnchorCells(q))|
    ensures Concat(AnchorCells(q))[row] == q[a][y][x]
  {
    var cells := AnchorCells(q);
    assert Shaped3(q[a], ny, nx, no);
    GridConcatAt(q[a], ny, nx, y, x);
    forall m | 0 <= m < na
      ensures |cells[m]| == ny * nx
    {
      assert Shaped3(q[m], ny, nx, no);
      GridConcatLength(q[m], ny, nx);
    }
    GridConcatAt(cells, na, ny * nx, a, y * nx + x);
    RowIndex(na, a, y, x, ny, nx);
  }

  lemma RowIndex(na: nat, a: nat, y: nat, x: nat, ny: nat, nx: nat)
    ensures a * (ny * nx) + (y * nx + x) == (a * ny + y) * nx + x
    ensures na * (ny * nx) == na * ny * nx
  {
  }

  /** The row counts of the heads' inference outputs, each of shape
      (batch, rows, width). */
  function RowCounts(shapes: seq<(nat, nat, nat)>): seq<int> {
    seq(|shapes|, h requires 0 <= h < |shapes| => shapes[h].1 as int)
  }

  /** `zip(*yolo_out)` needs at least one head, and `torch.cat(io, 1)`
      needs every head's output to agree in batch size and width. */
  predicate Joinable(shapes: seq<(nat, nat, nat)>) {
    && |shapes| > 0
    && forall h :: 0 <= h < |shapes| ==> shapes[h].0 == shapes[0].0 && shapes[h].2 == shapes[0].2
  }

  /** Batch entry `b` of the joined detections: the rows of every head, one
      head after the other. */
  function JoinedEntry<V>(ios: seq<seq<seq<seq<V>>>>, b: nat): seq<seq<V>>
    requires forall h :: 0 <= h < |ios| ==> b < |ios[h]|
  {
    Concat(seq(|ios|, h requires 0 <= h < |ios| => ios[h][b]))
  }

  /** The inference outputs of all heads joined along the row axis
      (`torch.cat(io, 1)`), where `shapes[h]` is the shape of `ios[h]`. */
  function JoinDetections<V>(ios: seq<seq<seq<seq<V>>>>, shapes: seq<(nat, nat, nat)>)
    : (r: Option<seq<seq<seq<V>>>>)
    requires |shapes| == |ios|
    requires forall h :: 0 <= h < |ios| ==> Shaped3(ios[h], shapes[h].0, shapes[h].1, shapes[h].2)
    ensures r.Some? <==> Joinable(shapes)
    ensures r.Some? ==> Shaped3(r.value, shapes[0].0, Sum(RowCounts(shapes)), shapes[0].2)
  {
    if !Joinable(shapes) then None
    else
      var bs := shapes[0].0;
      JoinedShape(ios, shapes);
      Some(seq(bs, b requires 0 <= b < bs => JoinedEntry(ios, b)))
  }

  /** Every joined batch entry has the rows of all heads, each of the
      common width. */
  lemma JoinedShape<V>(ios: seq<seq<seq<seq<V>>>>, shapes: seq<(nat, nat, nat)>)
    requires |shapes| == |ios|
    requires forall h :: 0 <= h < |ios| ==> Shaped3(ios[h], shapes[h].0, shapes[h].1, shapes[h].2)
    requires Joinable(shapes)
    ensures forall h :: 0 <= h < |ios| ==> |ios[h]| == shapes[0].0
    ensures forall b :: 0 <= b < shapes[0].0 ==>
      Shaped2(JoinedEntry(ios, b), Sum(RowCounts(shapes)), shapes[0].2)
  {
    var w := shapes[0].2;
    assert forall h :: 0 <= h < |ios| ==> |ios[h]| == shapes[h].0 == shapes[0].0;
    forall b | 0 <= b < shapes[0].0
      ensures Shaped2(JoinedEntry(ios, b), Sum(RowCounts(shapes)), w)
    {
      var parts := seq(|ios|, h requires 0 <= h < |ios| => ios[h][b]);
      ConcatSum(parts);
      assert Lengths(parts) == RowCounts(shapes);
      ConcatEvery(parts, row => |row| == w);
    }
  }

  /** Row `j` of head `h` lands, in every batch entry, after the rows of
      the heads before it. */
  lemma JoinedAt<V>(ios: seq<seq<seq<seq<V>>>>, shapes: seq<(nat, nat, nat)>, b: nat, h: nat, j: nat)
    requires |shapes| == |ios|
    requires forall h :: 0 <= h < |ios| ==> Shaped3(ios[h], shapes[h].0, shapes[h].1, shapes[h].2)
    requires Joinable(shapes)
    requires b < shapes[0].0 && h < |ios| && j < shapes[h].1
    ensures var r := JoinDetections(ios, shapes);
      && r.Some?
      && Sum(RowCounts(shapes)[..h]) + j < |r.value[b]|
      && r.value[b][Sum(RowCounts(shapes)[..h]) + j] == ios[h][b][j]
  {
    var parts := seq(|ios|, h requires 0 <= h < |ios| => ios[h][b]);
    assert Lengths(parts) == RowCounts(shapes);
    ConcatIndex(parts, h, j);
  }

  /** What a head returns: the arranged prediction in training mode; the
      decoded, flattened detections together with it otherwise. */
  datatype HeadOutput<V> =
    | Training(p: seq<seq<seq<seq<seq<V>>>>>)
    | Inference(io: seq<seq<seq<V>>>, p: seq<seq<seq<seq<seq<V>>>>>)

  /** The view to (bs, na, no, ny, nx) needs as many elements as the map
      has: `c == na*no` unless the map is empty anyway. */
  predicate ViewFits(bs: nat, c: nat, ny: nat, nx: nat, na: nat, no: nat) {
    c == na * no || bs == 0 || ny == 0 || nx == 0
  }

  /** `view(bs, -1, no)` infers the `-1` by dividing by `bs * no`, which
      fails when that product is zero. */
  predicate FlatViewFits(bs: nat, no: nat) {
    bs > 0 && no > 0
  }

  /** The head's output for a prediction map of shape (bs, c, ny, nx). */
  function HeadResult<V>(pred: seq<seq<seq<seq<V>>>>, bs: nat, c: nat, ny: nat, nx: nat,
                         na: nat, no: nat, training: bool, decode: (nat, nat, nat, nat, V) -> V)
    : (r: Option<HeadOutput<V>>)
    requires Shaped4(pred, bs, c, ny, nx)
    ensures r.Some? <==> ViewFits(bs, c, ny, nx, na, no) && (training || FlatViewFits(bs, no))
    ensures r.Some? ==> Shaped5(r.value.p, bs, na, ny, nx, no) && r.value.Training? == training
    ensures r.Some? && !training ==> Shaped3(r.value.io, bs, na * ny * nx, no)
  {
    if !ViewFits(bs, c, ny, nx, na, no) then None
    else if !training && !FlatViewFits(bs, no) then None
    else
      var t := if c == na * no then pred else Empty4(bs, na * no, ny, nx);
      var p := Arrange(t, bs, na, no, ny, nx);
      if training then Some(Training(p))
      else
        var d := DecodeAll(p, decode);
        DecodeAt(p, decode, bs, na, ny, nx, no);
        FlattenShape(d, bs, na, ny, nx, no);
        Some(Inference(Flatten(d), p))
  }

  /** In training mode, output `k` of anchor `a` at (y, x) is channel
      `a*no + k` of the incoming map at (y, x). */
  lemma TrainingAt<V>(pred: seq<seq<seq<seq<V>>>>, bs: nat, ny: nat, nx: nat, na: nat, no: nat,
                      decode: (nat, nat, nat, nat, V) -> V, b: nat, a: nat, y: nat, x: nat, k: nat)
    requires Shaped4(pred, bs, na * no, ny, nx)
    requires b < bs && a < na && y < ny && x < nx && k < no
    ensures HeadResult(pred, bs, na * no, ny, nx, na, no, true, decode) ==
            Some(Training(Arrange(pred, bs, na, no, ny, nx)))
    ensures a * no + k < na * no
    ensures Arrange(pred, bs, na, no, ny, nx)[b][a][y][x][k] == pred[b][a * no + k][y][x]
  {
    ArrangeAt(pred, bs, na, no, ny, nx, b, a, y, x, k, a * no + k);
  }

  /** Outside training, detection row `(a*ny + y)*nx + x` of batch entry `b`
      holds, at position `k`, the decoding of channel `a*no + k` of the
      incoming map at (y, x). */
  lemma InferenceAt<V>(pred: seq<seq<seq<seq<V>>>>, bs: nat, ny: nat, nx: nat, na: nat, no: nat,
                       decode: (nat, nat, nat, nat, V) -> V, b: nat, a: nat, y: nat, x: nat, k: nat,
                       row: nat, c: nat)
    requires Shaped4(pred, bs, na * no, ny, nx)
    requires b < bs && a < na && y < ny && x < nx && k < no
    requires row == (a * ny + y) * nx + x && c == a * no + k
    ensures c < na * no
    ensures var r := HeadResult(pred, bs, na * no, ny, nx, na, no, false, decode);
      && r.Some? && r.value.Inference?
      && row < |r.value.io[b]|
      && k < |r.value.io[b][row]|
      && r.value.io[b][row][k] == decode(a, y, x, k, pred[b][c][y][x])
  {
    var p := Arrange(pred, bs, na, no, ny, nx);
    var d := DecodeAll(p, decode);
    DecodeAt(p, decode, bs, na, ny, nx, no);
    FlattenAt(d, bs, na, ny, nx, no, b, a, y, x, row);
    ArrangeAt(pred, bs, na, no, ny, nx, b, a, y, x, k, c);
    assert HeadResult(pred, bs, na * no, ny, nx, na, no, false, decode) == Some(Inference(Flatten(d), p));
  }

  /** The map of shape (bs, c, ny, nx) when one of bs, ny, nx is zero: it
      has no elements, whatever `c` is. */
  function Empty4<V>(bs: nat, c: nat, ny: nat, nx: nat): (r: seq<seq<seq<seq<V>>>>)
    requires bs == 0 || ny == 0 || nx == 0
    ensures Shaped4(r, bs, c, ny, nx)
  {
    if bs == 0 then []
    else if ny == 0 then seq(bs, _ => seq(c, _ => []))
    else seq(bs, _ => seq(c, _ => seq(ny, _ => [])))
  }

  /** The head: anchors, its number among the heads, the layers it may read,
      the derived counts, and the grid cache keyed by (nx, ny). */
  class YoloLayer {
    const anchors: seq<Anchor>
    const index: int
    const layers: seq<int>
    const nl: nat
    const na: nat
    const nc: nat
    const no: nat
    var nx: nat
    var ny: nat
    /** how often the grid has been built */
    ghost var gridBuilds: nat

    /** The head the builder configures for a yolo record. */
    constructor (cfg: HeadConfig)
      ensures anchors == cfg.anchors && index == cfg.index && layers == cfg.layers
      ensures nl == |cfg.layers| && na == cfg.NumAnchors() && nc == cfg.nc && no == cfg.NumOutputs()
      ensures no == nc + 5 && na == |anchors|
      ensures nx == 0 && ny == 0 && gridBuilds == 0
    {
      anchors := cfg.anchors;
      index := cfg.index;
      layers := cfg.layers;
      nl := |cfg.layers|;
      na := cfg.NumAnchors();
      nc := cfg.nc;
      no := cfg.NumOutputs();
      nx := 0;
      ny := 0;
      gridBuilds := 0;
    }

    /** Builds the grid for `ng = (nx, ny)`; only the size it caches is
        modelled. */
    method CreateGrids(ng: (nat, nat))
      modifies this
      ensures nx == ng.0 && ny == ng.1 && gridBuilds == old(gridBuilds) + 1
    {
      nx := ng.0;
      ny := ng.1;
      gridBuilds := gridBuilds + 1;
    }

    /** A prediction map of shape (bs, c, gy, gx): the grid is rebuilt
        exactly when (gx, gy) differs from the cached pair, the map is
        arranged per anchor, and outside training it is also decoded and
        flattened. */
    method Forward<V>(pred: seq<seq<seq<seq<V>>>>, bs: nat, c: nat, gy: nat, gx: nat,
                      training: bool, decode: (nat, nat, nat, nat, V) -> V)
      returns (r: Option<HeadOutput<V>>)
      requires Shaped4(pred, bs, c, gy, gx)
      modifies this
      ensures nx == gx && ny == gy
      ensures gridBuilds == old(gridBuilds) + if (old(nx), old(ny)) != (gx, gy) then 1 else 0
      ensures r == HeadResult(pred, bs, c, gy, gx, na, no, training, decode)
    {
      if (nx, ny) != (gx, gy) {
        CreateGrids((gx, gy));
      }
      r := HeadResult(pred, bs, c, ny, nx, na, no, training, decode);
    }
  }
}
