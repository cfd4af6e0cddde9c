/** The integer layout arithmetic of inline icons and of the text block
    inside one log line: which cell of the icon atlas an icon index names,
    where an icon is drawn, and how far the text cursor advances. */
module IconLayout {

  import opened Params

  /** The icon atlas holds this many icons per row. */
  const IconsPerRow: nat := 16

  /** A cell of the icon atlas, by column and row. */
  datatype Cell = Cell(col: nat, row: nat)

  /** The atlas cell of an icon index: indices run left to right, then top
      to bottom. */
  function IconCell(index: nat): (c: Cell)
    ensures c.col < IconsPerRow
    ensures c.row * IconsPerRow + c.col == index
  {
    Cell(index % IconsPerRow, index / IconsPerRow)
  }

  /** The icon index that names a cell. */
  function CellIndex(c: Cell): nat {
    c.row * IconsPerRow + c.col
  }

  /** Every cell of the atlas is named by exactly one icon index. */
  lemma CellRoundTrip(c: Cell)
    requires c.col < IconsPerRow
    ensures IconCell(CellIndex(c)) == c
  {
  }

  lemma IndexRoundTrip(index: nat)
    ensures CellIndex(IconCell(index)) == index
  {
  }

  datatype Point = Point(x: int, y: int)

  /** The top-left corner of an icon's cell in the atlas image, for icons
      `pw` pixels wide and `ph` pixels high: it is the corner of the grid
      cell in column `index % 16` and row `index / 16`, which lies within
      the sixteen columns of the atlas and never below the row the index
      falls in. */
  function SourceOrigin(index: nat, pw: nat, ph: nat): (p: Point)
    ensures 0 <= p.x && p.x + pw <= IconsPerRow * pw
    ensures 0 <= p.y && p.y <= index * ph
    ensures pw > 0 ==> p.x % pw == 0 && p.x / pw == index % IconsPerRow
    ensures ph > 0 ==> p.y % ph == 0 && p.y / ph == index / IconsPerRow
  {
    var c := IconCell(index);
    MulMono(c.col + 1, IconsPerRow, pw);
    MulMono(c.row, index, ph);
    OnGrid(c.col, pw);
    OnGrid(c.row, ph);
    Point(c.col * pw, c.row * ph)
  }

  /** A multiple of a positive `m` divides back exactly, with no remainder. */
  lemma OnGrid(a: nat, m: nat)
    ensures m > 0 ==> a * m / m == a && a * m % m == 0
  {
    if m > 0 {
      MulDiv(a, m);
    }
  }

  lemma MulMono(a: nat, b: nat, m: nat)
    requires a <= b
    ensures a * m <= b * m
  {
  }

  lemma MulCancel(a: nat, b: nat, m: nat)
    requires m > 0
    requires a * m == b * m
    ensures a == b
  {
  }

  /** A multiple of `m` that lies in `[0, m)` is zero times `m`. */
  lemma ZeroFactor(x: int, m: int, r: int)
    requires m > 0 && 0 <= r < m
    requires x * m == r
    ensures x == 0
  {
  }

  lemma MulDiv(a: nat, m: nat)
    requires m > 0
    ensures a * m / m == a
  {
    var q, r := a * m / m, a * m % m;
    assert (a - q) * m == a * m - q * m == r;
    ZeroFactor(a - q, m, r);
  }

  /** The source origin is decodable: dividing its coordinates by the icon
      size gives back the cell, and so the icon index. */
  lemma SourceOriginRecoversIndex(index: nat, pw: nat, ph: nat)
    requires pw > 0 && ph > 0
    ensures var p := SourceOrigin(index, pw, ph);
            (p.y / ph) * IconsPerRow + p.x / pw == index
  {
    var c := IconCell(index);
    MulDiv(c.col, pw);
    MulDiv(c.row, ph);
  }

  /** Distinct icons read distinct atlas cells: with a non-empty icon size
      the source origin determines the icon index. */
  lemma SourceOriginInjective(i: nat, j: nat, pw: nat, ph: nat)
    requires pw > 0 && ph > 0
    requires SourceOrigin(i, pw, ph) == SourceOrigin(j, pw, ph)
    ensures i == j
  {
    MulCancel(IconCell(i).col, IconCell(j).col, pw);
    MulCancel(IconCell(i).row, IconCell(j).row, ph);
  }

  /** Where one inline icon goes when the text cursor is at `x`: the icon's
      left edge and the cursor position after it. */
  datatype IconPlacement = IconPlacement(left: int, next: int)

  function PlaceIcon(cfg: Config, x: int): (p: IconPlacement)
    ensures x < p.left && p.left + cfg.iconSize < p.next
    ensures p.left - x == p.next - (p.left + cfg.iconSize) == 2
    ensures p.next - x == cfg.iconSize + 4
  {
    IconPlacement(x + 2, x + cfg.iconSize + 4)
  }

  /** A run of `n` icons in a row, the first one placed at cursor `x`. */
  function IconRun(cfg: Config, x: int, n: nat): (r: seq<IconPlacement>)
    ensures |r| == n
    ensures n > 0 ==> r[0] == PlaceIcon(cfg, x)
    ensures forall i :: 0 < i < n ==> r[i] == PlaceIcon(cfg, r[i - 1].next)
    ensures forall i :: 0 <= i < n ==> r[i].next == x + (i + 1) * (cfg.iconSize + 4)
    decreases n
  {
    if n == 0 then []
    else
      var rest := IconRun(cfg, x + cfg.iconSize + 4, n - 1);
      var r := [PlaceIcon(cfg, x)] + rest;
      assert forall i :: 0 < i < n ==> r[i] == rest[i - 1];
      assert forall i :: 0 < i < n ==>
        r[i].next == x + cfg.iconSize + 4 + i * (cfg.iconSize + 4) == x + (i + 1) * (cfg.iconSize + 4);
      r
  }

  /** Icons in a run never overlap: each starts after the previous one ends,
      with a gap of four pixels. */
  lemma {:induction false} IconRunDisjoint(cfg: Config, x: int, n: nat, i: nat, j: nat)
    requires i < j < n
    ensures IconRun(cfg, x, n)[i].left + cfg.iconSize + 4 <= IconRun(cfg, x, n)[j].left
    decreases j - i
  {
    var r := IconRun(cfg, x, n);
    if j > i + 1 {
      IconRunDisjoint(cfg, x, n, i, j - 1);
    }
    assert r[j] == PlaceIcon(cfg, r[j - 1].next);
    if j - 1 == 0 {
      assert r[j - 1] == PlaceIcon(cfg, x);
    } else {
      assert r[j - 1] == PlaceIcon(cfg, r[j - 2].next);
    }
  }

  /** The top of an inline icon: icons are centred vertically in the line. */
  function IconTop(cfg: Config): (y: real)
    ensures y + cfg.iconSize as real + y == cfg.lineHeight as real
  {
    cfg.lineHeight as real / 2.0 - cfg.iconSize as real / 2.0
  }

  /** The top of the text block: the glyphs are centred vertically in the
      line. */
  function TextTop(cfg: Config): (y: real)
    ensures y + cfg.fontSize as real + y == cfg.lineHeight as real
  {
    cfg.lineHeight as real / 2.0 - cfg.fontSize as real / 2.0
  }

}
