/** The scrolling log container: an ordered list of one-line entries, oldest
    first, and the insertion cursor at which the next entry is placed. Each
    entry's bitmap is exactly one line high, so an entry is reduced to its
    vertical position and the text its bitmap was drawn from. */
module LogContainer {

  import opened Params

  /** One log line: its y position inside the container and its text. */
  datatype Entry = Entry(y: int, text: string)

  /** The container created by the `init` command. `x`, `y`, `width` and
      `height` are the viewport given to `init`; `entries` holds the line
      sprites in insertion order; `cursor` is where the next line goes. */
  datatype Container = Container(
    x: int, y: int, width: int, height: int,
    entries: seq<Entry>,
    cursor: int,
    visible: bool)

  /** The y coordinate of an entry's bottom edge. */
  function Bottom(cfg: Config, e: Entry): int {
    e.y + cfg.lineHeight
  }

  /** An entry has scrolled fully above the top of the viewport. */
  predicate Expired(cfg: Config, e: Entry) {
    Bottom(cfg, e) <= 0
  }

  function Last(es: seq<Entry>): Entry
    requires |es| > 0
  {
    es[|es| - 1]
  }

  /** How far the newest entry's bottom edge lies below the viewport. */
  function Overflow(cfg: Config, c: Container): int
    requires |c.entries| > 0
  {
    Bottom(cfg, Last(c.entries)) - c.height
  }

  /** Entries are one line height apart, in insertion order. */
  predicate Spaced(cfg: Config, es: seq<Entry>) {
    forall i, j :: 0 <= i < |es| && 0 <= j < |es| && j == i + 1 ==> es[j].y == es[i].y + cfg.lineHeight
  }

  /** The container's layout invariant: its entries are evenly spaced and
      the cursor sits one line below the newest entry. */
  predicate WellSpaced(cfg: Config, c: Container) {
    && Spaced(cfg, c.entries)
    && (|c.entries| > 0 ==> c.cursor == Bottom(cfg, Last(c.entries)))
  }

  /** A freshly constructed container: no lines, cursor at the top, shown. */
  function New(x: int, y: int, width: int, height: int): (c: Container)
    ensures c.entries == [] && c.cursor == 0 && c.visible
    ensures c.x == x && c.y == y && c.width == width && c.height == height
  {
    Container(x, y, width, height, [], 0, true)
  }

  /** Adds one line of text (the container's `show`): the new entry goes at
      the cursor and the cursor moves down one line. */
  function Append(cfg: Config, c: Container, text: string): (r: Container)
    ensures |r.entries| == |c.entries| + 1
    ensures r.entries[..|c.entries|] == c.entries
    ensures Last(r.entries) == Entry(c.cursor, text)
    ensures r.cursor - c.cursor == cfg.lineHeight
    ensures r == c.(entries := r.entries, cursor := r.cursor)
  {
    c.(entries := c.entries + [Entry(c.cursor, text)], cursor := c.cursor + cfg.lineHeight)
  }

  /** The distance everything moves up in one frame: nothing while the
      newest line is inside the viewport, otherwise the overflow capped at
      the scroll speed. */
  function ScrollAmount(cfg: Config, c: Container): (d: int)
    ensures 0 <= d <= cfg.scrollSpeed
    ensures d == 0 <==> (|c.entries| == 0 || Overflow(cfg, c) <= 0)
    ensures d > 0 ==> d <= Overflow(cfg, c)
    ensures d > 0 ==> d == cfg.scrollSpeed || d == Overflow(cfg, c)
  {
    if |c.entries| > 0 then
      var diff := Overflow(cfg, c);
      if diff > 0 then (if diff > cfg.scrollSpeed then cfg.scrollSpeed else diff) else 0
    else
      0
  }

  /** Every entry moved up by `d`. */
  function Shift(es: seq<Entry>, d: int): (r: seq<Entry>)
    ensures |r| == |es|
    decreases |es|
  {
    if |es| == 0 then []
    else [Entry(es[0].y - d, es[0].text)] + Shift(es[1..], d)
  }

  /** The entries left after dropping the head if it has expired: at most
      one entry goes, and only the oldest. */
  function EvictHead(cfg: Config, es: seq<Entry>): (r: seq<Entry>)
    ensures |es| - 1 <= |r| <= |es|
    ensures |r| < |es| <==> (|es| > 0 && Expired(cfg, es[0]))
  {
    if |es| > 0 && Expired(cfg, es[0]) then es[1..] else es
  }

  /** One frame: every entry and the cursor move up by the scroll amount,
      then the oldest entry is dropped if it is now fully above the top. */
  function Update(cfg: Config, c: Container): (r: Container)
    ensures r.cursor == c.cursor - ScrollAmount(cfg, c)
    ensures |c.entries| - 1 <= |r.entries| <= |c.entries|
    ensures r == c.(entries := r.entries, cursor := r.cursor)
  {
    var d := ScrollAmount(cfg, c);
    c.(entries := EvictHead(cfg, Shift(c.entries, d)), cursor := c.cursor - d)
  }

  /** Removes every line and puts the cursor back at the top. */
  function Clear(c: Container): (r: Container)
    ensures r.entries == [] && r.cursor == 0
    ensures r == c.(entries := r.entries, cursor := r.cursor)
  {
    c.(entries := [], cursor := 0)
  }

  /** `n` frames with no other command in between. */
  function Updates(cfg: Config, c: Container, n: nat): Container
    decreases n
  {
    if n == 0 then c else Updates(cfg, Update(cfg, c), n - 1)
  }

}
