/** Properties of the container's operations over many calls: the layout
    invariant, the order in which lines expire, and how repeated frames
    settle once no more lines arrive. */
module ScrollProofs {

  import opened Params
  import opened LogContainer
  import opened FrameFacts

  /** In a spaced run, entry `i` lies exactly `i` lines below the head. */
  lemma {:induction false} SpacedFromHead(cfg: Config, es: seq<Entry>, i: int)
    requires Spaced(cfg, es)
    requires 0 <= i < |es|
    ensures es[i].y == es[0].y + i * cfg.lineHeight
    decreases i
  {
    if i > 0 {
      SpacedFromHead(cfg, es, i - 1);
      assert es[i].y == es[i - 1].y + cfg.lineHeight;
    }
  }

  /** Spacing between neighbours is the same as being an arithmetic
      progression from the head with step one line height. */
  lemma SpacedIffProgression(cfg: Config, es: seq<Entry>)
    ensures Spaced(cfg, es) <==>
              forall i :: 0 <= i < |es| ==> es[i].y == es[0].y + i * cfg.lineHeight
  {
    if Spaced(cfg, es) {
      forall i | 0 <= i < |es|
        ensures es[i].y == es[0].y + i * cfg.lineHeight
      {
        SpacedFromHead(cfg, es, i);
      }
    }
    if forall i :: 0 <= i < |es| ==> es[i].y == es[0].y + i * cfg.lineHeight {
      forall i | 0 < i < |es|
        ensures es[i].y == es[i - 1].y + cfg.lineHeight
      {
        assert es[i].y == es[0].y + i * cfg.lineHeight;
        assert es[i - 1].y == es[0].y + (i - 1) * cfg.lineHeight;
        assert i * cfg.lineHeight == (i - 1) * cfg.lineHeight + cfg.lineHeight;
      }
    }
  }

  /** Under the layout invariant every entry's position is fixed by the
      cursor: entry `i` sits `|entries| - i` lines above it. */
  lemma CursorDeterminesLayout(cfg: Config, c: Container)
    requires WellSpaced(cfg, c)
    ensures forall i :: 0 <= i < |c.entries| ==>
              c.entries[i].y == c.cursor - (|c.entries| - i) * cfg.lineHeight
  {
    var es := c.entries;
    var n := |es|;
    forall i | 0 <= i < n
      ensures es[i].y == c.cursor - (n - i) * cfg.lineHeight
    {
      SpacedFromHead(cfg, es, i);
      SpacedFromHead(cfg, es, n - 1);
      assert (n - 1) * cfg.lineHeight + cfg.lineHeight - i * cfg.lineHeight == (n - i) * cfg.lineHeight;
    }
  }

  /** Older entries are strictly higher than newer ones. */
  lemma SpacedIsOrdered(cfg: Config, es: seq<Entry>, i: int, j: int)
    requires Spaced(cfg, es)
    requires 0 <= i < j < |es|
    ensures es[i].y < es[j].y
  {
    SpacedFromHead(cfg, es, i);
    SpacedFromHead(cfg, es, j);
    assert j * cfg.lineHeight - i * cfg.lineHeight == (j - i) * cfg.lineHeight;
  }

  /** No entry expires before an older one: the expired entries are always
      a prefix, so checking only the head never skips an expired line that
      is newer than a live one. */
  lemma ExpiredArePrefix(cfg: Config, es: seq<Entry>, i: int, j: int)
    requires Spaced(cfg, es)
    requires 0 <= i < j < |es|
    requires Expired(cfg, es[j])
    ensures Expired(cfg, es[i])
  {
    SpacedIsOrdered(cfg, es, i, j);
  }

  /** Spacing survives dropping `k` entries from the head and moving the
      rest by the same distance. */
  lemma SpacedAfterMove(cfg: Config, es: seq<Entry>, r: seq<Entry>, d: int, k: nat)
    requires Spaced(cfg, es)
    requires |r| + k <= |es|
    requires forall i :: 0 <= i < |r| ==> r[i].y == es[i + k].y - d
    ensures Spaced(cfg, r)
  {
    forall i, j | 0 <= i < |r| && 0 <= j < |r| && j == i + 1
      ensures r[j].y == r[i].y + cfg.lineHeight
    {
      assert r[i].y == es[i + k].y - d;
      assert r[j].y == es[j + k].y - d;
    }
  }

  /** Adding a line keeps the layout invariant. */
  lemma AppendPreservesLayout(cfg: Config, c: Container, text: string)
    requires WellSpaced(cfg, c)
    ensures WellSpaced(cfg, Append(cfg, c, text))
  {
  }

  /** A frame keeps the layout invariant. */
  lemma UpdatePreservesLayout(cfg: Config, c: Container)
    requires WellSpaced(cfg, c)
    ensures WellSpaced(cfg, Update(cfg, c))
  {
    var r := Update(cfg, c);
    var d := ScrollAmount(cfg, c);
    var k := |c.entries| - |r.entries|;
    FrameMovesAndEvicts(cfg, c);
    SpacedAfterMove(cfg, c.entries, r.entries, d, k);
    if |r.entries| > 0 {
      assert Last(r.entries) == r.entries[|r.entries| - 1];
      assert |r.entries| - 1 + k == |c.entries| - 1;
    }
  }

  /** Clearing establishes the layout invariant, whatever came before. */
  lemma ClearEstablishesLayout(cfg: Config, c: Container)
    ensures WellSpaced(cfg, Clear(c))
  {
  }

  /** A frame moves every surviving entry and the cursor by the same amount,
      so the distances between them do not change. */
  lemma UpdateKeepsRelativeSpacing(cfg: Config, c: Container)
    ensures var r := Update(cfg, c);
            var k := |c.entries| - |r.entries|;
            && (forall i, j :: 0 <= i < |r.entries| && 0 <= j < |r.entries| ==>
                  r.entries[i].y - r.entries[j].y == c.entries[i + k].y - c.entries[j + k].y)
            && (forall i :: 0 <= i < |r.entries| ==>
                  r.cursor - r.entries[i].y == c.cursor - c.entries[i + k].y)
  {
    FrameMovesAndEvicts(cfg, c);
  }

  /** Once the newest line is inside the viewport nothing moves: a frame
      can only drop the oldest line, and only when it is above the top. */
  lemma FlushFrameOnlyEvicts(cfg: Config, c: Container)
    requires |c.entries| == 0 || Overflow(cfg, c) <= 0
    ensures var r := Update(cfg, c);
            && r.cursor == c.cursor
            && (r.entries == c.entries || (Expired(cfg, c.entries[0]) && r.entries == c.entries[1..]))
  {
    var r := Update(cfg, c);
    FrameMovesAndEvicts(cfg, c);
    if |r.entries| < |c.entries| {
      assert r.entries == c.entries[1..];
    } else {
      assert r.entries == c.entries;
    }
  }

  /** A cleared container stays still: any number of frames leave it
      empty with the cursor at 0. */
  lemma {:induction false} ClearedStaysIdle(cfg: Config, c: Container, n: nat)
    ensures Updates(cfg, Clear(c), n) == Clear(c)
  {
    if n > 0 {
      assert Update(cfg, Clear(c)) == Clear(c);
      ClearedStaysIdle(cfg, c, n - 1);
    }
  }

}
