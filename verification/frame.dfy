/** What one frame does to the entry list, entry by entry. */
module FrameFacts {

  import opened Params
  import opened LogContainer

  /** Moving keeps each entry in its place and its text, `d` pixels higher. */
  lemma {:induction false} ShiftAt(es: seq<Entry>, d: int, i: int)
    requires 0 <= i < |es|
    ensures Shift(es, d)[i] == Entry(es[i].y - d, es[i].text)
    decreases i
  {
    if i > 0 {
      ShiftAt(es[1..], d, i - 1);
      assert es[1..][i - 1] == es[i];
    }
  }

  /** Dropping the head shifts every surviving index by the number dropped. */
  lemma EvictHeadAt(cfg: Config, es: seq<Entry>, i: int)
    requires 0 <= i < |EvictHead(cfg, es)|
    ensures var r := EvictHead(cfg, es);
            r[i] == es[i + |es| - |r|]
  {
  }

  /** A frame's entry list is the moved list with an expired head dropped. */
  lemma UpdateEntries(cfg: Config, c: Container)
    ensures Update(cfg, c).entries == EvictHead(cfg, Shift(c.entries, ScrollAmount(cfg, c)))
  {
  }

  /** Entry `i` after a frame is entry `i + k` before it, moved up by the
      scroll amount, where `k` is the number of entries the frame dropped. */
  lemma FrameAt(cfg: Config, c: Container, i: int)
    requires 0 <= i < |Update(cfg, c).entries|
    ensures var r := Update(cfg, c);
            var k := |c.entries| - |r.entries|;
            r.entries[i] == Entry(c.entries[i + k].y - ScrollAmount(cfg, c), c.entries[i + k].text)
  {
    var d := ScrollAmount(cfg, c);
    var moved := Shift(c.entries, d);
    UpdateEntries(cfg, c);
    EvictHeadAt(cfg, moved, i);
    ShiftAt(c.entries, d, i + |moved| - |EvictHead(cfg, moved)|);
  }

  /** What a frame does to the entries: every surviving entry is the one
      `k` places further on in the old list, moved up by the scroll amount,
      where `k` is 1 exactly when the moved head has scrolled fully above
      the top, and 0 otherwise. */
  lemma FrameMovesAndEvicts(cfg: Config, c: Container)
    ensures var r := Update(cfg, c);
            var d := ScrollAmount(cfg, c);
            var k := |c.entries| - |r.entries|;
            && (k == 1 <==> (|c.entries| > 0 && Expired(cfg, Entry(c.entries[0].y - d, c.entries[0].text))))
            && (forall i :: 0 <= i < |r.entries| ==>
                  r.entries[i] == Entry(c.entries[i + k].y - d, c.entries[i + k].text))
  {
    var d := ScrollAmount(cfg, c);
    UpdateEntries(cfg, c);
    if |c.entries| > 0 {
      ShiftAt(c.entries, d, 0);
    }
    forall i | 0 <= i < |Update(cfg, c).entries|
      ensures Update(cfg, c).entries[i] == Entry(c.entries[i + |c.entries| - |Update(cfg, c).entries|].y - d,
                                                 c.entries[i + |c.entries| - |Update(cfg, c).entries|].text)
    {
      FrameAt(cfg, c, i);
    }
  }

}
