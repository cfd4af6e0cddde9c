/** What repeated frames do once lines stop arriving: the newest line
    scrolls up until it is flush with the bottom of the viewport, expired
    lines then drop off the head one per frame, and the container comes to
    rest. */
module Settling {

  import opened Params
  import opened LogContainer
  import opened FrameFacts
  import opened ScrollProofs

  /** The layout invariant holds after any number of frames. */
  lemma {:induction false} UpdatesPreserveLayout(cfg: Config, c: Container, n: nat)
    requires WellSpaced(cfg, c)
    ensures WellSpaced(cfg, Updates(cfg, c, n))
    decreases n
  {
    if n > 0 {
      UpdatePreservesLayout(cfg, c);
      UpdatesPreserveLayout(cfg, Update(cfg, c), n - 1);
    }
  }

  /** Frames compose: one frame then `n` more is `n + 1` frames. */
  lemma UpdatesCons(cfg: Config, c: Container, c1: Container, n: nat)
    requires c1 == Update(cfg, c)
    ensures Updates(cfg, c, n + 1) == Updates(cfg, c1, n)
  {
  }

  /** A chain of containers each one frame after the previous: the last is
      that many frames after the first. */
  lemma {:induction false} UpdatesChain(cfg: Config, cs: seq<Container>)
    requires |cs| > 0
    requires forall i :: 0 <= i < |cs| - 1 ==> Update(cfg, cs[i]) == cs[i + 1]
    ensures Updates(cfg, cs[0], |cs| - 1) == cs[|cs| - 1]
    decreases |cs|
  {
    if |cs| > 1 {
      UpdatesChain(cfg, cs[1..]);
      UpdatesCons(cfg, cs[0], cs[1], |cs| - 2);
    }
  }

  /** Frames compose: `n` frames then one more is `n + 1` frames. */
  lemma {:induction false} UpdatesSnoc(cfg: Config, c: Container, n: nat)
    ensures Updates(cfg, c, n + 1) == Update(cfg, Updates(cfg, c, n))
    decreases n
  {
    if n > 0 {
      UpdatesSnoc(cfg, Update(cfg, c), n - 1);
    }
  }

  /** With a viewport of positive height and the newest line not above its
      bottom, a frame never removes that line, and the overflow shrinks by
      exactly the scroll amount. */
  lemma UpdateKeepsNewest(cfg: Config, c: Container)
    requires |c.entries| > 0
    requires c.height > 0
    requires Overflow(cfg, c) >= 0
    ensures var r := Update(cfg, c);
            && |r.entries| > 0
            && Last(r.entries).text == Last(c.entries).text
            && Overflow(cfg, r) == Overflow(cfg, c) - ScrollAmount(cfg, c)
            && r.height == c.height
  {
    var r := Update(cfg, c);
    var k := |c.entries| - |r.entries|;
    FrameMovesAndEvicts(cfg, c);
    assert Last(r.entries) == r.entries[|r.entries| - 1];
    assert |r.entries| - 1 + k == |c.entries| - 1;
  }

  /** While the overflow lasts, each frame takes off a full scroll step. */
  lemma {:induction false} OverflowAfter(cfg: Config, c: Container, k: nat)
    requires |c.entries| > 0
    requires c.height > 0
    requires k * cfg.scrollSpeed <= Overflow(cfg, c)
    ensures var r := Updates(cfg, c, k);
            && |r.entries| > 0
            && r.height == c.height
            && Last(r.entries).text == Last(c.entries).text
            && Overflow(cfg, r) == Overflow(cfg, c) - k * cfg.scrollSpeed
            && r.cursor == c.cursor - k * cfg.scrollSpeed
    decreases k
  {
    if k > 0 {
      var s := cfg.scrollSpeed;
      var m := (k - 1) * s;
      assert m + s == k * s;
      var c1 := Update(cfg, c);
      UpdateKeepsNewest(cfg, c);
      assert ScrollAmount(cfg, c) == s;
      assert Overflow(cfg, c1) == Overflow(cfg, c) - s;
      OverflowAfter(cfg, c1, k - 1);
      assert Updates(cfg, c, k) == Updates(cfg, c1, k - 1);
    }
  }

  /** Number of frames needed to scroll away an overflow of `o` pixels. */
  function FramesToFlush(cfg: Config, o: int): (n: nat)
    requires o > 0
    ensures n > 0
    ensures (n - 1) * cfg.scrollSpeed < o <= (n - 1) * cfg.scrollSpeed + cfg.scrollSpeed
  {
    var s := cfg.scrollSpeed;
    var n := (o + s - 1) / s;
    assert n * s + (o + s - 1) % s == o + s - 1;
    assert n * s - s == (n - 1) * s;
    n
  }

  /** Convergence: with no further lines added, a container whose newest
      line hangs below the viewport scrolls until that line's bottom edge
      is exactly on the viewport's bottom edge; from then on it does not
      scroll. */
  lemma Converges(cfg: Config, c: Container)
    requires |c.entries| > 0
    requires c.height > 0
    requires Overflow(cfg, c) > 0
    ensures var r := Updates(cfg, c, FramesToFlush(cfg, Overflow(cfg, c)));
            && |r.entries| > 0
            && Last(r.entries).text == Last(c.entries).text
            && Bottom(cfg, Last(r.entries)) == c.height
            && r.cursor == c.cursor - Overflow(cfg, c)
            && ScrollAmount(cfg, r) == 0
  {
    var o := Overflow(cfg, c);
    var n := FramesToFlush(cfg, o);
    var m := (n - 1) * cfg.scrollSpeed;
    OverflowAfter(cfg, c, n - 1);
    var p := Updates(cfg, c, n - 1);
    assert Overflow(cfg, p) == o - m;
    UpdatesSnoc(cfg, c, n - 1);
    UpdateKeepsNewest(cfg, p);
    assert ScrollAmount(cfg, p) == o - m;
  }

  /** The flush position is not reached early: on every frame before the
      one `Converges` names the newest line still hangs below. */
  lemma NotFlushBefore(cfg: Config, c: Container, k: nat)
    requires |c.entries| > 0
    requires c.height > 0
    requires Overflow(cfg, c) > 0
    requires k < FramesToFlush(cfg, Overflow(cfg, c))
    ensures |Updates(cfg, c, k).entries| > 0 && Overflow(cfg, Updates(cfg, c, k)) > 0
  {
    var n := FramesToFlush(cfg, Overflow(cfg, c));
    assert k * cfg.scrollSpeed <= (n - 1) * cfg.scrollSpeed;
    OverflowAfter(cfg, c, k);
  }

  /** A frame that changes nothing keeps changing nothing. */
  lemma {:induction false} StillStaysStill(cfg: Config, c: Container, n: nat)
    requires Update(cfg, c) == c
    ensures Updates(cfg, c, n) == c
    decreases n
  {
    if n > 0 {
      StillStaysStill(cfg, c, n - 1);
    }
  }

  /** One frame in the flush position either changes nothing or drops an
      expired head, leaving the container flush and well spaced. */
  lemma FlushFrame(cfg: Config, c: Container)
    requires WellSpaced(cfg, c)
    requires |c.entries| == 0 || Overflow(cfg, c) <= 0
    ensures var c1 := Update(cfg, c);
            || c1 == c
            || (&& |c.entries| > 0
                && Expired(cfg, c.entries[0])
                && c1 == c.(entries := c.entries[1..])
                && WellSpaced(cfg, c1)
                && (|c1.entries| == 0 || Overflow(cfg, c1) <= 0))
  {
    var c1 := Update(cfg, c);
    FlushFrameOnlyEvicts(cfg, c);
    if c1 != c {
      assert c1.entries != c.entries;
      UpdatePreservesLayout(cfg, c);
      if |c1.entries| > 0 {
        assert Last(c1.entries) == Last(c.entries);
      }
    }
  }

  /** `r` is what `c` comes to rest as: a frame leaves `r` unchanged, only
      the entry list differs from `c`, and it is `c`'s list with an expired
      prefix removed and no expired head left. */
  predicate RestsAs(cfg: Config, c: Container, r: Container) {
    && Update(cfg, r) == r
    && r == c.(entries := r.entries)
    && |r.entries| <= |c.entries|
    && r.entries == c.entries[|c.entries| - |r.entries|..]
    && (forall i :: 0 <= i < |c.entries| - |r.entries| ==> Expired(cfg, c.entries[i]))
    && (|r.entries| > 0 ==> !Expired(cfg, r.entries[0]))
  }

  /** A container that a frame leaves unchanged rests as itself. */
  lemma StillRests(cfg: Config, c: Container)
    requires Update(cfg, c) == c
    ensures RestsAs(cfg, c, c)
  {
    assert c.entries[0..] == c.entries;
    if |c.entries| > 0 {
      assert |Update(cfg, c).entries| == |c.entries|;
    }
  }

  /** Dropping an expired head does not change where the rest comes to rest. */
  lemma EvictedRests(cfg: Config, c: Container, c1: Container, r: Container)
    requires |c.entries| > 0 && Expired(cfg, c.entries[0])
    requires c1 == c.(entries := c.entries[1..])
    requires RestsAs(cfg, c1, r)
    ensures RestsAs(cfg, c, r)
  {
    var k := |c.entries| - |r.entries|;
    assert r.entries == c1.entries[k - 1..];
    assert c.entries[1..][k - 1..] == c.entries[k..];
    forall i | 0 <= i < k
      ensures Expired(cfg, c.entries[i])
    {
      if i > 0 {
        assert c.entries[i] == c1.entries[i - 1];
      }
    }
  }

  /** Fixpoint: once the newest line is flush (or there is none), frames
      only evict expired lines from the head, one per frame. After as many
      frames as there are lines the container is still for good: nothing
      moves, the cursor is where it was, and the lines dropped are exactly
      the ones that had scrolled above the top. */
  lemma {:induction false} SettlesAfterEvictions(cfg: Config, c: Container)
    requires WellSpaced(cfg, c)
    requires |c.entries| == 0 || Overflow(cfg, c) <= 0
    ensures RestsAs(cfg, c, Updates(cfg, c, |c.entries|))
    decreases |c.entries|
  {
    var n := |c.entries|;
    var c1 := Update(cfg, c);
    FlushFrame(cfg, c);
    if c1 == c {
      StillStaysStill(cfg, c, n);
      StillRests(cfg, c);
    } else {
      SettlesAfterEvictions(cfg, c1);
      EvictedRests(cfg, c, c1, Updates(cfg, c1, n - 1));
    }
  }

  /** Frames needed before the newest line is flush with the bottom. */
  function FramesToSettle(cfg: Config, c: Container): nat {
    if |c.entries| > 0 && Overflow(cfg, c) > 0 then FramesToFlush(cfg, Overflow(cfg, c)) else 0
  }

  /** Every well-spaced container in a viewport of positive height comes to
      rest once lines stop arriving: after `FramesToSettle` frames the newest
      line (if any) is inside the viewport and no longer scrolls, and after
      at most one further frame per remaining line nothing changes at all. */
  lemma ComesToRest(cfg: Config, c: Container)
    requires WellSpaced(cfg, c)
    requires c.height > 0
    ensures var m := Updates(cfg, c, FramesToSettle(cfg, c));
            && ScrollAmount(cfg, m) == 0
            && RestsAs(cfg, m, Updates(cfg, m, |m.entries|))
  {
    var f := FramesToSettle(cfg, c);
    var m := Updates(cfg, c, f);
    if f > 0 {
      Converges(cfg, c);
    }
    UpdatesPreserveLayout(cfg, c, f);
    SettlesAfterEvictions(cfg, m);
  }

}
