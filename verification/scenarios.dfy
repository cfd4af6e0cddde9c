/** Concrete runs of the log with the default parameters (line height 36,
    scroll speed 4). */
module Scenarios {

  import opened Wrappers
  import opened Params
  import opened LogContainer
  import opened FrameFacts
  import opened Commands
  import Settling
  import Placement

  /** `init` then two `add`s: the first line at the top, the second one line
      below it, the cursor two lines down. */
  lemma TwoLinesAfterInit()
    ensures var s0 := Step(Defaults, None, Init(10, 20, 300, 150)).log;
            var s1 := Step(Defaults, s0, Add("Hello")).log;
            var s2 := Step(Defaults, s1, Add("World")).log;
            && s1.Some? && s1.value.entries == [Entry(0, "Hello")]
            && s2.Some? && s2.value.entries == [Entry(0, "Hello"), Entry(36, "World")]
            && s2.value.cursor == 72
  {
  }

  /** The four-line scenario after `k` frames, while all four lines are
      still there. */
  function Early(k: int): Container {
    Container(0, 0, 300, 100,
      [Entry(-4 * k, "a"), Entry(36 - 4 * k, "b"), Entry(72 - 4 * k, "c"), Entry(108 - 4 * k, "d")],
      144 - 4 * k, true)
  }

  /** The four-line scenario after `k` frames, once the oldest line is gone. */
  function Late(k: int): Container {
    Container(0, 0, 300, 100,
      [Entry(36 - 4 * k, "b"), Entry(72 - 4 * k, "c"), Entry(108 - 4 * k, "d")],
      144 - 4 * k, true)
  }

  /** Frames 0 to 7 move all four lines up 4 pixels and drop nothing. */
  lemma EarlyFrame(k: int)
    requires 0 <= k < 8
    ensures Update(Defaults, Early(k)) == Early(k + 1)
  {
    var c := Early(k);
    assert Overflow(Defaults, c) == 44 - 4 * k;
    FrameMovesAndEvicts(Defaults, c);
    assert |Update(Defaults, c).entries| == 4;
  }

  /** Frame 8 moves the oldest line to y = -36, fully above the top, and
      drops it. */
  lemma EvictingFrame()
    ensures Update(Defaults, Early(8)) == Late(9)
  {
    var c := Early(8);
    assert Overflow(Defaults, c) == 12;
    FrameMovesAndEvicts(Defaults, c);
    assert |Update(Defaults, c).entries| == 3;
  }

  /** Frames 9 and 10 move the remaining three lines up 4 pixels. */
  lemma LateFrame(k: int)
    requires 9 <= k < 11
    ensures Update(Defaults, Late(k)) == Late(k + 1)
  {
    var c := Late(k);
    assert Overflow(Defaults, c) == 44 - 4 * k;
    FrameMovesAndEvicts(Defaults, c);
    assert |Update(Defaults, c).entries| == 3;
  }

  /** Four `add`s into a fresh container 100 pixels high. */
  function FourLines(): Container {
    Append(Defaults, Append(Defaults, Append(Defaults, Append(Defaults,
      New(0, 0, 300, 100), "a"), "b"), "c"), "d")
  }

  lemma FourLinesLayout()
    ensures FourLines() == Early(0)
  {
    var c1 := Append(Defaults, New(0, 0, 300, 100), "a");
    assert c1 == Container(0, 0, 300, 100, [Entry(0, "a")], 36, true);
    var c2 := Append(Defaults, c1, "b");
    assert c2 == Container(0, 0, 300, 100, [Entry(0, "a"), Entry(36, "b")], 72, true);
    var c3 := Append(Defaults, c2, "c");
    assert c3 == Container(0, 0, 300, 100, [Entry(0, "a"), Entry(36, "b"), Entry(72, "c")], 108, true);
  }

  /** Four lines in a viewport 100 high overflow it by 44 pixels; at 4
      pixels a frame the newest line is flush after 11 frames, by which time
      the oldest line has scrolled above the top and been dropped. */
  lemma FourLinesSettle()
    ensures FourLines().cursor == 144
    ensures Overflow(Defaults, FourLines()) == 44
    ensures ScrollAmount(Defaults, FourLines()) == 4
    ensures Updates(Defaults, FourLines(), 11) == Late(11)
    ensures Late(11).entries == [Entry(-8, "b"), Entry(28, "c"), Entry(64, "d")]
    ensures Late(11).cursor == 100
    ensures ScrollAmount(Defaults, Late(11)) == 0
  {
    FourLinesLayout();
    var cs := seq(12, i requires 0 <= i < 12 => if i <= 8 then Early(i) else Late(i));
    forall i | 0 <= i < 11
      ensures Update(Defaults, cs[i]) == cs[i + 1]
    {
      if i < 8 {
        EarlyFrame(i);
      } else if i == 8 {
        EvictingFrame();
      } else {
        LateFrame(i);
      }
    }
    Settling.UpdatesChain(Defaults, cs);
    assert Overflow(Defaults, Early(0)) == 44;
    assert Overflow(Defaults, Late(11)) == 0;
  }

  /** `add` after `remove` does nothing; a later `init` starts afresh. */
  lemma AddAfterRemoveIsIgnored(c: Container)
    ensures var s0 := Step(Defaults, Some(c), Remove).log;
            var s1 := Step(Defaults, s0, Add("x"));
            var s2 := Step(Defaults, s1.log, Init(0, 0, 300, 150));
            && s1 == Outcome(None, Silent)
            && s2.log == Some(New(0, 0, 300, 150))
  {
  }

  /** `init` on a scene whose only child is not the map's spriteset: the
      search as written never finishes. */
  lemma OneOtherChildHangs(steps: nat)
    ensures Placement.SearchAsWritten([false], 0, steps) == Placement.StillSearching
  {
    Placement.AsWrittenNeverFinishes([false], 0, steps);
  }

}
