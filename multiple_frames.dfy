/** The helpers of the two-frame bouncing-balls demo (src/MultipleFramesBouncingBallsAnimation.java):
    colour similarity, the radius and speed rules it repeats from the single-frame demo, and the split
    of the balls between its two frames. */
module MultipleFramesBouncingBalls {
  import opened Colors
  import opened MultipleBouncingBalls

  const FIRST_START_BORDER: int := 50
  const FIRST_END_BORDER: int := 500
  const SECOND_START_BORDER: int := 450
  const SECOND_END_BORDER: int := 600

  function IntAbs(a: int): (r: int)
    ensures r >= 0 && (r == a || r == -a)
  {
    if a < 0 then -a else a
  }

  /** isSimilarColor: every channel differs by less than 50. */
  predicate IsSimilarColor(c1: Color, c2: Color)
  {
    IntAbs(c1.red - c2.red) < 50 && IntAbs(c1.green - c2.green) < 50 && IntAbs(c1.blue - c2.blue) < 50
  }

  /** Similarity holds exactly when each channel of one colour lies strictly within 50 of the other's;
      it is reflexive and symmetric but not transitive. */
  lemma IsSimilarColorProperties(c1: Color, c2: Color)
    ensures IsSimilarColor(c1, c2) <==>
      -50 < c1.red - c2.red < 50 && -50 < c1.green - c2.green < 50 && -50 < c1.blue - c2.blue < 50
    ensures IsSimilarColor(c1, c1)
    ensures IsSimilarColor(c1, c2) <==> IsSimilarColor(c2, c1)
  {
  }

  lemma IsSimilarColorIsNotTransitive()
    ensures exists a, b, c :: IsSimilarColor(a, b) && IsSimilarColor(b, c) && !IsSimilarColor(a, c)
  {
    var a, b, c := Color(0, 0, 0), Color(40, 0, 0), Color(80, 0, 0);
    assert IsSimilarColor(a, b) && IsSimilarColor(b, c) && !IsSimilarColor(a, c);
  }

  /** With the ranges of the two frames, 450 and 150, a corrected radius is at most 224 and 74. */
  lemma RadiosCheckForFrames(r: int)
    ensures 0 <= RadiosCheck(r, FIRST_END_BORDER - FIRST_START_BORDER) <= 224
    ensures 0 <= RadiosCheck(r, SECOND_END_BORDER - SECOND_START_BORDER) <= 74
  {
    RadiosCheckFits(r, FIRST_END_BORDER - FIRST_START_BORDER);
    RadiosCheckFits(r, SECOND_END_BORDER - SECOND_START_BORDER);
  }

  /** Ball i of n moves in the first frame when i + 1 <= n / 2, and in the second otherwise. */
  predicate InFirstFrame(i: int, n: int)
  {
    i + 1 <= JavaDiv(n, 2)
  }

  /** The box a ball is placed in: lower border and range. */
  function FrameBox(i: int, n: int): (box: (int, int))
    ensures InFirstFrame(i, n) ==> box == (FIRST_START_BORDER, FIRST_END_BORDER - FIRST_START_BORDER)
    ensures !InFirstFrame(i, n) ==> box == (SECOND_START_BORDER, SECOND_END_BORDER - SECOND_START_BORDER)
  {
    if InFirstFrame(i, n) then (FIRST_START_BORDER, FIRST_END_BORDER - FIRST_START_BORDER)
    else (SECOND_START_BORDER, SECOND_END_BORDER - SECOND_START_BORDER)
  }

  /** The first frame takes the first n / 2 balls and the second the rest, which is as many or one
      more; the two drawing loops move every ball exactly once. */
  lemma FrameSplit(n: nat)
    ensures forall i :: 0 <= i < n ==> (InFirstFrame(i, n) <==> i < n / 2)
    ensures n / 2 <= n - n / 2 <= n / 2 + 1
  {
  }
}
