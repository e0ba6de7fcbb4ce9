/** The helpers of the multiple bouncing-balls demo (src/MultipleBouncingBallsAnimation.java): fitting a
    radius into the box and choosing a speed from it. */
module MultipleBouncingBalls {
  const MAX_RADIUS: int := 50
  const RANGE: int := 200

  /** Java's int division, which truncates toward zero. */
  function JavaDiv(a: int, b: int): (q: int)
    requires b != 0
    ensures a >= 0 && b > 0 ==> q == a / b
    ensures a < 0 && b > 0 ==> q == -((-a) / b)
  {
    var m := (if a < 0 then -a else a) / (if b < 0 then -b else b);
    if (a < 0) != (b < 0) then -m else m
  }

  /** radiosCheck: a radius of half the range or more becomes half the range minus one, a negative
      radius becomes 1, and any other radius is kept. */
  function RadiosCheck(r: int, range: int): (res: int)
    ensures r >= JavaDiv(range, 2) ==> res == JavaDiv(range, 2) - 1
    ensures r < JavaDiv(range, 2) && r < 0 ==> res == 1
    ensures 0 <= r < JavaDiv(range, 2) ==> res == r
  {
    if r >= JavaDiv(range, 2) then JavaDiv(range, 2) - 1
    else if r < 0 then 1
    else r
  }

  /** For any range of at least 3 the checked radius is non-negative and leaves room for the ball:
      range - 2 * radius, the bound createRandomBall passes to Random.nextInt, is positive. */
  lemma RadiosCheckFits(r: int, range: int)
    requires range >= 3
    ensures 0 <= RadiosCheck(r, range) && 2 * RadiosCheck(r, range) < range
  {
  }

  /** A centre drawn as createRandomBall draws it, nextInt(range - 2r) + r + min + 1, keeps the whole
      ball inside the box from min to min + range. */
  lemma RandomCentreFitsInBox(r: int, min: int, range: int, draw: int)
    requires range >= 3
    requires 0 <= draw < range - 2 * RadiosCheck(r, range)
    ensures var rc := RadiosCheck(r, range);
      var centre := draw + rc + min + 1;
      min < centre - rc && centre + rc <= min + range
  {
  }

  /** With the range of 200 this demo uses, every radius is corrected into 0..99. */
  lemma RadiosCheckForDemoRange(r: int)
    ensures 0 <= RadiosCheck(r, RANGE) <= 99
  {
    RadiosCheckFits(r, RANGE);
  }

  /** createRandomSpeed: 1 for a radius of 50 or more, otherwise (61 - r) / 6. */
  function CreateRandomSpeed(r: int): (s: int)
    ensures r >= MAX_RADIUS ==> s == 1
    ensures r < MAX_RADIUS ==> s == JavaDiv(61 - r, 6)
  {
    if r >= MAX_RADIUS then 1 else JavaDiv(61 - r, 6)
  }

  /** Smaller balls move faster: for radii 0..49 the speed lies in 2..10, and the speed never rises
      as the radius grows. */
  lemma CreateRandomSpeedProperties(r1: int, r2: int)
    ensures 0 <= r1 < MAX_RADIUS ==> 2 <= CreateRandomSpeed(r1) <= 10
    ensures r1 <= r2 ==> CreateRandomSpeed(r2) <= CreateRandomSpeed(r1)
  {
    if r1 <= r2 && r2 < MAX_RADIUS {
      assert (61 - r2) / 6 <= (61 - r1) / 6;
    }
  }
}
