/**
 * Refresh-rate derivation of the fbdev backend: the frame period of a
 * framebuffer is its total line count times its total line length times
 * its pixel clock period (in picoseconds), and the rate is how many such
 * periods fit in one second, capped at 200 Hz, with 60 Hz as the
 * fallback.
 */
module Refresh {
  import opened CInt

  /** The fields of `struct fb_var_screeninfo` the rate is computed from; each is a `__u32`. */
  datatype ScreenInfo = ScreenInfo(
    xres: u32, yres: u32,
    leftMargin: u32, rightMargin: u32,
    upperMargin: u32, lowerMargin: u32,
    pixclock: u32)

  const DEFAULT_REFRESH: int := 60
  const MAX_REFRESH: int := 200
  /** Picoseconds in one second (`1000000000000LLU`). */
  const PICOS_PER_SECOND: int := 1_000_000_000_000

  /**
   * The `uint64_t quot`: each margin-plus-resolution sum is formed in
   * 32-bit unsigned arithmetic and only then widened, and both products
   * wrap at 2^64.
   */
  function Denominator(v: ScreenInfo): (q: int)
    ensures IsU64(q)
  {
    var lines := U32(v.upperMargin + v.lowerMargin + v.yres);
    var columns := U32(v.leftMargin + v.rightMargin + v.xres);
    U64(U64(lines * columns) * v.pixclock)
  }

  function Min(a: int, b: int): int { if a <= b then a else b }

  /**
   * calculate_refresh_rate: the number of whole periods in a second,
   * capped at 200 Hz; when that count is zero, or the period itself is
   * zero, the 60 Hz default.
   */
  function CalculateRefreshRate(v: ScreenInfo): (r: int)
    ensures 1 <= r <= MAX_REFRESH
    ensures Denominator(v) == 0 ==> r == DEFAULT_REFRESH
  {
    var quot := Denominator(v);
    if quot > 0 then
      var rate := PICOS_PER_SECOND / quot;
      var capped := if rate > MAX_REFRESH then MAX_REFRESH else rate;
      if capped >= 1 then capped else DEFAULT_REFRESH
    else DEFAULT_REFRESH
  }

  /** Integer division of a second by a positive period is zero exactly when the period is longer. */
  lemma {:induction false} WholePeriods(q: int)
    requires q > 0
    ensures q > PICOS_PER_SECOND ==> PICOS_PER_SECOND / q == 0
    ensures q <= PICOS_PER_SECOND ==> PICOS_PER_SECOND / q >= 1
  {
    var d, m := PICOS_PER_SECOND / q, PICOS_PER_SECOND % q;
    assert PICOS_PER_SECOND == d * q + m && 0 <= m < q;
    ScaleBySign(d, q);
  }

  lemma ScaleBySign(d: int, q: int)
    requires q > 0
    ensures d >= 1 ==> d * q >= q
    ensures d <= 0 ==> d * q <= 0
  {
  }

  /**
   * What the rate means: a period longer than a second falls back to
   * 60 Hz like a zero one, and any other period gives the number of whole
   * periods in a second, capped at 200 Hz.
   */
  lemma RefreshRateMeaning(v: ScreenInfo)
    ensures Denominator(v) > PICOS_PER_SECOND ==> CalculateRefreshRate(v) == DEFAULT_REFRESH
    ensures 0 < Denominator(v) <= PICOS_PER_SECOND ==>
      CalculateRefreshRate(v) == Min(PICOS_PER_SECOND / Denominator(v), MAX_REFRESH)
  {
    if Denominator(v) > 0 {
      WholePeriods(Denominator(v));
    }
  }

  /**
   * The timer delay `1000000 / refresh` handed to the event loop. The
   * division is by a rate of at least 1, so it is defined, and the delay
   * is positive.
   */
  function FrameDelay(refresh: int): (d: int)
    requires 1 <= refresh <= MAX_REFRESH
    ensures 5000 <= d <= 1_000_000
  {
    1_000_000 / refresh
  }

  /** A faster rate never gives a longer delay. */
  lemma {:induction false} FrameDelayMonotone(r1: int, r2: int)
    requires 1 <= r1 <= r2 <= MAX_REFRESH
    ensures FrameDelay(r2) <= FrameDelay(r1)
  {
    var d1, d2 := 1_000_000 / r1, 1_000_000 / r2;
    assert d2 * r2 <= 1_000_000 && 0 <= d2;
    assert 1_000_000 < (d1 + 1) * r1;
    ScaleUp(d2, r1, r2);
    ScaleCancel(d2, d1 + 1, r1);
  }

  /** A non-negative factor keeps a comparison. */
  lemma ScaleUp(d: int, a: int, b: int)
    requires 0 <= d && a <= b
    ensures d * a <= d * b
  {
  }

  /** Dividing out a positive factor keeps a strict comparison. */
  lemma ScaleCancel(x: int, y: int, r: int)
    requires r > 0 && x * r < y * r
    ensures x < y
  {
    if x >= y {
      assert x * r - y * r == (x - y) * r;
      ScaleBySign(x - y, r);
    }
  }

  /**
   * When neither the two sums nor the products overflow, the period is
   * exactly (lines) * (columns) * (pixel clock), the product that
   * backend/fbdev/output.c:106-111 forms.
   */
  lemma ExactDenominator(v: ScreenInfo)
    requires v.upperMargin + v.lowerMargin + v.yres < TWO_32
    requires v.leftMargin + v.rightMargin + v.xres < TWO_32
    requires (v.upperMargin + v.lowerMargin + v.yres) * (v.leftMargin + v.rightMargin + v.xres) * v.pixclock < TWO_64
    ensures Denominator(v) ==
      (v.upperMargin + v.lowerMargin + v.yres) * (v.leftMargin + v.rightMargin + v.xres) * v.pixclock
  {
    var a := v.upperMargin + v.lowerMargin + v.yres;
    var b := v.leftMargin + v.rightMargin + v.xres;
    assert U32(a) == a && U32(b) == b;
    if v.pixclock == 0 {
      assert U64(U64(a * b) * v.pixclock) == 0;
    } else {
      if a * b > 0 {
        ScaleBySign(v.pixclock, a * b);
      }
      assert U64(a * b) == a * b;
    }
  }

  /** A zero pixel clock, as some drivers report, gives the 60 Hz default. */
  lemma ZeroPixclockDefaults(v: ScreenInfo)
    requires v.pixclock == 0
    ensures CalculateRefreshRate(v) == DEFAULT_REFRESH
  {
  }

  /**
   * Worked examples: the 1920x1080 CEA timing (2200 x 1125 totals) at a
   * 6734 ps pixel clock runs at 60 Hz, at 5387 ps at 75 Hz; a tiny period
   * is capped at 200 Hz; a period over a second falls back to 60 Hz.
   */
  lemma Examples()
    ensures CalculateRefreshRate(ScreenInfo(1920, 1080, 148, 132, 36, 9, 6734)) == 60
    ensures CalculateRefreshRate(ScreenInfo(1920, 1080, 148, 132, 36, 9, 5387)) == 75
    ensures CalculateRefreshRate(ScreenInfo(1, 1, 0, 0, 0, 0, 1)) == MAX_REFRESH
    ensures CalculateRefreshRate(ScreenInfo(1000, 1000, 0, 0, 0, 0, 1_000_001)) == DEFAULT_REFRESH
  {
    assert Denominator(ScreenInfo(1920, 1080, 148, 132, 36, 9, 6734)) == 16_666_650_000;
    assert PICOS_PER_SECOND / 16_666_650_000 == 60;
    assert Denominator(ScreenInfo(1920, 1080, 148, 132, 36, 9, 5387)) == 13_332_825_000;
    assert PICOS_PER_SECOND / 13_332_825_000 == 75;
    assert Denominator(ScreenInfo(1, 1, 0, 0, 0, 0, 1)) == 1;
    assert Denominator(ScreenInfo(1000, 1000, 0, 0, 0, 0, 1_000_001)) == 1_000_001_000_000;
    assert PICOS_PER_SECOND / 1_000_001_000_000 == 0;
  }
}
