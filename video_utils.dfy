// lib/videoUtils.ts: the player's time label and the seek position of a click on the progress
// bar. Times and coordinates are JavaScript numbers, modelled as reals; NaN, where the source
// can produce it, is `None`.

module VideoUtils {
  import opened Wrappers
  import opened Text

  /** `Math.trunc`. */
  function Trunc(x: real): (r: int)
    ensures x >= 0.0 ==> r == x.Floor
    ensures x < 0.0 ==> r == -((-x).Floor)
  {
    if x >= 0.0 then x.Floor else -((-x).Floor)
  }

  /** JavaScript's `%`: the remainder takes the sign of the dividend. */
  function JsRem(a: real, b: real): (r: real)
    requires b != 0.0
    ensures r == a - b * Trunc(a / b) as real
  {
    a - b * Trunc(a / b) as real
  }

  /** `formatTime`: whole minutes, ':', then whole seconds padded to two digits. */
  function FormatTime(time: real): string
  {
    TimeLabel((time / 60.0).Floor, JsRem(time, 60.0).Floor)
  }

  /** The label of a minute and a second count. */
  function TimeLabel(minutes: int, seconds: int): string
  {
    IntToString(minutes) + ":" + PadStart(IntToString(seconds), 2, '0')
  }

  /** For a whole, non-negative number of seconds the label is the usual m:ss. */
  lemma FormatTimeWhole(t: nat)
    ensures FormatTime(t as real) == NatToString(t / 60) + ":" + PadStart(NatToString(t % 60), 2, '0')
  {
    var x := t as real;
    var m := t / 60;
    assert (x / 60.0).Floor == m by {
      assert m as real * 60.0 <= x < (m + 1) as real * 60.0;
    }
    assert Trunc(x / 60.0) == m;
    assert JsRem(x, 60.0) == (t % 60) as real;
  }

  /**
   * The label reads back: it is the minutes, ':' and a seconds field of exactly two digits,
   * and minutes * 60 + seconds is the time.
   */
  lemma FormatTimeReadsBack(t: nat)
    ensures var m := NatToString(t / 60);
      var ss := PadStart(NatToString(t % 60), 2, '0');
      FormatTime(t as real) == m + ":" + ss
      && |ss| == 2 && AllDigits(ss) && DigitsValue(m) * 60 + DigitsValue(ss) == t
  {
    FormatTimeWhole(t);
    SecondsField(t % 60);
    NatToStringRoundTrip(t / 60);
  }

  /** Seconds below 60 always fill exactly two digits and keep their value. */
  lemma SecondsField(sec: nat)
    requires sec < 60
    ensures var ss := PadStart(NatToString(sec), 2, '0');
      |ss| == 2 && AllDigits(ss) && DigitsValue(ss) == sec
  {
    var s := NatToString(sec);
    var ss := PadStart(s, 2, '0');
    assert |s| <= 2 by {
      if sec >= 10 {
        assert NatToString(sec / 10) == s[..|s| - 1];
      }
    }
    var z := ss[..|ss| - |s|];
    assert ss == z + s;
    LeadingZerosValue(z, s);
    NatToStringRoundTrip(sec);
  }

  /** Fractions of a second are dropped, never rounded up. */
  lemma FormatTimeDropsFraction(t: real)
    requires t >= 0.0
    ensures FormatTime(t) == FormatTime(t.Floor as real)
  {
    var n := t.Floor;
    var m := (t / 60.0).Floor;
    WholeMinutes(t, n, m);
    WholeRemainder(t, m);
    WholeRemainder(n as real, m);
    FloorShift(t, 60 * m);
    LabelOfFields(t, m, n - 60 * m);
    LabelOfFields(n as real, m, n - 60 * m);
  }

  lemma LabelOfFields(t: real, minutes: int, seconds: int)
    requires (t / 60.0).Floor == minutes && JsRem(t, 60.0).Floor == seconds
    ensures FormatTime(t) == TimeLabel(minutes, seconds)
  {
  }

  /** Dropping the fraction does not change the whole minutes. */
  lemma WholeMinutes(t: real, n: int, m: int)
    requires t >= 0.0 && n == t.Floor && m == (t / 60.0).Floor
    ensures (n as real / 60.0).Floor == m
  {
    assert m as real <= t / 60.0 < m as real + 1.0;
    assert 60.0 * m as real <= t < 60.0 * m as real + 60.0;
    assert n as real <= t < n as real + 1.0;
    assert 60 * m <= n < 60 * m + 60;
    assert m as real <= n as real / 60.0 < m as real + 1.0;
  }

  /** For a non-negative time with m whole minutes the remainder is what lies past them. */
  lemma WholeRemainder(t: real, m: int)
    requires t >= 0.0 && m == (t / 60.0).Floor
    ensures JsRem(t, 60.0) == t - 60.0 * m as real
  {
  }

  lemma FloorShift(x: real, k: int)
    ensures (x - k as real).Floor == x.Floor - k
  {
  }

  /** `Math.max(0, Math.min(1, q))`. */
  function Clamp01(q: real): (r: real)
    ensures 0.0 <= r <= 1.0
    ensures 0.0 <= q <= 1.0 ==> r == q
    ensures q <= 0.0 ==> r == 0.0
    ensures q >= 1.0 ==> r == 1.0
  {
    if q < 0.0 then 0.0 else if q > 1.0 then 1.0 else q
  }

  /**
   * `Math.max(0, Math.min(1, clickX / width))`. A zero width divides to an infinity (clamped
   * to 0 or 1), or to NaN for a click exactly on the left edge.
   */
  function ClickFraction(clickX: real, width: real): (r: Option<real>)
    ensures r.Some? ==> 0.0 <= r.value <= 1.0
    ensures r.None? <==> width == 0.0 && clickX == 0.0
  {
    if width == 0.0 then
      (if clickX > 0.0 then Some(1.0) else if clickX < 0.0 then Some(0.0) else None)
    else
      Some(Clamp01(clickX / width))
  }

  /**
   * `calculateSeekTime`: the clamped fraction of the bar left of the click, times the
   * duration. The element's bounding box is given by its left edge and width.
   */
  function CalculateSeekTime(clientX: real, rectLeft: real, rectWidth: real, duration: real): Option<real>
  {
    match ClickFraction(clientX - rectLeft, rectWidth)
    case Some(p) => Some(p * duration)
    case None => None
  }

  /** On a real bar and a real video the seek time lies within the video. */
  lemma SeekTimeWithinVideo(clientX: real, left: real, width: real, duration: real)
    requires width > 0.0 && duration >= 0.0
    ensures var r := CalculateSeekTime(clientX, left, width, duration);
      r.Some? && 0.0 <= r.value <= duration
  {
    var p := ClickFraction(clientX - left, width).value;
    assert 0.0 <= p * duration <= 1.0 * duration;
  }

  /** A click at or left of the bar's start seeks to 0; at or right of its end, to the end. */
  lemma SeekTimeEdges(clientX: real, left: real, width: real, duration: real)
    requires width > 0.0
    ensures clientX <= left ==> CalculateSeekTime(clientX, left, width, duration) == Some(0.0)
    ensures clientX >= left + width ==> CalculateSeekTime(clientX, left, width, duration) == Some(duration)
  {
    var q := (clientX - left) / width;
    SeekOfFraction(clientX, left, width, duration, Clamp01(q));
    if clientX <= left {
      QuotientMonotone(clientX - left, 0.0, width);
      assert 0.0 / width == 0.0;
      assert Clamp01(q) * duration == 0.0;
    }
    if clientX >= left + width {
      QuotientMonotone(width, clientX - left, width);
      assert width / width == 1.0;
      assert Clamp01(q) * duration == duration;
    }
  }

  /** Inside the bar the seek time is proportional to the distance from its start. */
  lemma SeekTimeProportional(clientX: real, left: real, width: real, duration: real)
    requires width > 0.0 && left <= clientX <= left + width
    ensures CalculateSeekTime(clientX, left, width, duration).Some?
    ensures CalculateSeekTime(clientX, left, width, duration).value == (clientX - left) / width * duration
  {
    var q := (clientX - left) / width;
    assert q * width == clientX - left;
    assert 0.0 <= q;
    assert q <= 1.0 by {
      assert q * width <= 1.0 * width;
    }
    assert ClickFraction(clientX - left, width) == Some(q);
    SeekOfFraction(clientX, left, width, duration, q);
  }

  lemma SeekOfFraction(clientX: real, left: real, width: real, duration: real, p: real)
    requires ClickFraction(clientX - left, width) == Some(p)
    ensures CalculateSeekTime(clientX, left, width, duration).Some?
    ensures CalculateSeekTime(clientX, left, width, duration).value == p * duration
  {
    var r := CalculateSeekTime(clientX, left, width, duration);
    assert r.Some?;
    assert r.value == ClickFraction(clientX - left, width).value * duration;
  }

  /** Clicking further right never seeks to an earlier time. */
  lemma SeekTimeMonotone(x1: real, x2: real, left: real, width: real, duration: real)
    requires width > 0.0 && duration >= 0.0 && x1 <= x2
    ensures CalculateSeekTime(x1, left, width, duration).value <= CalculateSeekTime(x2, left, width, duration).value
  {
    var p1 := Clamp01((x1 - left) / width);
    var p2 := Clamp01((x2 - left) / width);
    SeekOfFraction(x1, left, width, duration, p1);
    SeekOfFraction(x2, left, width, duration, p2);
    QuotientMonotone(x1 - left, x2 - left, width);
    ProductMonotone(p1, p2, duration);
  }

  lemma QuotientMonotone(a: real, b: real, w: real)
    requires w > 0.0 && a <= b
    ensures a / w <= b / w
  {
    var d := (b - a) / w;
    assert d * w == b - a;
    assert d >= 0.0;
    assert b / w == a / w + d;
  }

  lemma ProductMonotone(p1: real, p2: real, d: real)
    requires p1 <= p2 && d >= 0.0
    ensures p1 * d <= p2 * d
  {
    assert (p2 - p1) * d >= 0.0;
  }
}
