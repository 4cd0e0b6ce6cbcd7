/**
  The focus timer's countdown arithmetic: one tick per second, the `mm:ss`
  display, and the completed session that credits 25 minutes of focus time.
 */
module FocusTimer {
  import opened Wrappers

  /** A session lasts 1500 seconds and credits 25 minutes. */
  const SessionSeconds := 1500
  const SessionMinutes := 25

  // ---------------------------------------------------------------------------
  // The mm:ss display
  // ---------------------------------------------------------------------------

  function DigitChar(d: nat): char
    requires d < 10
  {
    "0123456789"[d]
  }

  predicate IsDigit(c: char)
  {
    '0' <= c <= '9'
  }

  function DigitValue(c: char): nat
    requires IsDigit(c)
  {
    c as nat - '0' as nat
  }

  /** `Number.prototype.toString()` of a non-negative integer. */
  function DecimalString(n: nat): (s: string)
    decreases n
  {
    if n < 10 then [DigitChar(n)] else DecimalString(n / 10) + [DigitChar(n % 10)]
  }

  /** `padStart(2, 0)`: pad on the left with '0' to at least two characters. */
  function PadStart2(s: string): string
    decreases 2 - |s|
  {
    if |s| >= 2 then s else PadStart2("0" + s)
  }

  /** The text of the timer display for `s` remaining seconds. */
  function Clock(s: nat): string
  {
    PadStart2(DecimalString(s / 60)) + ":" + PadStart2(DecimalString(s % 60))
  }

  /** Reads an `mm:ss` display back as a number of seconds. */
  function ParseClock(t: string): Option<nat>
  {
    if |t| == 5 && IsDigit(t[0]) && IsDigit(t[1]) && t[2] == ':' && IsDigit(t[3]) && IsDigit(t[4])
    then Some(60 * (10 * DigitValue(t[0]) + DigitValue(t[1])) + 10 * DigitValue(t[3]) + DigitValue(t[4]))
    else None
  }

  /** Below 100, the padded decimal form is exactly the tens digit and the units digit. */
  lemma TwoDigits(n: nat)
    requires n < 100
    ensures PadStart2(DecimalString(n)) == [DigitChar(n / 10), DigitChar(n % 10)]
  {
    if n < 10 {
      assert DecimalString(n) == [DigitChar(n)];
      assert PadStart2([DigitChar(n)]) == PadStart2("0" + [DigitChar(n)]);
      assert DigitChar(0) == '0';
      assert "0" + [DigitChar(n)] == [DigitChar(n / 10), DigitChar(n % 10)];
    } else {
      assert DecimalString(n / 10) == [DigitChar(n / 10)];
    }
  }

  lemma DigitRoundTrip(d: nat)
    requires d < 10
    ensures IsDigit(DigitChar(d)) && DigitValue(DigitChar(d)) == d
  {
  }

  /**
    For any count below 100 minutes the display is five characters, `mm:ss`,
    and reading it back gives the count: the display loses nothing.
   */
  lemma ClockRoundTrip(s: nat)
    requires s < 6000
    ensures |Clock(s)| == 5 && Clock(s)[2] == ':'
    ensures ParseClock(Clock(s)) == Some(s)
  {
    var m, r := s / 60, s % 60;
    TwoDigits(m);
    TwoDigits(r);
    DigitRoundTrip(m / 10);
    DigitRoundTrip(m % 10);
    DigitRoundTrip(r / 10);
    DigitRoundTrip(r % 10);
    var t := Clock(s);
    assert t == [DigitChar(m / 10), DigitChar(m % 10), ':', DigitChar(r / 10), DigitChar(r % 10)];
  }

  /** The display a fresh session shows. */
  lemma FreshSessionDisplay()
    ensures Clock(SessionSeconds) == "25:00"
  {
    TwoDigits(25);
    TwoDigits(0);
  }

  // ---------------------------------------------------------------------------
  // One tick
  // ---------------------------------------------------------------------------

  /** The counters one tick of the interval callback leaves behind. */
  datatype Count = Count(seconds: int, focusTime: int)

  /**
    The arithmetic of one tick: the seconds go down by one; when they reach
    zero the session is complete, 25 minutes are credited and the countdown
    starts again from 1500.  Between ticks the count stays in 1..1500.
   */
  function Advance(c: Count): (r: Count)
    requires 1 <= c.seconds <= SessionSeconds
    ensures 1 <= r.seconds <= SessionSeconds
    ensures c.seconds == 1 ==> r == Count(SessionSeconds, c.focusTime + SessionMinutes)
    ensures c.seconds != 1 ==> r == Count(c.seconds - 1, c.focusTime)
  {
    var s := c.seconds - 1;
    if s <= 0 then Count(SessionSeconds, c.focusTime + SessionMinutes) else Count(s, c.focusTime)
  }

  /** A tick completes the session exactly when it brings the count to zero. */
  predicate Completes(c: Count)
  {
    c.seconds - 1 <= 0
  }

  /** The seconds and focus time after `k` ticks. */
  function Ticks(k: nat, c: Count): Count
    requires 1 <= c.seconds <= SessionSeconds
  {
    if k == 0 then c else Ticks(k - 1, Advance(c))
  }

  /** Fewer ticks than there are seconds left only count down. */
  lemma {:induction false} CountingDown(k: nat, c: Count)
    requires 1 <= c.seconds <= SessionSeconds && k < c.seconds
    ensures Ticks(k, c) == Count(c.seconds - k, c.focusTime)
  {
    if k > 0 {
      CountingDown(k - 1, Advance(c));
    }
  }

  /** No tick before the last one of a session completes it. */
  lemma NoEarlyCompletion(k: nat, c: Count)
    requires 1 <= c.seconds <= SessionSeconds && k + 1 < c.seconds
    ensures !Completes(Ticks(k, c))
  {
    CountingDown(k, c);
  }

  /**
    A full session: from a fresh countdown, 1500 ticks credit exactly 25
    minutes and leave the countdown fresh again.
   */
  lemma FullSession(focusTime: int)
    ensures Ticks(SessionSeconds, Count(SessionSeconds, focusTime))
         == Count(SessionSeconds, focusTime + SessionMinutes)
  {
    LastTick(SessionSeconds - 1, Count(SessionSeconds, focusTime));
    CountingDown(SessionSeconds - 1, Count(SessionSeconds, focusTime));
  }

  /** Running `k + 1` ticks is running `k` and then one more. */
  lemma {:induction false} LastTick(k: nat, c: Count)
    requires 1 <= c.seconds <= SessionSeconds
    ensures 1 <= Ticks(k, c).seconds <= SessionSeconds
    ensures Ticks(k + 1, c) == Advance(Ticks(k, c))
  {
    if k > 0 {
      LastTick(k - 1, Advance(c));
    }
  }

  // ---------------------------------------------------------------------------
  // The interval handle
  // ---------------------------------------------------------------------------

  /**
    The `timerInterval` global: whether it holds a handle, and whether the
    interval behind it is still firing.
   */
  datatype Interval = Interval(handle: bool, ticking: bool)

  const Idle := Interval(false, false)

  /** A handle is held exactly while its interval fires. */
  predicate InSync(iv: Interval)
  {
    iv.handle == iv.ticking
  }

  /**
    An interval fires only while its handle is held. This holds of every
    state the page reaches, the stale handle after a finished session
    included.
   */
  predicate Covered(iv: Interval)
  {
    iv.ticking ==> iv.handle
  }

  /** `timer.toggle`: a held handle is cleared and dropped; otherwise a new interval starts. */
  function ToggleInterval(iv: Interval): (r: Interval)
    ensures r.ticking <==> !iv.handle
    ensures InSync(r)
  {
    if iv.handle then Idle else Interval(true, true)
  }

  /** The end of a session as written: the interval is cleared but its handle is kept. */
  function StopAtCompletionAsWritten(iv: Interval): (r: Interval)
    ensures Covered(r)
    ensures iv.handle ==> !InSync(r)
    ensures ToggleInterval(r).ticking <==> !iv.handle
  {
    iv.(ticking := false)
  }

  /**
    As written, a session started with one toggle and run to zero leaves a
    stale handle: the next toggle only clears it, and it takes a second
    toggle to start the timer again.
   */
  lemma StaleHandleAsWritten()
    ensures var done := StopAtCompletionAsWritten(ToggleInterval(Idle));
      && !InSync(done)
      && !ToggleInterval(done).ticking
      && ToggleInterval(ToggleInterval(done)).ticking
  {
  }

  /** The end of a session as intended: the interval is cleared and its handle dropped. */
  function StopAtCompletion(iv: Interval): (r: Interval)
    ensures InSync(r) && !r.ticking
    ensures ToggleInterval(r).ticking
  {
    Idle
  }

  /**
    With the corrected completion every step keeps the handle in step with
    the interval, and one toggle after a finished session starts the timer.
   */
  lemma CompletionKeepsSync(iv: Interval)
    ensures InSync(StopAtCompletion(iv)) && InSync(ToggleInterval(iv))
    ensures ToggleInterval(StopAtCompletion(iv)).ticking
  {
  }
}
