/**
 * The time-tracking page: the elapsed-seconds computation of the display
 * tick, the HH:MM:SS formatting of a number of seconds, and the
 * Idle/Running state kept by the page (the running session, the
 * description input and the displayed seconds). Times are integer
 * milliseconds since the epoch.
 */
module TimerPage {
  import opened Js

  // ---------------------------------------------------------------------
  // Elapsed time

  /** `Math.floor((now - start) / 1000)`: whole seconds elapsed, rounded down. */
  function ElapsedSeconds(startMillis: int, nowMillis: int): (r: int)
    ensures r * 1000 <= nowMillis - startMillis < r * 1000 + 1000
    ensures nowMillis >= startMillis ==> r >= 0
  {
    (nowMillis - startMillis) / 1000
  }

  /** The display never runs backwards while the clock moves forwards. */
  lemma ElapsedMonotone(startMillis: int, now1: int, now2: int)
    requires now1 <= now2
    ensures ElapsedSeconds(startMillis, now1) <= ElapsedSeconds(startMillis, now2)
  {
    var e1, e2 := ElapsedSeconds(startMillis, now1), ElapsedSeconds(startMillis, now2);
    assert e1 * 1000 <= now2 - startMillis < e2 * 1000 + 1000;
  }

  /** A tick `k` seconds (plus less than one) after the start shows exactly `k`. */
  lemma ElapsedAtTick(startMillis: int, k: int, jitter: int)
    requires 0 <= jitter < 1000
    ensures ElapsedSeconds(startMillis, startMillis + 1000 * k + jitter) == k
  {
    assert startMillis + 1000 * k + jitter - startMillis == 1000 * k + jitter;
  }

  // ---------------------------------------------------------------------
  // Decimal text

  predicate IsDigit(c: char) {
    '0' <= c <= '9'
  }

  predicate AllDigits(s: string) {
    forall i | 0 <= i < |s| :: IsDigit(s[i])
  }

  function DigitChar(d: nat): (c: char)
    requires d < 10
    ensures IsDigit(c)
  {
    (48 + d) as char
  }

  /** The number a string of decimal digits denotes (leading zeros allowed). */
  function DigitsValue(s: string): nat
    requires AllDigits(s)
  {
    if s == [] then 0 else DigitsValue(s[..|s| - 1]) * 10 + (s[|s| - 1] as int - 48)
  }

  /** `String(n)` for a non-negative integer: its decimal digits, read back as `n`. */
  function NatToString(n: nat): (r: string)
    ensures 1 <= |r| && AllDigits(r)
    ensures DigitsValue(r) == n
    ensures n < 10 <==> |r| == 1
    ensures n < 100 <==> |r| <= 2
    ensures |r| == 1 || r[0] != '0'
  {
    if n < 10 then [DigitChar(n)]
    else
      var prefix := NatToString(n / 10);
      var r := prefix + [DigitChar(n % 10)];
      assert r[..|r| - 1] == prefix;
      r
  }

  /** `String(n)` for any integer: a minus sign before the digits of a negative number. */
  function IntToString(n: int): (r: string)
    ensures n >= 0 ==> r == NatToString(n)
    ensures n < 0 ==> |r| >= 2 && r[0] == '-' && r[1..] == NatToString(-n)
    ensures n >= 0 <==> AllDigits(r)
    ensures n >= 0 ==> DigitsValue(r) == n
    ensures n < 0 ==> AllDigits(r[1..]) && DigitsValue(r[1..]) == -n
  {
    if n < 0 then "-" + NatToString(-n) else NatToString(n)
  }

  /**
   * `s.padStart(width, fill)` for a one-character fill: `fill` repeated on
   * the left up to `width` characters; a longer string is kept whole.
   */
  function PadStart(s: string, width: nat, fill: char): (r: string)
    ensures |r| == if |s| >= width then |s| else width
    ensures r[|r| - |s|..] == s
    ensures forall i | 0 <= i < |r| - |s| :: r[i] == fill
  {
    if |s| >= width then s else seq(width - |s|, _ => fill) + s
  }

  /** JavaScript's `%`: the remainder takes the sign of the dividend. */
  function TruncRem(a: int, b: int): (r: int)
    requires b > 0
    ensures a >= 0 ==> r == a % b
    ensures -b < r < b
    ensures a < 0 ==> -b < r <= 0 && (a - r) % b == 0
  {
    if a >= 0 then a % b
    else
      NegatedRem(a, b);
      -((-a) % b)
  }

  /** Adding back the remainder of `-a` leaves a multiple of `b`. */
  lemma NegatedRem(a: int, b: int)
    requires b > 0
    ensures (a + (-a) % b) % b == 0
  {
    var q, t := (-a) / b, (-a) % b;
    assert -a == b * q + t;
    assert a + t == b * -q;
    MultipleRem(b, -q);
  }

  /** A multiple of `b` leaves no remainder. */
  lemma MultipleRem(b: int, k: int)
    requires b > 0
    ensures (b * k) % b == 0
  {
    var x := b * k;
    var q, t := x / b, x % b;
    assert x == b * q + t && 0 <= t < b;
    var d := k - q;
    assert b * d == t;
    if d > 0 {
      NonNegativeProduct(b, d - 1);
      assert false;
    } else if d < 0 {
      NonNegativeProduct(b, -d - 1);
      assert false;
    }
  }

  lemma NonNegativeProduct(x: int, y: int)
    requires x >= 0 && y >= 0
    ensures x * y >= 0
  {
  }

  function Pad2(n: int): string {
    PadStart(IntToString(n), 2, '0')
  }

  /**
   * `formatDuration(seconds)`: hours, minutes and seconds, each padded to
   * two places, joined by ':'.
   */
  function FormatDuration(seconds: int): string {
    var hours := seconds / 3600;
    var minutes := TruncRem(seconds, 3600) / 60;
    var secs := TruncRem(seconds, 60);
    Pad2(hours) + ":" + Pad2(minutes) + ":" + Pad2(secs)
  }

  /** Reads an `H…H:MM:SS` string back into seconds; None for anything else. */
  function ParseDuration(r: string): Option<nat> {
    var n := |r|;
    if n >= 8 && r[n - 6] == ':' && r[n - 3] == ':'
       && AllDigits(r[..n - 6]) && AllDigits(r[n - 5..n - 3]) && AllDigits(r[n - 2..])
    then Some(DigitsValue(r[..n - 6]) * 3600 + DigitsValue(r[n - 5..n - 3]) * 60 + DigitsValue(r[n - 2..]))
    else None
  }

  /** A padded non-negative field is all digits, at least two of them, and denotes the number. */
  lemma Pad2Value(n: nat)
    ensures AllDigits(Pad2(n)) && DigitsValue(Pad2(n)) == n
    ensures |Pad2(n)| >= 2 && |Pad2(n)| >= |NatToString(n)|
    ensures n < 100 ==> |Pad2(n)| == 2
  {
    var d := NatToString(n);
    assert IntToString(n) == d;
    if n < 10 {
      var p := Pad2(n);
      assert p == ['0'] + d;
      assert p[..1] == ['0'] && p[1] == d[0];
    } else {
      assert Pad2(n) == d;
    }
  }

  /** Where the three fields sit in `a:b:c` when the last two are two characters long. */
  lemma JoinedFields(a: string, b: string, c: string)
    requires |a| >= 2 && |b| == 2 && |c| == 2
    ensures var r := a + ":" + b + ":" + c; var n := |r|;
      n == |a| + 6 && r[n - 6] == ':' && r[n - 3] == ':'
      && r[..n - 6] == a && r[n - 5..n - 3] == b && r[n - 2..] == c
  {
    var r := a + ":" + b + ":" + c;
    assert r == a + (":" + b + ":" + c);
  }

  /** The decomposition into hours, minutes and seconds adds back up. */
  lemma Decomposition(s: nat)
    ensures (s % 3600) / 60 < 60 && s % 60 < 60
    ensures (s % 3600) % 60 == s % 60
    ensures (s / 3600) * 3600 + ((s % 3600) / 60) * 60 + s % 60 == s
  {
    var q, r := s / 3600, s % 3600;
    assert s == 3600 * q + r;
    var m, t := r / 60, r % 60;
    assert r == 60 * m + t;
    assert s == 60 * (60 * q + m) + t;
  }

  /** The seconds formatted for a non-negative count, split into the three padded fields. */
  lemma FormatDurationNonNegative(s: nat)
    ensures FormatDuration(s) == Pad2(s / 3600) + ":" + Pad2((s % 3600) / 60) + ":" + Pad2(s % 60)
  {
  }

  /**
   * `r` has the shape `H…H:MM:SS`: at least eight characters, ':' six and
   * three from the end, digits elsewhere, and its three fields denote
   * `h`, `m` and `sec`.
   */
  predicate DisplayFields(r: string, h: nat, m: nat, sec: nat) {
    var n := |r|;
    && n >= 8 && r[n - 6] == ':' && r[n - 3] == ':'
    && AllDigits(r[..n - 6]) && AllDigits(r[n - 5..n - 3]) && AllDigits(r[n - 2..])
    && DigitsValue(r[..n - 6]) == h
    && DigitsValue(r[n - 5..n - 3]) == m
    && DigitsValue(r[n - 2..]) == sec
  }

  /** The three padded fields joined by ':' sit where `ParseDuration` looks for them. */
  lemma PaddedFields(h: nat, m: nat, sec: nat)
    requires m < 60 && sec < 60
    ensures DisplayFields(Pad2(h) + ":" + Pad2(m) + ":" + Pad2(sec), h, m, sec)
    ensures h >= 100 ==> |Pad2(h) + ":" + Pad2(m) + ":" + Pad2(sec)| >= 9
  {
    Pad2Value(h);
    Pad2Value(m);
    Pad2Value(sec);
    JoinedFields(Pad2(h), Pad2(m), Pad2(sec));
  }

  /**
   * For a non-negative count of seconds the display is `H…H:MM:SS`: the
   * hours field holds `s div 3600` and takes three or more digits from 100
   * hours on, the minutes field `(s mod 3600) div 60` and the seconds field
   * `s mod 60`, both below 60 and exactly two digits long.
   */
  lemma FormatDurationFields(s: nat)
    ensures (s % 3600) / 60 < 60 && s % 60 < 60
    ensures DisplayFields(FormatDuration(s), s / 3600, (s % 3600) / 60, s % 60)
    ensures s / 3600 >= 100 ==> |FormatDuration(s)| >= 9
  {
    Decomposition(s);
    FormatDurationNonNegative(s);
    PaddedFields(s / 3600, (s % 3600) / 60, s % 60);
  }

  /** A well-formed `H…H:MM:SS` string whose fields decompose `s` parses back to `s`. */
  lemma ParseFields(r: string, s: nat)
    requires DisplayFields(r, s / 3600, (s % 3600) / 60, s % 60)
    ensures ParseDuration(r) == Some(s)
  {
    Decomposition(s);
  }

  /** Reading the display back gives the seconds it was made from. */
  lemma FormatDurationRoundTrip(s: nat)
    ensures ParseDuration(FormatDuration(s)) == Some(s)
  {
    FormatDurationFields(s);
    ParseFields(FormatDuration(s), s);
  }

  /** A negative count (a start time ahead of the local clock) prints with a leading '-'. */
  lemma NegativeDurationSign(s: int)
    requires s < 0
    ensures FormatDuration(s)[0] == '-'
  {
    var a := Pad2(s / 3600);
    assert |IntToString(s / 3600)| >= 2;
    assert FormatDuration(s) == a + ":" + Pad2(TruncRem(s, 3600) / 60) + ":" + Pad2(TruncRem(s, 60));
  }

  /** A one-digit field is padded with a single '0'. */
  lemma SingleDigitField(n: nat)
    requires n < 10
    ensures Pad2(n) == ['0', DigitChar(n)]
  {
    assert IntToString(n) == [DigitChar(n)];
  }

  /** A two-digit field is printed as its tens and units digits, unpadded. */
  lemma TwoDigitField(n: nat)
    requires 10 <= n < 100
    ensures Pad2(n) == [DigitChar(n / 10), DigitChar(n % 10)]
  {
    assert NatToString(n / 10) == [DigitChar(n / 10)];
    assert IntToString(n) == [DigitChar(n / 10)] + [DigitChar(n % 10)];
  }

  /** The display of `s` from its hours, minutes and seconds given outright. */
  lemma FormatDurationAt(s: nat, h: nat, m: nat, sec: nat)
    requires h == s / 3600 && m == (s % 3600) / 60 && sec == s % 60
    ensures FormatDuration(s) == Pad2(h) + ":" + Pad2(m) + ":" + Pad2(sec)
  {
    FormatDurationNonNegative(s);
  }

  /** One hour, one minute and one second. */
  lemma FormatsOneHourOneMinuteOneSecond()
    ensures FormatDuration(3661) == "01:01:01"
  {
    FormatDurationAt(3661, 1, 1, 1);
    SingleDigitField(1);
    var one := Pad2(1);
    assert one == "01";
    assert one + ":" + one + ":" + one == "01:01:01";
  }

  lemma FormatsZero()
    ensures FormatDuration(0) == "00:00:00"
  {
    FormatDurationAt(0, 0, 0, 0);
    SingleDigitField(0);
    var zero := Pad2(0);
    assert zero == "00";
    assert zero + ":" + zero + ":" + zero == "00:00:00";
  }

  lemma FormatsFiftyNineSeconds()
    ensures FormatDuration(59) == "00:00:59"
  {
    FormatDurationAt(59, 0, 0, 59);
    SingleDigitField(0);
    TwoDigitField(59);
    var zero, secs := Pad2(0), Pad2(59);
    assert zero == "00" && secs == "59";
    assert zero + ":" + zero + ":" + secs == "00:00:59";
  }

  // ---------------------------------------------------------------------
  // Page state

  /** A time entry as the backend reports it; `running` is the raw `running` member. */
  datatype TimerSession = TimerSession(description: string, startMillis: int, running: Value)

  /** What `timerService.startTimer` resolves to. */
  datatype StartReply = Started(session: TimerSession) | StartFailed(data: Value)

  const EmptyDescriptionAlert := "Please enter a description"
  const StartErrorAlert := "Error starting timer"
  const StopErrorAlert := "Error stopping timer"

  predicate IsBlank(s: string) {
    Trim(s) == []
  }

  class TimerState {
    var runningTimer: Option<TimerSession>
    var description: string
    var currentTime: int

    /** The page as mounted: idle, empty description, 0 seconds shown. */
    constructor ()
      ensures runningTimer == None && description == "" && currentTime == 0
    {
      runningTimer := None;
      description := "";
      currentTime := 0;
    }

    /** The description input's change event; the input is disabled while a session runs. */
    method EditDescription(text: string)
      requires runningTimer.None?
      modifies this`description
      ensures description == text
    {
      description := text;
    }

    /**
     * `checkRunningTimer`: a reported session is adopted, with its
     * description, unless its `running` member is exactly `false`;
     * `reply` is None when the request failed, which changes nothing.
     */
    method CheckRunningTimer(reply: Option<TimerSession>)
      modifies this`runningTimer, this`description
      ensures reply.Some? && reply.value.running != Bool(false) ==>
        runningTimer == reply && description == reply.value.description
      ensures !(reply.Some? && reply.value.running != Bool(false)) ==>
        runningTimer == old(runningTimer) && description == old(description)
    {
      if reply.Some? && reply.value.running != Bool(false) {
        runningTimer := reply;
        description := reply.value.description;
      }
    }

    /**
     * `handleStart`, offered only while idle: a description that trims to
     * nothing is refused with an alert and no request; otherwise the
     * backend's answer `reply` either becomes the running session with the
     * display reset to 0, or is reported in an alert. `requested` says
     * whether the backend was called.
     */
    method Start(reply: StartReply) returns (requested: bool, alert: Option<Value>)
      requires runningTimer.None?
      modifies this`runningTimer, this`currentTime
      ensures requested <==> !AllWhitespace(description)
      ensures !requested ==> alert == Some(Text(EmptyDescriptionAlert))
      ensures requested && reply.Started? ==>
        alert.None? && runningTimer == Some(reply.session) && currentTime == 0
      ensures requested && reply.StartFailed? ==>
        alert == Some(Or(Member(reply.data, "error"), Text(StartErrorAlert)))
      ensures !(requested && reply.Started?) ==>
        runningTimer == old(runningTimer) && currentTime == old(currentTime)
    {
      TrimEmptyIffBlank(description);
      if IsBlank(description) {
        requested, alert := false, Some(Text(EmptyDescriptionAlert));
        return;
      }
      requested := true;
      match reply
      case Started(session) =>
        runningTimer := Some(session);
        currentTime := 0;
        alert := None;
      case StartFailed(data) =>
        alert := Some(Or(Member(data, "error"), Text(StartErrorAlert)));
    }

    /**
     * `handleStop`, offered only while a session runs: when the backend
     * confirms (`stopped`), the page returns to idle with an empty
     * description and 0 seconds; otherwise an alert and no change.
     */
    method Stop(stopped: bool) returns (alert: Option<string>)
      requires runningTimer.Some?
      modifies this
      ensures stopped ==> alert.None? && runningTimer.None? && description == "" && currentTime == 0
      ensures !stopped ==>
        && alert == Some(StopErrorAlert)
        && runningTimer == old(runningTimer) && description == old(description) && currentTime == old(currentTime)
    {
      if stopped {
        runningTimer := None;
        description := "";
        currentTime := 0;
        alert := None;
      } else {
        alert := Some(StopErrorAlert);
      }
    }

    /** One display tick at wall-clock time `nowMillis` while a session runs. */
    method Tick(nowMillis: int)
      requires runningTimer.Some?
      modifies this`currentTime
      ensures currentTime == ElapsedSeconds(runningTimer.value.startMillis, nowMillis)
    {
      currentTime := (nowMillis - runningTimer.value.startMillis) / 1000;
    }

    /**
     * The clock shown while a session runs (nothing while idle): the
     * `formatDuration` of the count. For a non-negative count it shows the
     * hours, minutes below 60 and seconds below 60 in the H…H:MM:SS layout,
     * and it reads back as the seconds displayed.
     */
    function Display(): (r: Option<string>)
      reads this
      ensures r.Some? <==> runningTimer.Some?
      ensures r.Some? ==> r.value == FormatDuration(currentTime)
      ensures r.Some? && currentTime >= 0 ==>
        DisplayFields(r.value, currentTime / 3600, (currentTime % 3600) / 60, currentTime % 60)
      ensures r.Some? && currentTime >= 0 ==> ParseDuration(r.value) == Some(currentTime)
    {
      if runningTimer.None? then None
      else if currentTime >= 0 then
        FormatDurationFields(currentTime);
        FormatDurationRoundTrip(currentTime);
        Some(FormatDuration(currentTime))
      else Some(FormatDuration(currentTime))
    }
  }
}
