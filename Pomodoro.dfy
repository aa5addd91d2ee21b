// The Pomodoro timer: a focus period of 25 minutes or a break of 5, counted
// down one second at a time while the timer runs. The interval effect is
// modelled as one Tick per elapsed second; the step functions on TimerState
// specify the component's handlers, and the class applies them to its fields.

module Pomodoro {
  import opened Text

  datatype Mode = Focus | Break

  /** The length of a period, in seconds. */
  function Duration(mode: Mode): (d: nat)
    ensures d > 0
    ensures mode == Focus ==> d == 25 * 60
    ensures mode == Break ==> d == 5 * 60
  {
    if mode == Focus then 25 * 60 else 5 * 60
  }

  datatype TimerState = TimerState(mode: Mode, isActive: bool, timeLeft: int)

  /** The time left never goes below zero nor above the period. */
  predicate Valid(st: TimerState)
  {
    0 <= st.timeLeft <= Duration(st.mode)
  }

  const INITIAL := TimerState(Focus, false, 25 * 60)

  /**
   * One run of the interval effect: a running timer with time left loses a
   * second; a timer at zero stops.
   */
  function TickState(st: TimerState): (r: TimerState)
    ensures st.isActive && st.timeLeft > 0 ==> r == st.(timeLeft := st.timeLeft - 1)
    ensures st.timeLeft == 0 ==> r == st.(isActive := false)
    ensures !st.isActive && st.timeLeft != 0 ==> r == st
    ensures st.isActive && st.timeLeft < 0 ==> r == st
  {
    if st.isActive && st.timeLeft > 0 then st.(timeLeft := st.timeLeft - 1)
    else if st.timeLeft == 0 then st.(isActive := false)
    else st
  }

  /** toggleTimer: only the running flag changes. */
  function ToggleState(st: TimerState): (r: TimerState)
    ensures r.isActive == !st.isActive && r.mode == st.mode && r.timeLeft == st.timeLeft
  {
    st.(isActive := !st.isActive)
  }

  /** resetTimer: stopped, with the full period of the current mode. */
  function ResetState(st: TimerState): (r: TimerState)
    ensures !r.isActive && r.mode == st.mode && r.timeLeft == Duration(st.mode)
  {
    TimerState(st.mode, false, Duration(st.mode))
  }

  /** switchMode: the new mode, stopped, with that mode's full period. */
  function SwitchState(st: TimerState, newMode: Mode): (r: TimerState)
    ensures r.mode == newMode && !r.isActive && r.timeLeft == Duration(newMode)
  {
    TimerState(newMode, false, Duration(newMode))
  }

  lemma InitialValid()
    ensures Valid(INITIAL) && INITIAL.timeLeft == Duration(INITIAL.mode) && !INITIAL.isActive
  {
  }

  /** Every handler keeps the time left within the period. */
  lemma ValidPreserved(st: TimerState, newMode: Mode)
    requires Valid(st)
    ensures Valid(TickState(st)) && Valid(ToggleState(st)) && Valid(ResetState(st)) && Valid(SwitchState(st, newMode))
  {
  }

  lemma ToggleTwice(st: TimerState)
    ensures ToggleState(ToggleState(st)) == st
  {
  }

  /** After resetting, nothing of the period has elapsed, whatever state the timer was in. */
  lemma ResetForgets(st: TimerState, other: TimerState)
    requires st.mode == other.mode
    ensures ResetState(st) == ResetState(other)
  {
  }

  /** `n` seconds of the interval effect. */
  function Ticks(st: TimerState, n: nat): TimerState
    decreases n
  {
    if n == 0 then st else Ticks(TickState(st), n - 1)
  }

  /** A running timer counts down its time left exactly, then stops on the next tick. */
  lemma {:induction false} CountdownEnds(st: TimerState)
    requires st.isActive && st.timeLeft >= 0
    ensures Ticks(st, st.timeLeft) == st.(timeLeft := 0)
    ensures TickState(Ticks(st, st.timeLeft)) == st.(timeLeft := 0, isActive := false)
    decreases st.timeLeft
  {
    if st.timeLeft > 0 {
      var next := TickState(st);
      assert next == st.(timeLeft := st.timeLeft - 1);
      CountdownEnds(next);
      assert Ticks(st, st.timeLeft) == Ticks(next, next.timeLeft);
    }
  }

  /** A stopped timer does not move, however long it waits. */
  lemma {:induction false} StoppedStays(st: TimerState, n: nat)
    requires !st.isActive
    ensures Ticks(st, n) == st
    decreases n
  {
    if n > 0 {
      StoppedStays(TickState(st), n - 1);
    }
  }

  /** The elapsed share of the period as a percentage, as an exact real. */
  function Progress(st: TimerState): (p: real)
    requires Valid(st)
    ensures 0.0 <= p <= 100.0
    ensures p == 0.0 <==> st.timeLeft == Duration(st.mode)
    ensures p == 100.0 <==> st.timeLeft == 0
  {
    var d := Duration(st.mode) as real;
    (d - st.timeLeft as real) / d * 100.0
  }

  // ---------------------------------------------------------------- display

  /** formatTime: whole minutes and the remaining seconds, each padded to two digits. */
  function FormatCountdown(seconds: nat): (s: string)
    ensures |s| >= 5 && s[|s| - 3] == ':'
    ensures AllDigits(s[|s| - 2..]) && ParseNat(s[|s| - 2..]) == seconds % 60
    ensures seconds < 6000 <==> |s| == 5
  {
    CountdownShape(seconds / 60, seconds % 60);
    PadTwo(NatToString(seconds / 60)) + ":" + PadTwo(NatToString(seconds % 60))
  }

  /** The display of `mins` minutes and `secs` seconds ends in ":SS", and is five characters
      long exactly when the minutes fit in two digits. */
  lemma CountdownShape(mins: nat, secs: nat)
    requires secs < 60
    ensures var s := PadTwo(NatToString(mins)) + ":" + PadTwo(NatToString(secs));
      && |s| >= 5 && s[|s| - 3] == ':'
      && s[|s| - 2..] == PadTwo(NatToString(secs))
      && AllDigits(s[|s| - 2..]) && ParseNat(s[|s| - 2..]) == secs
      && (mins < 100 <==> |s| == 5)
  {
    PadTwoDigits(secs);
    NatToStringShort(mins);
    Joined(PadTwo(NatToString(mins)), PadTwo(NatToString(secs)));
  }

  /** Minutes and a two-character seconds part, joined by a colon. */
  lemma Joined(m: string, t: string)
    requires |t| == 2
    ensures var s := m + ":" + t;
      |s| == |m| + 3 && s[|s| - 3] == ':' && s[|s| - 2..] == t
  {
    var s := m + ":" + t;
    assert s == (m + ":") + t;
  }

  /** The shape the display takes for times under 100 minutes. */
  predicate Readable(t: string)
  {
    |t| == 5 && AllDigits(t[..2]) && t[2] == ':' && AllDigits(t[3..])
  }

  function ReadCountdown(t: string): nat
    requires Readable(t)
  {
    60 * ParseNat(t[..2]) + ParseNat(t[3..])
  }

  /** Under 100 minutes the display reads back as the seconds it shows. */
  lemma CountdownRoundTrip(seconds: nat)
    requires seconds < 6000
    ensures Readable(FormatCountdown(seconds))
    ensures ReadCountdown(FormatCountdown(seconds)) == seconds
  {
    PadTwoDigits(seconds / 60);
    PadTwoDigits(seconds % 60);
    var mins := PadTwo(NatToString(seconds / 60));
    var secs := PadTwo(NatToString(seconds % 60));
    var s := FormatCountdown(seconds);
    assert s == mins + ":" + secs;
    assert s[..2] == mins && s[3..] == secs;
  }

  /** Every time a valid timer shows is readable, since neither period reaches 100 minutes. */
  lemma DisplayReadable(st: TimerState)
    requires Valid(st)
    ensures Readable(FormatCountdown(st.timeLeft)) && ReadCountdown(FormatCountdown(st.timeLeft)) == st.timeLeft
  {
    CountdownRoundTrip(st.timeLeft);
  }

  // ---------------------------------------------------------------- component

  class PomodoroTimer {
    var mode: Mode
    var isActive: bool
    var timeLeft: int

    function State(): TimerState
      reads this
    {
      TimerState(mode, isActive, timeLeft)
    }

    constructor()
      ensures State() == INITIAL
    {
      mode, isActive, timeLeft := Focus, false, 25 * 60;
    }

    /** One second of the interval effect. */
    method Tick()
      modifies this
      ensures State() == TickState(old(State()))
    {
      if isActive && timeLeft > 0 {
        timeLeft := timeLeft - 1;
      } else if timeLeft == 0 {
        isActive := false;
      }
    }

    method ToggleTimer()
      modifies this
      ensures State() == ToggleState(old(State()))
    {
      isActive := !isActive;
    }

    method ResetTimer()
      modifies this
      ensures State() == ResetState(old(State()))
    {
      isActive := false;
      timeLeft := if mode == Focus then 25 * 60 else 5 * 60;
    }

    method SwitchMode(newMode: Mode)
      modifies this
      ensures State() == SwitchState(old(State()), newMode)
    {
      mode := newMode;
      isActive := false;
      timeLeft := if newMode == Focus then 25 * 60 else 5 * 60;
    }

    /** The text the timer shows. */
    method Display() returns (text: string)
      requires timeLeft >= 0
      ensures text == FormatCountdown(timeLeft)
      ensures Valid(State()) ==> Readable(text) && ReadCountdown(text) == timeLeft
    {
      var mins := timeLeft / 60;
      var secs := timeLeft % 60;
      text := PadTwo(NatToString(mins)) + ":" + PadTwo(NatToString(secs));
      if Valid(State()) {
        DisplayReadable(State());
      }
    }
  }
}
