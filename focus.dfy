/** The Pomodoro timer of the focus page (src/pages/Focus.tsx): a state
    machine over mode, remaining and initial time (in seconds), the
    active and paused flags and the count of completed focus sessions. The
    one-second interval is modelled as an explicit `Tick` step; the
    notification toast is left out. */
module Focus {
  import opened Text

  datatype Mode = FocusMode | ShortBreak | LongBreak

  /** The length of a session of each mode, in seconds. */
  function Duration(m: Mode): (d: nat)
    ensures d == 25 * 60 <==> m == FocusMode
    ensures d == 5 * 60 <==> m == ShortBreak
    ensures d == 15 * 60 <==> m == LongBreak
  {
    match m
    case FocusMode => 25 * 60
    case ShortBreak => 5 * 60
    case LongBreak => 15 * 60
  }

  /** Mode and cycle count after a session of `mode` runs out. */
  datatype Phase = Phase(mode: Mode, cycles: nat)

  function AfterComplete(p: Phase): (r: Phase)
    ensures p.mode == FocusMode ==>
      && r.cycles == p.cycles + 1
      && (r.mode == LongBreak <==> r.cycles % 4 == 0)
      && (r.mode == ShortBreak <==> r.cycles % 4 != 0)
    ensures p.mode != FocusMode ==> r == Phase(FocusMode, p.cycles)
  {
    if p.mode == FocusMode then
      var n := p.cycles + 1;
      Phase(if n % 4 == 0 then LongBreak else ShortBreak, n)
    else Phase(FocusMode, p.cycles)
  }

  /** Each focus session is followed by exactly one break, then focus again:
      the cycle count goes up by one per round. */
  lemma RoundTrip(c: nat)
    ensures AfterComplete(AfterComplete(Phase(FocusMode, c))) == Phase(FocusMode, c + 1)
  {
  }

  function Rounds(p: Phase, n: nat): Phase
    decreases n
  {
    if n == 0 then p else Rounds(AfterComplete(AfterComplete(p)), n - 1)
  }

  /** Starting from focus, every fourth break is the long one. */
  lemma {:induction false} FourthBreakIsLong(c: nat, n: nat)
    ensures Rounds(Phase(FocusMode, c), n) == Phase(FocusMode, c + n)
    ensures AfterComplete(Rounds(Phase(FocusMode, c), n)).mode == LongBreak <==> (c + n + 1) % 4 == 0
    decreases n
  {
    if n > 0 {
      RoundTrip(c);
      FourthBreakIsLong(c + 1, n - 1);
    }
  }

  /** Where the skip button goes. */
  function SkipTarget(m: Mode): (r: Mode)
    ensures r != m && r != LongBreak
    ensures r == ShortBreak <==> m == FocusMode
  {
    if m == FocusMode then ShortBreak else FocusMode
  }

  /** `formatTime`: zero-padded minutes, a colon, zero-padded seconds. The
      minutes field reads back as the whole minutes and the last two digits
      as the seconds left over. */
  function FormatTime(t: nat): (s: string)
    ensures |s| >= 5 && s[|s| - 3] == ':'
    ensures forall i :: 0 <= i < |s| && i != |s| - 3 ==> IsDigit(s[i])
    ensures ParseNat(s[..|s| - 3]) == t / 60
    ensures ParseNat(s[|s| - 2..]) == t % 60
  {
    var mm := PadStart2(NatToString(t / 60));
    var ss := PadStart2(NatToString(t % 60));
    PaddedParses(t / 60);
    TwoDigits(t % 60);
    ColonJoin(mm, ss);
    mm + ":" + ss
  }

  /** Joining two digit strings, the second one of length two, with a colon. */
  lemma ColonJoin(mm: string, ss: string)
    requires |mm| >= 2 && |ss| == 2
    requires (forall i :: 0 <= i < |mm| ==> IsDigit(mm[i])) && (forall i :: 0 <= i < 2 ==> IsDigit(ss[i]))
    ensures var s := mm + ":" + ss;
      && |s| >= 5 && s[|s| - 3] == ':'
      && (forall i :: 0 <= i < |s| && i != |s| - 3 ==> IsDigit(s[i]))
      && s[..|s| - 3] == mm && s[|s| - 2..] == ss
  {
    var s := mm + ":" + ss;
    assert forall i :: 0 <= i < |mm| ==> s[i] == mm[i];
    assert forall i :: |mm| < i < |s| ==> s[i] == ss[i - |mm| - 1];
  }

  /** Below 100 minutes the display is `MM:SS`, both fields two digits, the
      seconds in 0..59, and it reads back as the time it shows. */
  lemma FormatTimeRoundTrip(t: nat)
    requires t < 100 * 60
    ensures var s := FormatTime(t);
      && |s| == 5 && s[2] == ':'
      && (forall i :: i in {0, 1, 3, 4} ==> IsDigit(s[i]))
      && ParseNat(s[3..]) < 60
      && ParseNat(s[..2]) * 60 + ParseNat(s[3..]) == t
  {
    var mm := PadStart2(NatToString(t / 60));
    var ss := PadStart2(NatToString(t % 60));
    TwoDigits(t / 60);
    TwoDigits(t % 60);
    var s := FormatTime(t);
    assert s == mm + ":" + ss;
    assert s[..2] == mm;
    assert s[3..] == ss;
  }

  /** The display is one-to-one below 100 minutes. */
  lemma FormatTimeInjective(t: nat, u: nat)
    requires t < 100 * 60 && u < 100 * 60
    requires FormatTime(t) == FormatTime(u)
    ensures t == u
  {
    FormatTimeRoundTrip(t);
    FormatTimeRoundTrip(u);
  }

  /** The "Cycle" number shown: the block of four sessions the count is in,
      counting from one. */
  function CycleShown(cycles: nat): (c: nat)
    ensures c >= 1
    ensures (c - 1) * 4 <= cycles < c * 4
  {
    cycles / 4 + 1
  }

  /** The "Session ... of 4" number shown. */
  function SessionShown(cycles: nat): (s: nat)
    ensures 1 <= s <= 4
  {
    cycles % 4 + 1
  }

  /** Cycle and session together determine the completed count. */
  lemma CycleSessionDetermineCount(cycles: nat)
    ensures (CycleShown(cycles) - 1) * 4 + SessionShown(cycles) - 1 == cycles
  {
  }

  class FocusTimer {
    var mode: Mode
    var time: int
    var initialTime: int
    var cycles: nat
    var isActive: bool
    var isPaused: bool

    /** The initial time is the length of the current mode, and the time left
        lies between zero and it. */
    ghost predicate Valid()
      reads this
    {
      initialTime == Duration(mode) && 0 <= time <= initialTime
    }

    constructor ()
      ensures Valid()
      ensures mode == FocusMode && time == 25 * 60 && initialTime == 25 * 60
      ensures cycles == 0 && !isActive && !isPaused
    {
      mode := FocusMode;
      time := 25 * 60;
      initialTime := 25 * 60;
      cycles := 0;
      isActive := false;
      isPaused := false;
    }

    /** `switchMode`: the mode's full length, on both clocks. */
    method SwitchMode(m: Mode)
      modifies this
      ensures Valid()
      ensures mode == m && time == Duration(m) && initialTime == Duration(m)
      ensures cycles == old(cycles) && isActive == old(isActive) && isPaused == old(isPaused)
    {
      mode := m;
      time := Duration(m);
      initialTime := Duration(m);
    }

    /** `handleTimerComplete`. */
    method Complete()
      modifies this
      ensures Valid()
      ensures !isActive && !isPaused
      ensures Phase(mode, cycles) == AfterComplete(Phase(old(mode), old(cycles)))
      ensures time == Duration(mode)
    {
      isActive := false;
      isPaused := false;
      if mode == FocusMode {
        var newCycles := cycles + 1;
        cycles := newCycles;
        if newCycles % 4 == 0 {
          SwitchMode(LongBreak);
        } else {
          SwitchMode(ShortBreak);
        }
      } else {
        SwitchMode(FocusMode);
      }
    }

    /** One run of the interval callback. */
    method Tick()
      requires Valid() && isActive && !isPaused
      modifies this
      ensures Valid()
      ensures old(time) > 1 ==>
        && time == old(time) - 1 && mode == old(mode) && initialTime == old(initialTime)
        && cycles == old(cycles) && isActive && !isPaused
      ensures old(time) <= 1 ==>
        && !isActive && !isPaused && time == Duration(mode)
        && Phase(mode, cycles) == AfterComplete(Phase(old(mode), old(cycles)))
    {
      if time <= 1 {
        time := 0;
        Complete();
      } else {
        time := time - 1;
      }
    }

    /** The interval callback in the order the source writes it: the updater
        calls `handleTimerComplete`, whose `switchMode` queues the new mode's
        length, and then returns 0, which React applies after it. */
    method TickAsWritten()
      requires Valid() && isActive && !isPaused
      modifies this
      ensures Valid()
      ensures old(time) > 1 ==>
        && time == old(time) - 1 && mode == old(mode) && initialTime == old(initialTime)
        && cycles == old(cycles) && isActive && !isPaused
      ensures old(time) <= 1 ==>
        && !isActive && !isPaused && time == 0 && initialTime == Duration(mode)
        && Phase(mode, cycles) == AfterComplete(Phase(old(mode), old(cycles)))
    {
      if time <= 1 {
        Complete();
        time := 0;
      } else {
        time := time - 1;
      }
    }

    /** `handleStartPause`. */
    method StartPause()
      requires Valid()
      modifies this
      ensures Valid()
      ensures old(isActive) ==> isActive && isPaused == !old(isPaused)
      ensures !old(isActive) ==> isActive && isPaused == old(isPaused)
      ensures mode == old(mode) && time == old(time) && initialTime == old(initialTime) && cycles == old(cycles)
    {
      if isActive {
        isPaused := !isPaused;
      } else {
        isActive := true;
      }
    }

    /** As written, the break after a focus session lasts one tick: the
        session's last tick leaves 0 on the clock, so starting the break and
        ticking once completes it and returns to focus. */
    method BreakLostAsWritten()
      requires Valid() && isActive && !isPaused && time == 1 && mode == FocusMode
      modifies this
      ensures mode == FocusMode && cycles == old(cycles) + 1 && time == 0
      ensures !isActive
    {
      TickAsWritten();
      StartPause();
      TickAsWritten();
    }

    /** With the new mode's length left on the clock, the break starts and
        its first tick takes one second off it. */
    method BreakKept()
      requires Valid() && isActive && !isPaused && time == 1 && mode == FocusMode
      modifies this
      ensures mode != FocusMode && cycles == old(cycles) + 1
      ensures isActive && !isPaused && time == Duration(mode) - 1 && time >= 5 * 60 - 1
    {
      Tick();
      StartPause();
      Tick();
    }

    /** `handleReset`: back to the full length of the current mode. */
    method Reset()
      requires Valid()
      modifies this
      ensures Valid()
      ensures !isActive && !isPaused && time == initialTime
      ensures mode == old(mode) && initialTime == old(initialTime) && cycles == old(cycles)
    {
      isActive := false;
      isPaused := false;
      time := initialTime;
    }

    /** The skip button: reset, then focus to short break or a break to focus. */
    method Skip()
      requires Valid()
      modifies this
      ensures Valid()
      ensures !isActive && !isPaused
      ensures mode == SkipTarget(old(mode)) && time == Duration(mode)
      ensures cycles == old(cycles)
    {
      Reset();
      SwitchMode(SkipTarget(mode));
    }

    /** The three mode buttons: reset, then switch. */
    method SelectMode(m: Mode)
      requires Valid()
      modifies this
      ensures Valid()
      ensures !isActive && !isPaused
      ensures mode == m && time == Duration(m)
      ensures cycles == old(cycles)
    {
      Reset();
      SwitchMode(m);
    }
  }
}
