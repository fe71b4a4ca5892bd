/** The simulated live-recognition feed of the "Listen to ECHO" modal
    (frontend/src/components/modals/ListenToEchoModal.js).

    While live recognition is on, an interval timer walks a fixed four-step
    cycle listening, recognized, listening, unknown; a closure counter
    remembers the next step. Switching recognition off clears the timer and
    shows `idle`; switching it on starts a fresh timer whose counter is 0 but
    leaves the status alone until the first tick. "Got it" in the unknown
    view jumps back to listening without touching the counter. Timer ticks
    are explicit calls here. */
module ListenToEcho {

  datatype Phase = Idle | Listening | Recognized | Unknown

  /** The status the interval callback sets when its counter is `k`. */
  function CycleAt(k: nat): (p: Phase)
    requires k < 4
    ensures p != Idle
    ensures p == Listening <==> k % 2 == 0
    ensures p == Recognized <==> k == 1
  {
    [Listening, Recognized, Listening, Unknown][k]
  }

  /** `isLiveRecognitionOn`, `recognitionStatus`, the closure counter
      `currentStep` and whether an interval is currently scheduled. */
  datatype Simulator = Simulator(enabled: bool, phase: Phase, step: nat, timerActive: bool)

  /** The counter stays in 0..3, a timer runs only while recognition is on,
      and "off" always shows `idle`. The converse, "idle only when off", does
      not hold: see ReenabledStaysIdleUntilTick. */
  ghost predicate Inv(s: Simulator) {
    && s.step < 4
    && (s.timerActive ==> s.enabled)
    && (!s.enabled ==> s.phase == Idle && !s.timerActive)
  }

  /** Mounting: recognition on, status listening, and the effect has already
      scheduled a timer whose counter starts at 0. */
  function Mounted(): (s: Simulator)
    ensures Inv(s)
    ensures s.enabled && s.phase == Listening && s.timerActive && s.step == 0
  {
    Simulator(true, Listening, 0, true)
  }

  /** One firing of the interval, if one is scheduled. */
  function AfterTick(s: Simulator): (r: Simulator)
    requires Inv(s)
    ensures Inv(r)
    ensures r.enabled == s.enabled && r.timerActive == s.timerActive
    ensures s.timerActive ==> r.phase != Idle && r.phase == CycleAt(s.step) && r.step == (s.step + 1) % 4
    ensures !s.timerActive ==> r == s
  {
    if s.timerActive then s.(phase := CycleAt(s.step), step := (s.step + 1) % 4) else s
  }

  /** The switch: flips `isLiveRecognitionOn`; the effect then either clears
      the timer and shows idle, or schedules a new timer with counter 0. */
  function AfterToggle(s: Simulator): (r: Simulator)
    requires Inv(s)
    ensures Inv(r)
    ensures r.enabled == !s.enabled
    ensures !r.enabled ==> r.phase == Idle && !r.timerActive
    ensures r.enabled ==> r.timerActive && r.step == 0 && r.phase == s.phase
  {
    if s.enabled then Simulator(false, Idle, s.step, false)
    else Simulator(true, s.phase, 0, true)
  }

  /** "Got it", offered only in the unknown view. */
  function AfterGotIt(s: Simulator): (r: Simulator)
    requires Inv(s) && s.phase == Unknown
    ensures Inv(r)
    ensures r.phase == Listening
    ensures r.step == s.step && r.enabled == s.enabled && r.timerActive == s.timerActive
  {
    s.(phase := Listening)
  }

  /** The effect's cleanup when the modal unmounts: the interval is cleared. */
  function AfterUnmount(s: Simulator): (r: Simulator)
    requires Inv(s)
    ensures Inv(r) && !r.timerActive
    ensures r.enabled == s.enabled && r.phase == s.phase && r.step == s.step
  {
    s.(timerActive := false)
  }

  /** `n` consecutive firings of the interval. */
  function RunTicks(s: Simulator, n: nat): (r: Simulator)
    requires Inv(s)
    ensures Inv(r)
    ensures r.enabled == s.enabled && r.timerActive == s.timerActive
  {
    if n == 0 then s else AfterTick(RunTicks(s, n - 1))
  }

  /** While a timer runs, the counter advances by one per tick modulo 4 and
      the status is the cycle entry of the previous counter value. */
  lemma {:induction false} TicksFollowCycle(s: Simulator, n: nat)
    requires Inv(s) && s.timerActive
    ensures RunTicks(s, n).step == (s.step + n) % 4
    ensures n > 0 ==> RunTicks(s, n).phase == CycleAt((s.step + n - 1) % 4)
  {
    if n > 0 {
      TicksFollowCycle(s, n - 1);
      TickAdvancesCounter(RunTicks(s, n - 1), s.step + n - 1);
    }
  }

  /** A tick on a counter that tracks `a` ticks modulo 4 shows the cycle
      entry of `a` and moves on to track `a + 1`. */
  lemma TickAdvancesCounter(s: Simulator, a: nat)
    requires Inv(s) && s.timerActive && s.step == a % 4
    ensures AfterTick(s).step == (a + 1) % 4 && AfterTick(s).phase == CycleAt(a % 4)
  {
    assert a == 4 * (a / 4) + a % 4;
  }

  /** After recognition is switched on, every 4n ticks the counter is back
      at 0 and the next tick shows listening. */
  lemma FullCyclesReturnToListening(s: Simulator, n: nat)
    requires Inv(s) && !s.enabled
    ensures RunTicks(AfterToggle(s), 4 * n).step == 0
    ensures AfterTick(RunTicks(AfterToggle(s), 4 * n)).phase == Listening
  {
    TicksFollowCycle(AfterToggle(s), 4 * n);
  }

  /** From mounting, four ticks run the whole cycle and end on unknown with
      the counter back at 0. */
  lemma OneCycleFromMount()
    ensures RunTicks(Mounted(), 1).phase == Listening
    ensures RunTicks(Mounted(), 2).phase == Recognized
    ensures RunTicks(Mounted(), 3).phase == Listening
    ensures RunTicks(Mounted(), 4).phase == Unknown && RunTicks(Mounted(), 4).step == 0
  {
    TicksFollowCycle(Mounted(), 1);
    TicksFollowCycle(Mounted(), 2);
    TicksFollowCycle(Mounted(), 3);
    TicksFollowCycle(Mounted(), 4);
  }

  /** With no timer scheduled (recognition off, or the modal unmounted) no
      number of ticks changes anything. */
  lemma {:induction false} NoTimerNoChange(s: Simulator, n: nat)
    requires Inv(s) && !s.timerActive
    ensures RunTicks(s, n) == s
  {
    if n > 0 {
      NoTimerNoChange(s, n - 1);
    }
  }

  /** Switching off, then ticking: the status stays idle. */
  lemma DisabledStaysIdle(s: Simulator, n: nat)
    requires Inv(s) && s.enabled
    ensures RunTicks(AfterToggle(s), n).phase == Idle
  {
    NoTimerNoChange(AfterToggle(s), n);
  }

  /** Switching back on leaves the status idle while recognition is on,
      until the first tick shows listening. */
  lemma ReenabledStaysIdleUntilTick(s: Simulator)
    requires Inv(s) && s.enabled
    ensures var on := AfterToggle(AfterToggle(s));
            on.enabled && on.phase == Idle && AfterTick(on).phase == Listening
  {
  }

  /** Toggling twice restores the switch (but not the status or counter). */
  lemma ToggleTwiceRestoresSwitch(s: Simulator)
    requires Inv(s)
    ensures AfterToggle(AfterToggle(s)).enabled == s.enabled
  {
  }

  /** The modal's state, updated in place by its handlers and its timer. */
  class RecognitionSimulator {
    var enabled: bool
    var phase: Phase
    var step: nat
    var timerActive: bool

    function State(): Simulator
      reads this
    {
      Simulator(enabled, phase, step, timerActive)
    }

    ghost predicate Valid()
      reads this
    {
      Inv(State())
    }

    constructor ()
      ensures Valid() && State() == Mounted()
    {
      enabled, phase, step, timerActive := true, Listening, 0, true;
    }

    method Tick()
      requires Valid()
      modifies this
      ensures Valid() && State() == AfterTick(old(State()))
    {
      if timerActive {
        phase := CycleAt(step);
        step := (step + 1) % 4;
      }
    }

    method ToggleLiveRecognition()
      requires Valid()
      modifies this
      ensures Valid() && State() == AfterToggle(old(State()))
    {
      enabled := !enabled;
      timerActive := false;
      if enabled {
        step := 0;
        timerActive := true;
      } else {
        phase := Idle;
      }
    }

    method GotIt()
      requires Valid() && phase == Unknown
      modifies this
      ensures Valid() && State() == AfterGotIt(old(State()))
    {
      phase := Listening;
    }

    method Unmount()
      requires Valid()
      modifies this
      ensures Valid() && State() == AfterUnmount(old(State()))
    {
      timerActive := false;
    }
  }
}
