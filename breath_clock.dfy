/**
 * The breath clock: the state the page keeps in module-level variables
 * (isBreathing, breathPhase, breathPhaseStartTime, cycleCount,
 * selectedModeKey, breathTimeoutId) together with the closure of the running
 * sequence (its steps and the counter currentStep).
 *
 * The pending `setTimeout` is explicit: `pending` says a timeout is
 * scheduled, `deadline` is the time it is due. Its callback is `Fired`; a
 * cleared timeout never runs, so firing when nothing is pending changes nothing.
 *
 * The transitions are first given as functions on a `ClockState` value; the
 * class `Clock` below keeps the same state in fields and its methods are
 * proved to perform exactly those transitions.
 */
module BreathClock {
  import opened Wrappers
  import opened Breathing
  import opened Easing

  datatype ClockState = ClockState(
    isBreathing: bool,
    phase: Phase,
    phaseStart: real,
    cycleCount: nat,
    modeKey: string,
    sequence: seq<Step>,  // the steps of the running sequence
    step: nat,            // currentStep of the running sequence
    pending: bool,        // a breath timeout is scheduled
    deadline: real)       // when it is due

  /** The state when the page loads, `now` being the load time. */
  function Initial(now: real): ClockState {
    ClockState(false, Idle, now, 0, DefaultModeKey, [], 0, false, 0.0)
  }

  /**
   * The invariant: not breathing means idle with nothing scheduled; a
   * timeout is pending exactly when a breathing phase is shown; and then the
   * running sequence is the selected mode's, the phase is that of the current
   * step and the timeout is due one step duration after the phase began.
   */
  predicate ValidClock(c: ClockState) {
    && (!c.isBreathing ==> c.phase == Idle && !c.pending)
    && (c.pending <==> c.phase != Idle)
    && (c.pending ==>
          && Modes(c.modeKey).Some?
          && c.sequence == Sequence(Modes(c.modeKey).value)
          && c.step < StepCount
          && c.phase == c.sequence[c.step].phase
          && c.deadline == c.phaseStart + c.sequence[c.step].duration as real)
  }

  /** setBreathPhase: enter a phase and stamp its start time. */
  function EnterPhase(c: ClockState, p: Phase, now: real): ClockState {
    c.(phase := p, phaseStart := now)
  }

  /** runStep: unless paused, enter the current step's phase and schedule its timeout. */
  function RanStep(c: ClockState, now: real): ClockState
    requires c.step < |c.sequence|
  {
    if !c.isBreathing then c
    else
      var s := c.sequence[c.step];
      EnterPhase(c, s.phase, now).(pending := true, deadline := now + s.duration as real)
  }

  /**
   * startBreathingSequence: build the selected mode's sequence and run its
   * first step. When the key names no mode, reading `mode.inhale` throws and
   * nothing changes.
   */
  function Started(c: ClockState, now: real): ClockState {
    match Modes(c.modeKey)
    case None => c
    case Some(m) => RanStep(c.(sequence := Sequence(m), step := 0), now)
  }

  /** stopBreathingSequence: cancel the timeout and force idle (the start time is not restamped). */
  function Stopped(c: ClockState): ClockState {
    c.(pending := false, phase := Idle)
  }

  /** The timeout callback: advance the step, wrapping after rest and counting the cycle, then run the step. */
  function Fired(c: ClockState, now: real): ClockState
    requires c.pending ==> c.step < |c.sequence|
  {
    if !c.pending then c
    else
      var next := c.step + 1;
      var c1 := if next >= |c.sequence| then c.(pending := false, step := 0, cycleCount := c.cycleCount + 1)
                else c.(pending := false, step := next);
      RanStep(c1, now)
  }

  /** The play/pause button: flip isBreathing; turning on resets the count and starts, turning off stops. */
  function Toggled(c: ClockState, now: real): ClockState {
    var c1 := c.(isBreathing := !c.isBreathing);
    if c1.isBreathing then Started(c1.(cycleCount := 0), now) else Stopped(c1)
  }

  /** A mode button: an empty data-mode is ignored; otherwise select it and, if running, stop and start again. */
  function ModeChanged(c: ClockState, selected: string, now: real): ClockState {
    if selected == "" then c
    else
      var c1 := c.(modeKey := selected);
      if c1.isBreathing then Started(Stopped(c1), now) else c1
  }

  /** Successive timeouts fired at the given times. */
  function FireAll(c: ClockState, times: seq<real>): ClockState
    requires ValidClock(c)
    decreases |times|
  {
    if times == [] then c
    else
      FiredValid(c, times[0]);
      FireAll(Fired(c, times[0]), times[1..])
  }

  // ----- the invariant holds initially and is preserved -----

  lemma InitialValid(now: real)
    ensures ValidClock(Initial(now))
    ensures Initial(now).phase == Idle && !Initial(now).isBreathing && !Initial(now).pending
  {
  }

  lemma StartedValid(c: ClockState, now: real)
    requires ValidClock(c)
    ensures ValidClock(Started(c, now))
  {
    if Modes(c.modeKey).Some? {
      ModesTable(c.modeKey);
      SequenceShape(Modes(c.modeKey).value, 0);
    }
  }

  lemma FiredValid(c: ClockState, now: real)
    requires ValidClock(c)
    ensures ValidClock(Fired(c, now))
  {
    if c.pending {
      ModesTable(c.modeKey);
      SequenceShape(Modes(c.modeKey).value, (c.step + 1) % StepCount);
    }
  }

  lemma StoppedValid(c: ClockState)
    requires ValidClock(c)
    ensures ValidClock(Stopped(c))
  {
  }

  lemma ToggledValid(c: ClockState, now: real)
    requires ValidClock(c)
    ensures ValidClock(Toggled(c, now))
  {
    if !c.isBreathing {
      StartedValid(c.(isBreathing := true, cycleCount := 0), now);
    }
  }

  lemma ModeChangedValid(c: ClockState, selected: string, now: real)
    requires ValidClock(c)
    ensures ValidClock(ModeChanged(c, selected, now))
  {
    if selected != "" && c.isBreathing {
      StartedValid(Stopped(c.(modeKey := selected)), now);
    }
  }

  // ----- what each transition does -----

  /**
   * A due timeout moves to the next phase of the cycle inhale, hold, exhale,
   * rest, inhale; stamps the phase start; schedules the new phase for its
   * duration; and counts a cycle exactly when it leaves rest.
   */
  lemma FireAdvancesCycle(c: ClockState, now: real)
    requires ValidClock(c) && c.pending
    ensures var r := Fired(c, now);
      && r.pending && r.isBreathing
      && r.phase == NextPhase(c.phase)
      && r.step == (c.step + 1) % StepCount
      && r.phaseStart == now
      && r.deadline == now + RenderDurationMs(r.phase, Modes(r.modeKey)) as real
      && r.cycleCount == c.cycleCount + (if c.phase == Rest then 1 else 0)
      && r.modeKey == c.modeKey && r.sequence == c.sequence
  {
    var m := Modes(c.modeKey).value;
    ModesTable(c.modeKey);
    SequenceShape(m, c.step);
    RenderDurationMatchesSequence(m, (c.step + 1) % StepCount);
  }

  /** No zombie advance: a stopped clock, or one that is not breathing, ignores a timeout. */
  lemma StopCancelsTimeout(c: ClockState, now: real)
    ensures !Stopped(c).pending && Stopped(c).phase == Idle
    ensures Fired(Stopped(c), now) == Stopped(c)
    ensures ValidClock(c) && !c.isBreathing ==> Fired(c, now) == c
  {
  }

  /** Turning breathing on enters inhale with a zero count and schedules the selected mode's inhale duration. */
  lemma ToggleOnStartsInhale(c: ClockState, now: real)
    requires ValidClock(c) && !c.isBreathing && Modes(c.modeKey).Some?
    ensures var r := Toggled(c, now);
      && r.isBreathing && r.phase == Inhale && r.cycleCount == 0
      && r.phaseStart == now && r.pending && r.step == 0
      && r.deadline == now + (Modes(c.modeKey).value.inhale * 1000) as real
  {
  }

  /** Turning breathing on with a key that names no mode counts from zero but shows idle and schedules nothing. */
  lemma ToggleOnUnknownMode(c: ClockState, now: real)
    requires ValidClock(c) && !c.isBreathing && Modes(c.modeKey).None?
    ensures var r := Toggled(c, now);
      r.isBreathing && r.phase == Idle && r.cycleCount == 0 && !r.pending
  {
  }

  /** Turning breathing off shows idle, cancels the timeout and keeps the count and the phase start. */
  lemma ToggleOffKeepsCount(c: ClockState, now: real)
    requires c.isBreathing
    ensures var r := Toggled(c, now);
      && !r.isBreathing && r.phase == Idle && !r.pending
      && r.cycleCount == c.cycleCount && r.phaseStart == c.phaseStart
  {
  }

  /** Pausing and resuming always re-enters inhale with a zero count, whatever the phase was. */
  lemma PauseResumeReentersInhale(c: ClockState, t1: real, t2: real)
    requires ValidClock(c) && c.isBreathing && Modes(c.modeKey).Some?
    ensures var r := Toggled(Toggled(c, t1), t2);
      r.isBreathing && r.phase == Inhale && r.cycleCount == 0 && r.pending && r.phaseStart == t2
  {
  }

  /**
   * Changing to a known mode while running re-enters inhale with the new
   * mode's durations and keeps the cycle count.
   */
  lemma ModeChangeRestartsKeepsCount(c: ClockState, selected: string, now: real)
    requires ValidClock(c) && c.isBreathing && Modes(selected).Some?
    ensures var r := ModeChanged(c, selected, now);
      && r.isBreathing && r.modeKey == selected
      && r.phase == Inhale && r.phaseStart == now && r.pending && r.step == 0
      && r.sequence == Sequence(Modes(selected).value)
      && r.deadline == now + (Modes(selected).value.inhale * 1000) as real
      && r.cycleCount == c.cycleCount
  {
    ModesTable(selected);
  }

  /** Changing mode while paused only records the key; an empty key is ignored. */
  lemma ModeChangeWhilePaused(c: ClockState, selected: string, now: real)
    requires !c.isBreathing
    ensures selected == "" ==> ModeChanged(c, selected, now) == c
    ensures selected != "" ==> ModeChanged(c, selected, now) == c.(modeKey := selected)
  {
  }

  /**
   * The timeout of the current phase is due exactly when the render loop's
   * progress for that phase reaches 1.
   */
  lemma ScheduleMatchesRender(c: ClockState)
    requires ValidClock(c) && c.pending
    ensures RenderDurationMs(c.phase, Modes(c.modeKey)) > 0
    ensures c.deadline == c.phaseStart + RenderDurationMs(c.phase, Modes(c.modeKey)) as real
    ensures Progress(c.deadline - c.phaseStart, RenderDurationMs(c.phase, Modes(c.modeKey)) as real) == 1.0
  {
    var m := Modes(c.modeKey).value;
    ModesTable(c.modeKey);
    SequenceShape(m, c.step);
    RenderDurationMatchesSequence(m, c.step);
    RenderDurationPositive(c.phase, c.modeKey);
    ProgressBounds(c.deadline - c.phaseStart, RenderDurationMs(c.phase, Modes(c.modeKey)) as real);
  }

  /** Wrapping past the last step: k steps after a full lap are k steps and one more lap. */
  lemma StepWrap(k: nat)
    ensures (StepCount + k) % StepCount == k % StepCount
    ensures (StepCount + k) / StepCount == 1 + k / StepCount
  {
  }

  /**
   * Any run of timeouts stays within the four steps and the phase order:
   * after n timeouts from step s the step is (s + n) mod 4 and the count
   * has grown by (s + n) div 4, one for every wrap from rest to inhale.
   */
  lemma {:induction false} FireAllCycles(c: ClockState, times: seq<real>)
    requires ValidClock(c) && c.pending
    decreases |times|
    ensures var r := FireAll(c, times);
      && ValidClock(r) && r.pending && r.isBreathing
      && r.modeKey == c.modeKey && r.sequence == c.sequence
      && r.step == (c.step + |times|) % StepCount
      && r.cycleCount == c.cycleCount + (c.step + |times|) / StepCount
      && r.phase == c.sequence[r.step].phase
      && (times != [] ==> r.phaseStart == times[|times| - 1])
  {
    if times != [] {
      var c1 := Fired(c, times[0]);
      FiredValid(c, times[0]);
      FireAdvancesCycle(c, times[0]);
      SequenceShape(Modes(c.modeKey).value, c.step);
      FireAllCycles(c1, times[1..]);
      assert FireAll(c, times) == FireAll(c1, times[1..]);
      if c.step == StepCount - 1 {
        assert c1.step == 0 && c1.cycleCount == c.cycleCount + 1;
        StepWrap(|times| - 1);
      } else {
        assert c1.step == c.step + 1 && c1.cycleCount == c.cycleCount;
      }
      if |times| > 1 {
        assert times[1..][|times[1..]| - 1] == times[|times| - 1];
      }
    }
  }

  /**
   * The calm mode (4 s, 7 s, 8 s) started at time 0 with every timeout fired
   * when due: hold from 4000 ms, exhale from 11000 ms, rest from 19000 ms,
   * and inhale again at 20000 ms with one cycle counted.
   */
  lemma CalmScenario()
    ensures var c0 := ModeChanged(Initial(0.0), "calm", 0.0);
      var c1 := Toggled(c0, 0.0);
      c1.phase == Inhale && c1.pending && c1.deadline == 4000.0 &&
      var c2 := Fired(c1, 4000.0);
      c2.phase == Hold && c2.phaseStart == 4000.0 && c2.deadline == 11000.0 &&
      var c3 := Fired(c2, 11000.0);
      c3.phase == Exhale && c3.phaseStart == 11000.0 && c3.deadline == 19000.0 &&
      var c4 := Fired(c3, 19000.0);
      c4.phase == Rest && c4.phaseStart == 19000.0 && c4.deadline == 20000.0 && c4.cycleCount == 0 &&
      var c5 := Fired(c4, 20000.0);
      c5.phase == Inhale && c5.phaseStart == 20000.0 && c5.cycleCount == 1
  {
  }

  /** The breathing globals of the page and the closure of the running sequence, updated in place. */
  class Clock {
    var isBreathing: bool
    var breathPhase: Phase
    var breathPhaseStartTime: real
    var cycleCount: nat
    var selectedModeKey: string
    var sequence: seq<Step>
    var currentStep: nat
    var hasPending: bool
    var deadline: real

    function State(): ClockState
      reads this
    {
      ClockState(isBreathing, breathPhase, breathPhaseStartTime, cycleCount,
                 selectedModeKey, sequence, currentStep, hasPending, deadline)
    }

    ghost predicate Valid()
      reads this
    {
      ValidClock(State())
    }

    constructor (now: real)
      ensures State() == Initial(now) && Valid()
    {
      isBreathing := false;
      breathPhase := Idle;
      breathPhaseStartTime := now;
      cycleCount := 0;
      selectedModeKey := DefaultModeKey;
      sequence := [];
      currentStep := 0;
      hasPending := false;
      deadline := 0.0;
    }

    method SetBreathPhase(phase: Phase, now: real)
      modifies this
      ensures State() == EnterPhase(old(State()), phase, now)
    {
      breathPhase := phase;
      breathPhaseStartTime := now;
    }

    method RunStep(now: real)
      requires currentStep < |sequence|
      modifies this
      ensures State() == RanStep(old(State()), now)
    {
      if !isBreathing {
        return;
      }
      var step := sequence[currentStep];
      SetBreathPhase(step.phase, now);
      hasPending := true;
      deadline := now + step.duration as real;
    }

    method StartSequence(now: real)
      modifies this
      ensures State() == Started(old(State()), now)
    {
      var mode := Modes(selectedModeKey);
      if mode.None? {
        return;
      }
      sequence := Sequence(mode.value);
      currentStep := 0;
      RunStep(now);
    }

    method Stop()
      modifies this
      ensures State() == Stopped(old(State()))
      ensures old(Valid()) ==> Valid()
    {
      hasPending := false;
      breathPhase := Idle;
    }

    /** The event loop delivers the pending timeout at `now`, never before it is due. */
    method Fire(now: real)
      requires Valid()
      requires hasPending ==> deadline <= now
      modifies this
      ensures State() == Fired(old(State()), now) && Valid()
      ensures !old(hasPending) ==> unchanged(this)
    {
      FiredValid(State(), now);
      if !hasPending {
        return;
      }
      hasPending := false;
      currentStep := currentStep + 1;
      if currentStep >= |sequence| {
        currentStep := 0;
        cycleCount := cycleCount + 1;
      }
      RunStep(now);
    }

    method Toggle(now: real)
      requires Valid()
      modifies this
      ensures State() == Toggled(old(State()), now) && Valid()
    {
      ToggledValid(State(), now);
      isBreathing := !isBreathing;
      if isBreathing {
        cycleCount := 0;
        StartSequence(now);
      } else {
        Stop();
      }
    }

    method ChangeMode(selected: string, now: real)
      requires Valid()
      modifies this
      ensures State() == ModeChanged(old(State()), selected, now) && Valid()
    {
      ModeChangedValid(State(), selected, now);
      if selected == "" {
        return;
      }
      selectedModeKey := selected;
      if isBreathing {
        Stop();
        StartSequence(now);
      }
    }
  }
}
