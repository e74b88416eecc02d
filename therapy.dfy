/** The deep-breathing exercise of the therapy screen (app/functions/therapy.tsx): inhale for 4
    seconds, hold for 2, exhale for 6, four cycles, driven by a once-a-second interval. */
module Therapy {

  datatype Phase = Inhale | Hold | Exhale

  const INHALE_SECONDS: nat := 4
  const HOLD_SECONDS: nat := 2
  const EXHALE_SECONDS: nat := 6
  const TARGET_CYCLES: nat := 4

  /** How long each phase lasts. */
  function PhaseSeconds(p: Phase): nat
  {
    match p
    case Inhale => INHALE_SECONDS
    case Hold => HOLD_SECONDS
    case Exhale => EXHALE_SECONDS
  }

  /** The exercise's state. `running` also stands for the interval being set: the screen sets and
      clears both together. */
  datatype BreathState = BreathState(running: bool, phase: Phase, secondsLeft: int, cycleCount: int)

  /** The state the screen starts in. */
  const Initial: BreathState := BreathState(false, Inhale, INHALE_SECONDS, 0)

  /** The states the exercise can reach: the countdown within its phase, the cycle count at most the
      target, and below it while running. */
  predicate Valid(s: BreathState)
  {
    && 1 <= s.secondsLeft <= PhaseSeconds(s.phase)
    && 0 <= s.cycleCount <= TARGET_CYCLES
    && (s.running ==> s.cycleCount < TARGET_CYCLES)
  }

  /** One firing of the interval callback. */
  function TickState(s: BreathState): (t: BreathState)
    requires s.running
    ensures s.secondsLeft > 1 ==> t == s.(secondsLeft := s.secondsLeft - 1)
    ensures s.secondsLeft <= 1 && s.phase == Inhale ==> t == s.(phase := Hold, secondsLeft := HOLD_SECONDS)
    ensures s.secondsLeft <= 1 && s.phase == Hold ==> t == s.(phase := Exhale, secondsLeft := EXHALE_SECONDS)
    ensures s.secondsLeft <= 1 && s.phase == Exhale ==>
      t.cycleCount == s.cycleCount + 1 && t.phase == Inhale && t.secondsLeft == INHALE_SECONDS
      && (t.running <==> s.cycleCount + 1 < TARGET_CYCLES)
  {
    if s.secondsLeft > 1 then s.(secondsLeft := s.secondsLeft - 1)
    else match s.phase
      case Inhale => s.(phase := Hold, secondsLeft := HOLD_SECONDS)
      case Hold => s.(phase := Exhale, secondsLeft := EXHALE_SECONDS)
      case Exhale =>
        var next := s.cycleCount + 1;
        if next >= TARGET_CYCLES then BreathState(false, Inhale, INHALE_SECONDS, next)
        else BreathState(true, Inhale, INHALE_SECONDS, next)
  }

  /** Seconds of the exercise still to run: the rest of this phase, the later phases of this cycle
      and the cycles after it. */
  function Remaining(s: BreathState): int
  {
    if !s.running then 0
    else
      var laterPhases := match s.phase
        case Inhale => HOLD_SECONDS + EXHALE_SECONDS
        case Hold => EXHALE_SECONDS
        case Exhale => 0;
      s.secondsLeft + laterPhases
        + (TARGET_CYCLES - 1 - s.cycleCount) * (INHALE_SECONDS + HOLD_SECONDS + EXHALE_SECONDS)
  }

  /** Each tick keeps the state valid and takes exactly one second off what remains. */
  lemma TickProgress(s: BreathState)
    requires Valid(s) && s.running
    ensures Valid(TickState(s))
    ensures Remaining(TickState(s)) == Remaining(s) - 1
    ensures TickState(s).cycleCount <= TARGET_CYCLES
  {
  }

  /** n firings of the interval; once the exercise has stopped the interval is gone and nothing fires. */
  function Ticks(s: BreathState, n: nat): BreathState
    decreases n
  {
    if n == 0 || !s.running then s else Ticks(TickState(s), n - 1)
  }

  /** A running exercise keeps running for fewer ticks than it has seconds left, and after exactly
      that many it has stopped with all four cycles done. */
  lemma {:induction false} RunsToCompletion(s: BreathState, n: nat)
    requires Valid(s) && s.running
    ensures n < Remaining(s) ==> Ticks(s, n).running && Valid(Ticks(s, n))
    ensures n >= Remaining(s) ==> Ticks(s, n) == BreathState(false, Inhale, INHALE_SECONDS, TARGET_CYCLES)
    decreases n
  {
    var t := TickState(s);
    TickProgress(s);
    if n > 0 {
      if t.running {
        RunsToCompletion(t, n - 1);
      } else {
        assert Remaining(s) == 1;
      }
    } else {
      assert Remaining(s) >= 1;
    }
  }

  /** A session started from rest lasts 48 ticks: 4 cycles of 4 + 2 + 6 seconds. */
  lemma SessionLength()
    ensures Remaining(BreathState(true, Inhale, INHALE_SECONDS, 0)) == 48
    ensures Ticks(BreathState(true, Inhale, INHALE_SECONDS, 0), 47).running
    ensures !Ticks(BreathState(true, Inhale, INHALE_SECONDS, 0), 48).running
  {
    RunsToCompletion(BreathState(true, Inhale, INHALE_SECONDS, 0), 47);
    RunsToCompletion(BreathState(true, Inhale, INHALE_SECONDS, 0), 48);
  }

  /** The breathing panel's state, updated in place by the screen's handlers. */
  class Breathing {
    var running: bool
    var phase: Phase
    var secondsLeft: int
    var cycleCount: int

    constructor ()
      ensures State() == Initial
    {
      running, phase, secondsLeft, cycleCount := false, Inhale, INHALE_SECONDS, 0;
    }

    function State(): BreathState
      reads this
    {
      BreathState(running, phase, secondsLeft, cycleCount)
    }

    /** startBreathing: ignored while running; otherwise a new exercise from inhale, cycle 0. */
    method Start()
      modifies this
      ensures old(running) ==> State() == old(State())
      ensures !old(running) ==> State() == BreathState(true, Inhale, INHALE_SECONDS, 0)
      ensures Valid(State()) || State() == old(State())
    {
      if running {
        return;
      }
      running := true;
      phase := Inhale;
      secondsLeft := INHALE_SECONDS;
      cycleCount := 0;
    }

    /** The interval callback: one second of the exercise. */
    method Tick()
      requires running
      modifies this
      ensures State() == TickState(old(State()))
      ensures old(Valid(State())) ==> Valid(State()) && Remaining(State()) == Remaining(old(State())) - 1
    {
      if Valid(State()) {
        TickProgress(State());
      }
      if secondsLeft > 1 {
        secondsLeft := secondsLeft - 1;
        return;
      }
      match phase
      case Inhale =>
        phase := Hold;
        secondsLeft := HOLD_SECONDS;
      case Hold =>
        phase := Exhale;
        secondsLeft := EXHALE_SECONDS;
      case Exhale =>
        var next := cycleCount + 1;
        if next >= TARGET_CYCLES {
          Stop();
        } else {
          phase := Inhale;
          secondsLeft := INHALE_SECONDS;
        }
        cycleCount := next;
    }

    /** stopBreathing: back to a resting inhale of 4 seconds; the cycle count is kept. */
    method Stop()
      modifies this
      ensures State() == BreathState(false, Inhale, INHALE_SECONDS, old(cycleCount))
      ensures old(Valid(State())) ==> Valid(State())
    {
      running := false;
      phase := Inhale;
      secondsLeft := INHALE_SECONDS;
    }

    /** resetBreathing: stops and also sets the cycle count back to 0. */
    method Reset()
      modifies this
      ensures State() == Initial
    {
      Stop();
      cycleCount := 0;
      secondsLeft := INHALE_SECONDS;
    }
  }
}
