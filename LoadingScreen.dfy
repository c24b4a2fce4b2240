/**
 * The loading screen (`LoadingScreen`): an interval timer that advances a
 * progress counter by 2 per tick, derives a phase from it, and on the first
 * tick that finds the counter at 100 stops itself and schedules the
 * completion callback.
 */
module LoadingScreen {

  /** Number of phases the screen cycles through. */
  const PhaseCount := 4

  /**
   * The screen's state: the two state variables, whether the interval timer
   * still runs, and how many times the completion callback has been scheduled.
   */
  datatype LoadState = LoadState(progress: int, phase: int, running: bool, completions: nat)

  const Start := LoadState(0, 0, true, 0)

  /**
   * One interval callback. A stopped timer does not tick. At 100 or more
   * the callback clears its timer, schedules the completion and pins
   * progress at 100; below, it adds 2 and moves to phase `progress / 25`
   * when that is a phase the screen has.
   */
  function Step(s: LoadState): LoadState {
    if !s.running then s
    else if s.progress >= 100 then LoadState(100, s.phase, false, s.completions + 1)
    else
      var progress := s.progress + 2;
      var phase := progress / 25;
      LoadState(progress, if phase != s.phase && phase < PhaseCount then phase else s.phase, true, s.completions)
  }

  /** The state after `n` interval ticks. */
  function Run(s: LoadState, n: nat): LoadState
    decreases n
  {
    if n == 0 then s else Run(Step(s), n - 1)
  }

  function Min(a: int, b: int): int {
    if a < b then a else b
  }

  /**
   * What holds of every state the screen passes through: progress is an even
   * number in 0..100, the phase is `min(progress / 25, 3)`, and the timer has
   * stopped exactly when the completion has been scheduled, once.
   */
  predicate Reachable(s: LoadState) {
    && 0 <= s.progress <= 100
    && s.progress % 2 == 0
    && s.phase == Min(s.progress / 25, PhaseCount - 1)
    && (s.running <==> s.completions == 0)
    && (!s.running ==> s.completions == 1 && s.progress == 100)
  }

  /** A tick keeps the invariant, never lowers progress, and adds exactly 2 below 100. */
  lemma StepPreserves(s: LoadState)
    requires Reachable(s)
    ensures Reachable(Step(s))
    ensures Step(s).progress >= s.progress
    ensures s.running && s.progress < 100 ==> Step(s).progress == s.progress + 2
    ensures Step(s).completions <= 1
  {
  }

  /**
   * From a fresh screen, after `n` ticks: progress is `2n` capped at 100,
   * the phase follows it, and the completion has been scheduled exactly
   * once from tick 51 on, never before.
   */
  lemma {:induction false} RunFromStart(n: nat)
    ensures Run(Start, n) ==
      if n <= 50 then LoadState(2 * n, Min(2 * n / 25, PhaseCount - 1), true, 0)
      else LoadState(100, PhaseCount - 1, false, 1)
  {
    if n > 0 {
      RunFromStart(n - 1);
      RunShift(Start, n - 1);
    }
  }

  /** Running `n + 1` ticks is running `n` ticks and then one more. */
  lemma {:induction false} RunShift(s: LoadState, n: nat)
    ensures Run(s, n + 1) == Step(Run(s, n))
    decreases n
  {
    if n > 0 {
      RunShift(Step(s), n - 1);
    }
  }

  /** The mounted screen. */
  class Loader {
    var progress: int
    var phase: int
    var running: bool          // the interval timer is still set
    var completions: nat       // times `onComplete` has been scheduled

    function State(): LoadState
      reads this
    {
      LoadState(progress, phase, running, completions)
    }

    constructor ()
      ensures State() == Start && Reachable(State())
    {
      progress := 0;
      phase := 0;
      running := true;
      completions := 0;
    }

    /** The interval callback, as `Step` describes it. */
    method Tick()
      requires Reachable(State())
      modifies this
      ensures State() == Step(old(State()))
      ensures Reachable(State())
      ensures progress >= old(progress)
    {
      StepPreserves(State());
      if !running {
        return;
      }
      if progress >= 100 {
        running := false;
        completions := completions + 1;
        progress := 100;
        return;
      }
      var newProgress := progress + 2;
      var newPhase := newProgress / 25;
      if newPhase != phase && newPhase < PhaseCount {
        phase := newPhase;
      }
      progress := newProgress;
    }
  }
}
