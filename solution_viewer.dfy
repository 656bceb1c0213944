/** The fill screen's player: it shows one snapshot of a run at a time and
    steps through them by buttons, by keys, or by an autoplay tick. Its state
    is the index of the snapshot on screen and whether autoplay is on. */
module SolutionViewer {
  import opened Colors
  import Filler

  /** One forward step from `step` among `totalSteps` snapshots: the next
      index, and whether the step hit the end (then the index stays and
      playback stops). Shared by the forward button and the autoplay tick. */
  function Advance(step: int, totalSteps: int): (r: (int, bool))
    ensures r.1 <==> step >= totalSteps - 1
    ensures r.1 ==> r.0 == step
    ensures !r.1 ==> r.0 == step + 1
    ensures 0 <= step < totalSteps ==> 0 <= r.0 < totalSteps
  {
    if step >= totalSteps - 1 then (step, true) else (step + 1, false)
  }

  /** One backward step: the previous index, never below 0
      (`Math.max(0, s - 1)`). */
  function Retreat(step: int): (r: int)
    ensures r >= 0
    ensures step >= 1 ==> r == step - 1
    ensures step <= 1 ==> r == 0
  {
    if step - 1 >= 0 then step - 1 else 0
  }

  /** Backward undoes forward and forward undoes backward, away from the
      ends of the run. */
  lemma RetreatAdvanceInverse(step: int, totalSteps: int)
    requires 0 <= step < totalSteps
    ensures step < totalSteps - 1 ==> Retreat(Advance(step, totalSteps).0) == step
    ensures 0 < step ==> Advance(Retreat(step), totalSteps).0 == step
  {
  }

  /** The index after n autoplay ticks (or forward presses) from `step`. */
  function Ticks(step: int, totalSteps: int, n: nat): (r: int)
    requires 0 <= step < totalSteps
    ensures 0 <= r < totalSteps
    decreases n
  {
    if n == 0 then step else Ticks(Advance(step, totalSteps).0, totalSteps, n - 1)
  }

  /** Autoplay from any step reaches the final snapshot after the number of
      steps left, and stays there. */
  lemma {:induction false} TicksReachEnd(step: int, totalSteps: int, n: nat)
    requires 0 <= step < totalSteps && n >= totalSteps - 1 - step
    ensures Ticks(step, totalSteps, n) == totalSteps - 1
    decreases n
  {
    if n > 0 {
      TicksReachEnd(Advance(step, totalSteps).0, totalSteps, n - 1);
    }
  }

  /** Before that, each tick moves exactly one snapshot on. */
  lemma {:induction false} TicksCount(step: int, totalSteps: int, n: nat)
    requires 0 <= step && step + n < totalSteps
    ensures Ticks(step, totalSteps, n) == step + n
    decreases n
  {
    if n > 0 {
      TicksCount(step + 1, totalSteps, n - 1);
    }
  }

  /** The event that produced the snapshot on screen: none for the initial
      snapshot, otherwise the event just before it; that event turns the
      previous snapshot into the one shown. */
  function CurrentEvent(result: Filler.FillResult, currentStep: int): (e: Option<Filler.FillEvent>)
    requires Filler.Replays(result.states, result.events) && 0 <= currentStep < |result.states|
    ensures currentStep == 0 <==> e == None
    ensures currentStep > 0 ==> e == Some(result.events[currentStep - 1])
    ensures e.Some? ==>
      Filler.HasRoom(result.states[currentStep - 1], e.value.tubeIndex) &&
      result.states[currentStep] == Filler.Deposit(result.states[currentStep - 1], e.value.tubeIndex, e.value.color)
  {
    if currentStep > 0 then Some(result.events[currentStep - 1]) else None
  }

  class Viewer {
    const result: Filler.FillResult
    const totalSteps: int
    var currentStep: int
    var isPlaying: bool

    /** The index always names a snapshot of the run. */
    ghost predicate Valid()
      reads this
    {
      Filler.Replays(result.states, result.events) &&
      totalSteps == |result.states| &&
      0 <= currentStep < totalSteps
    }

    /** The player opens on the initial snapshot, paused. */
    constructor (result: Filler.FillResult)
      requires Filler.Replays(result.states, result.events)
      ensures Valid() && this.result == result
      ensures currentStep == 0 && !isPlaying
    {
      this.result := result;
      totalSteps := |result.states|;
      currentStep := 0;
      isPlaying := false;
    }

    method GoToStart()
      requires Valid()
      modifies this
      ensures Valid() && currentStep == 0 && !isPlaying
    {
      currentStep := 0;
      isPlaying := false;
    }

    method GoToEnd()
      requires Valid()
      modifies this
      ensures Valid() && currentStep == totalSteps - 1 && !isPlaying
    {
      currentStep := totalSteps - 1;
      isPlaying := false;
    }

    /** The forward button and the right-arrow key. */
    method GoForward()
      requires Valid()
      modifies this
      ensures Valid()
      ensures currentStep == Advance(old(currentStep), totalSteps).0
      ensures isPlaying == (old(isPlaying) && !Advance(old(currentStep), totalSteps).1)
    {
      var next := Advance(currentStep, totalSteps);
      if next.1 {
        isPlaying := false;
      }
      currentStep := next.0;
    }

    /** The backward button and the left-arrow key; playback is untouched. */
    method GoBackward()
      requires Valid()
      modifies this
      ensures Valid()
      ensures currentStep == Retreat(old(currentStep)) && isPlaying == old(isPlaying)
    {
      currentStep := Retreat(currentStep);
    }

    /** The play/pause button and the space key: starting playback on the
        final snapshot rewinds to the first. */
    method TogglePlay()
      requires Valid()
      modifies this
      ensures Valid()
      ensures isPlaying == !old(isPlaying)
      ensures !old(isPlaying) && old(currentStep) >= totalSteps - 1 ==> currentStep == 0
      ensures old(isPlaying) || old(currentStep) < totalSteps - 1 ==> currentStep == old(currentStep)
    {
      if !isPlaying && currentStep >= totalSteps - 1 {
        currentStep := 0;
      }
      isPlaying := !isPlaying;
    }

    /** The autoplay interval's body, which runs only while playing: the
        same transition as the forward button. */
    method Tick()
      requires Valid() && isPlaying
      modifies this
      ensures Valid()
      ensures currentStep == Advance(old(currentStep), totalSteps).0
      ensures isPlaying == !Advance(old(currentStep), totalSteps).1
    {
      var next := Advance(currentStep, totalSteps);
      if next.1 {
        isPlaying := false;
      }
      currentStep := next.0;
    }
  }
}
