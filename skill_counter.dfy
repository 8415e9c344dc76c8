/** The percentage counter of a skill card (script.js): once the card becomes
    visible, a 20 ms interval raises the label's number by one per tick from 0
    until it reaches the card's `data-progress` value, then clears itself. */
module SkillCounter {

  /** `currentProgress`, and whether the interval is still set. */
  datatype Counter = Counter(current: int, running: bool)

  const Start: Counter := Counter(0, true)

  /** One interval tick against the target `progress`. */
  function Advance(c: Counter, progress: int): (d: Counter)
    // a cleared interval never fires again
    ensures !c.running ==> d == c
    // a running counter either stops where it is or goes up by exactly one
    ensures c.running ==> (d.running <==> c.current < progress)
    ensures c.running && c.current < progress ==> d.current == c.current + 1
    ensures c.current >= progress ==> d.current == c.current
  {
    if !c.running then c
    else if c.current >= progress then c.(running := false)
    else c.(current := c.current + 1)
  }

  /** `n` ticks from the start. */
  function Run(progress: int, n: nat): Counter
    decreases n
  {
    if n == 0 then Start else Advance(Run(progress, n - 1), progress)
  }

  function Max(a: int, b: int): int { if a < b then b else a }
  function Min(a: int, b: int): int { if a < b then a else b }

  /** After `n` ticks the label shows min(n, target), and the interval is still
      set exactly while `n` has not gone past the target (a negative target
      counts as 0). */
  lemma {:induction false} RunCountsUp(progress: int, n: nat)
    ensures Run(progress, n) == Counter(Min(n, Max(progress, 0)), n <= Max(progress, 0))
    decreases n
  {
    if n > 0 {
      RunCountsUp(progress, n - 1);
    }
  }

  /** The counter ends on the target: one tick after reaching it, the interval
      is cleared with the label at exactly `progress`, and later ticks change
      nothing. */
  lemma StopsAtTarget(progress: nat, extra: nat)
    ensures Run(progress, progress + 1 + extra) == Counter(progress, false)
  {
    RunCountsUp(progress, progress + 1 + extra);
  }

  /** The counter's page state: the number and the label text's number. */
  class ProgressCounter {
    const progress: int
    var currentProgress: int
    var running: bool
    /** the number written before the `%` of the label text */
    var shown: int

    function State(): Counter
      reads this
    {
      Counter(currentProgress, running)
    }

    constructor (progress: int, shown: int)
      ensures this.progress == progress && State() == Start && this.shown == shown
    {
      this.progress := progress;
      currentProgress := 0;
      running := true;
      this.shown := shown;
    }

    /** The interval callback. */
    method Tick()
      requires running
      modifies this`currentProgress, this`running, this`shown
      ensures State() == Advance(old(State()), progress)
      ensures currentProgress != old(currentProgress) ==> shown == currentProgress
      ensures currentProgress == old(currentProgress) ==> shown == old(shown)
    {
      if currentProgress >= progress {
        running := false;
      } else {
        currentProgress := currentProgress + 1;
        shown := currentProgress;
      }
    }
  }
}
