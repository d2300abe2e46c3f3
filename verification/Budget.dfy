/** The meter of an agent run: exhaustion is reported, never raised, and never undone. */
module Budgets {

  class Budget {
    const maxToolCalls: nat
    const maxWallClock: nat
    var toolCalls: nat
    /** Seconds since the start at the last look; the clock does not go back. */
    var elapsed: nat
    var tripped: bool

    constructor (maxToolCalls: nat, maxWallClock: nat)
      ensures this.maxToolCalls == maxToolCalls && this.maxWallClock == maxWallClock
      ensures toolCalls == 0 && elapsed == 0 && !tripped
    {
      this.maxToolCalls, this.maxWallClock := maxToolCalls, maxWallClock;
      toolCalls, elapsed, tripped := 0, 0, false;
    }

    /** It only trips at a limit. */
    predicate Sane()
      reads this
    {
      tripped ==> toolCalls >= maxToolCalls || elapsed >= maxWallClock
    }

    method RecordToolCall()
      modifies `toolCalls
      ensures toolCalls == old(toolCalls) + 1
    {
      toolCalls := toolCalls + 1;
    }

    /** True once a limit is reached, and from then on. */
    method Exhausted() returns (b: bool)
      modifies `elapsed, `tripped
      ensures b == tripped && old(elapsed) <= elapsed
      ensures b <==> old(tripped) || toolCalls >= maxToolCalls || elapsed >= maxWallClock
    {
      var later: nat :| later >= 0;
      if tripped {
        return true;
      }
      if toolCalls >= maxToolCalls {
        tripped := true;
      } else {
        elapsed := elapsed + later;
        if elapsed >= maxWallClock {
          tripped := true;
        }
      }
      b := tripped;
    }
  }
}
