/**
 * A supervisor that runs a unit of work periodically under a timeout and adapts the
 * pause before the next run: a timeout doubles it (up to a ceiling), a success resets it.
 *
 * One cycle of the real task submits the work to a thread pool and blocks on the
 * future with a deadline. Here the way that cycle ended is an input (`Outcome`), and
 * the atomic compare-and-set on the delay is a plain sequential update.
 */
module TimedSupervisor {

  /** How one supervised cycle ended. */
  datatype Outcome =
    | Success            // the work finished within the timeout
    | Timeout            // future.get gave up after the timeout
    | RejectedOnSubmit   // the pool refused the submission: no future exists
    | FailedAfterSubmit  // any other throwable, raised once the work was submitted

  function Min(a: int, b: int): int {
    if a <= b then a else b
  }

  function Pow2(k: nat): (p: nat)
    ensures p >= 1
  {
    if k == 0 then 1 else 2 * Pow2(k - 1)
  }

  /** The delay after one cycle that ended with `outcome`, starting from `delay`. */
  function NextDelay(timeoutMillis: int, maxDelay: int, delay: int, outcome: Outcome): (next: int)
    ensures outcome == Success ==> next == timeoutMillis
    ensures outcome == Timeout ==> next <= maxDelay && next <= 2 * delay && (next == maxDelay || next == 2 * delay)
    ensures outcome == RejectedOnSubmit || outcome == FailedAfterSubmit ==> next == delay
  {
    match outcome
    case Success => timeoutMillis
    case Timeout => Min(maxDelay, delay * 2)
    case RejectedOnSubmit => delay
    case FailedAfterSubmit => delay
  }

  /** Whether the cycle obtained a future from the pool (and so has one to cancel). */
  predicate Submitted(outcome: Outcome) {
    outcome != RejectedOnSubmit
  }

  /** The delay after a run of cycles with the given outcomes, oldest first. */
  function DelayAfter(timeoutMillis: int, maxDelay: int, delay: int, outcomes: seq<Outcome>): int
    decreases |outcomes|
  {
    if outcomes == [] then delay
    else NextDelay(timeoutMillis, maxDelay,
                   DelayAfter(timeoutMillis, maxDelay, delay, outcomes[..|outcomes| - 1]),
                   outcomes[|outcomes| - 1])
  }

  /** `k` consecutive timeouts. */
  function Timeouts(k: nat): (s: seq<Outcome>)
    ensures |s| == k
    ensures forall i :: 0 <= i < k ==> s[i] == Timeout
  {
    seq(k, _ => Timeout)
  }

  class TimedSupervisorTask {
    const name: string
    const timeoutMillis: nat
    const expBackOffBound: int
    const maxDelay: int
    var delay: int

    var successCounter: nat
    var timeoutCounter: nat
    var rejectedCounter: nat
    var throwableCounter: nat

    /** Set by Cancel; the source's run() never looks at it. */
    var cancelled: bool

    /** Outcomes of every cycle so far, oldest first. */
    ghost var history: seq<Outcome>
    /** The delay passed to the scheduler by each reschedule, oldest first. */
    ghost var scheduled: seq<int>

    ghost predicate Valid()
      reads this
    {
      && maxDelay == timeoutMillis * expBackOffBound
      && delay == DelayAfter(timeoutMillis, maxDelay, timeoutMillis, history)
      && successCounter == multiset(history)[Success]
      && timeoutCounter == multiset(history)[Timeout]
      && rejectedCounter == multiset(history)[RejectedOnSubmit]
      && throwableCounter == multiset(history)[FailedAfterSubmit]
      && |scheduled| <= |history|
    }

    constructor (name: string, timeoutMillis: nat, expBackOffBound: int)
      ensures Valid()
      ensures this.name == name && this.timeoutMillis == timeoutMillis
      ensures this.expBackOffBound == expBackOffBound
      ensures delay == timeoutMillis
      ensures maxDelay == timeoutMillis * expBackOffBound
      ensures successCounter == timeoutCounter == rejectedCounter == throwableCounter == 0
      ensures !cancelled && history == [] && scheduled == []
    {
      this.name := name;
      this.timeoutMillis := timeoutMillis;
      this.expBackOffBound := expBackOffBound;
      this.delay := timeoutMillis;
      this.maxDelay := timeoutMillis * expBackOffBound;
      successCounter, timeoutCounter, rejectedCounter, throwableCounter := 0, 0, 0, 0;
      cancelled := false;
      history, scheduled := [], [];
    }

    /**
     * One supervised cycle that ended with `outcome`. `futureCancelled` tells whether
     * the cleanup phase cancelled a future; the reschedule happens unless the
     * scheduler has been shut down.
     */
    method Run(outcome: Outcome, schedulerShutdown: bool) returns (futureCancelled: bool)
      requires Valid()
      modifies this
      ensures Valid()
      ensures history == old(history) + [outcome]
      ensures delay == NextDelay(timeoutMillis, maxDelay, old(delay), outcome)
      ensures successCounter == old(successCounter) + (if outcome == Success then 1 else 0)
      ensures timeoutCounter == old(timeoutCounter) + (if outcome == Timeout then 1 else 0)
      ensures rejectedCounter == old(rejectedCounter) + (if outcome == RejectedOnSubmit then 1 else 0)
      ensures throwableCounter == old(throwableCounter) + (if outcome == FailedAfterSubmit then 1 else 0)
      ensures futureCancelled <==> Submitted(outcome)
      ensures scheduled == old(scheduled) + (if schedulerShutdown then [] else [delay])
      ensures cancelled == old(cancelled)
      ensures expBackOffBound >= 1 ==> timeoutMillis <= delay <= maxDelay
    {
      var hasFuture := false;
      match outcome {
        case RejectedOnSubmit =>
          rejectedCounter := rejectedCounter + 1;
        case Success =>
          hasFuture := true;
          delay := timeoutMillis;
          successCounter := successCounter + 1;
        case Timeout =>
          hasFuture := true;
          timeoutCounter := timeoutCounter + 1;
          var currentDelay := delay;
          var newDelay := Min(maxDelay, currentDelay * 2);
          if delay == currentDelay {
            delay := newDelay;
          }
        case FailedAfterSubmit =>
          hasFuture := true;
          throwableCounter := throwableCounter + 1;
      }
      history := history + [outcome];
      // cleanup
      futureCancelled := false;
      if hasFuture {
        futureCancelled := true;
      }
      if !schedulerShutdown {
        scheduled := scheduled + [delay];
      }
      if expBackOffBound >= 1 {
        DelayWithinBounds(timeoutMillis, expBackOffBound, history);
      }
    }

    /** Marks the task cancelled; the metrics deregistration is not modelled. */
    method Cancel()
      modifies this
      ensures cancelled
      ensures delay == old(delay) && history == old(history) && scheduled == old(scheduled)
      ensures successCounter == old(successCounter) && timeoutCounter == old(timeoutCounter)
      ensures rejectedCounter == old(rejectedCounter) && throwableCounter == old(throwableCounter)
    {
      cancelled := true;
    }
  }

  /** With a bound of at least one, every delay lies between the base timeout and the ceiling. */
  lemma {:induction false} DelayWithinBounds(timeoutMillis: nat, bound: int, outcomes: seq<Outcome>)
    requires bound >= 1
    ensures var d := DelayAfter(timeoutMillis, timeoutMillis * bound, timeoutMillis, outcomes);
            timeoutMillis <= d <= timeoutMillis * bound
    decreases |outcomes|
  {
    CeilingAtLeastBase(timeoutMillis, bound);
    if outcomes != [] {
      DelayWithinBounds(timeoutMillis, bound, outcomes[..|outcomes| - 1]);
    }
  }

  /** Running two stretches of cycles one after the other is running their concatenation. */
  lemma {:induction false} DelayAfterAppend(timeoutMillis: int, maxDelay: int, delay: int,
                                            xs: seq<Outcome>, ys: seq<Outcome>)
    ensures DelayAfter(timeoutMillis, maxDelay, delay, xs + ys)
         == DelayAfter(timeoutMillis, maxDelay, DelayAfter(timeoutMillis, maxDelay, delay, xs), ys)
    decreases |ys|
  {
    if ys != [] {
      var zs := ys[..|ys| - 1];
      assert (xs + ys)[..|xs + ys| - 1] == xs + zs;
      assert (xs + ys)[|xs + ys| - 1] == ys[|ys| - 1];
      DelayAfterAppend(timeoutMillis, maxDelay, delay, xs, zs);
    } else {
      assert xs + ys == xs;
    }
  }

  /**
   * From the base timeout, k consecutive timeouts give min(timeoutMillis * 2^k, maxDelay):
   * the delay doubles until it meets the ceiling.
   */
  lemma {:induction false} ConsecutiveTimeouts(timeoutMillis: nat, bound: int, k: nat)
    requires bound >= 1
    ensures DelayAfter(timeoutMillis, timeoutMillis * bound, timeoutMillis, Timeouts(k))
         == Min(timeoutMillis * Pow2(k), timeoutMillis * bound)
  {
    var maxDelay := timeoutMillis * bound;
    CeilingAtLeastBase(timeoutMillis, bound);
    if k == 0 {
      assert Timeouts(0) == [];
    } else {
      assert Timeouts(k)[..k - 1] == Timeouts(k - 1);
      ConsecutiveTimeouts(timeoutMillis, bound, k - 1);
      var before := timeoutMillis * Pow2(k - 1);
      assert timeoutMillis * Pow2(k) == 2 * before by {
        assert Pow2(k) == 2 * Pow2(k - 1);
      }
      assert DelayAfter(timeoutMillis, maxDelay, timeoutMillis, Timeouts(k))
          == Min(maxDelay, 2 * Min(before, maxDelay));
    }
  }

  lemma CeilingAtLeastBase(timeoutMillis: nat, bound: int)
    requires bound >= 1
    ensures timeoutMillis * bound >= timeoutMillis >= 0
  {
  }

  /** Once the delay is at a non-negative ceiling, further timeouts keep it there. */
  lemma {:induction false} CeilingIsSticky(timeoutMillis: int, maxDelay: int, k: nat)
    requires maxDelay >= 0
    ensures DelayAfter(timeoutMillis, maxDelay, maxDelay, Timeouts(k)) == maxDelay
  {
    if k == 0 {
      assert Timeouts(0) == [];
    } else {
      assert Timeouts(k)[..k - 1] == Timeouts(k - 1);
      CeilingIsSticky(timeoutMillis, maxDelay, k - 1);
    }
  }

  /**
   * Once k timeouts have taken the delay to the ceiling, any number j of further
   * timeouts leaves it at the ceiling.
   */
  lemma SaturatedBackoff(timeoutMillis: nat, bound: int, k: nat, j: nat)
    requires bound >= 1
    requires timeoutMillis * Pow2(k) >= timeoutMillis * bound
    ensures DelayAfter(timeoutMillis, timeoutMillis * bound, timeoutMillis, Timeouts(k + j))
         == timeoutMillis * bound
  {
    var maxDelay := timeoutMillis * bound;
    CeilingAtLeastBase(timeoutMillis, bound);
    assert Timeouts(k + j) == Timeouts(k) + Timeouts(j);
    DelayAfterAppend(timeoutMillis, maxDelay, timeoutMillis, Timeouts(k), Timeouts(j));
    ConsecutiveTimeouts(timeoutMillis, bound, k);
    CeilingIsSticky(timeoutMillis, maxDelay, j);
  }

  /**
   * One success at any point resets the delay: whatever happened before, the
   * timeouts that follow start doubling again from the base timeout.
   */
  lemma SuccessResetsBackoff(timeoutMillis: nat, bound: int, delay: int, before: seq<Outcome>, k: nat)
    requires bound >= 1
    ensures DelayAfter(timeoutMillis, timeoutMillis * bound, delay, before + [Success] + Timeouts(k))
         == Min(timeoutMillis * Pow2(k), timeoutMillis * bound)
  {
    var maxDelay := timeoutMillis * bound;
    DelayAfterAppend(timeoutMillis, maxDelay, delay, before + [Success], Timeouts(k));
    assert (before + [Success])[..|before + [Success]| - 1] == before;
    ConsecutiveTimeouts(timeoutMillis, bound, k);
  }

  /** Rejections and other failures never move the delay, however many there are. */
  lemma {:induction false} FailuresKeepDelay(timeoutMillis: int, maxDelay: int, delay: int, outcomes: seq<Outcome>)
    requires forall i :: 0 <= i < |outcomes| ==> !outcomes[i].Success? && !outcomes[i].Timeout?
    ensures DelayAfter(timeoutMillis, maxDelay, delay, outcomes) == delay
    decreases |outcomes|
  {
    if outcomes != [] {
      FailuresKeepDelay(timeoutMillis, maxDelay, delay, outcomes[..|outcomes| - 1]);
    }
  }

  /**
   * With a bound of zero the ceiling is zero, and a single timeout from the base
   * timeout drops the delay to zero: the range invariant needs bound >= 1.
   */
  lemma ZeroBoundCollapses(timeoutMillis: nat)
    requires timeoutMillis > 0
    ensures timeoutMillis * 0 == 0
    ensures DelayAfter(timeoutMillis, timeoutMillis * 0, timeoutMillis, [Timeout]) == 0
    ensures !(timeoutMillis <= DelayAfter(timeoutMillis, timeoutMillis * 0, timeoutMillis, [Timeout]))
  {
  }

  /** Base timeout 30000 ms and bound 10: 30000, 60000, 120000, 240000, 300000, 300000. */
  lemma BackoffExample()
    ensures DelayAfter(30000, 300000, 30000, Timeouts(0)) == 30000
    ensures DelayAfter(30000, 300000, 30000, Timeouts(1)) == 60000
    ensures DelayAfter(30000, 300000, 30000, Timeouts(2)) == 120000
    ensures DelayAfter(30000, 300000, 30000, Timeouts(3)) == 240000
    ensures DelayAfter(30000, 300000, 30000, Timeouts(4)) == 300000
    ensures DelayAfter(30000, 300000, 30000, Timeouts(5)) == 300000
  {
    ConsecutiveTimeouts(30000, 10, 0);
    ConsecutiveTimeouts(30000, 10, 1);
    ConsecutiveTimeouts(30000, 10, 2);
    ConsecutiveTimeouts(30000, 10, 3);
    ConsecutiveTimeouts(30000, 10, 4);
    ConsecutiveTimeouts(30000, 10, 5);
  }

  /**
   * With a negative bound the ceiling is negative: the first timeout drops the delay
   * to the ceiling, and each further one doubles that negative delay without end.
   */
  lemma {:induction false} NegativeBoundDiverges(timeoutMillis: nat, bound: int, k: nat)
    requires timeoutMillis > 0 && bound < 0
    ensures DelayAfter(timeoutMillis, timeoutMillis * bound, timeoutMillis, Timeouts(k + 1))
         == timeoutMillis * bound * Pow2(k)
  {
    var maxDelay := timeoutMillis * bound;
    assert maxDelay < 0 by {
      assert timeoutMillis * bound == -(timeoutMillis * -bound);
    }
    assert Timeouts(k + 1)[..k] == Timeouts(k);
    if k == 0 {
      assert Timeouts(0) == [];
    } else {
      NegativeBoundDiverges(timeoutMillis, bound, k - 1);
      var before := maxDelay * Pow2(k - 1);
      assert maxDelay * Pow2(k) == 2 * before by {
        assert Pow2(k) == 2 * Pow2(k - 1);
      }
      assert before <= maxDelay by {
        assert before == maxDelay + maxDelay * (Pow2(k - 1) - 1);
        assert maxDelay * (Pow2(k - 1) - 1) <= 0;
      }
    }
  }
}
