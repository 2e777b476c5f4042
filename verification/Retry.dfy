/** The bounded retry loop of the TypeSafe client. Durations are integers in nanoseconds. */
module Retry {
  import opened Arithmetic

  const MILLISECOND := 1_000_000
  const SECOND := 1000 * MILLISECOND
  const DEFAULT_MAX_ATTEMPTS := 3
  const DEFAULT_BACKOFF_BASE := 200 * MILLISECOND
  const DEFAULT_BACKOFF_MAX := 5 * SECOND
  const DEFAULT_MAX_ELAPSED := 30 * SECOND
  const MAX_RETRY_AFTER_WAIT := 30 * SECOND

  // ----- Configuration -----

  datatype Config = Config(maxAttempts: int, backoffBase: int, backoffMax: int, maxElapsed: int)

  function WithDefaults(c: Config): Config {
    Config(
      if c.maxAttempts <= 0 then DEFAULT_MAX_ATTEMPTS else c.maxAttempts,
      if c.backoffBase <= 0 then DEFAULT_BACKOFF_BASE else c.backoffBase,
      if c.backoffMax <= 0 then DEFAULT_BACKOFF_MAX else c.backoffMax,
      if c.maxElapsed <= 0 then DEFAULT_MAX_ELAPSED else c.maxElapsed)
  }

  predicate Validates(c: Config) {
    c.backoffMax >= c.backoffBase
  }

  /** The configurations a client can be built with. */
  predicate Usable(c: Config) {
    c.maxAttempts >= 1 && c.maxElapsed >= 1 && 1 <= c.backoffBase <= c.backoffMax
  }

  /** Filling in defaults keeps what is set, and validation then accepts exactly the usable
      configurations. Nothing set means three attempts, waits from 200 ms to 5 s, and 30 s in all. */
  lemma BuiltIsUsable(c: Config)
    ensures Validates(WithDefaults(c)) <==> Usable(WithDefaults(c))
    ensures Usable(c) ==> WithDefaults(c) == c
    ensures WithDefaults(Config(0, 0, 0, 0)) == Config(3, 200_000_000, 5_000_000_000, 30_000_000_000)
    ensures var d, none := WithDefaults(c), WithDefaults(Config(0, 0, 0, 0));
            && d.maxAttempts in {c.maxAttempts, none.maxAttempts} && d.backoffBase in {c.backoffBase, none.backoffBase}
            && d.backoffMax in {c.backoffMax, none.backoffMax} && d.maxElapsed in {c.maxElapsed, none.maxElapsed}
            && d.maxAttempts >= 1 && d.backoffBase >= 1 && d.backoffMax >= 1 && d.maxElapsed >= 1
            && (c.maxAttempts >= 1 ==> d.maxAttempts == c.maxAttempts) && (c.backoffBase >= 1 ==> d.backoffBase == c.backoffBase)
            && (c.backoffMax >= 1 ==> d.backoffMax == c.backoffMax) && (c.maxElapsed >= 1 ==> d.maxElapsed == c.maxElapsed)
  {}

  // ----- Attempts -----

  /** How one physical request ended; retryAfter is what a Retry-After header parsed to. */
  datatype Reply =
    | Success
    | Unreachable
    | AttemptTimedOut
    | ContextEnded
    | BadStatus(code: int, retryAfter: int)
    | Unusable                               // unreadable, too large or undecodable

  predicate Retryable(r: Reply) {
    r.Unreachable? || r.AttemptTimedOut? || (r.BadStatus? && (r.code == 429 || r.code == 529 || r.code >= 500))
  }

  function RetryAfter(r: Reply): int {
    if r.BadStatus? then r.retryAfter else 0
  }

  /** One round of the loop as the surroundings decide it: the reply, whether the context was done
      at the retry check, the elapsed times read there and before the wait, and whether the
      context ended the wait. */
  datatype Round = Round(reply: Reply, cancelled: bool, elapsedAtCheck: int, elapsedAtWait: int, interrupted: bool)

  function Power2(n: nat): (p: nat)
    ensures p >= 1
  {
    if n == 0 then 1 else 2 * Power2(n - 1)
  }

  function Min(a: int, b: int): int {
    if a <= b then a else b
  }

  function Max(a: int, b: int): int {
    if a >= b then a else b
  }

  function BackoffFor(c: Config, number: nat, retryAfter: int): int
    requires number >= 1
  {
    Min(Max(retryAfter, Min(c.backoffBase * Power2(number - 1), c.backoffMax)), MAX_RETRY_AFTER_WAIT)
  }

  predicate ShouldRetry(c: Config, round: Round, number: nat) {
    Retryable(round.reply) && number < c.maxAttempts && !round.cancelled && round.elapsedAtCheck < c.maxElapsed
  }

  // ----- The call as a whole -----

  datatype Ending = Answered | GaveUp(last: Reply) | BudgetExhausted | WaitCancelled

  /** What a call did: how it ended, how many attempts it made and the waits it asked for. */
  datatype Trace = Trace(ending: Ending, made: nat, delays: seq<int>)

  /** The loop from attempt number on. */
  function CallFrom(c: Config, rounds: seq<Round>, number: nat): (trace: Trace)
    requires 1 <= number <= c.maxAttempts <= |rounds|
    ensures number <= trace.made <= c.maxAttempts
    decreases c.maxAttempts - number
  {
    var round := rounds[number - 1];
    var delay := BackoffFor(c, number, RetryAfter(round.reply));
    if round.reply.Success? then Trace(Answered, number, [])
    else if !ShouldRetry(c, round, number) then Trace(GaveUp(round.reply), number, [])
    else if round.elapsedAtWait + delay >= c.maxElapsed then Trace(BudgetExhausted, number, [])
    else if round.interrupted then Trace(WaitCancelled, number, [delay])
    else
      var rest := CallFrom(c, rounds, number + 1);
      rest.(delays := [delay] + rest.delays)
  }

  function SumOf(delays: seq<int>): int {
    if delays == [] then 0 else delays[0] + SumOf(delays[1..])
  }

  /** A wait that was not interrupted lasted at least as long as asked for, so the clock before the
      wait of round k shows at least the sum of the waits before it. */
  ghost predicate Timely(c: Config, rounds: seq<Round>) {
    && c.maxAttempts <= |rounds|
    && forall k | 1 <= k <= c.maxAttempts :: rounds[k - 1].elapsedAtWait >= WaitedBefore(c, rounds, k)
  }

  function WaitedBefore(c: Config, rounds: seq<Round>, number: nat): int
    requires 1 <= number <= |rounds| + 1
    decreases number
  {
    if number == 1 then 0
    else WaitedBefore(c, rounds, number - 1) + BackoffFor(c, number - 1, RetryAfter(rounds[number - 2].reply))
  }

  // ----- The loop -----

  datatype Attempt = Attempt(number: nat, reply: Reply)

  method EvaluateWithRetries(c: Config, rounds: seq<Round>) returns (trace: Trace, attempts: seq<Attempt>)
    requires 1 <= c.maxAttempts <= |rounds|
    ensures trace == CallFrom(c, rounds, 1)
    ensures |attempts| == trace.made
    ensures forall i | 0 <= i < |attempts| :: attempts[i] == Attempt(i + 1, rounds[i].reply)
  {
    attempts := [];
    var delays := [];
    var number := 1;
    var ending: Ending;
    ghost var whole := CallFrom(c, rounds, 1);
    while true
      invariant 1 <= number <= c.maxAttempts && |attempts| == number - 1
      invariant forall i | 0 <= i < |attempts| :: attempts[i] == Attempt(i + 1, rounds[i].reply)
      invariant var rest := CallFrom(c, rounds, number); whole == rest.(delays := delays + rest.delays)
      decreases c.maxAttempts - number
    {
      var round := rounds[number - 1];
      attempts := attempts + [Attempt(number, round.reply)];
      if round.reply.Success? {
        ending := Answered;
        break;
      }
      if !ShouldRetry(c, round, number) {
        ending := GaveUp(round.reply);
        break;
      }
      var delay := BackoffFor(c, number, RetryAfter(round.reply));
      if round.elapsedAtWait + delay >= c.maxElapsed {
        ending := BudgetExhausted;
        break;
      }
      ghost var rest := CallFrom(c, rounds, number).delays;
      assert delays + rest == delays + [delay] + rest[1..];
      delays := delays + [delay];
      if round.interrupted {
        ending := WaitCancelled;
        break;
      }
      number := number + 1;
    }
    trace := Trace(ending, number, delays);
  }

  // ----- What the bounds are -----

  /** A wait is never longer than the ceiling, nor than the larger of Retry-After and the capped
      exponential; it is never shorter than the capped exponential, and honours a Retry-After up to
      the ceiling. */
  lemma DelayIsBounded(c: Config, number: nat, retryAfter: int)
    requires Usable(c) && number >= 1
    ensures var delay := BackoffFor(c, number, retryAfter);
            && Min(Min(c.backoffBase * Power2(number - 1), c.backoffMax), MAX_RETRY_AFTER_WAIT) <= delay <= MAX_RETRY_AFTER_WAIT
            && Min(retryAfter, MAX_RETRY_AFTER_WAIT) <= delay
            && Min(c.backoffBase, MAX_RETRY_AFTER_WAIT) <= delay
            && delay <= Max(retryAfter, Min(c.backoffBase * Power2(number - 1), c.backoffMax))
  {
    ProductGrows(1, Power2(number - 1), c.backoffBase);
  }

  /** The waits as a recurrence: without a Retry-After the first is the base delay, each further one
      doubles up to the maximum, and none passes thirty seconds; a longer Retry-After replaces the
      wait, up to the same thirty seconds. */
  lemma DelaysDouble(c: Config, number: nat, retryAfter: int)
    requires Usable(c) && number >= 1
    ensures BackoffFor(c, 1, 0) == Min(c.backoffBase, 30_000_000_000)
    ensures var wait := BackoffFor(c, number, 0);
            && BackoffFor(c, number + 1, 0) == Min(2 * wait, Min(c.backoffMax, 30_000_000_000))
            && BackoffFor(c, number, retryAfter) == Max(wait, Min(retryAfter, 30_000_000_000))
  {
    var exponential := c.backoffBase * Power2(number - 1);
    ProductGrows(1, Power2(number - 1), c.backoffBase);
    assert c.backoffBase * Power2(number) == 2 * exponential;
  }

  /** The waits of a call are one fewer than its attempts, one more when the last wait was cut short,
      and the i-th of them is the backoff of attempt i. */
  lemma {:induction false} DelaysAreBackoffs(c: Config, rounds: seq<Round>, number: nat)
    requires 1 <= number <= c.maxAttempts <= |rounds|
    ensures var t := CallFrom(c, rounds, number);
            && number <= t.made <= c.maxAttempts
            && |t.delays| == t.made - number + (if t.ending.WaitCancelled? then 1 else 0)
            && forall i | 0 <= i < |t.delays| :: t.delays[i] == BackoffFor(c, number + i, RetryAfter(rounds[number + i - 1].reply))
    decreases c.maxAttempts - number
  {
    hide BackoffFor, Retryable;
    var round := rounds[number - 1];
    if !round.reply.Success? && ShouldRetry(c, round, number) && number < c.maxAttempts {
      DelaysAreBackoffs(c, rounds, number + 1);
    }
  }

  /** The waits asked for stay within what is left of the budget. */
  lemma {:induction false} BudgetFrom(c: Config, rounds: seq<Round>, number: nat)
    requires Usable(c) && Timely(c, rounds) && 1 <= number <= c.maxAttempts
    ensures var t := CallFrom(c, rounds, number);
            t.delays == [] || WaitedBefore(c, rounds, number) + SumOf(t.delays) < c.maxElapsed
    decreases c.maxAttempts - number
  {
    hide BackoffFor, Retryable;
    var round := rounds[number - 1];
    if !round.reply.Success? && ShouldRetry(c, round, number) && !round.interrupted {
      BudgetFrom(c, rounds, number + 1);
    }
  }

  lemma {:induction false} SumAtLeast(delays: seq<int>, least: int)
    requires forall i | 0 <= i < |delays| :: delays[i] >= least
    ensures SumOf(delays) >= |delays| * least
  {
    if delays != [] {
      SumAtLeast(delays[1..], least);
      assert |delays| * least == (|delays| - 1) * least + least;
    }
  }

  /** The budget of one call: at most MaxAttempts attempts, waits that sum to less than MaxElapsed,
      and therefore fewer attempts than the shortest possible wait allows. */
  lemma CallStaysInBudget(c: Config, rounds: seq<Round>)
    requires Usable(c) && Timely(c, rounds)
    ensures var t := CallFrom(c, rounds, 1);
            && 1 <= t.made <= c.maxAttempts
            && SumOf(t.delays) < c.maxElapsed
            && (t.made - 1) * Min(c.backoffBase, MAX_RETRY_AFTER_WAIT) < c.maxElapsed
  {
    hide BackoffFor, CallFrom;
    var t := CallFrom(c, rounds, 1);
    var least := Min(c.backoffBase, MAX_RETRY_AFTER_WAIT);
    DelaysAreBackoffs(c, rounds, 1);
    BudgetFrom(c, rounds, 1);
    forall i | 0 <= i < |t.delays| ensures t.delays[i] >= least {
      DelayIsBounded(c, i + 1, RetryAfter(rounds[i].reply));
    }
    SumAtLeast(t.delays, least);
    ProductGrows(t.made - 1, |t.delays|, least);
  }

  /** Round k let the call go on: it failed retryably with attempts, context and budget left, and its
      wait ran to its end. */
  ghost predicate GoesOn(c: Config, rounds: seq<Round>, number: nat)
    requires 1 <= number <= |rounds|
  {
    var round := rounds[number - 1];
    && !round.reply.Success? && ShouldRetry(c, round, number)
    && round.elapsedAtWait + BackoffFor(c, number, RetryAfter(round.reply)) < c.maxElapsed
    && !round.interrupted
  }

  /** A call succeeds at attempt n exactly when that attempt succeeded and every earlier round let it
      go on: nothing else stops it, and nothing else lets it continue. */
  lemma {:induction false} SucceedsExactly(c: Config, rounds: seq<Round>, number: nat, n: nat)
    requires 1 <= number <= n <= c.maxAttempts <= |rounds|
    ensures CallFrom(c, rounds, number).ending == Answered && CallFrom(c, rounds, number).made == n <==>
            rounds[n - 1].reply.Success? && forall k | number <= k < n :: GoesOn(c, rounds, k)
    decreases c.maxAttempts - number
  {
    hide BackoffFor, Retryable;
    DelaysAreBackoffs(c, rounds, number);
    if number < n {
      if GoesOn(c, rounds, number) {
        SucceedsExactly(c, rounds, number + 1, n);
      }
    } else if GoesOn(c, rounds, number) {
      DelaysAreBackoffs(c, rounds, number + 1);
    }
  }

  /** There is another attempt to make and nothing keeps the loop from making it. */
  ghost predicate RoomToRetry(c: Config, round: Round, number: nat, retryAfter: int)
    requires number >= 1
  {
    && number < c.maxAttempts && !round.cancelled && round.elapsedAtCheck < c.maxElapsed
    && round.elapsedAtWait + BackoffFor(c, number, retryAfter) < c.maxElapsed && !round.interrupted
  }

  /** What each reply leads to. An unreachable host, an attempt timeout, and a status of 429, 529 or
      at least 500 lead to the next attempt exactly when there is room for one, and only a status
      has a Retry-After to wait for; on every other failure the call gives up at once. */
  lemma RepliesDecide(c: Config, rounds: seq<Round>, number: nat)
    requires 1 <= number <= c.maxAttempts <= |rounds|
    ensures var round, call := rounds[number - 1], CallFrom(c, rounds, number);
            match round.reply
            case Success => call == Trace(Answered, number, [])
            case Unreachable => call.made > number <==> RoomToRetry(c, round, number, 0)
            case AttemptTimedOut => call.made > number <==> RoomToRetry(c, round, number, 0)
            case BadStatus(code, retryAfter) =>
              if code == 429 || code == 529 || code >= 500 then call.made > number <==> RoomToRetry(c, round, number, retryAfter)
              else call == Trace(GaveUp(round.reply), number, [])
            case ContextEnded => call == Trace(GaveUp(round.reply), number, [])
            case Unusable => call == Trace(GaveUp(round.reply), number, [])
  {
    hide BackoffFor;
  }

  /** Why the last attempt was the last one. */
  ghost predicate Explained(c: Config, rounds: seq<Round>, call: Trace)
    requires 1 <= call.made <= |rounds|
  {
    var round := rounds[call.made - 1];
    match call.ending
    case Answered => round.reply.Success?
    case GaveUp(last) => last == round.reply && !last.Success?
    case BudgetExhausted =>
      && !round.reply.Success? && call.made < c.maxAttempts && !round.cancelled && round.elapsedAtCheck < c.maxElapsed
      && round.elapsedAtWait + BackoffFor(c, call.made, RetryAfter(round.reply)) >= c.maxElapsed
    case WaitCancelled =>
      !round.reply.Success? && call.made < c.maxAttempts && !round.cancelled && round.interrupted
  }

  lemma {:induction false} EndingTellsWhy(c: Config, rounds: seq<Round>, number: nat)
    requires 1 <= number <= c.maxAttempts <= |rounds|
    ensures Explained(c, rounds, CallFrom(c, rounds, number))
    decreases c.maxAttempts - number
  {
    hide BackoffFor, Retryable;
    if GoesOn(c, rounds, number) {
      EndingTellsWhy(c, rounds, number + 1);
    }
  }

  /** On success every attempt but the last failed in one of the three ways worth repeating. */
  lemma SuccessHistory(c: Config, rounds: seq<Round>)
    requires 1 <= c.maxAttempts <= |rounds| && CallFrom(c, rounds, 1).ending == Answered
    ensures var n := CallFrom(c, rounds, 1).made;
            && rounds[n - 1].reply.Success?
            && forall i | 0 <= i < n - 1 :: match rounds[i].reply
                 case Success => false
                 case Unreachable => true
                 case AttemptTimedOut => true
                 case BadStatus(code, _) => code == 429 || code == 529 || code >= 500
                 case ContextEnded => false
                 case Unusable => false
  {
    var n := CallFrom(c, rounds, 1).made;
    DelaysAreBackoffs(c, rounds, 1);
    SucceedsExactly(c, rounds, 1, n);
    hide BackoffFor, CallFrom;
    forall i | 0 <= i < n - 1 ensures !rounds[i].reply.Success? && Retryable(rounds[i].reply) {
      assert GoesOn(c, rounds, i + 1);
    }
  }
}
