/** The retry loop with exponential back-off that polls the signing request,
    and two small helpers: the text describing an HTTP failure and the
    reading of a numeric input. */
module Utils {
  import opened Wrappers
  import opened Effects
  import opened Http
  import opened DecimalParseInt

  function Min(a: int, b: int): int
  {
    if a <= b then a else b
  }

  // ---------------------------------------------------------------------
  // Back-off schedule

  /** The delay slept after the k-th failure: the minimum first, then
      doubled each time and capped at the maximum. Every delay after the
      first is within the cap, whatever the minimum. */
  function Delay(minDelayMs: int, maxDelayMs: int, k: nat): (d: int)
    requires k >= 1
    ensures k >= 2 ==> d <= maxDelayMs
  {
    if k == 1 then minDelayMs else Min(2 * Delay(minDelayMs, maxDelayMs, k - 1), maxDelayMs)
  }

  /** The delays of the first n sleeps, in order. */
  function Schedule(minDelayMs: int, maxDelayMs: int, n: nat): (s: seq<int>)
    ensures |s| == n
    ensures forall i | 0 <= i < n :: s[i] == Delay(minDelayMs, maxDelayMs, i + 1)
  {
    if n == 0 then [] else Schedule(minDelayMs, maxDelayMs, n - 1) + [Delay(minDelayMs, maxDelayMs, n)]
  }

  function Pow2(n: nat): (p: nat)
    ensures p >= 1
  {
    if n == 0 then 1 else 2 * Pow2(n - 1)
  }

  /** With a minimum no larger than the maximum, the k-th delay is
      min(minimum * 2^(k-1), maximum). */
  lemma {:induction false} DelayClosedForm(minDelayMs: int, maxDelayMs: int, k: nat)
    requires minDelayMs <= maxDelayMs
    requires k >= 1
    ensures Delay(minDelayMs, maxDelayMs, k) == Min(minDelayMs * Pow2(k - 1), maxDelayMs)
  {
    if k > 1 {
      DelayClosedForm(minDelayMs, maxDelayMs, k - 1);
      var p := Pow2(k - 2);
      assert Pow2(k - 1) == 2 * p;
      DoubledScale(minDelayMs, p);
      if minDelayMs <= 0 {
        NonPositiveScaled(minDelayMs, p);
      }
    }
  }

  lemma DoubledScale(m: int, p: int)
    ensures m * (2 * p) == 2 * (m * p)
  {
  }

  lemma NonPositiveScaled(m: int, p: int)
    requires m <= 0 && p >= 1
    ensures m * p <= m
  {
    assert m * p == m + m * (p - 1);
    assert m * (p - 1) <= 0;
  }

  lemma NonNegativeScaled(m: int, p: int)
    requires m >= 0 && p >= 1
    ensures m * p >= m
  {
    assert m * p == m + m * (p - 1);
  }

  /** With 0 <= minimum <= maximum the delays never shrink and stay within
      [minimum, maximum]. */
  lemma DelaysNonDecreasing(minDelayMs: int, maxDelayMs: int, k: nat)
    requires 0 <= minDelayMs <= maxDelayMs
    requires k >= 1
    ensures minDelayMs <= Delay(minDelayMs, maxDelayMs, k) <= maxDelayMs
    ensures Delay(minDelayMs, maxDelayMs, k) <= Delay(minDelayMs, maxDelayMs, k + 1)
  {
    DelayClosedForm(minDelayMs, maxDelayMs, k);
    DelayClosedForm(minDelayMs, maxDelayMs, k + 1);
    var p := Pow2(k - 1);
    assert Pow2(k) == 2 * p;
    NonNegativeScaled(minDelayMs, p);
    DoubledScale(minDelayMs, p);
  }

  // ---------------------------------------------------------------------
  // The retry loop, over a scripted sequence of attempts and clock readings

  /** One call of the retried operation: the effects it had and how it ended. */
  datatype Attempt<T, E> = Attempt(events: seq<Event>, outcome: Result<T, E>)

  /** The console line and the sleep that follow a failure within budget. */
  function Wait(delayMs: int): seq<Event>
  {
    [NextCheckIn(delayMs), Sleep(delayMs)]
  }

  /** `now[0]` is the start time, read before the first call; `now[i + 1]`
      is read after call i has failed. */
  predicate ClockFits<T, E>(attempts: seq<Attempt<T, E>>, now: seq<int>)
  {
    |now| == |attempts| + 1
  }

  /** Call i ends the loop: it succeeds, or it fails later than the budget
      allows (a strict comparison). */
  predicate StopsAt<T, E>(attempts: seq<Attempt<T, E>>, now: seq<int>, maxTotalWaitingTimeMs: int, i: nat)
    requires ClockFits(attempts, now)
    requires i < |attempts|
  {
    attempts[i].outcome.Ok? || now[i + 1] - now[0] > maxTotalWaitingTimeMs
  }

  predicate Stops<T, E>(attempts: seq<Attempt<T, E>>, now: seq<int>, maxTotalWaitingTimeMs: int)
    requires ClockFits(attempts, now)
  {
    exists i: nat | i < |attempts| :: StopsAt(attempts, now, maxTotalWaitingTimeMs, i)
  }

  /** The first call that ends the loop. */
  function FirstStop<T, E>(attempts: seq<Attempt<T, E>>, now: seq<int>, maxTotalWaitingTimeMs: int): (i: nat)
    requires ClockFits(attempts, now)
    requires Stops(attempts, now, maxTotalWaitingTimeMs)
    ensures i < |attempts| && StopsAt(attempts, now, maxTotalWaitingTimeMs, i)
    ensures forall j: nat | j < i :: !StopsAt(attempts, now, maxTotalWaitingTimeMs, j)
  {
    FirstStopFrom(attempts, now, maxTotalWaitingTimeMs, 0)
  }

  function FirstStopFrom<T, E>(attempts: seq<Attempt<T, E>>, now: seq<int>, maxTotalWaitingTimeMs: int, from: nat): (i: nat)
    requires ClockFits(attempts, now)
    requires exists k: nat | from <= k < |attempts| :: StopsAt(attempts, now, maxTotalWaitingTimeMs, k)
    requires forall j: nat | j < from :: !StopsAt(attempts, now, maxTotalWaitingTimeMs, j)
    ensures from <= i < |attempts| && StopsAt(attempts, now, maxTotalWaitingTimeMs, i)
    ensures forall j: nat | j < i :: !StopsAt(attempts, now, maxTotalWaitingTimeMs, j)
    decreases |attempts| - from
  {
    if StopsAt(attempts, now, maxTotalWaitingTimeMs, from) then from
    else FirstStopFrom(attempts, now, maxTotalWaitingTimeMs, from + 1)
  }

  /** Every call before the first stop failed within the budget. */
  lemma FailedBeforeStop<T, E>(attempts: seq<Attempt<T, E>>, now: seq<int>, maxTotalWaitingTimeMs: int)
    requires ClockFits(attempts, now)
    requires Stops(attempts, now, maxTotalWaitingTimeMs)
    ensures forall j | 0 <= j < FirstStop(attempts, now, maxTotalWaitingTimeMs) ::
      attempts[j].outcome.Err? && now[j + 1] - now[0] <= maxTotalWaitingTimeMs
  {
    var stop := FirstStop(attempts, now, maxTotalWaitingTimeMs);
    forall j | 0 <= j < stop
      ensures attempts[j].outcome.Err? && now[j + 1] - now[0] <= maxTotalWaitingTimeMs
    {
      assert !StopsAt(attempts, now, maxTotalWaitingTimeMs, j);
    }
  }

  /** The effects of the first n calls: each call's own effects, preceded,
      from the second call on, by the wait after the previous failure. */
  function RetryTrace<T, E>(attempts: seq<Attempt<T, E>>, minDelayMs: int, maxDelayMs: int, n: nat): seq<Event>
    requires n <= |attempts|
  {
    if n == 0 then []
    else
      RetryTrace(attempts, minDelayMs, maxDelayMs, n - 1)
      + (if n == 1 then [] else Wait(Delay(minDelayMs, maxDelayMs, n - 1)))
      + attempts[n - 1].events
  }

  /** `executeWithRetries`. The operation is always called once, even with
      no budget; a success is returned at once, unchanged; a failure later
      than the budget is handed back as it is, with no further wait or call;
      every other failure is followed by one wait and a new call. */
  method ExecuteWithRetries<T, E>(
    attempts: seq<Attempt<T, E>>, now: seq<int>,
    maxTotalWaitingTimeMs: int, minDelayMs: int, maxDelayMs: int)
    returns (result: Result<T, E>, calls: nat, trace: seq<Event>)
    requires ClockFits(attempts, now)
    requires Stops(attempts, now, maxTotalWaitingTimeMs)
    ensures calls == FirstStop(attempts, now, maxTotalWaitingTimeMs) + 1
    ensures 1 <= calls <= |attempts|
    ensures result == attempts[calls - 1].outcome
    ensures forall j | 0 <= j < calls - 1 :: attempts[j].outcome.Err? && now[j + 1] - now[0] <= maxTotalWaitingTimeMs
    ensures result.Err? ==> now[calls] - now[0] > maxTotalWaitingTimeMs
    ensures trace == RetryTrace(attempts, minDelayMs, maxDelayMs, calls)
  {
    var startTime := now[0];
    var delayMs := minDelayMs;
    var i: nat := 0;
    ghost var stop := FirstStop(attempts, now, maxTotalWaitingTimeMs);
    trace := [];
    while true
      invariant i <= stop
      invariant delayMs == Delay(minDelayMs, maxDelayMs, i + 1)
      invariant trace == RetryTrace(attempts, minDelayMs, maxDelayMs, i)
                         + (if i == 0 then [] else Wait(Delay(minDelayMs, maxDelayMs, i)))
      decreases stop - i
    {
      trace := trace + attempts[i].events;
      var outcome := attempts[i].outcome;
      if outcome.Ok? || now[i + 1] - startTime > maxTotalWaitingTimeMs {
        assert StopsAt(attempts, now, maxTotalWaitingTimeMs, i);
        assert i == stop;
        FailedBeforeStop(attempts, now, maxTotalWaitingTimeMs);
        result, calls := outcome, i + 1;
        return;
      }
      assert !StopsAt(attempts, now, maxTotalWaitingTimeMs, i);
      ghost var before := trace;
      trace := trace + [NextCheckIn(delayMs), Sleep(delayMs)];
      assert trace == before + Wait(Delay(minDelayMs, maxDelayMs, i + 1));
      delayMs := Min(delayMs * 2, maxDelayMs);
      assert delayMs == Delay(minDelayMs, maxDelayMs, i + 2);
      i := i + 1;
    }
  }

  /** The delays of the sleeps in a trace, in order. */
  function Sleeps(trace: seq<Event>): seq<int>
  {
    if trace == [] then []
    else Sleeps(trace[..|trace| - 1]) + (if trace[|trace| - 1].Sleep? then [trace[|trace| - 1].delayMs] else [])
  }

  lemma {:induction false} SleepsAppend(a: seq<Event>, b: seq<Event>)
    ensures Sleeps(a + b) == Sleeps(a) + Sleeps(b)
  {
    if b == [] {
      assert a + b == a;
    } else {
      assert (a + b)[..|a + b| - 1] == a + b[..|b| - 1];
      SleepsAppend(a, b[..|b| - 1]);
    }
  }

  /** A call that does not sleep by itself. */
  predicate NoSleepIn<T, E>(attempts: seq<Attempt<T, E>>)
  {
    forall i | 0 <= i < |attempts| :: Sleeps(attempts[i].events) == []
  }

  lemma SleepsOfWait(delayMs: int)
    ensures Sleeps(Wait(delayMs)) == [delayMs]
  {
    var w := Wait(delayMs);
    var head := [NextCheckIn(delayMs)];
    assert w[..1] == head;
    assert head[..0] == [];
    assert Sleeps(head) == [];
  }

  /** Between n calls the loop sleeps n - 1 times, by the back-off schedule. */
  lemma {:induction false} RetryTraceSleeps<T, E>(attempts: seq<Attempt<T, E>>, minDelayMs: int, maxDelayMs: int, n: nat)
    requires n <= |attempts|
    requires NoSleepIn(attempts)
    ensures Sleeps(RetryTrace(attempts, minDelayMs, maxDelayMs, n))
         == Schedule(minDelayMs, maxDelayMs, if n == 0 then 0 else n - 1)
  {
    if n == 1 {
      assert RetryTrace(attempts, minDelayMs, maxDelayMs, 1) == attempts[0].events;
      assert Sleeps(attempts[0].events) == [];
    } else if n > 1 {
      RetryTraceSleeps(attempts, minDelayMs, maxDelayMs, n - 1);
      var prefix := RetryTrace(attempts, minDelayMs, maxDelayMs, n - 1);
      var d := Delay(minDelayMs, maxDelayMs, n - 1);
      assert RetryTrace(attempts, minDelayMs, maxDelayMs, n) == prefix + Wait(d) + attempts[n - 1].events;
      SleepsAppend(prefix + Wait(d), attempts[n - 1].events);
      SleepsAppend(prefix, Wait(d));
      SleepsOfWait(d);
      assert Sleeps(attempts[n - 1].events) == [];
    }
  }

  /** A clock that honours the sleeps: after the wait that follows failure
      i (counting from 1), the next reading is at least that delay later. */
  predicate ClockHonoursSleeps<T, E>(attempts: seq<Attempt<T, E>>, now: seq<int>, minDelayMs: int, maxDelayMs: int)
    requires ClockFits(attempts, now)
  {
    && (|attempts| > 0 ==> now[0] <= now[1])
    && forall i | 1 <= i < |attempts| :: now[i + 1] >= now[i] + Delay(minDelayMs, maxDelayMs, i)
  }

  lemma {:induction false} ElapsedAtLeast<T, E>(attempts: seq<Attempt<T, E>>, now: seq<int>, minDelayMs: int, maxDelayMs: int, k: nat)
    requires ClockFits(attempts, now)
    requires 0 <= minDelayMs <= maxDelayMs
    requires ClockHonoursSleeps(attempts, now, minDelayMs, maxDelayMs)
    requires k < |attempts|
    ensures now[k + 1] - now[0] >= k * minDelayMs
  {
    if k > 0 {
      ElapsedAtLeast(attempts, now, minDelayMs, maxDelayMs, k - 1);
      DelaysNonDecreasing(minDelayMs, maxDelayMs, k);
    }
  }

  /** With a positive minimum and a clock that honours the sleeps, the loop
      makes at most k + 1 calls once k minimum delays exceed the budget. */
  lemma StopsWithin<T, E>(attempts: seq<Attempt<T, E>>, now: seq<int>,
                          maxTotalWaitingTimeMs: int, minDelayMs: int, maxDelayMs: int, k: nat)
    requires ClockFits(attempts, now)
    requires 0 < minDelayMs <= maxDelayMs
    requires ClockHonoursSleeps(attempts, now, minDelayMs, maxDelayMs)
    requires k < |attempts| && k * minDelayMs > maxTotalWaitingTimeMs
    ensures Stops(attempts, now, maxTotalWaitingTimeMs)
    ensures FirstStop(attempts, now, maxTotalWaitingTimeMs) <= k
  {
    ElapsedAtLeast(attempts, now, minDelayMs, maxDelayMs, k);
    assert StopsAt(attempts, now, maxTotalWaitingTimeMs, k);
  }

  // ---------------------------------------------------------------------
  // Error text and numeric inputs

  /** `httpErrorResponseToText`: a truthy string body verbatim, an object
      body as its JSON text, and otherwise the error's own message. */
  function HttpErrorResponseToText(err: HttpError): (r: string)
    ensures HasStringBody(err) ==> r == err.response.value.text
    ensures HasTruthyBody(err) && err.response.value.Obj? ==> r == err.response.value.json
    ensures !HasTruthyBody(err) ==> r == err.message
    ensures HasTruthyBody(err) && err.response.value.Other? ==> r == err.message
  {
    if HasTruthyBody(err) then
      match err.response.value
      case Str(text) => text
      case Obj(json) => json
      case _ => err.message
    else err.message
  }

  /** The text differs from the message only when the server sent a truthy
      string or an object, and then it is what the server sent. */
  lemma ResponseTextIsMessageOrBody(err: HttpError)
    ensures HttpErrorResponseToText(err) != err.message ==>
      && HasTruthyBody(err)
      && (err.response.value.Str? || err.response.value.Obj?)
  {
  }

  function NotANumber(name: string): string
  {
    "Input " + name + " is not a number"
  }

  /** `getInputNumber` on the text of the input named `name`: the decimal
      `parseInt` of it, or an error naming the input when that is NaN. */
  function GetInputNumber(name: string, value: string): (r: Result<int, string>)
    ensures r.Err? <==> ParseInt(value).None?
    ensures r.Err? ==> r.error == NotANumber(name)
    ensures r.Ok? ==> Some(r.value) == ParseInt(value)
  {
    match ParseInt(value)
    case None => Err(NotANumber(name))
    case Some(n) => Ok(n)
  }

  /** The error comes exactly when no digit follows the leading white space
      and the optional sign. */
  lemma GetInputNumberRejects(name: string, value: string)
    ensures GetInputNumber(name, value).Err? <==> forall i :: !NumeralStartsAt(value, i)
  {
    ParseIntNaN(value);
  }

  /** The number a decimal numeral was written from is read back. */
  lemma GetInputNumberOfNumeral(name: string, n: int)
    ensures GetInputNumber(name, IntToString(n)) == Ok(n)
  {
    ParseIntOfNumeral(n);
  }

  /** Leading white space is skipped and trailing non-digits are ignored:
      "  42px" reads as 42 and " -7" as -7. */
  lemma GetInputNumberOfPrefix(name: string, w: string, sign: string, d: string, rest: string)
    requires AllWhiteSpace(w)
    requires sign == "" || sign == "+" || sign == "-"
    requires d != [] && AllDigits(d)
    requires rest == [] || !IsDecimalDigit(rest[0])
    ensures GetInputNumber(name, w + sign + d + rest) == Ok(Signed(sign == "-", DecimalValue(d)))
  {
    ParseIntOf(w, sign, d, rest);
  }
}
