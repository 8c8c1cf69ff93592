/** The ordered provider chain with retries: aivoicemail/retry.py. */
module Retry {
  import opened Common

  /** What one call of a provider does. */
  datatype Answer<T> = Value(value: T) | Skips | Fails

  /** How the calls of one step end: the number of failures before the first call that does not fail, at most `n`. */
  function Failures<T>(answers: seq<Answer<T>>, n: nat): (k: nat)
    requires n <= |answers|
    ensures k <= n
    ensures forall i | 0 <= i < k :: answers[i].Fails?
    ensures k < n ==> !answers[k].Fails?
  {
    if n == 0 then 0
    else
      var k := Failures(answers, n - 1);
      if k < n - 1 || !answers[n - 1].Fails? then k else n
  }

  predicate Succeeds<T>(answers: seq<Answer<T>>, attempts: nat)
    requires attempts <= |answers|
  {
    var k := Failures(answers, attempts); k < attempts && answers[k].Value?
  }

  predicate SkipsEarly<T>(answers: seq<Answer<T>>, attempts: nat)
    requires attempts <= |answers|
  {
    var k := Failures(answers, attempts); k + 1 < attempts && answers[k].Skips?
  }

  predicate Known<T>(steps: seq<seq<Answer<T>>>, attempts: nat) {
    forall i | 0 <= i < |steps| :: attempts <= |steps[i]|
  }

  /** `chain`, given what the i-th call of each step would do. The result names the step that answered; `calls` and
      `slept` are all calls made and all seconds slept.

      The first step that succeeds answers; every step before it was skipped or failed on every attempt. At most
      `attempts` calls are made per step, and without an answer the sleep is at most 2^attempts - 2 seconds per step,
      which is reached exactly when no step is skipped before its last attempt. */
  method Chain<T>(steps: seq<seq<Answer<T>>>, attempts: nat)
    returns (result: Option<(T, nat)>, calls: nat, slept: nat)
    requires Known(steps, attempts)
    ensures result.None? <==> forall i | 0 <= i < |steps| :: !Succeeds(steps[i], attempts)
    ensures result.Some? ==>
              var i := result.value.1;
              && i < |steps| && Succeeds(steps[i], attempts)
              && steps[i][Failures(steps[i], attempts)] == Value(result.value.0)
              && forall j | 0 <= j < i :: !Succeeds(steps[j], attempts)
    ensures calls <= attempts * |steps|
    ensures result.None? ==> slept <= |steps| * (Pow2(attempts) - 2) || attempts == 0
    ensures result.None? && attempts > 0 ==>
              (slept == |steps| * (Pow2(attempts) - 2) <==>
               forall i | 0 <= i < |steps| :: !SkipsEarly(steps[i], attempts))
    ensures attempts == 0 ==> calls == 0 && slept == 0
  {
    calls, slept := 0, 0;
    for i := 0 to |steps|
      invariant forall j | 0 <= j < i :: !Succeeds(steps[j], attempts)
      invariant calls <= attempts * i
      invariant attempts > 0 ==> slept <= i * (Pow2(attempts) - 2)
      invariant attempts > 0 ==> (slept == i * (Pow2(attempts) - 2) <==>
                                  forall j | 0 <= j < i :: !SkipsEarly(steps[j], attempts))
      invariant attempts == 0 ==> calls == 0 && slept == 0
    {
      var value, made, paused := Step(steps[i], attempts);
      calls, slept := calls + made, slept + paused;
      if value.Some? {
        MoreCalls(attempts, i, |steps|, calls);
        return Some((value.value, i)), calls, slept;
      }
      assert (i + 1) * (Pow2(attempts) - 2) == i * (Pow2(attempts) - 2) + (Pow2(attempts) - 2);
      assert attempts * (i + 1) == attempts * i + attempts;
    }
    return None, calls, slept;
  }

  lemma MoreCalls(attempts: nat, i: nat, n: nat, calls: nat)
    requires i < n && calls <= attempts * i + attempts
    ensures calls <= attempts * n
  {
    var rest := n - i - 1;
    assert n == i + 1 + rest;
    Distributes(attempts, i, rest);
  }

  lemma Distributes(a: nat, i: nat, rest: nat)
    ensures a * (i + 1 + rest) == a * i + a + a * rest && a * rest >= 0
  {
  }

  /** The inner loop: up to `attempts` calls of one provider, sleeping 2, 4, 8, ... seconds between them. */
  method Step<T>(answers: seq<Answer<T>>, attempts: nat) returns (value: Option<T>, calls: nat, slept: nat)
    requires attempts <= |answers|
    ensures value.Some? <==> Succeeds(answers, attempts)
    ensures value.Some? ==> answers[Failures(answers, attempts)] == Value(value.value)
    ensures var k := Failures(answers, attempts);
      && calls == (if k < attempts then k + 1 else k)
      && (attempts > 0 ==> slept == Pow2(if k < attempts then k + 1 else k) - 2)
      && (attempts > 0 ==> slept <= Pow2(attempts) - 2)
      && (attempts > 0 && value.None? ==> (slept == Pow2(attempts) - 2 <==> !SkipsEarly(answers, attempts)))
      && (attempts == 0 ==> slept == 0)
  {
    calls, slept := 0, 0;
    for attempt := 1 to attempts + 1
      invariant calls == attempt - 1 && Failures(answers, attempt - 1) == attempt - 1
      invariant attempt <= attempts ==> slept == Pow2(attempt) - 2
      invariant attempt == attempts + 1 && attempts > 0 ==> slept == Pow2(attempts) - 2
      invariant attempts == 0 ==> slept == 0
    {
      calls := calls + 1;
      FailuresGrow(answers, attempt, attempts);
      Pow2Grows(attempt, attempts);
      match answers[attempt - 1] {
        case Value(v) =>
          return Some(v), calls, slept;
        case Skips =>
          return None, calls, slept;
        case Fails =>
          if attempt < attempts {
            slept := slept + Pow2(attempt);
          }
      }
    }
    return None, calls, slept;
  }

  lemma {:induction false} FailuresGrow<T>(answers: seq<Answer<T>>, m: nat, n: nat)
    requires m <= n <= |answers|
    ensures Failures(answers, m) < m ==> Failures(answers, n) == Failures(answers, m)
    decreases n - m
  {
  }
}
