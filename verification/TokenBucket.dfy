/** How often a connection may make requests. Tokens build up with time, to a limit, and a request
    needs one. */
module TokenBucket {

  /** The rate, in requests a second, and how many may be made at once. */
  datatype Rate = Rate(perSecond: real, burst: nat)

  datatype Bucket = Bucket(tokens: real, refilled: real)

  function Min(a: real, b: real): real {
    if b < a then b else a
  }

  /** The tokens that some time gives. */
  function Gain(rate: Rate, seconds: real): real {
    seconds * rate.perSecond
  }

  function Refill(rate: Rate, b: Bucket, now: real): Bucket {
    Bucket(Min(rate.burst as real, b.tokens + Gain(rate, now - b.refilled)), now)
  }

  predicate Allows(rate: Rate, b: Bucket, now: real) {
    Refill(rate, b, now).tokens >= 1.0
  }

  function Taken(rate: Rate, b: Bucket, now: real): Bucket {
    var full := Refill(rate, b, now);
    if Allows(rate, b, now) then full.(tokens := full.tokens - 1.0) else full
  }

  function Fresh(rate: Rate, now: real): Bucket {
    Bucket(rate.burst as real, now)
  }

  /** A connection's part that counts its requests. */
  class Requests {
    const rate: Rate
    var tokens: real
    var refilled: real

    constructor (rate: Rate, now: real)
      ensures this.rate == rate && View() == Fresh(rate, now)
    {
      this.rate := rate;
      tokens, refilled := rate.burst as real, now;
    }

    function View(): Bucket
      reads this
    {
      Bucket(tokens, refilled)
    }

    /** Decides Allows for a request made now, which uses up one token if it is allowed. */
    method Allowed(now: real) returns (allowed: bool)
      modifies this
      ensures allowed == Allows(rate, old(View()), now)
      ensures View() == Taken(rate, old(View()), now)
    {
      tokens := Min(rate.burst as real, tokens + Gain(rate, now - refilled));
      refilled := now;
      if tokens < 1.0 {
        return false;
      }
      tokens := tokens - 1.0;
      return true;
    }
  }

  // ----- Runs -----

  /** Times of requests, none before a start. */
  ghost predicate InTime(start: real, times: seq<real>) {
    forall i :: 0 <= i < |times| ==> Previous(start, times, i) <= times[i]
  }

  function Previous(start: real, times: seq<real>, i: nat): real
    requires i <= |times|
  {
    if i == 0 then start else times[i - 1]
  }

  /** The bucket after the first n requests. */
  function After(rate: Rate, start: real, times: seq<real>, n: nat): Bucket
    requires n <= |times|
  {
    if n == 0 then Fresh(rate, start) else Taken(rate, After(rate, start, times, n - 1), times[n - 1])
  }

  predicate Granted(rate: Rate, start: real, times: seq<real>, i: nat)
    requires i < |times|
  {
    Allows(rate, After(rate, start, times, i), times[i])
  }

  /** How many of the requests from the i-th to before the n-th are allowed. */
  function Grants(rate: Rate, start: real, times: seq<real>, i: nat, n: nat): nat
    requires i <= n <= |times|
  {
    if n == i then 0 else Grants(rate, start, times, i, n - 1) + (if Granted(rate, start, times, n - 1) then 1 else 0)
  }

  lemma GainGrows(rate: Rate, seconds: real)
    requires rate.perSecond >= 0.0 && seconds >= 0.0
    ensures Gain(rate, seconds) >= 0.0
  {
  }

  lemma GainAdds(rate: Rate, a: real, b: real)
    ensures Gain(rate, a) + Gain(rate, b) == Gain(rate, a + b)
  {
  }

  lemma GainOfNothing(rate: Rate)
    ensures Gain(rate, 0.0) == 0.0
  {
  }

  lemma RefillGrows(rate: Rate, b: Bucket, now: real)
    requires rate.perSecond >= 0.0 && b.refilled <= now && 0.0 <= b.tokens <= rate.burst as real
    ensures b.tokens <= Refill(rate, b, now).tokens <= rate.burst as real
    ensures Refill(rate, b, now).tokens <= b.tokens + Gain(rate, now - b.refilled)
  {
    GainGrows(rate, now - b.refilled);
    hide Gain;
  }

  lemma {:induction false} AfterIsPartFull(rate: Rate, start: real, times: seq<real>, n: nat)
    requires rate.perSecond >= 0.0 && n <= |times| && InTime(start, times)
    ensures
      var b := After(rate, start, times, n);
      0.0 <= b.tokens <= rate.burst as real && b.refilled == Previous(start, times, n)
  {
    hide Gain;
    if n > 0 {
      AfterIsPartFull(rate, start, times, n - 1);
      RefillGrows(rate, After(rate, start, times, n - 1), times[n - 1]);
    }
  }

  lemma {:induction false} TokensAndGrants(rate: Rate, start: real, times: seq<real>, i: nat, n: nat)
    requires rate.perSecond >= 0.0 && i < n <= |times| && InTime(start, times)
    ensures After(rate, start, times, n).tokens + Grants(rate, start, times, i, n) as real
      <= rate.burst as real + Gain(rate, times[n - 1] - times[i])
  {
    hide Gain;
    AfterIsPartFull(rate, start, times, n - 1);
    RefillGrows(rate, After(rate, start, times, n - 1), times[n - 1]);
    if n == i + 1 {
      assert Grants(rate, start, times, i, i) == 0;
      GainOfNothing(rate);
      assert times[n - 1] - times[i] == 0.0;
    } else {
      TokensAndGrants(rate, start, times, i, n - 1);
      GainAdds(rate, times[n - 1] - times[n - 2], times[n - 2] - times[i]);
      assert (times[n - 1] - times[n - 2]) + (times[n - 2] - times[i]) == times[n - 1] - times[i];
    }
  }

  /** Between any two requests of a run, no more are allowed than the burst and
      what the time between them gives. */
  lemma AllowedAreBounded(rate: Rate, start: real, times: seq<real>, i: nat, j: nat)
    requires rate.perSecond >= 0.0 && i <= j < |times| && InTime(start, times)
    ensures Grants(rate, start, times, i, j + 1) as real <= rate.burst as real + rate.perSecond * (times[j] - times[i])
  {
    hide *;
    var n := j + 1;
    TokensAndGrants(rate, start, times, i, n);
    AfterIsPartFull(rate, start, times, n);
    assert n - 1 == j;
    AtMost(rate, Grants(rate, start, times, i, n) as real, times[i], times[j]);
  }

  lemma AtMost(rate: Rate, granted: real, from: real, to: real)
    requires granted <= rate.burst as real + Gain(rate, to - from)
    ensures granted <= rate.burst as real + rate.perSecond * (to - from)
  {
  }

  lemma GainOfSpace(rate: Rate, seconds: real)
    ensures rate.perSecond > 0.0 && seconds >= 1.0 / rate.perSecond ==> Gain(rate, seconds) >= 1.0
  {
  }

  /** A client whose requests are at least a second, divided by the rate, apart is never refused. */
  lemma SpacedAreAllowed(rate: Rate, start: real, times: seq<real>, i: nat)
    requires rate.perSecond > 0.0 && rate.burst >= 1 && i < |times| && InTime(start, times)
    requires forall k :: 0 < k < |times| ==> times[k] - times[k - 1] >= 1.0 / rate.perSecond
    ensures Granted(rate, start, times, i)
  {
    hide Gain;
    AfterIsPartFull(rate, start, times, i);
    RefillGrows(rate, After(rate, start, times, i), times[i]);
    if i == 0 {
      assert After(rate, start, times, 0).tokens == rate.burst as real;
    } else {
      GainOfSpace(rate, times[i] - times[i - 1]);
    }
  }
}
