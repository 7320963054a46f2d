// Token rates of a stats window: hourly peaks against the overall rate, over the reals.
module StatsPeaks {

  /** One hour: total tokens of a kind, total duration and number of requests. */
  datatype Hour = Hour(tokens: nat, durationMs: nat, requests: nat)

  function DurationSeconds(totalMs: nat, requests: nat): (r: real)
    ensures r > 0.0
  {
    if totalMs > 0 then totalMs as real / 1000.0
    else if requests > 0 then requests as real * 0.001
    else 1.0
  }

  function TokenSpeed(tokens: nat, seconds: real): real {
    if seconds <= 0.0 then 0.0 else tokens as real / seconds
  }

  function Speed(h: Hour): real { TokenSpeed(h.tokens, DurationSeconds(h.durationMs, h.requests)) }

  function TotalTokens(hours: seq<Hour>): nat {
    if hours == [] then 0 else TotalTokens(hours[..|hours| - 1]) + hours[|hours| - 1].tokens
  }

  function TotalMs(hours: seq<Hour>): nat {
    if hours == [] then 0 else TotalMs(hours[..|hours| - 1]) + hours[|hours| - 1].durationMs
  }

  function TotalRequests(hours: seq<Hour>): nat {
    if hours == [] then 0 else TotalRequests(hours[..|hours| - 1]) + hours[|hours| - 1].requests
  }

  function OverallSpeed(hours: seq<Hour>): real {
    TokenSpeed(TotalTokens(hours), DurationSeconds(TotalMs(hours), TotalRequests(hours)))
  }

  function Peak(hours: seq<Hour>): (r: real)
    ensures r >= 0.0
  {
    if hours == [] then 0.0
    else
      var before, last := Peak(hours[..|hours| - 1]), Speed(hours[|hours| - 1]);
      if before < last then last else before
  }

  /** The running maximum is the least bound of the hourly speeds and zero. */
  method ComputePeak(hours: seq<Hour>) returns (peak: real)
    ensures peak == Peak(hours)
    ensures peak >= 0.0 && forall i :: 0 <= i < |hours| ==> Speed(hours[i]) <= peak
    ensures peak == 0.0 || exists i :: 0 <= i < |hours| && Speed(hours[i]) == peak
  {
    hide Speed;
    peak := 0.0;
    var i := 0;
    while i < |hours|
      invariant 0 <= i <= |hours|
      invariant peak == Peak(hours[..i])
      invariant peak >= 0.0 && forall j :: 0 <= j < i ==> Speed(hours[j]) <= peak
      invariant peak == 0.0 || exists j :: 0 <= j < i && Speed(hours[j]) == peak
    {
      assert hours[..i + 1][..i] == hours[..i];
      var speed := Speed(hours[i]);
      if peak < speed { peak := speed; }
      i := i + 1;
    }
    assert hours[..i] == hours;
  }

  // ----- the mediant inequality -----

  function Seconds(h: Hour): (r: real)
    ensures r > 0.0
  {
    DurationSeconds(h.durationMs, h.requests)
  }

  function TotalSeconds(hours: seq<Hour>): real {
    if hours == [] then 0.0 else TotalSeconds(hours[..|hours| - 1]) + Seconds(hours[|hours| - 1])
  }

  lemma RatioBound(a: real, b: real, p: real)
    requires b > 0.0
    ensures a / b <= p <==> a <= p * b
  {
    var q := a / b;
    assert q * b == a;
    if q <= p { Scales(q, p, b); }
    if q > p { Scales(p, q, b); StrictlyScales(p, q, b); }
  }

  lemma Scales(x: real, y: real, b: real)
    requires x <= y && b > 0.0
    ensures x * b <= y * b
  {
    assert (y - x) * b >= 0.0;
  }

  lemma StrictlyScales(x: real, y: real, b: real)
    requires x < y && b > 0.0
    ensures x * b < y * b
  {
    assert (y - x) * b > 0.0;
  }

  /** Tokens that a speed allows in a time. */
  function Allowed(speed: real, seconds: real): real { speed * seconds }

  lemma AllowedAdds(p: real, a: real, b: real)
    ensures Allowed(p, a + b) == Allowed(p, a) + Allowed(p, b) && Allowed(p, 0.0) == 0.0
  {
  }

  lemma SpeedBounds(tokens: nat, seconds: real, p: real)
    requires seconds > 0.0
    ensures TokenSpeed(tokens, seconds) <= p <==> tokens as real <= Allowed(p, seconds)
  {
    RatioBound(tokens as real, seconds, p);
  }

  lemma {:induction false} PeakBoundsAll(hours: seq<Hour>, p: real)
    requires Peak(hours) <= p
    ensures TotalTokens(hours) as real <= Allowed(p, TotalSeconds(hours))
  {
    hide Allowed;
    hide TokenSpeed;
    hide DurationSeconds;
    AllowedAdds(p, 0.0, 0.0);
    if hours != [] {
      var n := |hours| - 1;
      var h := hours[n];
      PeakBoundsAll(hours[..n], p);
      SpeedBounds(h.tokens, Seconds(h), p);
      AllowedAdds(p, TotalSeconds(hours[..n]), Seconds(h));
    }
  }

  /** Some hours have a recorded duration and some do not. */
  ghost predicate Mixed(hours: seq<Hour>) {
    (exists i :: 0 <= i < |hours| && hours[i].durationMs > 0) && (exists i :: 0 <= i < |hours| && hours[i].durationMs == 0)
  }

  ghost predicate Populated(hours: seq<Hour>) { forall i :: 0 <= i < |hours| ==> hours[i].requests > 0 }

  /** Seconds over the hours with a duration, and over those without. */
  lemma {:induction false} SecondsAddUp(hours: seq<Hour>)
    requires Populated(hours)
    ensures (forall i :: 0 <= i < |hours| ==> hours[i].durationMs > 0) ==>
              TotalSeconds(hours) == TotalMs(hours) as real / 1000.0 && (hours != [] ==> TotalMs(hours) > 0)
    ensures (forall i :: 0 <= i < |hours| ==> hours[i].durationMs == 0) ==>
              TotalSeconds(hours) == TotalRequests(hours) as real * 0.001 && TotalMs(hours) == 0 &&
              (hours != [] ==> TotalRequests(hours) > 0)
  {
    if hours != [] { SecondsAddUp(hours[..|hours| - 1]); }
  }

  lemma UnmixedSeconds(hours: seq<Hour>)
    requires Populated(hours) && !Mixed(hours) && hours != []
    ensures DurationSeconds(TotalMs(hours), TotalRequests(hours)) == TotalSeconds(hours)
  {
    SecondsAddUp(hours);
    if hours[0].durationMs > 0 { assert forall i :: 0 <= i < |hours| ==> hours[i].durationMs > 0; }
  }

  lemma UnmixedSpeedBounded(hours: seq<Hour>)
    requires Populated(hours) && !Mixed(hours)
    ensures OverallSpeed(hours) <= Peak(hours)
  {
    if hours != [] {
      hide TokenSpeed;
      hide DurationSeconds;
      hide Allowed;
      UnmixedSeconds(hours);
      PeakBoundsAll(hours, Peak(hours));
      SpeedBounds(TotalTokens(hours), TotalSeconds(hours), Peak(hours));
    }
  }

  /** A speed is tokens over the recorded seconds, a millisecond for each request when none are recorded, and one
      second without requests. */
  lemma SpeedIs(tokens: nat, ms: nat, requests: nat)
    ensures var v := Speed(Hour(tokens, ms, requests));
            (ms > 0 ==> v * ms as real == 1000.0 * tokens as real) &&
            (ms == 0 && requests > 0 ==> v * requests as real == 1000.0 * tokens as real) &&
            (ms == 0 && requests == 0 ==> v == tokens as real)
  {
    var s, t := DurationSeconds(ms, requests), tokens as real;
    assert Speed(Hour(tokens, ms, requests)) == t / s;
    RatioTimes(t, s);
    if ms > 0 {
      assert s * 1000.0 == ms as real;
      Thousandth(t / s, s, ms as real);
    } else if requests > 0 {
      assert s * 1000.0 == requests as real;
      Thousandth(t / s, s, requests as real);
    }
  }

  lemma RatioTimes(a: real, b: real)
    requires b > 0.0
    ensures (a / b) * b == a
  {
  }

  lemma Thousandth(v: real, s: real, n: real)
    requires s * 1000.0 == n
    ensures v * n == 1000.0 * (v * s)
  {
  }

  // ----- it fails for every mixed pattern -----

  /** Give every hour the tokens that make its speed exactly 1000 per second. */
  function Level(h: Hour): Hour { h.(tokens := if h.durationMs > 0 then h.durationMs else h.requests) }

  function LevelAll(hours: seq<Hour>): (r: seq<Hour>)
    ensures |r| == |hours| && forall i :: 0 <= i < |r| ==> r[i] == Level(hours[i])
  {
    seq(|hours|, i requires 0 <= i < |hours| => Level(hours[i]))
  }

  lemma LevelSpeed(h: Hour)
    requires h.requests > 0
    ensures Speed(Level(h)) == 1000.0
  {
    var l := Level(h);
    if h.durationMs > 0 {
      var d := h.durationMs as real;
      assert Seconds(l) * 1000.0 == d;
      RatioIs(d, Seconds(l), 1000.0);
    } else {
      var r := h.requests as real;
      assert Seconds(l) * 1000.0 == r;
      RatioIs(r, Seconds(l), 1000.0);
    }
  }

  lemma RatioIs(a: real, b: real, q: real)
    requires b > 0.0 && b * q == a
    ensures a / b == q
  {
  }

  lemma {:induction false} LevelTotals(hours: seq<Hour>)
    requires Populated(hours)
    ensures Peak(LevelAll(hours)) <= 1000.0
    ensures TotalMs(LevelAll(hours)) == TotalMs(hours) && TotalRequests(LevelAll(hours)) == TotalRequests(hours)
    ensures TotalTokens(LevelAll(hours)) >= TotalMs(hours)
    ensures (exists i :: 0 <= i < |hours| && hours[i].durationMs == 0) ==> TotalTokens(LevelAll(hours)) > TotalMs(hours)
  {
    if hours != [] {
      var n := |hours| - 1;
      LevelTotals(hours[..n]);
      LevelSpeed(hours[n]);
      hide Speed;
      assert LevelAll(hours)[..n] == LevelAll(hours[..n]);
    }
  }

  lemma {:induction false} SomeDuration(hours: seq<Hour>, i: int)
    requires 0 <= i < |hours| && hours[i].durationMs > 0
    ensures TotalMs(hours) > 0
  {
    if i < |hours| - 1 { SomeDuration(hours[..|hours| - 1], i); }
  }

  lemma FasterThan1000(tokens: nat, ms: nat, requests: nat)
    requires 0 < ms < tokens
    ensures TokenSpeed(tokens, DurationSeconds(ms, requests)) > 1000.0
  {
    var seconds := ms as real / 1000.0;
    assert 1000.0 * seconds == ms as real;
    RatioBound(tokens as real, seconds, 1000.0);
  }

  lemma MixedSpeedExceedsPeak(hours: seq<Hour>)
    requires Populated(hours) && Mixed(hours)
    ensures OverallSpeed(LevelAll(hours)) > Peak(LevelAll(hours))
  {
    hide TokenSpeed;
    hide DurationSeconds;
    var i :| 0 <= i < |hours| && hours[i].durationMs > 0;
    SomeDuration(hours, i);
    LevelTotals(hours);
    FasterThan1000(TotalTokens(LevelAll(hours)), TotalMs(hours), TotalRequests(hours));
  }

  ghost predicate SameShape(a: seq<Hour>, b: seq<Hour>) {
    |a| == |b| && forall i :: 0 <= i < |a| ==> a[i].durationMs == b[i].durationMs && a[i].requests == b[i].requests
  }

  /** For a pattern of hours, each with at least one request, the overall rate stays within the peak
      for all token counts exactly when the durations are all recorded or all missing. */
  lemma PeakBoundsOverallIffUnmixed(hours: seq<Hour>)
    requires Populated(hours)
    ensures (forall other :: SameShape(hours, other) ==> OverallSpeed(other) <= Peak(other)) <==> !Mixed(hours)
  {
    if Mixed(hours) {
      MixedSpeedExceedsPeak(hours);
      assert SameShape(hours, LevelAll(hours));
    } else {
      forall other | SameShape(hours, other) ensures OverallSpeed(other) <= Peak(other) {
        assert !Mixed(other);
        UnmixedSpeedBounded(other);
      }
    }
  }
}
