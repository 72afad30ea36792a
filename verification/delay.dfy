/** The delay engine of httpmock/delay.go.  Durations are whole nanoseconds,
    as `time.Duration` is.  The text of a duration is parsed at configuration
    time by `time.ParseDuration` (an oracle here); at request time the uniform
    delay draws from `rand.Intn` and the normal delay draws one log-normal
    sample (both oracles in `Http.Env`). */
module Delay {
  import opened Base
  import opened Http

  /** The parsed form of a delay declaration. */
  datatype Sampler =
    | Fixed(delay: int)
    | Uniform(min: int, max: int)
    | LogNormal(mean: int, stdDev: int, max: int)

  /** `time.ParseDuration`: None when the text is not a duration. */
  type DurationParser = string -> Option<int>

  function Min(a: int, b: int): int {
    if a <= b then a else b
  }

  /** The events of one wait: `time.Sleep` for the sampled duration.  A uniform
      delay whose range is empty makes `rand.Intn` panic. */
  function WaitEvents(s: Sampler, env: Env): seq<Event> {
    match s
    case Fixed(d) => [Sleep(d)]
    case Uniform(min, max) =>
      if max - min <= 0 then [Panic] else [Sleep(min + env.intn(max - min))]
    case LogNormal(mean, stdDev, max) => [Sleep(Min(max, env.sample(mean, stdDev)))]
  }

  /** `rand.Intn(n)` lies in [0, n). */
  ghost predicate IntnInRange(env: Env) {
    forall n :: n > 0 ==> 0 <= env.intn(n) < n
  }

  /** `FixedDelay(d)`: fails naming "time" when `d` does not parse. */
  function FixedDelay(d: string, parse: DurationParser): (r: Result<Sampler, ConfigError>)
    ensures r.Failure? <==> parse(d).None?
    ensures r.Failure? ==> r.error == DurationParse("FixedDelay", "time")
    ensures r.Success? ==> r.value.Fixed? && r.value.delay == parse(d).value
  {
    match parse(d)
    case None => Failure(DurationParse("FixedDelay", "time"))
    case Some(dd) => Success(Fixed(dd))
  }

  /** `UniformDelay(min, max)`: `min` is parsed first, so when both are
      malformed the failure names "min". */
  function UniformDelay(min: string, max: string, parse: DurationParser): (r: Result<Sampler, ConfigError>)
    ensures r.Failure? <==> parse(min).None? || parse(max).None?
    ensures r.Failure? ==> r.error == DurationParse("UniformDelay", if parse(min).None? then "min" else "max")
    ensures r.Success? ==> r.value == Uniform(parse(min).value, parse(max).value)
  {
    var lo :- parse(min).ToResult(DurationParse("UniformDelay", "min"));
    var hi :- parse(max).ToResult(DurationParse("UniformDelay", "max"));
    Success(Uniform(lo, hi))
  }

  /** `NormalDelay(mean, stdDev, max)`: parsed in that order. */
  function NormalDelay(mean: string, stdDev: string, max: string, parse: DurationParser): (r: Result<Sampler, ConfigError>)
    ensures r.Failure? <==> parse(mean).None? || parse(stdDev).None? || parse(max).None?
    ensures r.Failure? ==> r.error == DurationParse("NormalDelay",
              if parse(mean).None? then "mean" else if parse(stdDev).None? then "stdDev" else "max")
    ensures r.Success? ==> r.value == LogNormal(parse(mean).value, parse(stdDev).value, parse(max).value)
  {
    var m :- parse(mean).ToResult(DurationParse("NormalDelay", "mean"));
    var sd :- parse(stdDev).ToResult(DurationParse("NormalDelay", "stdDev"));
    var mx :- parse(max).ToResult(DurationParse("NormalDelay", "max"));
    Success(LogNormal(m, sd, mx))
  }

  /** A fixed delay waits exactly its duration, on every request. */
  lemma FixedWaitsExactly(d: int, env: Env)
    ensures WaitEvents(Fixed(d), env) == [Sleep(d)]
  {
  }

  /** A uniform delay waits `min + r` with `r` drawn from [0, max-min), so
      `min <= wait < max`. */
  lemma UniformWaitBounds(min: int, max: int, env: Env)
    requires IntnInRange(env)
    requires min < max
    ensures |WaitEvents(Uniform(min, max), env)| == 1
    ensures WaitEvents(Uniform(min, max), env)[0].Sleep?
    ensures min <= WaitEvents(Uniform(min, max), env)[0].duration < max
  {
    var n := max - min;
    assert 0 <= env.intn(n) < n;
  }

  /** With `max <= min` the request panics inside `rand.Intn`. */
  lemma UniformEmptyRangePanics(min: int, max: int, env: Env)
    requires max <= min
    ensures WaitEvents(Uniform(min, max), env) == [Panic]
  {
  }

  /** A normal delay is clipped at `max`, and is the sample itself below it. */
  lemma NormalWaitCapped(mean: int, stdDev: int, max: int, env: Env)
    ensures WaitEvents(LogNormal(mean, stdDev, max), env)[0].duration <= max
    ensures env.sample(mean, stdDev) <= max ==>
              WaitEvents(LogNormal(mean, stdDev, max), env) == [Sleep(env.sample(mean, stdDev))]
  {
  }
}
