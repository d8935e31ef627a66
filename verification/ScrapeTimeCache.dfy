/**
 * The scrape-time cache of the interface collector: a collect within 15 seconds of the last successful scrape repeats
 * the cached series; any other collect refills the cache in place, and a scrape that fails leaves its partial list
 * behind. The collect holds a mutex throughout, so collects follow one another.
 */
module ScrapeTimeCache {
  import opened Results
  import opened Sequences
  import opened Metrics

  /** Fifteen seconds in nanoseconds. */
  const WINDOW := 15_000_000_000

  /** What one of the series builders appended, and whether it then succeeded. */
  datatype Part = Part(series: seq<Series>, ok: bool)

  /** What a scrape would meet: a client or not, the builders in call order, and its clock readings. */
  datatype Attempt = Attempt(client: bool, parts: seq<Part>, finished: int, duration: real)

  /** A collect at time `now`; its attempt matters only if the cache has expired. */
  datatype Event = Event(now: int, attempt: Attempt)

  datatype Names = Names(duration: string, success: string)

  datatype State = State(cached: seq<Series>, last: Option<int>)

  const EMPTY := State([], None)

  // ---------------------------------------------------------------- specification

  predicate Fresh(s: State, now: int) {
    s.last.Some? && now - s.last.value < WINDOW
  }

  function Ok(p: Part): bool { p.ok }
  function SeriesOf(p: Part): seq<Series> { p.series }

  predicate Succeeds(a: Attempt) {
    a.client && Every(Ok, a.parts)
  }

  /** The parts up to and including the first failure. */
  function Reached(parts: seq<Part>): seq<Part> {
    if parts == [] then []
    else
      var front := parts[..|parts| - 1];
      if Every(Ok, front) then parts else Reached(front)
  }

  function SuccessSample(names: Names, value: real): Series {
    Series(names.success, [], value)
  }

  /** The complete output of a successful scrape. */
  function Output(filter: MetricFilter, names: Names, a: Attempt): seq<Series> {
    FlatMap(SeriesOf, a.parts) + filter.Keep([Series(names.duration, [], a.duration)])
        + filter.Keep([SuccessSample(names, 1.0)])
  }

  /** The cache after an expired collect. */
  function Refill(filter: MetricFilter, names: Names, s: State, a: Attempt): State {
    if Succeeds(a) then State(Output(filter, names, a), Some(a.finished))
    else
      var left := if a.client then FlatMap(SeriesOf, Reached(a.parts)) else s.cached;
      State(left + filter.Keep([SuccessSample(names, 0.0)]), s.last)
  }

  /** The cache after one collect, which emits exactly the cached list it leaves. */
  function Step(filter: MetricFilter, names: Names, s: State, e: Event): State {
    if Fresh(s, e.now) then s else Refill(filter, names, s, e.attempt)
  }

  function After(filter: MetricFilter, names: Names, run: seq<Event>): State {
    if run == [] then EMPTY else Step(filter, names, After(filter, names, run[..|run| - 1]), run[|run| - 1])
  }

  // ---------------------------------------------------------------- the collector

  class Collector {
    const filter: MetricFilter
    const names: Names

    var cachedMetrics: seq<Series>
    var lastScrapeTime: Option<int>

    /** The collects so far. */
    ghost var run: seq<Event>

    function Contents(): State
      reads this
    {
      State(cachedMetrics, lastScrapeTime)
    }

    ghost predicate Valid()
      reads this
    {
      Contents() == After(filter, names, run)
    }

    constructor (filter: MetricFilter, names: Names)
      ensures Valid() && run == [] && this.filter == filter && this.names == names
    {
      this.filter, this.names := filter, names;
      cachedMetrics, lastScrapeTime, run := [], None, [];
    }

    method Collect(now: int, attempt: Attempt) returns (emitted: seq<Series>)
      requires Valid()
      modifies this
      ensures Valid()
      ensures run == old(run) + [Event(now, attempt)]
      ensures emitted == After(filter, names, run).cached
    {
      ghost var before := Contents();
      assert (run + [Event(now, attempt)])[..|run|] == run;
      run := run + [Event(now, attempt)];
      if lastScrapeTime.Some? && now - lastScrapeTime.value < WINDOW {
        return cachedMetrics;
      }
      var failed := ScrapeMetrics(attempt);
      var sample := SuccessSample(names, if failed then 0.0 else 1.0);
      filter.EmitKeeps([], sample);
      assert [] + [sample] == [sample];
      if filter.Enabled(names.success) {
        cachedMetrics := cachedMetrics + [sample];
      }
      emitted := cachedMetrics;
    }

    /** Resets the cache and refills it part by part; the timestamp moves only when every part succeeds. */
    method ScrapeMetrics(a: Attempt) returns (failed: bool)
      modifies this`cachedMetrics, this`lastScrapeTime
      ensures failed == !Succeeds(a)
      ensures lastScrapeTime == if failed then old(lastScrapeTime) else Some(a.finished)
      ensures cachedMetrics ==
        if !failed then FlatMap(SeriesOf, a.parts) + filter.Keep([Series(names.duration, [], a.duration)])
        else if a.client then FlatMap(SeriesOf, Reached(a.parts))
        else old(cachedMetrics)
    {
      if !a.client {
        return true;
      }
      cachedMetrics := [];
      for i := 0 to |a.parts|
        invariant Every(Ok, a.parts[..i])
        invariant cachedMetrics == FlatMap(SeriesOf, a.parts[..i])
        invariant lastScrapeTime == old(lastScrapeTime)
      {
        TakeSnoc(a.parts, i);
        cachedMetrics := cachedMetrics + a.parts[i].series;
        if !a.parts[i].ok {
          ReachedStops(a.parts, i);
          return true;
        }
      }
      assert a.parts[..|a.parts|] == a.parts;
      lastScrapeTime := Some(a.finished);
      var sample := Series(names.duration, [], a.duration);
      filter.EmitKeeps([], sample);
      assert [] + [sample] == [sample];
      if filter.Enabled(names.duration) {
        cachedMetrics := cachedMetrics + [sample];
      }
      failed := false;
    }
  }

  lemma {:induction false} ReachedStops(parts: seq<Part>, i: nat)
    requires i < |parts| && !parts[i].ok && Every(Ok, parts[..i])
    ensures Reached(parts) == parts[..i + 1] && !Every(Ok, parts)
  {
    EveryFails(Ok, parts, i);
    if i == |parts| - 1 {
      assert parts[..i + 1] == parts;
    } else {
      var front := parts[..|parts| - 1];
      assert front[..i] == parts[..i] && front[..i + 1] == parts[..i + 1];
      ReachedStops(front, i);
    }
  }

  /** Scraping stops at the first builder that fails. */
  ghost predicate StopsAt(parts: seq<Part>, i: nat) {
    i < |parts| && !parts[i].ok && forall j :: 0 <= j < i ==> parts[j].ok
  }

  lemma {:induction false} ReachedFirst(parts: seq<Part>, i: nat)
    requires StopsAt(parts, i)
    ensures Reached(parts) == parts[..i + 1] && !Every(Ok, parts)
  {
    EveryElement(Ok, parts[..i]);
    ReachedStops(parts, i);
  }

  lemma KeepBoth(filter: MetricFilter, a: Series, b: Series)
    requires filter.Enabled(a.family) && filter.Enabled(b.family)
    ensures filter.Keep([a]) == [a] && filter.Keep([b]) == [b] && [a] + [b] == [a, b]
  {
    filter.EmitKeeps([], a);
    filter.EmitKeeps([], b);
    assert [] + [a] == [a] && [] + [b] == [b];
  }

  /** Everything the builders appended, in call order. */
  function Built(parts: seq<Part>): seq<Series> {
    FlatMap((p: Part) => p.series, parts)
  }

  lemma {:induction false} BuiltIs(parts: seq<Part>)
    ensures Built(parts) == FlatMap(SeriesOf, parts)
  {
    if parts != [] {
      BuiltIs(parts[..|parts| - 1]);
    }
  }

  /**
   * What a collect leaves and emits, after any run and with both samples enabled: the same as before within the window;
   * all builders, the duration and a success of 1 after a scrape without a failure; otherwise a success of 0 behind the
   * builders up to the first failure, or behind what was cached when no client could be made.
   */
  lemma CollectTold(filter: MetricFilter, names: Names, run: seq<Event>, e: Event, i: nat)
    requires filter.Enabled(names.duration) && filter.Enabled(names.success)
    ensures var before, after := After(filter, names, run), After(filter, names, run + [e]);
            var hit := before.last.Some? && e.now < before.last.value + WINDOW;
            var success := (value: real) => Series(names.success, [], value);
            && (hit ==> after == before)
            && (!hit && e.attempt.client && (forall p :: p in e.attempt.parts ==> p.ok) ==>
                && after.cached
                   == Built(e.attempt.parts) + [Series(names.duration, [], e.attempt.duration), success(1.0)]
                && after.last == Some(e.attempt.finished))
            && (!hit && e.attempt.client && StopsAt(e.attempt.parts, i) ==>
                && after.cached == Built(e.attempt.parts[..i + 1]) + [success(0.0)]
                && after.last == before.last)
            && (!hit && !e.attempt.client ==> after == before.(cached := before.cached + [success(0.0)]))
  {
    assert (run + [e])[..|run|] == run;
    var a := e.attempt;
    EveryElement(Ok, a.parts);
    BuiltIs(a.parts);
    KeepBoth(filter, Series(names.duration, [], a.duration), SuccessSample(names, 1.0));
    KeepBoth(filter, SuccessSample(names, 0.0), SuccessSample(names, 1.0));
    if StopsAt(a.parts, i) {
      ReachedFirst(a.parts, i);
      BuiltIs(a.parts[..i + 1]);
    }
  }

  // ---------------------------------------------------------------- runs under any clock

  predicate Expired(filter: MetricFilter, names: Names, run: seq<Event>)
    requires run != []
  {
    !Fresh(After(filter, names, run[..|run| - 1]), run[|run| - 1].now)
  }

  /** The attempt of the last scrape that succeeded. */
  function LastSuccess(filter: MetricFilter, names: Names, run: seq<Event>): Option<Attempt> {
    if run == [] then None
    else if Expired(filter, names, run) && Succeeds(run[|run| - 1].attempt) then Some(run[|run| - 1].attempt)
    else LastSuccess(filter, names, run[..|run| - 1])
  }

  /** Some collect since the last success found the cache expired, and its scrape failed. */
  predicate FailedSince(filter: MetricFilter, names: Names, run: seq<Event>) {
    run != [] &&
    if Expired(filter, names, run) then !Succeeds(run[|run| - 1].attempt)
    else FailedSince(filter, names, run[..|run| - 1])
  }

  /** The timestamp is that of the last success; without a failure since, the cache is its complete output. */
  lemma {:induction false} CacheInvariant(filter: MetricFilter, names: Names, run: seq<Event>)
    ensures var s := After(filter, names, run);
            var good := LastSuccess(filter, names, run);
            && (s.last.Some? <==> good.Some?)
            && (good.Some? ==> s.last.value == good.value.finished)
            && (good.Some? && !FailedSince(filter, names, run) ==> s.cached == Output(filter, names, good.value))
  {
    if run != [] {
      CacheInvariant(filter, names, run[..|run| - 1]);
    }
  }

  lemma {:induction false} FailureLeavesMark(filter: MetricFilter, names: Names, run: seq<Event>)
    requires filter.Enabled(names.success) && FailedSince(filter, names, run)
    ensures var cached := After(filter, names, run).cached;
            cached != [] && cached[|cached| - 1] == SuccessSample(names, 0.0)
  {
    if Expired(filter, names, run) {
      KeepOne(filter, SuccessSample(names, 0.0));
    } else {
      FailureLeavesMark(filter, names, run[..|run| - 1]);
    }
  }

  lemma KeepOne(filter: MetricFilter, s: Series)
    requires filter.Enabled(s.family)
    ensures filter.Keep([s]) == [s]
  {
    filter.EmitKeeps([], s);
    assert [] + [s] == [s];
  }

  /**
   * Under any clock: once some scrape has succeeded, what is cached, and so what a hit serves, is the complete output
   * of the last success exactly when no scrape has failed since.
   */
  lemma {:induction false} CacheExactly(filter: MetricFilter, names: Names, run: seq<Event>)
    requires filter.Enabled(names.success) && LastSuccess(filter, names, run).Some?
    ensures After(filter, names, run).cached == Output(filter, names, LastSuccess(filter, names, run).value)
       <==> !FailedSince(filter, names, run)
  {
    CacheInvariant(filter, names, run);
    if FailedSince(filter, names, run) {
      FailureLeavesMark(filter, names, run);
      var output := Output(filter, names, LastSuccess(filter, names, run).value);
      KeepOne(filter, SuccessSample(names, 1.0));
      assert output[|output| - 1] == SuccessSample(names, 1.0);
    }
  }

  // ---------------------------------------------------------------- runs with a clock that does not go back

  /** The latest clock reading of a run. */
  function Clock(run: seq<Event>): int
    requires run != []
  {
    var e := run[|run| - 1];
    if e.now < e.attempt.finished then e.attempt.finished else e.now
  }

  /**
   * Every reading is at or after the earlier ones; an attempt that is not made counts as ending at some such time, too.
   */
  predicate Monotone(run: seq<Event>) {
    run == [] ||
    (var front, e := run[..|run| - 1], run[|run| - 1];
     Monotone(front) && e.now <= e.attempt.finished && (front != [] ==> Clock(front) <= e.now))
  }

  /** A failed scrape is only made once the window of the last success is over. */
  lemma {:induction false} FailureOutsideWindow(filter: MetricFilter, names: Names, run: seq<Event>)
    requires Monotone(run) && FailedSince(filter, names, run) && After(filter, names, run).last.Some?
    ensures Clock(run) - After(filter, names, run).last.value >= WINDOW
  {
    if !Expired(filter, names, run) {
      FailureOutsideWindow(filter, names, run[..|run| - 1]);
    }
  }

  /**
   * Go's durations use monotonic clock readings. With them, a collect inside the window emits exactly the complete
   * output of the last successful scrape, never a partial list.
   */
  lemma {:induction false} HitServesLastSuccess(filter: MetricFilter, names: Names, run: seq<Event>, e: Event)
    requires Monotone(run + [e])
    requires Fresh(After(filter, names, run), e.now)
    ensures LastSuccess(filter, names, run).Some? && !FailedSince(filter, names, run)
    ensures After(filter, names, run + [e]).cached == Output(filter, names, LastSuccess(filter, names, run).value)
  {
    assert (run + [e])[..|run|] == run;
    CacheInvariant(filter, names, run);
    if FailedSince(filter, names, run) {
      FailureOutsideWindow(filter, names, run);
    }
  }

  /**
   * The number itself: after a first scrape that succeeded, later collects repeat its output until 15 seconds are over,
   * and the first one from then on scrapes again.
   */
  lemma FifteenSeconds(filter: MetricFilter, names: Names, first: Event, e: Event)
    requires Succeeds(first.attempt) && Succeeds(e.attempt)
    ensures After(filter, names, [first, e])
         == if e.now < first.attempt.finished + 15_000_000_000
            then State(Output(filter, names, first.attempt), Some(first.attempt.finished))
            else State(Output(filter, names, e.attempt), Some(e.attempt.finished))
  {
    assert [first][..0] == [] && [first, e][..1] == [first];
    assert After(filter, names, [first]) == Refill(filter, names, EMPTY, first.attempt);
  }

  /** After a scrape that failed, the next collect scrapes again, however soon it comes. */
  lemma {:induction false} FailureRetries(filter: MetricFilter, names: Names, run: seq<Event>, failed: Event, e: Event)
    requires Monotone(run + [failed] + [e])
    requires !Fresh(After(filter, names, run), failed.now) && !Succeeds(failed.attempt)
    ensures !Fresh(After(filter, names, run + [failed]), e.now)
  {
    assert (run + [failed])[..|run|] == run;
    assert (run + [failed] + [e])[..|run + [failed]|] == run + [failed];
  }

  /**
   * Why the clock matters: with readings that stepped back, which Go's clock does not give, a hit would serve the
   * partial list of a failed scrape.
   */
  lemma BackwardsClockServesPartial(filter: MetricFilter, names: Names, partial: seq<Series>)
    ensures var good := Event(0, Attempt(true, [], 0, 0.0));
            var bad := Event(WINDOW, Attempt(true, [Part(partial, false)], WINDOW, 0.0));
            var late := Event(WINDOW - 1, good.attempt);
            After(filter, names, [good, bad, late]).cached == partial + filter.Keep([SuccessSample(names, 0.0)])
  {
    var good := Event(0, Attempt(true, [], 0, 0.0));
    var bad := Event(WINDOW, Attempt(true, [Part(partial, false)], WINDOW, 0.0));
    var late := Event(WINDOW - 1, good.attempt);
    assert [good][..0] == [] && [good, bad][..1] == [good] && [good, bad, late][..2] == [good, bad];
    OnePart(Part(partial, false));
    assert After(filter, names, [good]).last == Some(0);
    assert After(filter, names, [good, bad]) == State(partial + filter.Keep([SuccessSample(names, 0.0)]), Some(0));
  }

  lemma OnePart(p: Part)
    ensures Reached([p]) == [p] && FlatMap(SeriesOf, [p]) == p.series
    ensures Every(Ok, [p]) <==> p.ok
  {
    assert [p][..0] == [];
    assert FlatMap(SeriesOf, [p]) == FlatMap(SeriesOf, [p][..0]) + SeriesOf(p);
  }

  // ---------------------------------------------------------------- what a failure keeps

  /**
   * Exactly when a failed scrape keeps the previous cache: when it could not make a client. Any other failure replaces
   * the cache by the partial list, whatever was cached.
   */
  lemma FailureKeepsCache(filter: MetricFilter, names: Names, a: Attempt)
    requires !Succeeds(a)
    ensures (forall s :: Refill(filter, names, s, a).cached == s.cached + filter.Keep([SuccessSample(names, 0.0)]))
       <==> !a.client
  {
    if a.client {
      var x := Series("", [], 0.0);
      var r, k := Refill(filter, names, EMPTY, a).cached, filter.Keep([SuccessSample(names, 0.0)]);
      var s := State([x], None);
      assert Refill(filter, names, s, a).cached == r;
      assert |s.cached + k| == |EMPTY.cached + k| + 1;
    }
  }

  /** A success with one series, and 15 seconds later a scrape whose first builder fails: the series is gone. */
  lemma FailureDropsSeries(filter: MetricFilter, names: Names, s: Series)
    requires s.family != names.success
    ensures var good := Event(0, Attempt(true, [Part([s], true)], 0, 0.0));
            var bad := Event(WINDOW, Attempt(true, [Part([], false)], WINDOW, 0.0));
            && Monotone([good, bad])
            && s in After(filter, names, [good]).cached
            && s !in After(filter, names, [good, bad]).cached
  {
    var p, q := Part([s], true), Part([], false);
    var good := Event(0, Attempt(true, [p], 0, 0.0));
    var bad := Event(WINDOW, Attempt(true, [q], WINDOW, 0.0));
    assert [good][..0] == [] && [good, bad][..1] == [good];
    OnePart(p);
    assert s in Output(filter, names, good.attempt) by {
      assert Output(filter, names, good.attempt)[0] == s;
    }
    OnePart(q);
    var sample := SuccessSample(names, 0.0);
    FilterMembers(filter.Keeps(), [sample]);
    assert After(filter, names, [good]).last == Some(0);
    assert After(filter, names, [good, bad]) == Refill(filter, names, After(filter, names, [good]), bad.attempt);
  }

  // ---------------------------------------------------------------- success samples

  /** No builder emits a family of the collector's own. */
  ghost predicate BuildersApart(names: Names, a: Attempt) {
    names.duration != names.success
        && forall i :: 0 <= i < |a.parts| ==> OfFamily(names.success, a.parts[i].series) == []
  }

  /** Collects since the cache was last reset that could not make a client. */
  function ClientFailures(filter: MetricFilter, names: Names, run: seq<Event>): nat {
    if run == [] then 0
    else if !Expired(filter, names, run) then ClientFailures(filter, names, run[..|run| - 1])
    else if run[|run| - 1].attempt.client then 0
    else ClientFailures(filter, names, run[..|run| - 1]) + 1
  }

  /** Some collect got as far as resetting the cache. */
  predicate WasReset(filter: MetricFilter, names: Names, run: seq<Event>) {
    run != [] &&
    (WasReset(filter, names, run[..|run| - 1]) || (Expired(filter, names, run) && run[|run| - 1].attempt.client))
  }

  lemma {:induction false} NoSamplesInParts(names: Names, parts: seq<Part>)
    requires forall i :: 0 <= i < |parts| ==> OfFamily(names.success, parts[i].series) == []
    ensures OfFamily(names.success, FlatMap(SeriesOf, parts)) == []
  {
    if parts != [] {
      var front := parts[..|parts| - 1];
      NoSamplesInParts(names, front);
      FilterAppend(InFamily(names.success), FlatMap(SeriesOf, front), parts[|parts| - 1].series);
    }
  }

  lemma {:induction false} ReachedPrefix(parts: seq<Part>)
    ensures Reached(parts) <= parts
  {
    if parts != [] {
      ReachedPrefix(parts[..|parts| - 1]);
    }
  }

  /** A refill leaves one success sample, or one more than before when it cannot make a client. */
  lemma RefillSamples(filter: MetricFilter, names: Names, s: State, a: Attempt)
    requires filter.Enabled(names.success) && BuildersApart(names, a)
    ensures |OfFamily(names.success, Refill(filter, names, s, a).cached)|
         == if a.client then 1 else |OfFamily(names.success, s.cached)| + 1
  {
    if !a.client {
      OneMoreSample(filter, names, s.cached, 0.0);
    } else if Succeeds(a) {
      var whole := FlatMap(SeriesOf, a.parts);
      var duration := filter.Keep([Series(names.duration, [], a.duration)]);
      NoSamplesInParts(names, a.parts);
      DurationIsNoSample(filter, names, a.duration);
      FilterAppend(InFamily(names.success), whole, duration);
      OneMoreSample(filter, names, whole + duration, 1.0);
    } else {
      ReachedPrefix(a.parts);
      NoSamplesInParts(names, Reached(a.parts));
      OneMoreSample(filter, names, FlatMap(SeriesOf, Reached(a.parts)), 0.0);
    }
  }

  lemma OneMoreSample(filter: MetricFilter, names: Names, series: seq<Series>, value: real)
    requires filter.Enabled(names.success)
    ensures |OfFamily(names.success, series + filter.Keep([SuccessSample(names, value)]))|
         == |OfFamily(names.success, series)| + 1
  {
    var sample := SuccessSample(names, value);
    filter.EmitKeeps([], sample);
    assert [] + [sample] == [sample] && filter.Keep([sample]) == [sample];
    assert (series + [sample])[..|series|] == series;
  }

  lemma DurationIsNoSample(filter: MetricFilter, names: Names, duration: real)
    requires names.duration != names.success
    ensures OfFamily(names.success, filter.Keep([Series(names.duration, [], duration)])) == []
  {
    var sample := Series(names.duration, [], duration);
    FilterMembers(filter.Keeps(), [sample]);
    FilterAll(InFamily(names.success), filter.Keep([sample]));
  }

  /**
   * How many success samples one collect emits: one for the last reset, and one more for every collect since then that
   * could not make a client, because only a reset removes old samples.
   */
  lemma {:induction false} SuccessSamples(filter: MetricFilter, names: Names, run: seq<Event>)
    requires filter.Enabled(names.success)
    requires forall i :: 0 <= i < |run| ==> BuildersApart(names, run[i].attempt)
    ensures |OfFamily(names.success, After(filter, names, run).cached)|
         == (if WasReset(filter, names, run) then 1 else 0) + ClientFailures(filter, names, run)
  {
    if run != [] {
      var front, e := run[..|run| - 1], run[|run| - 1];
      SuccessSamples(filter, names, front);
      RefillSamples(filter, names, After(filter, names, front), e.attempt);
    }
  }

  /** Two collects in a row that cannot make a client: the second emits the success family twice. */
  lemma TwoSuccessSamples(filter: MetricFilter, names: Names)
    requires filter.Enabled(names.success)
    ensures var lost := Attempt(false, [], 0, 0.0);
            After(filter, names, [Event(0, lost), Event(1, lost)]).cached
            == [SuccessSample(names, 0.0), SuccessSample(names, 0.0)]
  {
    var lost := Attempt(false, [], 0, 0.0);
    var sample := SuccessSample(names, 0.0);
    var run := [Event(0, lost), Event(1, lost)];
    assert run[..1] == [Event(0, lost)] && run[..1][..0] == [];
    filter.EmitKeeps([], sample);
    assert [] + [sample] == [sample] && filter.Keep([sample]) == [sample];
    assert After(filter, names, run[..1]) == State([sample], None);
  }

  /**
   * Once the cache has been reset, a collect emits exactly one success sample if and only if no later client failed.
   */
  lemma OneSampleExactly(filter: MetricFilter, names: Names, run: seq<Event>)
    requires filter.Enabled(names.success) && WasReset(filter, names, run)
    requires forall i :: 0 <= i < |run| ==> BuildersApart(names, run[i].attempt)
    ensures |OfFamily(names.success, After(filter, names, run).cached)| == 1
         <==> ClientFailures(filter, names, run) == 0
  {
    SuccessSamples(filter, names, run);
  }
}
