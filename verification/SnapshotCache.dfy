/**
 * The background snapshot cache, with the fields of the docker collector: one refresher scrapes without the lock and
 * publishes field by field under the write lock; any number of concurrent collects copy field by field under the read
 * lock. Every interleaving of single field accesses is a run.
 */
module SnapshotCache {
  import opened Results
  import opened Sequences
  import opened Metrics
  import opened DockerCollector

  // ---------------------------------------------------------------- memory

  /** The cached fields; the flags the program keeps as 0 or 1 are booleans here, and an unset time is None. */
  datatype Snapshot = Snapshot(series: seq<Series>, duration: real, success: bool, refreshTime: Option<int>,
                               sourceTime: Option<int>, stale: bool, skipped: nat, containers: nat)

  datatype Field =
    | CachedMetrics
    | LastScrapeDuration
    | LastSuccess
    | LastRefreshTime
    | LastSourceUpdateTime
    | LastSourceStale
    | LastEntriesSkipped
    | LastContainerCount

  /** The zero values of a new collector. */
  const INITIAL := Snapshot([], 0.0, false, None, None, false, 0, 0)

  /** One assignment: field `f` of `into` takes its value from `from`. */
  function Assign(into: Snapshot, from: Snapshot, f: Field): Snapshot {
    match f
    case CachedMetrics => into.(series := from.series)
    case LastScrapeDuration => into.(duration := from.duration)
    case LastSuccess => into.(success := from.success)
    case LastRefreshTime => into.(refreshTime := from.refreshTime)
    case LastSourceUpdateTime => into.(sourceTime := from.sourceTime)
    case LastSourceStale => into.(stale := from.stale)
    case LastEntriesSkipped => into.(skipped := from.skipped)
    case LastContainerCount => into.(containers := from.containers)
  }

  function AssignAll(into: Snapshot, from: Snapshot, fields: seq<Field>): Snapshot {
    if fields == [] then into
    else Assign(AssignAll(into, from, fields[..|fields| - 1]), from, fields[|fields| - 1])
  }

  /** The order in which a collect copies the fields. */
  const READ_ORDER: seq<Field> := [CachedMetrics, LastScrapeDuration, LastSuccess, LastRefreshTime,
                                   LastSourceUpdateTime, LastSourceStale, LastEntriesSkipped, LastContainerCount]

  // ---------------------------------------------------------------- refreshes

  /** How one refresh ended: its duration, and for a success the report and the time of publication. */
  datatype Outcome = Failed(duration: real) | Succeeded(duration: real, report: DockerReport, at: int)

  /** The values a refresh publishes; a failure only has the first two to offer. */
  function Values(o: Outcome): Snapshot {
    match o
    case Failed(duration) => INITIAL.(duration := duration, success := false)
    case Succeeded(duration, r, at) =>
      Snapshot(r.series, duration, true, Some(at), r.sourceTime, r.stale, r.skipped, r.containers)
  }

  /** The fields a refresh assigns under the lock, in program order. */
  function Writes(o: Outcome): seq<Field> {
    if o.Failed? then [LastScrapeDuration, LastSuccess]
    else [LastScrapeDuration, CachedMetrics, LastEntriesSkipped, LastContainerCount,
          LastSourceUpdateTime, LastSourceStale, LastSuccess, LastRefreshTime]
  }

  function Publish(memory: Snapshot, o: Outcome): Snapshot {
    AssignAll(memory, Values(o), Writes(o))
  }

  /** What the cache serves after the refreshes of a history. */
  function Served(history: seq<Outcome>): Snapshot {
    if history == [] then INITIAL else Publish(Served(history[..|history| - 1]), history[|history| - 1])
  }

  // ---------------------------------------------------------------- the protocol

  datatype Refresher = Scraping | Ready(outcome: Outcome) | Publishing(outcome: Outcome, written: nat)

  datatype Reader = Reader(read: nat, copy: Snapshot)

  /** A finished copy, with the number of refreshes that had been published by then. */
  datatype Collected = Collected(copy: Snapshot, published: nat)

  datatype State = State(memory: Snapshot, refresher: Refresher, readers: map<nat, Reader>,
                         history: seq<Outcome>, collected: seq<Collected>)

  datatype Step =
    | FinishScrape(outcome: Outcome)
    | Lock
    | WriteField
    | Unlock
    | RLock(id: nat)
    | CopyField(id: nat)
    | RUnlock(id: nat)

  const START := State(INITIAL, Scraping, map[], [], [])

  predicate Enabled(s: State, step: Step) {
    match step
    case FinishScrape(_) => s.refresher.Scraping?
    case Lock => s.refresher.Ready? && s.readers == map[]
    case WriteField => s.refresher.Publishing? && s.refresher.written < |Writes(s.refresher.outcome)|
    case Unlock => s.refresher.Publishing? && s.refresher.written == |Writes(s.refresher.outcome)|
    case RLock(id) => !s.refresher.Publishing? && id !in s.readers
    case CopyField(id) => id in s.readers && s.readers[id].read < |READ_ORDER|
    case RUnlock(id) => id in s.readers && s.readers[id].read == |READ_ORDER|
  }

  function Next(s: State, step: Step): State
    requires Enabled(s, step)
  {
    match step
    case FinishScrape(outcome) => s.(refresher := Ready(outcome))
    case Lock => s.(refresher := Publishing(s.refresher.outcome, 0))
    case WriteField =>
      var o := s.refresher.outcome;
      s.(memory := Assign(s.memory, Values(o), Writes(o)[s.refresher.written]),
         refresher := Publishing(o, s.refresher.written + 1))
    case Unlock => s.(refresher := Scraping, history := s.history + [s.refresher.outcome])
    case RLock(id) => s.(readers := s.readers[id := Reader(0, INITIAL)])
    case CopyField(id) => s.(readers := s.readers[id := Advance(s.readers[id], s.memory)])
    case RUnlock(id) =>
      s.(readers := s.readers - {id}, collected := s.collected + [Collected(s.readers[id].copy, |s.history|)])
  }

  function Advance(r: Reader, memory: Snapshot): Reader
    requires r.read < |READ_ORDER|
  {
    Reader(r.read + 1, Assign(r.copy, memory, READ_ORDER[r.read]))
  }

  /** The state a schedule leads to, if every step of it is enabled when its turn comes. */
  function Run(schedule: seq<Step>): Option<State> {
    if schedule == [] then Some(START)
    else
      var step := schedule[|schedule| - 1];
      match Run(schedule[..|schedule| - 1])
      case None => None
      case Some(s) => if Enabled(s, step) then Some(Next(s, step)) else None
  }

  // ---------------------------------------------------------------- invariants

  ghost predicate MemoryInvariant(s: State) {
    if s.refresher.Publishing? then
      var o := s.refresher.outcome;
      && s.readers == map[]
      && s.refresher.written <= |Writes(o)|
      && s.memory == AssignAll(Served(s.history), Values(o), Writes(o)[..s.refresher.written])
    else s.memory == Served(s.history)
  }

  /** The fields copied so far are the current ones. */
  predicate CopyAgrees(r: Reader, memory: Snapshot) {
    && r.read <= |READ_ORDER|
    && (r.read > 0 ==> r.copy.series == memory.series)
    && (r.read > 1 ==> r.copy.duration == memory.duration)
    && (r.read > 2 ==> r.copy.success == memory.success)
    && (r.read > 3 ==> r.copy.refreshTime == memory.refreshTime)
    && (r.read > 4 ==> r.copy.sourceTime == memory.sourceTime)
    && (r.read > 5 ==> r.copy.stale == memory.stale)
    && (r.read > 6 ==> r.copy.skipped == memory.skipped)
    && (r.read > 7 ==> r.copy.containers == memory.containers)
  }

  ghost predicate ReadersInvariant(s: State) {
    forall id :: id in s.readers ==> CopyAgrees(s.readers[id], s.memory)
  }

  ghost predicate IsServed(c: Collected, history: seq<Outcome>) {
    c.published <= |history| && c.copy == Served(history[..c.published])
  }

  /** Each finished copy is the served snapshot of one moment, and later copies are never older. */
  ghost predicate CollectedInvariant(history: seq<Outcome>, collected: seq<Collected>) {
    && (forall i :: 0 <= i < |collected| ==> IsServed(collected[i], history))
    && (forall i, j :: 0 <= i < j < |collected| ==> collected[i].published <= collected[j].published)
  }

  ghost predicate Invariant(s: State) {
    MemoryInvariant(s) && ReadersInvariant(s) && CollectedInvariant(s.history, s.collected)
  }

  lemma WriteStep(memory: Snapshot, o: Outcome, written: nat)
    requires written < |Writes(o)|
    ensures Assign(AssignAll(memory, Values(o), Writes(o)[..written]), Values(o), Writes(o)[written])
         == AssignAll(memory, Values(o), Writes(o)[..written + 1])
  {
    assert Writes(o)[..written + 1][..written] == Writes(o)[..written];
  }

  lemma PublishStep(history: seq<Outcome>, o: Outcome)
    ensures Served(history + [o]) == AssignAll(Served(history), Values(o), Writes(o)[..|Writes(o)|])
  {
    assert Writes(o)[..|Writes(o)|] == Writes(o);
    assert (history + [o])[..|history|] == history;
  }

  lemma MemoryPreserved(s: State, step: Step)
    requires MemoryInvariant(s) && Enabled(s, step)
    ensures MemoryInvariant(Next(s, step))
  {
    match step
    case WriteField => WriteStep(Served(s.history), s.refresher.outcome, s.refresher.written);
    case Unlock => PublishStep(s.history, s.refresher.outcome);
    case _ =>
  }

  lemma AdvanceAgrees(r: Reader, memory: Snapshot)
    requires CopyAgrees(r, memory) && r.read < |READ_ORDER|
    ensures CopyAgrees(Advance(r, memory), memory)
  {
    var order := READ_ORDER;
    assert order[0] == CachedMetrics && order[1] == LastScrapeDuration && order[2] == LastSuccess
        && order[3] == LastRefreshTime;
    assert order[4] == LastSourceUpdateTime && order[5] == LastSourceStale;
    assert order[6] == LastEntriesSkipped && order[7] == LastContainerCount;
  }

  lemma ReadersPreserved(s: State, step: Step)
    requires MemoryInvariant(s) && ReadersInvariant(s) && Enabled(s, step)
    ensures ReadersInvariant(Next(s, step))
  {
    if step.CopyField? {
      AdvanceAgrees(s.readers[step.id], s.memory);
    }
  }

  lemma CollectedExtends(history: seq<Outcome>, o: Outcome, collected: seq<Collected>)
    requires CollectedInvariant(history, collected)
    ensures CollectedInvariant(history + [o], collected)
  {
    forall i | 0 <= i < |collected| ensures IsServed(collected[i], history + [o]) {
      assert IsServed(collected[i], history);
      assert (history + [o])[..collected[i].published] == history[..collected[i].published];
    }
  }

  lemma CollectedAppends(history: seq<Outcome>, collected: seq<Collected>)
    requires CollectedInvariant(history, collected)
    ensures CollectedInvariant(history, collected + [Collected(Served(history), |history|)])
  {
    var last := Collected(Served(history), |history|);
    assert history[..|history|] == history;
    forall i | 0 <= i < |collected| ensures collected[i].published <= |history| {
      assert IsServed(collected[i], history);
    }
  }

  lemma CollectedPreserved(s: State, step: Step)
    requires Invariant(s) && Enabled(s, step)
    ensures CollectedInvariant(Next(s, step).history, Next(s, step).collected)
  {
    match step
    case RUnlock(id) =>
      assert s.readers[id].copy == s.memory;
      CollectedAppends(s.history, s.collected);
    case Unlock => CollectedExtends(s.history, s.refresher.outcome, s.collected);
    case _ =>
  }

  /** Every state of every schedule satisfies the invariant. */
  lemma {:induction false} RunsKeepInvariant(schedule: seq<Step>)
    ensures Run(schedule).Some? ==> Invariant(Run(schedule).value)
  {
    if schedule == [] {
      assert Invariant(START);
    } else {
      var front, step := schedule[..|schedule| - 1], schedule[|schedule| - 1];
      RunsKeepInvariant(front);
      if Run(schedule).Some? {
        var s := Run(front).value;
        MemoryPreserved(s, step);
        ReadersPreserved(s, step);
        CollectedPreserved(s, step);
      }
    }
  }

  // ---------------------------------------------------------------- what is served

  /** Two snapshots have the same value in one field. */
  predicate SameIn(f: Field, a: Snapshot, b: Snapshot) {
    match f
    case CachedMetrics => a.series == b.series
    case LastScrapeDuration => a.duration == b.duration
    case LastSuccess => a.success == b.success
    case LastRefreshTime => a.refreshTime == b.refreshTime
    case LastSourceUpdateTime => a.sourceTime == b.sourceTime
    case LastSourceStale => a.stale == b.stale
    case LastEntriesSkipped => a.skipped == b.skipped
    case LastContainerCount => a.containers == b.containers
  }

  lemma AssignedField(into: Snapshot, from: Snapshot, g: Field, f: Field)
    ensures SameIn(f, Assign(into, from, g), if f == g then from else into)
  {
  }

  lemma SameTransitive(f: Field, a: Snapshot, b: Snapshot, c: Snapshot)
    requires SameIn(f, a, b) && SameIn(f, b, c)
    ensures SameIn(f, a, c)
  {
  }

  /** Assigning a list of fields changes exactly those fields. */
  lemma {:induction false} AssignedFields(into: Snapshot, from: Snapshot, fields: seq<Field>, f: Field)
    ensures SameIn(f, AssignAll(into, from, fields), if f in fields then from else into)
  {
    if fields != [] {
      var front, last := fields[..|fields| - 1], fields[|fields| - 1];
      assert fields == front + [last];
      var before := AssignAll(into, from, front);
      AssignedField(before, from, last, f);
      if f != last {
        AssignedFields(into, from, front, f);
        SameTransitive(f, Assign(before, from, last), before, if f in fields then from else into);
      }
    }
  }

  lemma SuccessWritesAll(o: Outcome, f: Field)
    requires o.Succeeded?
    ensures f in Writes(o)
  {
    var w := Writes(o);
    assert w[0] == LastScrapeDuration && w[1] == CachedMetrics && w[2] == LastEntriesSkipped
        && w[3] == LastContainerCount;
    assert w[4] == LastSourceUpdateTime && w[5] == LastSourceStale && w[6] == LastSuccess && w[7] == LastRefreshTime;
  }

  lemma SameInAll(a: Snapshot, b: Snapshot)
    requires forall f :: SameIn(f, a, b)
    ensures a == b
  {
    assert SameIn(CachedMetrics, a, b) && SameIn(LastScrapeDuration, a, b) && SameIn(LastSuccess, a, b);
    assert SameIn(LastRefreshTime, a, b) && SameIn(LastSourceUpdateTime, a, b) && SameIn(LastSourceStale, a, b);
    assert SameIn(LastEntriesSkipped, a, b) && SameIn(LastContainerCount, a, b);
  }

  /** A success replaces the whole snapshot; a failure changes the success flag and the duration only. */
  lemma Published(memory: Snapshot, o: Outcome)
    ensures Publish(memory, o) == if o.Succeeded? then Values(o) else memory.(duration := o.duration, success := false)
  {
    if o.Succeeded? {
      forall f ensures SameIn(f, Publish(memory, o), Values(o)) {
        SuccessWritesAll(o, f);
        AssignedFields(memory, Values(o), Writes(o), f);
      }
      SameInAll(Publish(memory, o), Values(o));
    } else {
      var w := Writes(o);
      assert w[..0] == [] && w[..|w|] == w;
      WriteStep(memory, o, 0);
      WriteStep(memory, o, 1);
    }
  }

  /** The most recent success of a history. */
  function LatestSuccess(history: seq<Outcome>): Option<Outcome> {
    if history == [] then None
    else if history[|history| - 1].Succeeded? then Some(history[|history| - 1])
    else LatestSuccess(history[..|history| - 1])
  }

  /** The data a history leaves behind: those of its most recent success, or the zero values. */
  function DataOf(history: seq<Outcome>): Snapshot {
    match LatestSuccess(history)
    case None => INITIAL
    case Some(o) => Values(o)
  }

  /**
   * History refinement: the served snapshot is that of the most recent success (empty if none), but for the success
   * flag and the duration, which tell of the last refresh.
   */
  lemma {:induction false} ServedIsLatestSuccess(history: seq<Outcome>)
    ensures Served(history) ==
      if history == [] then INITIAL
      else DataOf(history).(duration := history[|history| - 1].duration, success := history[|history| - 1].Succeeded?)
  {
    if history != [] {
      var front, last := history[..|history| - 1], history[|history| - 1];
      ServedIsLatestSuccess(front);
      Published(Served(front), last);
      if last.Failed? {
        assert DataOf(history) == DataOf(front);
      } else {
        assert DataOf(history) == Values(last);
      }
    }
  }

  ghost predicate ClockForward(history: seq<Outcome>) {
    forall i, j :: 0 <= i < j < |history| && history[i].Succeeded? && history[j].Succeeded? ==>
      history[i].at <= history[j].at
  }

  lemma {:induction false} LatestSuccessIn(history: seq<Outcome>) returns (i: nat)
    requires LatestSuccess(history).Some?
    ensures i < |history| && history[i].Succeeded? && LatestSuccess(history) == Some(history[i])
  {
    if history[|history| - 1].Succeeded? {
      i := |history| - 1;
    } else {
      i := LatestSuccessIn(history[..|history| - 1]);
    }
  }

  /** With a clock that does not run backwards, the refresh time never decreases and never disappears. */
  lemma {:induction false} RefreshTimeMonotone(history: seq<Outcome>, n: nat)
    requires n <= |history| && ClockForward(history)
    requires DataOf(history[..n]).refreshTime.Some?
    ensures DataOf(history).refreshTime.Some?
    ensures DataOf(history[..n]).refreshTime.value <= DataOf(history).refreshTime.value
  {
    if n == |history| {
      assert history[..n] == history;
    } else if history[|history| - 1].Succeeded? {
      var i := LatestSuccessIn(history[..n]);
      assert history[i].at <= history[|history| - 1].at;
    } else {
      var front := history[..|history| - 1];
      assert front[..n] == history[..n];
      RefreshTimeMonotone(front, n);
    }
  }

  /**
   * The main result: whatever the interleaving, what one collect copies is the snapshot left by a prefix of the
   * refreshes. Its data all come from that prefix's latest success, its flag and duration from the prefix's last
   * refresh.
   */
  lemma CollectSeesOneSnapshot(schedule: seq<Step>, i: nat)
    requires Run(schedule).Some? && i < |Run(schedule).value.collected|
    ensures var s := Run(schedule).value;
            var c := s.collected[i];
            var seen := s.history[..Min(c.published, |s.history|)];
            && c.published <= |s.history|
            && c.copy == (if seen == [] then INITIAL
                          else DataOf(seen).(duration := seen[|seen| - 1].duration,
                                             success := seen[|seen| - 1].Succeeded?))
  {
    RunsKeepInvariant(schedule);
    var s := Run(schedule).value;
    assert IsServed(s.collected[i], s.history);
    ServedIsLatestSuccess(s.history[..s.collected[i].published]);
  }

  /** The refresh time of a finished copy is that of the history it saw. */
  lemma CopyRefreshTime(history: seq<Outcome>, c: Collected)
    requires IsServed(c, history)
    ensures c.copy.refreshTime == DataOf(history[..c.published]).refreshTime
  {
    ServedIsLatestSuccess(history[..c.published]);
  }

  lemma LaterCopyNotOlder(history: seq<Outcome>, a: Collected, b: Collected)
    requires ClockForward(history) && IsServed(a, history) && IsServed(b, history) && a.published <= b.published
    requires a.copy.refreshTime.Some?
    ensures b.copy.refreshTime.Some? && a.copy.refreshTime.value <= b.copy.refreshTime.value
  {
    CopyRefreshTime(history, a);
    CopyRefreshTime(history, b);
    var seen := history[..b.published];
    assert seen[..a.published] == history[..a.published];
    RefreshTimeMonotone(seen, a.published);
  }

  lemma CollectedServed(schedule: seq<Step>)
    requires Run(schedule).Some?
    ensures CollectedInvariant(Run(schedule).value.history, Run(schedule).value.collected)
  {
    RunsKeepInvariant(schedule);
  }

  lemma InOrder(history: seq<Outcome>, collected: seq<Collected>, i: nat, j: nat)
    requires CollectedInvariant(history, collected) && ClockForward(history)
    requires i <= j < |collected| && collected[i].copy.refreshTime.Some?
    ensures collected[j].copy.refreshTime.Some?
    ensures collected[i].copy.refreshTime.value <= collected[j].copy.refreshTime.value
  {
    assert IsServed(collected[i], history) && IsServed(collected[j], history);
    LaterCopyNotOlder(history, collected[i], collected[j]);
  }

  /** Collects finish in the order of what they see: a later one never serves an older snapshot. */
  lemma CollectsNeverGoBack(schedule: seq<Step>, i: nat, j: nat)
    requires Run(schedule).Some? && i <= j < |Run(schedule).value.collected|
    requires ClockForward(Run(schedule).value.history)
    requires Run(schedule).value.collected[i].copy.refreshTime.Some?
    ensures Run(schedule).value.collected[j].copy.refreshTime.Some?
    ensures Run(schedule).value.collected[i].copy.refreshTime.value
         <= Run(schedule).value.collected[j].copy.refreshTime.value
  {
    CollectedServed(schedule);
    InOrder(Run(schedule).value.history, Run(schedule).value.collected, i, j);
  }
}
