/**
 * Collectors that cap the number of *accepted* entries. The loop tests the cap before it knows whether an entry is
 * valid; some keys are passed over on purpose, either before the cap is tested or after.
 */
module AcceptedCap {
  import opened Results
  import opened Sequences
  import opened Strings
  import opened Sorting
  import opened Redis
  import opened Metrics

  /** What becomes of an entry that was read: its series, and how many of its fields were unusable. */
  datatype Verdict = Rejected | Accepted(series: seq<Series>, missing: nat)

  datatype Rules = Rules(
    db: Db,
    ignored: string -> bool,
    capFirst: bool,
    wellFormed: string -> bool,
    judge: (string, Fields) -> Verdict)

  /** For collectors that read every key of their table. */
  function AnyKey(key: string): bool { true }

  // ---------------------------------------------------------------- specification

  function VerdictAt(rules: Rules, store: Store, key: string): Verdict {
    rules.judge(key, store.Hash(rules.db, key))
  }

  predicate Valid(rules: Rules, store: Store, key: string) {
    !rules.ignored(key) && rules.wellFormed(key) && VerdictAt(rules, store, key).Accepted?
  }

  function IsValid(rules: Rules, store: Store): string -> bool {
    (key: string) => Valid(rules, store, key)
  }

  /** The valid entries among the keys. */
  function Eligible(rules: Rules, store: Store, keys: seq<string>): seq<string> {
    Filter(IsValid(rules, store), keys)
  }

  /** The exported entries: the first `max` valid ones. */
  function Chosen(rules: Rules, store: Store, keys: seq<string>, max: nat): seq<string> {
    Take(Eligible(rules, store, keys), max)
  }

  predicate Full(rules: Rules, store: Store, keys: seq<string>, max: nat) {
    |Eligible(rules, store, keys)| >= max
  }

  /** After the keys in `before`, is `key` passed over on purpose? */
  predicate PassesOver(rules: Rules, store: Store, before: seq<string>, key: string, max: nat) {
    rules.ignored(key) && (rules.capFirst ==> !Full(rules, store, before, max) && rules.wellFormed(key))
  }

  /** The number of keys passed over on purpose. */
  function Passed(rules: Rules, store: Store, keys: seq<string>, max: nat): nat {
    if keys == [] then 0
    else
      var before, key := keys[..|keys| - 1], keys[|keys| - 1];
      Passed(rules, store, before, max) + if PassesOver(rules, store, before, key, max) then 1 else 0
  }

  /** Some key met a full cap. */
  predicate CutOff(rules: Rules, store: Store, keys: seq<string>, max: nat) {
    keys != [] &&
    var before, key := keys[..|keys| - 1], keys[|keys| - 1];
    CutOff(rules, store, before, max)
    || (Full(rules, store, before, max) && (rules.capFirst || !rules.ignored(key)))
  }

  /** The keys whose hashes are read. */
  function Probed(rules: Rules, store: Store, keys: seq<string>, max: nat): seq<string> {
    if keys == [] then []
    else
      var before, key := keys[..|keys| - 1], keys[|keys| - 1];
      Probed(rules, store, before, max)
      + if !Full(rules, store, before, max) && !rules.ignored(key) && rules.wellFormed(key) then [key] else []
  }

  function Reads(rules: Rules, store: Store): string -> bool {
    (key: string) => store.Readable(HGetAll(rules.db, key))
  }

  function SeriesAt(rules: Rules, store: Store, key: string): seq<Series> {
    var v := VerdictAt(rules, store, key);
    if v.Accepted? then v.series else []
  }

  function SeriesFor(rules: Rules, store: Store): string -> seq<Series> {
    (key: string) => SeriesAt(rules, store, key)
  }

  function MissingAt(rules: Rules, store: Store, key: string): nat {
    var v := VerdictAt(rules, store, key);
    if v.Accepted? then v.missing else 0
  }

  function MissingFor(rules: Rules, store: Store): string -> nat {
    (key: string) => MissingAt(rules, store, key)
  }

  datatype Report = Report(series: seq<Series>, accepted: nat, skipped: nat, truncated: bool) {
    function Filtered(filter: MetricFilter): Report {
      this.(series := filter.Keep(series))
    }

    /** The report of one loop followed by that of another. */
    function Then(next: Report): Report {
      Report(series + next.series, accepted + next.accepted, skipped + next.skipped, truncated || next.truncated)
    }

    lemma ThenFiltered(next: Report, filter: MetricFilter)
      ensures Filtered(filter).Then(next.Filtered(filter)) == Then(next).Filtered(filter)
    {
      filter.KeepAppend(series, next.series);
    }
  }

  /** Keys neither chosen nor passed over are skipped, and so is every unusable field of a chosen entry. */
  function ReportOf(rules: Rules, store: Store, keys: seq<string>, max: nat): Report {
    Parts(rules, store, |keys|, Chosen(rules, store, keys, max), Passed(rules, store, keys, max),
          CutOff(rules, store, keys, max))
  }

  function Parts(rules: Rules, store: Store, n: nat, chosen: seq<string>, passed: nat, cut: bool): Report {
    Report(FlatMap(SeriesFor(rules, store), chosen),
           |chosen|,
           Monus(n, |chosen| + passed) + Sum(Map(MissingFor(rules, store), chosen)),
           cut)
  }

  predicate Complete(rules: Rules, store: Store, keys: seq<string>, max: nat) {
    Every(Reads(rules, store), Probed(rules, store, keys, max))
  }

  // ---------------------------------------------------------------- the loop

  /** A report after one more key: taken with its series and unusable fields, or passed over, or skipped. */
  predicate Moved(a: Report, taken: bool, over: bool, cut: bool, series: seq<Series>, missing: nat, b: Report) {
    && b.accepted == a.accepted + (if taken then 1 else 0)
    && b.series == (if taken then a.series + series else a.series)
    && b.truncated == (a.truncated || cut)
    && b.skipped == a.skipped + (if taken then missing else if over then 0 else 1)
  }

  /** The effect of one key on the running report. */
  predicate Advances(rules: Rules, store: Store, filter: MetricFilter, max: nat, a: Report, key: string, b: Report) {
    var full := a.accepted >= max;
    Moved(a, !full && Valid(rules, store, key),
          rules.ignored(key) && (rules.capFirst ==> !full && rules.wellFormed(key)),
          full && (rules.capFirst || !rules.ignored(key)),
          filter.Keep(SeriesAt(rules, store, key)), MissingAt(rules, store, key), b)
  }

  /** Does the key get read? */
  predicate Probes(rules: Rules, accepted: nat, max: nat, key: string) {
    accepted < max && !rules.ignored(key) && rules.wellFormed(key)
  }

  /** The body of the loop. */
  method VisitKey(rules: Rules, max: nat, filter: MetricFilter, store: Store, key: string, report: Report)
    returns (outcome: Result<Report, Request>)
    ensures outcome.Failure? ==>
      && Probes(rules, report.accepted, max, key)
      && !Reads(rules, store)(key) && !store.Readable(outcome.error)
    ensures outcome.Success? ==>
      && (Probes(rules, report.accepted, max, key) ==> Reads(rules, store)(key))
      && Advances(rules, store, filter, max, report, key, outcome.value)
  {
    if !rules.capFirst && rules.ignored(key) {
      return Success(report);
    }
    if report.accepted >= max {
      return Success(report.(skipped := report.skipped + 1, truncated := true));
    }
    if !rules.wellFormed(key) {
      return Success(report.(skipped := report.skipped + 1));
    }
    if rules.ignored(key) {
      return Success(report);
    }
    var fields := store.ReadHash(rules.db, key);
    if fields.Failure? {
      return Failure(fields.error);
    }
    var verdict := rules.judge(key, fields.value);
    if verdict.Rejected? {
      return Success(report.(skipped := report.skipped + 1));
    }
    outcome := Success(report.(series := report.series + filter.Keep(verdict.series),
                               skipped := report.skipped + verdict.missing,
                               accepted := report.accepted + 1));
  }

  /** The loop over sorted keys. */
  method ScrapeCapped(rules: Rules, max: nat, filter: MetricFilter, store: Store, keys: seq<string>)
    returns (outcome: Result<Report, Request>)
    ensures store.Answers(Complete(rules, store, keys, max), ReportOf(rules, store, keys, max).Filtered(filter),
                          outcome)
  {
    var report := Report([], 0, 0, false);
    assert keys[..0] == [];
    for i := 0 to |keys|
      invariant report == ReportOf(rules, store, keys[..i], max).Filtered(filter)
      invariant Complete(rules, store, keys[..i], max)
    {
      TakeSnoc(keys, i);
      var visited := VisitKey(rules, max, filter, store, keys[i], report);
      CompleteStep(rules, store, keys[..i], keys[i], max);
      if visited.Failure? {
        ProbedPrefix(rules, store, keys, i + 1, max);
        return Failure(visited.error);
      }
      LoopStep(rules, store, filter, keys[..i], keys[i], max, visited.value);
      report := visited.value;
    }
    assert keys[..|keys|] == keys;
    outcome := Success(report);
  }

  /** A failed read in a prefix of the keys fails the whole loop. */
  lemma {:induction false} ProbedPrefix(rules: Rules, store: Store, keys: seq<string>, n: nat, max: nat)
    requires n <= |keys| && !Complete(rules, store, keys[..n], max)
    ensures !Complete(rules, store, keys, max)
  {
    if n == |keys| {
      assert keys[..n] == keys;
    } else {
      var before := keys[..|keys| - 1];
      assert before[..n] == keys[..n];
      ProbedPrefix(rules, store, before, n, max);
      EveryPrefix(Reads(rules, store), Probed(rules, store, before, max), Probed(rules, store, keys, max));
    }
  }

  lemma EveryPrefix<T>(p: T -> bool, a: seq<T>, b: seq<T>)
    requires a <= b && !Every(p, a)
    ensures !Every(p, b)
  {
    EveryElement(p, a);
    EveryElement(p, b);
    assert exists i :: 0 <= i < |a| && !p(a[i]);
    var i :| 0 <= i < |a| && !p(a[i]);
    assert b[i] == a[i];
  }

  lemma {:induction false} PassedBound(rules: Rules, store: Store, keys: seq<string>, max: nat)
    ensures |Eligible(rules, store, keys)| + Passed(rules, store, keys, max) <= |keys|
  {
    if keys != [] {
      PassedBound(rules, store, keys[..|keys| - 1], max);
    }
  }

  lemma CompleteStep(rules: Rules, store: Store, before: seq<string>, key: string, max: nat)
    ensures Complete(rules, store, before + [key], max)
       <==> Complete(rules, store, before, max)
            && (Probes(rules, ReportOf(rules, store, before, max).accepted, max, key) ==> Reads(rules, store)(key))
  {
    assert (before + [key])[..|before|] == before;
    var probed := Probed(rules, store, before, max);
    assert (probed + [key])[..|probed|] == probed && probed + [] == probed;
  }

  lemma FlagsStep(rules: Rules, store: Store, before: seq<string>, key: string, max: nat)
    ensures Passed(rules, store, before + [key], max)
         == Passed(rules, store, before, max) + if PassesOver(rules, store, before, key, max) then 1 else 0
    ensures CutOff(rules, store, before + [key], max)
       <==> (|| CutOff(rules, store, before, max)
             || (Full(rules, store, before, max) && (rules.capFirst || !rules.ignored(key))))
    ensures |Chosen(rules, store, before, max)| + Passed(rules, store, before, max) <= |before|
    ensures |Chosen(rules, store, before, max)| >= max <==> Full(rules, store, before, max)
  {
    assert (before + [key])[..|before|] == before;
    PassedBound(rules, store, before, max);
  }

  lemma LoopStep(rules: Rules, store: Store, filter: MetricFilter, before: seq<string>, key: string, max: nat,
                 next: Report)
    requires Advances(rules, store, filter, max, ReportOf(rules, store, before, max).Filtered(filter), key, next)
    ensures next == ReportOf(rules, store, before + [key], max).Filtered(filter)
  {
    if !Full(rules, store, before, max) && Valid(rules, store, key) {
      LoopStepTaken(rules, store, filter, before, key, max, next);
    } else {
      LoopStepOther(rules, store, filter, before, key, max, next);
    }
  }

  lemma LoopStepTaken(rules: Rules, store: Store, filter: MetricFilter, before: seq<string>, key: string, max: nat,
                      next: Report)
    requires !Full(rules, store, before, max) && Valid(rules, store, key)
    requires Advances(rules, store, filter, max, ReportOf(rules, store, before, max).Filtered(filter), key, next)
    ensures next == ReportOf(rules, store, before + [key], max).Filtered(filter)
  {
    FlagsStep(rules, store, before, key, max);
    ChosenStep(rules, store, before, key, max);
    TakenStep(rules, store, filter, |before|, Chosen(rules, store, before, max), Passed(rules, store, before, max),
              CutOff(rules, store, before, max), key, ReportOf(rules, store, before, max).Filtered(filter), next);
  }

  lemma LoopStepOther(rules: Rules, store: Store, filter: MetricFilter, before: seq<string>, key: string, max: nat,
                      next: Report)
    requires Full(rules, store, before, max) || !Valid(rules, store, key)
    requires Advances(rules, store, filter, max, ReportOf(rules, store, before, max).Filtered(filter), key, next)
    ensures next == ReportOf(rules, store, before + [key], max).Filtered(filter)
  {
    FlagsStep(rules, store, before, key, max);
    ChosenStep(rules, store, before, key, max);
    OtherStep(rules, store, filter, |before|, Chosen(rules, store, before, max), Passed(rules, store, before, max),
              CutOff(rules, store, before, max), PassesOver(rules, store, before, key, max),
              Full(rules, store, before, max) && (rules.capFirst || !rules.ignored(key)),
              filter.Keep(SeriesAt(rules, store, key)), MissingAt(rules, store, key),
              ReportOf(rules, store, before, max).Filtered(filter), next);
  }

  /** A running report over `n` keys, with its parts. */
  ghost predicate Holds(rules: Rules, store: Store, filter: MetricFilter, n: nat, chosen: seq<string>, passed: nat,
                        cut: bool, report: Report) {
    |chosen| + passed <= n && report == Parts(rules, store, n, chosen, passed, cut).Filtered(filter)
  }

  lemma TakenStep(rules: Rules, store: Store, filter: MetricFilter, n: nat, chosen: seq<string>, passed: nat, cut: bool,
                  key: string, a: Report, b: Report)
    requires Holds(rules, store, filter, n, chosen, passed, cut, a)
    requires Moved(a, true, false, false, filter.Keep(SeriesAt(rules, store, key)), MissingAt(rules, store, key), b)
    ensures Holds(rules, store, filter, n + 1, chosen + [key], passed, cut, b)
  {
    ChosenSums(rules, store, filter, chosen, key);
  }

  lemma OtherStep(rules: Rules, store: Store, filter: MetricFilter, n: nat, chosen: seq<string>, passed: nat, cut: bool,
                  over: bool, cutNow: bool, series: seq<Series>, missing: nat, a: Report, b: Report)
    requires Holds(rules, store, filter, n, chosen, passed, cut, a)
    requires Moved(a, false, over, cutNow, series, missing, b)
    ensures Holds(rules, store, filter, n + 1, chosen, passed + (if over then 1 else 0), cut || cutNow, b)
  {
  }

  lemma ChosenSums(rules: Rules, store: Store, filter: MetricFilter, chosen: seq<string>, key: string)
    ensures filter.Keep(FlatMap(SeriesFor(rules, store), chosen + [key]))
         == filter.Keep(FlatMap(SeriesFor(rules, store), chosen)) + filter.Keep(SeriesAt(rules, store, key))
    ensures Sum(Map(MissingFor(rules, store), chosen + [key]))
         == Sum(Map(MissingFor(rules, store), chosen)) + MissingAt(rules, store, key)
  {
    assert (chosen + [key])[..|chosen|] == chosen;
    var sizes := Map(MissingFor(rules, store), chosen);
    assert (sizes + [MissingAt(rules, store, key)])[..|sizes|] == sizes;
    filter.KeepAppend(FlatMap(SeriesFor(rules, store), chosen), SeriesAt(rules, store, key));
  }

  lemma ChosenStep(rules: Rules, store: Store, before: seq<string>, key: string, max: nat)
    ensures Chosen(rules, store, before + [key], max)
         == if !Full(rules, store, before, max) && Valid(rules, store, key)
            then Chosen(rules, store, before, max) + [key] else Chosen(rules, store, before, max)
  {
    assert (before + [key])[..|before|] == before;
  }

  // ---------------------------------------------------------------- what the caps guarantee

  /** Every key is exported, skipped or passed over; skipped counts whole entries plus unusable fields. */
  lemma EntriesAccountedFor(rules: Rules, store: Store, keys: seq<string>, max: nat)
    ensures var report := ReportOf(rules, store, keys, max);
            report.accepted + report.skipped + Passed(rules, store, keys, max)
            == |keys| + Sum(Map(MissingFor(rules, store), Chosen(rules, store, keys, max)))
  {
    PassedBound(rules, store, keys, max);
  }

  /** No valid entry is lost unless the truncation flag says so. */
  lemma {:induction false} NothingLostUnlessCut(rules: Rules, store: Store, keys: seq<string>, max: nat)
    ensures !CutOff(rules, store, keys, max) ==> Chosen(rules, store, keys, max) == Eligible(rules, store, keys)
  {
    if keys != [] && !CutOff(rules, store, keys, max) {
      NothingLostUnlessCut(rules, store, keys[..|keys| - 1], max);
    }
  }

  /** At position `i` a key that is not passed over beforehand meets a full cap. */
  predicate MeetsFullCap(rules: Rules, store: Store, keys: seq<string>, max: nat, i: nat)
    requires i < |keys|
  {
    Full(rules, store, keys[..i], max) && (rules.capFirst || !rules.ignored(keys[i]))
  }

  /** The flag is raised exactly when some key, not passed over beforehand, comes after `max` valid entries. */
  lemma {:induction false} CutOffExactly(rules: Rules, store: Store, keys: seq<string>, max: nat)
    ensures CutOff(rules, store, keys, max) <==> exists i :: 0 <= i < |keys| && MeetsFullCap(rules, store, keys, max, i)
  {
    if keys != [] {
      var n := |keys| - 1;
      CutOffExactly(rules, store, keys[..n], max);
      forall i | 0 <= i < n
        ensures MeetsFullCap(rules, store, keys[..n], max, i) <==> MeetsFullCap(rules, store, keys, max, i)
      {
        assert keys[..n][..i] == keys[..i];
      }
      if CutOff(rules, store, keys[..n], max) {
        var i :| 0 <= i < n && MeetsFullCap(rules, store, keys[..n], max, i);
        assert MeetsFullCap(rules, store, keys, max, i);
      } else if CutOff(rules, store, keys, max) {
        assert MeetsFullCap(rules, store, keys, max, n);
      }
    }
  }

  function Ignores(rules: Rules): string -> bool {
    (key: string) => rules.ignored(key)
  }

  /** When ignored keys are recognised before the cap is tested, all of them are passed over. */
  lemma {:induction false} AllIgnoredPassed(rules: Rules, store: Store, keys: seq<string>, max: nat)
    requires !rules.capFirst
    ensures Passed(rules, store, keys, max) == |Filter(Ignores(rules), keys)|
  {
    if keys != [] {
      AllIgnoredPassed(rules, store, keys[..|keys| - 1], max);
    }
  }

  /**
   * When the cap is tested first, ignored keys are all passed over exactly when none comes after the cap is full;
   * an ignored key after that point is counted as skipped.
   */
  lemma {:induction false} LateIgnoredCounted(rules: Rules, store: Store, keys: seq<string>, max: nat)
    requires rules.capFirst && forall key :: rules.ignored(key) ==> rules.wellFormed(key)
    ensures Passed(rules, store, keys, max) <= |Filter(Ignores(rules), keys)|
    ensures Passed(rules, store, keys, max) == |Filter(Ignores(rules), keys)|
       <==> forall i :: 0 <= i < |keys| && rules.ignored(keys[i]) ==> !Full(rules, store, keys[..i], max)
  {
    if keys != [] {
      var n := |keys| - 1;
      LateIgnoredCounted(rules, store, keys[..n], max);
      assert forall i :: 0 <= i < n ==> keys[..n][..i] == keys[..i] && keys[..n][i] == keys[i];
      if forall i :: 0 <= i < n && rules.ignored(keys[..n][i]) ==> !Full(rules, store, keys[..n][..i], max) {
        assert forall i :: 0 <= i < n && rules.ignored(keys[i]) ==> !Full(rules, store, keys[..i], max);
      } else {
        var i :| 0 <= i < n && rules.ignored(keys[..n][i]) && Full(rules, store, keys[..n][..i], max);
        assert rules.ignored(keys[i]) && Full(rules, store, keys[..i], max);
      }
    }
  }

  /** A collector whose accepted entries have no unusable fields. */
  ghost predicate NeverMissing(rules: Rules) {
    forall key, fields :: rules.judge(key, fields).Accepted? ==> rules.judge(key, fields).missing == 0
  }

  lemma {:induction false} NothingMissing(rules: Rules, store: Store, keys: seq<string>)
    requires NeverMissing(rules)
    ensures Sum(Map(MissingFor(rules, store), keys)) == 0
  {
    if keys != [] {
      NothingMissing(rules, store, keys[..|keys| - 1]);
      assert MissingAt(rules, store, keys[|keys| - 1]) == 0;
    }
  }

  // ---------------------------------------------------------------- the skip ledger, by reason

  /** What becomes of a key, in the order of the tests in the loop. */
  datatype Fate = PassedOver | BeyondCap | Malformed | Refused | Taken

  function FateOf(rules: Rules, store: Store, before: seq<string>, key: string, max: nat): Fate {
    if !rules.capFirst && rules.ignored(key) then PassedOver
    else if Full(rules, store, before, max) then BeyondCap
    else if !rules.wellFormed(key) then Malformed
    else if rules.ignored(key) then PassedOver
    else if VerdictAt(rules, store, key).Rejected? then Refused
    else Taken
  }

  /** The number of keys with a given fate. */
  function Fated(rules: Rules, store: Store, keys: seq<string>, max: nat, fate: Fate): nat {
    if keys == [] then 0
    else
      var before, key := keys[..|keys| - 1], keys[|keys| - 1];
      Fated(rules, store, before, max, fate) + if FateOf(rules, store, before, key, max) == fate then 1 else 0
  }

  lemma {:induction false} FatesAddUp(rules: Rules, store: Store, keys: seq<string>, max: nat)
    ensures |keys| == Fated(rules, store, keys, max, PassedOver) + Fated(rules, store, keys, max, BeyondCap)
                      + Fated(rules, store, keys, max, Malformed) + Fated(rules, store, keys, max, Refused)
                      + Fated(rules, store, keys, max, Taken)
  {
    if keys != [] {
      FatesAddUp(rules, store, keys[..|keys| - 1], max);
    }
  }

  lemma {:induction false} FatesCounted(rules: Rules, store: Store, keys: seq<string>, max: nat)
    ensures Fated(rules, store, keys, max, Taken) == |Chosen(rules, store, keys, max)|
    ensures Fated(rules, store, keys, max, PassedOver) == Passed(rules, store, keys, max)
    ensures CutOff(rules, store, keys, max) <==> Fated(rules, store, keys, max, BeyondCap) > 0
  {
    if keys != [] {
      FatesCounted(rules, store, keys[..|keys| - 1], max);
    }
  }

  /**
   * The skip counter, reason by reason: keys beyond the cap, malformed keys, refused entries, and the unusable fields
   * of accepted ones. The truncation flag is raised exactly when some key is beyond the cap.
   */
  lemma SkipLedger(rules: Rules, store: Store, keys: seq<string>, max: nat)
    ensures var report := ReportOf(rules, store, keys, max);
            && report.skipped == Fated(rules, store, keys, max, BeyondCap) + Fated(rules, store, keys, max, Malformed)
                                 + Fated(rules, store, keys, max, Refused)
                                 + Sum(Map(MissingFor(rules, store), Chosen(rules, store, keys, max)))
            && report.accepted == Fated(rules, store, keys, max, Taken)
            && (report.truncated <==> Fated(rules, store, keys, max, BeyondCap) > 0)
  {
    FatesAddUp(rules, store, keys, max);
    FatesCounted(rules, store, keys, max);
  }

  /** The series of each exported entry are in the report. */
  lemma ChosenShown(rules: Rules, store: Store, keys: seq<string>, max: nat, key: string, s: Series)
    requires key in Chosen(rules, store, keys, max) && s in SeriesAt(rules, store, key)
    ensures s in ReportOf(rules, store, keys, max).series
  {
    InFlatMap(rules, store, Chosen(rules, store, keys, max), key, s);
  }

  lemma {:induction false} InFlatMap(rules: Rules, store: Store, keys: seq<string>, key: string, s: Series)
    requires key in keys && s in SeriesAt(rules, store, key)
    ensures s in FlatMap(SeriesFor(rules, store), keys)
  {
    if key != keys[|keys| - 1] {
      InFlatMap(rules, store, keys[..|keys| - 1], key, s);
    }
  }
}
