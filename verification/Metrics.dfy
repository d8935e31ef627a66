/** Series, and the filter of disabled metric families. */
module Metrics {
  import opened Results
  import opened Sequences
  import opened Strings

  datatype Series = Series(family: string, labels: seq<string>, value: real)

  /** The answer of the glob matcher, which is not part of this model. */
  datatype GlobAnswer = Matched | Unmatched | BadPattern

  type Glob = (string, string) -> GlobAnswer

  predicate IsGlobPattern(token: string) {
    '*' in token || '?' in token || '[' in token
  }

  datatype MetricFilter = MetricFilter(exact: set<string>, patterns: seq<string>, glob: Glob) {
    predicate Disabled(family: string) {
      family in exact || exists i :: 0 <= i < |patterns| && glob(patterns[i], family) == Matched
    }

    predicate Enabled(family: string) {
      !Disabled(family)
    }

    function Keeps(): Series -> bool {
      (s: Series) => Enabled(s.family)
    }

    /** The series whose family is enabled, in their original order. */
    function Keep(series: seq<Series>): seq<Series> {
      Filter(Keeps(), series)
    }

    /** Append a series if its family is enabled. */
    function Emit(metrics: seq<Series>, s: Series): seq<Series> {
      if Enabled(s.family) then metrics + [s] else metrics
    }

    lemma EmitKeeps(series: seq<Series>, s: Series)
      ensures Emit(Keep(series), s) == Keep(series + [s])
    {
    }

    lemma KeepAppend(a: seq<Series>, b: seq<Series>)
      ensures Keep(a + b) == Keep(a) + Keep(b)
    {
      FilterAppend(Keeps(), a, b);
    }

    /** The lookup of the running exporter: the exact names first, then pattern by pattern. */
    method IsDisabled(family: string) returns (disabled: bool)
      ensures disabled == Disabled(family)
    {
      if family in exact {
        return true;
      }
      for i := 0 to |patterns|
        invariant forall j :: 0 <= j < i ==> glob(patterns[j], family) != Matched
      {
        if glob(patterns[i], family) == Matched {
          return true;
        }
      }
      return false;
    }
  }

  /** The filter without SONIC_DISABLED_METRICS: it keeps everything. */
  function NoFilter(glob: Glob): MetricFilter {
    MetricFilter({}, [], glob)
  }

  lemma NoFilterKeepsAll(glob: Glob, series: seq<Series>)
    ensures NoFilter(glob).Keep(series) == series
  {
    FilterAll(NoFilter(glob).Keeps(), series);
  }

  /** One token of SONIC_DISABLED_METRICS disables the family. */
  predicate TokenDisables(token: string, glob: Glob, family: string) {
    var t := TrimSpace(token);
    t != "" &&
    if IsGlobPattern(t) then glob(t, "") != BadPattern && glob(t, family) == Matched else t == family
  }

  ghost predicate ListDisables(tokens: seq<string>, glob: Glob, family: string) {
    exists i :: 0 <= i < |tokens| && TokenDisables(tokens[i], glob, family)
  }

  /** One token: blank and malformed ones are dropped, globs and plain names go to their lists. */
  method AddToken(filter: MetricFilter, raw: string) returns (filter': MetricFilter)
    requires forall j :: 0 <= j < |filter.patterns| ==> filter.glob(filter.patterns[j], "") != BadPattern
    ensures filter'.glob == filter.glob
    ensures forall family ::
      filter'.Disabled(family) <==> filter.Disabled(family) || TokenDisables(raw, filter.glob, family)
    ensures forall j :: 0 <= j < |filter'.patterns| ==> filter.glob(filter'.patterns[j], "") != BadPattern
  {
    var token := TrimSpace(raw);
    filter' := filter;
    if token == "" {
    } else if IsGlobPattern(token) {
      if filter.glob(token, "") != BadPattern {
        filter' := filter.(patterns := filter.patterns + [token]);
      }
    } else {
      filter' := filter.(exact := filter.exact + {token});
    }
    forall family
      ensures filter'.Disabled(family) <==> filter.Disabled(family) || TokenDisables(raw, filter.glob, family)
    {
      AddPattern(filter, filter', token, family);
    }
  }

  /** Builds the filter token by token; a family ends up disabled exactly when some token disables it. */
  method NewMetricFilter(env: Option<string>, glob: Glob) returns (filter: MetricFilter)
    ensures filter.glob == glob
    ensures forall family :: filter.Disabled(family) <==> env.Some? && ListDisables(Split(env.value, ','), glob, family)
    ensures forall i :: 0 <= i < |filter.patterns| ==> glob(filter.patterns[i], "") != BadPattern
  {
    filter := NoFilter(glob);
    if env.None? {
      return;
    }
    if TrimSpace(env.value) == "" {
      BlankHasNoTokens(env.value, glob);
      return;
    }
    var tokens := Split(env.value, ',');
    for i := 0 to |tokens|
      invariant filter.glob == glob
      invariant forall family :: filter.Disabled(family) <==> ListDisables(tokens[..i], glob, family)
      invariant forall j :: 0 <= j < |filter.patterns| ==> glob(filter.patterns[j], "") != BadPattern
    {
      filter := AddToken(filter, tokens[i]);
      forall family
        ensures ListDisables(tokens[..i + 1], glob, family)
           <==> ListDisables(tokens[..i], glob, family) || TokenDisables(tokens[i], glob, family)
      {
        ListDisablesSnoc(tokens, i, glob, family);
      }
    }
    assert tokens[..|tokens|] == tokens;
  }

  lemma AddPattern(before: MetricFilter, after: MetricFilter, token: string, family: string)
    ensures after == before.(patterns := before.patterns + [token]) ==>
      (after.Disabled(family) <==> before.Disabled(family) || before.glob(token, family) == Matched)
  {
    if after == before.(patterns := before.patterns + [token]) {
      var n := |before.patterns|;
      assert after.patterns[n] == token;
      assert forall i :: 0 <= i < n ==> after.patterns[i] == before.patterns[i];
    }
  }

  lemma ListDisablesSnoc(tokens: seq<string>, i: nat, glob: Glob, family: string)
    requires i < |tokens|
    ensures ListDisables(tokens[..i + 1], glob, family)
       <==> ListDisables(tokens[..i], glob, family) || TokenDisables(tokens[i], glob, family)
  {
    var a, b := tokens[..i], tokens[..i + 1];
    assert b[i] == tokens[i];
    assert forall j :: 0 <= j < i ==> a[j] == b[j];
  }

  lemma BlankHasNoTokens(value: string, glob: Glob)
    requires TrimSpace(value) == ""
    ensures forall family :: !ListDisables(Split(value, ','), glob, family)
  {
    TrimmedAway(value, IsSpace);
    assert !IsSpace(',');
    CutProperties(value, ',');
    assert Split(value, ',') == [value];
  }

  /** The series of one family. */
  function InFamily(family: string): Series -> bool {
    (s: Series) => s.family == family
  }

  function OfFamily(family: string, series: seq<Series>): seq<Series> {
    Filter(InFamily(family), series)
  }


  function SumValues(series: seq<Series>): real {
    if series == [] then 0.0 else SumValues(series[..|series| - 1]) + series[|series| - 1].value
  }

  lemma {:induction false} SumValuesAppend(a: seq<Series>, b: seq<Series>)
    ensures SumValues(a + b) == SumValues(a) + SumValues(b)
  {
    if b == [] {
      assert a + b == a;
    } else {
      SumValuesAppend(a, b[..|b| - 1]);
      assert (a + b)[..|a + b| - 1] == a + b[..|b| - 1];
    }
  }
}
