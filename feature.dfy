/** Feature types and the feature list filter (internal/types/feature.go).

    The query filter, time-range filter, expand, filter and sort conditions
    are defined elsewhere; their own `Validate` methods and getters are not
    part of this model. They enter as the values their getters return and as
    a record of validators. */
module Feature {
  import opened Wrappers

  // ------------------------------------------------------------ feature type

  type FeatureType = string

  const Metered: FeatureType := "metered"
  const Boolean: FeatureType := "boolean"
  const Static: FeatureType := "static"

  /** The feature types `Validate` accepts besides the empty one. */
  const AllowedFeatureTypes: seq<FeatureType> := [Metered, Boolean, Static]

  /** The validation error `FeatureType.Validate` reports: the rejected type
      and the allowed ones. */
  datatype FeatureTypeError = InvalidFeatureType(given: string, allowed: seq<string>)

  /** `FeatureType.String`. */
  function FeatureTypeString(f: FeatureType): (r: string)
    ensures |r| == |f| && forall i :: 0 <= i < |f| ==> r[i] == f[i]
  {
    f
  }

  /** `FeatureType.Validate`: the empty type and the three named types pass. */
  function ValidateFeatureType(f: FeatureType): (r: Option<FeatureTypeError>)
    ensures r.None? <==> f == "" || f == "metered" || f == "boolean" || f == "static"
    ensures r.Some? ==> r.value == InvalidFeatureType(f, ["metered", "boolean", "static"])
  {
    if f == "" then None
    else if f !in AllowedFeatureTypes then Some(InvalidFeatureType(f, AllowedFeatureTypes))
    else None
  }

  // ----------------------------------------------------------- feature filter

  /** An error reported by one of the delegated validators. */
  type Error = string

  type ExpandableField = string

  /** `Expand`, as the list of requested fields. */
  datatype Expand = Expand(fields: seq<ExpandableField>)

  datatype ExpandConfig = ExpandConfig(allowedFields: seq<ExpandableField>,
                                       nestedExpands: map<ExpandableField, seq<ExpandableField>>)

  /** `FeatureExpandConfig`: only the meters expansion, with no nested
      expansions. `meters` stands for the value of `ExpandMeters`. */
  function FeatureExpandConfig(meters: ExpandableField): (r: ExpandConfig)
    ensures r.allowedFields == [meters] && r.nestedExpands.Keys == {meters} && r.nestedExpands[meters] == []
  {
    ExpandConfig([meters], map[meters := []])
  }

  /** `QueryFilter`, as the values its getters return. */
  datatype QueryFilter = QueryFilter(limit: int, offset: int, sort: string, status: string,
                                     order: string, expand: Expand, unlimited: bool)

  datatype TimeRangeFilter = TimeRangeFilter(startTime: Option<int>, endTime: Option<int>)
  datatype FilterCondition = FilterCondition(field: string, operator: string, value: string)
  datatype SortCondition = SortCondition(field: string, direction: string)

  /** The delegated validators (`None` = no error). Filter and sort entries
      are pointers in Go and may be nil, so their validators take an `Option`. */
  datatype Validators = Validators(
    queryFilter: QueryFilter -> Option<Error>,
    timeRange: TimeRangeFilter -> Option<Error>,
    expandIsEmpty: Expand -> bool,
    expand: (Expand, ExpandConfig) -> Option<Error>,
    filter: Option<FilterCondition> -> Option<Error>,
    sort: Option<SortCondition> -> Option<Error>)

  /** The first error of a list of check results. */
  function FirstError(results: seq<Option<Error>>): Option<Error> {
    if results == [] then None
    else if results[0].Some? then results[0]
    else FirstError(results[1..])
  }

  /** `FirstError` is `None` exactly when every check passed, and otherwise the
      result of the first check that failed. */
  lemma {:induction false} FirstErrorSpec(results: seq<Option<Error>>)
    ensures FirstError(results).None? <==> forall i :: 0 <= i < |results| ==> results[i].None?
    ensures FirstError(results).Some? ==>
      exists k :: 0 <= k < |results| && FirstError(results) == results[k]
        && forall j :: 0 <= j < k ==> results[j].None?
  {
    if results != [] && results[0].None? {
      FirstErrorSpec(results[1..]);
      if FirstError(results[1..]).Some? {
        var k :| 0 <= k < |results[1..]| && FirstError(results[1..]) == results[1..][k]
          && forall j :: 0 <= j < k ==> results[1..][j].None?;
        assert results[k + 1] == results[1..][k];
        forall j | 0 <= j < k + 1 ensures results[j].None? {
          if j > 0 { assert results[j] == results[1..][j - 1]; }
        }
      } else {
        forall i | 0 <= i < |results| ensures results[i].None? {
          if i > 0 { assert results[i] == results[1..][i - 1]; }
        }
      }
    }
  }

  function FilterResults(v: Validators, filters: seq<Option<FilterCondition>>): (r: seq<Option<Error>>)
    ensures |r| == |filters| && forall i :: 0 <= i < |filters| ==> r[i] == v.filter(filters[i])
  {
    seq(|filters|, i requires 0 <= i < |filters| => v.filter(filters[i]))
  }

  function SortResults(v: Validators, sorts: seq<Option<SortCondition>>): (r: seq<Option<Error>>)
    ensures |r| == |sorts| && forall i :: 0 <= i < |sorts| ==> r[i] == v.sort(sorts[i])
  {
    seq(|sorts|, i requires 0 <= i < |sorts| => v.sort(sorts[i]))
  }

  /** Reference: the checks `Validate` runs, in order, on a filter whose
      query filter is `q`: the query filter, the time range when present, the
      expand when non-empty, then every filter and every sort entry. */
  function Checks(v: Validators, meters: ExpandableField, q: QueryFilter, timeRange: Option<TimeRangeFilter>,
                  filters: seq<Option<FilterCondition>>, sorts: seq<Option<SortCondition>>): seq<Option<Error>>
  {
    [v.queryFilter(q)]
    + (if timeRange.Some? then [v.timeRange(timeRange.value)] else [])
    + (if !v.expandIsEmpty(q.expand) then [v.expand(q.expand, FeatureExpandConfig(meters))] else [])
    + FilterResults(v, filters)
    + SortResults(v, sorts)
  }

  /** `FeatureFilter`. */
  class FeatureFilter {
    var queryFilter: Option<QueryFilter>
    var timeRangeFilter: Option<TimeRangeFilter>
    var filters: seq<Option<FilterCondition>>
    var sort: seq<Option<SortCondition>>
    var featureIds: seq<string>
    var meterIds: seq<string>
    var lookupKey: string
    var nameContains: string

    /** `NewDefaultFeatureFilter` / `NewNoLimitFeatureFilter`: a filter holding
        only the given query filter (the default or the no-limit one). */
    constructor (q: QueryFilter)
      ensures queryFilter == Some(q) && timeRangeFilter.None?
      ensures filters == [] && sort == [] && featureIds == [] && meterIds == []
      ensures lookupKey == "" && nameContains == ""
    {
      queryFilter := Some(q);
      timeRangeFilter := None;
      filters := [];
      sort := [];
      featureIds := [];
      meterIds := [];
      lookupKey := "";
      nameContains := "";
    }

    /** The query filter the getters read: the filter's own, or the default
        one when the filter or its query filter is nil. */
    static function Effective(f: FeatureFilter?, defaults: QueryFilter): QueryFilter
      reads f
    {
      if f == null || f.queryFilter.None? then defaults else f.queryFilter.value
    }

    static function GetLimit(f: FeatureFilter?, defaults: QueryFilter): (r: int)
      reads f
      ensures f == null || f.queryFilter.None? ==> r == defaults.limit
      ensures f != null && f.queryFilter.Some? ==> r == f.queryFilter.value.limit
    {
      Effective(f, defaults).limit
    }

    static function GetOffset(f: FeatureFilter?, defaults: QueryFilter): (r: int)
      reads f
      ensures f == null || f.queryFilter.None? ==> r == defaults.offset
      ensures f != null && f.queryFilter.Some? ==> r == f.queryFilter.value.offset
    {
      Effective(f, defaults).offset
    }

    static function GetSort(f: FeatureFilter?, defaults: QueryFilter): (r: string)
      reads f
      ensures f == null || f.queryFilter.None? ==> r == defaults.sort
      ensures f != null && f.queryFilter.Some? ==> r == f.queryFilter.value.sort
    {
      Effective(f, defaults).sort
    }

    static function GetStatus(f: FeatureFilter?, defaults: QueryFilter): (r: string)
      reads f
      ensures f == null || f.queryFilter.None? ==> r == defaults.status
      ensures f != null && f.queryFilter.Some? ==> r == f.queryFilter.value.status
    {
      Effective(f, defaults).status
    }

    static function GetOrder(f: FeatureFilter?, defaults: QueryFilter): (r: string)
      reads f
      ensures f == null || f.queryFilter.None? ==> r == defaults.order
      ensures f != null && f.queryFilter.Some? ==> r == f.queryFilter.value.order
    {
      Effective(f, defaults).order
    }

    static function GetExpand(f: FeatureFilter?, defaults: QueryFilter): (r: Expand)
      reads f
      ensures f == null || f.queryFilter.None? ==> r == defaults.expand
      ensures f != null && f.queryFilter.Some? ==> r == f.queryFilter.value.expand
    {
      Effective(f, defaults).expand
    }

    static function IsUnlimited(f: FeatureFilter?, defaults: QueryFilter): (r: bool)
      reads f
      ensures f == null || f.queryFilter.None? ==> r == defaults.unlimited
      ensures f != null && f.queryFilter.Some? ==> r == f.queryFilter.value.unlimited
    {
      Effective(f, defaults).unlimited
    }

    /** `FeatureFilter.Validate`. A nil filter is valid. Otherwise a missing
        query filter is replaced by the default one in place, and the result
        is the first error of the checks in order. Installing the default
        changes none of the getters' answers. */
    static method Validate(f: FeatureFilter?, defaults: QueryFilter, v: Validators, meters: ExpandableField)
      returns (err: Option<Error>)
      modifies f
      ensures f == null ==> err.None?
      ensures f != null ==> f.queryFilter == Some(old(Effective(f, defaults)))
      ensures f != null ==> Effective(f, defaults) == old(Effective(f, defaults))
      ensures f != null ==> unchanged(f`timeRangeFilter, f`filters, f`sort, f`featureIds, f`meterIds,
                                      f`lookupKey, f`nameContains)
      ensures f != null ==>
        err == FirstError(Checks(v, meters, f.queryFilter.value, f.timeRangeFilter, f.filters, f.sort))
    {
      if f == null {
        return None;
      }
      if f.queryFilter.None? {
        f.queryFilter := Some(defaults);
      }
      err := RunChecks(v, meters, f.queryFilter.value, f.timeRangeFilter, f.filters, f.sort);
    }
  }

  /** The body of `FeatureFilter.Validate` once the query filter is set: the
      checks run in order and the first error is returned. */
  method RunChecks(v: Validators, meters: ExpandableField, q: QueryFilter, timeRange: Option<TimeRangeFilter>,
                   filters: seq<Option<FilterCondition>>, sorts: seq<Option<SortCondition>>)
    returns (err: Option<Error>)
    ensures err == FirstError(Checks(v, meters, q, timeRange, filters, sorts))
  {
    ghost var head := HeadChecks(v, meters, q, timeRange);
    ghost var all := Checks(v, meters, q, timeRange, filters, sorts);
    assert all == head + FilterResults(v, filters) + SortResults(v, sorts);
    FirstErrorAppend(head + FilterResults(v, filters), SortResults(v, sorts));
    FirstErrorAppend(head, FilterResults(v, filters));
    err := HeadError(v, meters, q, timeRange);
    if err.Some? {
      return;
    }
    err := FirstFilterError(v, filters);
    if err.Some? {
      return;
    }
    err := FirstSortError(v, sorts);
  }

  /** The checks before the filter entries, stopping at the first error. */
  method HeadError(v: Validators, meters: ExpandableField, q: QueryFilter, timeRange: Option<TimeRangeFilter>)
    returns (err: Option<Error>)
    ensures err == FirstError(HeadChecks(v, meters, q, timeRange))
  {
    ghost var head := HeadChecks(v, meters, q, timeRange);
    ghost var n := 0;   // checks passed so far
    err := v.queryFilter(q);
    if err.Some? {
      FirstErrorAt(head, 0);
      return;
    }
    n := 1;
    if timeRange.Some? {
      err := v.timeRange(timeRange.value);
      if err.Some? {
        FirstErrorAt(head, 1);
        return;
      }
      n := 2;
    }
    if !v.expandIsEmpty(q.expand) {
      err := v.expand(q.expand, FeatureExpandConfig(meters));
      if err.Some? {
        FirstErrorAt(head, n);
        return;
      }
      n := n + 1;
    }
    assert n == |head|;
    FirstErrorSpec(head);
  }

  /** The loop over the filter entries: the first entry that fails. */
  method FirstFilterError(v: Validators, filters: seq<Option<FilterCondition>>) returns (err: Option<Error>)
    ensures err == FirstError(FilterResults(v, filters))
  {
    ghost var results := FilterResults(v, filters);
    var i := 0;
    while i < |filters|
      invariant 0 <= i <= |filters|
      invariant forall j :: 0 <= j < i ==> results[j].None?
    {
      err := v.filter(filters[i]);
      if err.Some? {
        FirstErrorAt(results, i);
        return;
      }
      i := i + 1;
    }
    FirstErrorSpec(results);
    err := None;
  }

  /** The loop over the sort entries: the first entry that fails. */
  method FirstSortError(v: Validators, sorts: seq<Option<SortCondition>>) returns (err: Option<Error>)
    ensures err == FirstError(SortResults(v, sorts))
  {
    ghost var results := SortResults(v, sorts);
    var i := 0;
    while i < |sorts|
      invariant 0 <= i <= |sorts|
      invariant forall j :: 0 <= j < i ==> results[j].None?
    {
      err := v.sort(sorts[i]);
      if err.Some? {
        FirstErrorAt(results, i);
        return;
      }
      i := i + 1;
    }
    FirstErrorSpec(results);
    err := None;
  }

  /** The first error of two lists of checks run one after the other. */
  lemma {:induction false} FirstErrorAppend(a: seq<Option<Error>>, b: seq<Option<Error>>)
    ensures FirstError(a + b) == if FirstError(a).Some? then FirstError(a) else FirstError(b)
  {
    if a != [] {
      assert (a + b)[1..] == a[1..] + b;
      FirstErrorAppend(a[1..], b);
    } else {
      assert a + b == b;
    }
  }

  /** `FirstError` stops at the first failing check. */
  lemma FirstErrorAt(results: seq<Option<Error>>, k: nat)
    requires k < |results| && results[k].Some?
    requires forall j :: 0 <= j < k ==> results[j].None?
    ensures FirstError(results) == results[k]
  {
    FirstErrorSpec(results);
    var k' :| 0 <= k' < |results| && FirstError(results) == results[k']
        && forall j :: 0 <= j < k' ==> results[j].None?;
    assert k' == k;
  }

  /** The checks before the filter entries. */
  function HeadChecks(v: Validators, meters: ExpandableField, q: QueryFilter, timeRange: Option<TimeRangeFilter>)
    : seq<Option<Error>>
  {
    [v.queryFilter(q)]
    + (if timeRange.Some? then [v.timeRange(timeRange.value)] else [])
    + (if !v.expandIsEmpty(q.expand) then [v.expand(q.expand, FeatureExpandConfig(meters))] else [])
  }
}
