/**
 * The health-record service: by-id lookup, the category and type filters,
 * and the most-recent view, which sorts a copy of the fetched list newest
 * first and keeps its first `limit` records.
 */
module HealthRecords {
  import opened Wrappers
  import opened Js
  import opened Text
  import opened Types
  import opened Lists
  import Config
  import Client

  /** `getAllRecords`. */
  function GetAll(): Client.Call {
    Client.Get(Config.Path(Config.HEALTH_RECORDS), [])
  }

  /** `getRecordById(id)`. */
  function GetById(id: int): Client.Call {
    Client.Get(Config.Path(Config.HEALTH_RECORD_BY_ID), Client.IdParam(id))
  }

  /** The by-id lookup addresses `/api/health-records/<id>`. */
  lemma CallTargets(id: int, baseURL: string)
    ensures GetById(id).verb == Client.GET && GetById(id).body == None
    ensures Client.Url(baseURL, GetById(id).endpoint, GetById(id).params) == Client.Prefix(baseURL) + "/api/health-records/" + IntToString(id)
  {
    Client.ByIdTarget(Config.HEALTH_RECORD_BY_ID, baseURL, id, "/api/health-records/");
  }

  /** `getRecordsByCategory`: the records whose category equals the query, ignoring case. */
  function ByCategory(fetched: ApiResponse<seq<HealthRecord>>, category: string): (r: ApiResponse<seq<HealthRecord>>)
    ensures !Fetched(fetched) ==> r == fetched
    ensures Fetched(fetched) ==> r.success && r.data.Some? && r.error.None? && r.message.None?
    ensures Fetched(fetched) ==> Sublist(r.data.value, fetched.data.value)
    ensures Fetched(fetched) ==> forall i :: 0 <= i < |r.data.value| ==> EqualsIgnoringCase(r.data.value[i].category, category)
    ensures Fetched(fetched) ==> forall i :: 0 <= i < |fetched.data.value| && EqualsIgnoringCase(fetched.data.value[i].category, category) ==>
      fetched.data.value[i] in r.data.value
  {
    Refine(fetched, xs => Filter(xs, (h: HealthRecord) => EqualsIgnoringCase(h.category, category)))
  }

  /** `getRecordsByType`: the records whose type contains the query, ignoring case. */
  function ByType(fetched: ApiResponse<seq<HealthRecord>>, kind: string): (r: ApiResponse<seq<HealthRecord>>)
    ensures !Fetched(fetched) ==> r == fetched
    ensures Fetched(fetched) ==> r.success && r.data.Some? && r.error.None? && r.message.None?
    ensures Fetched(fetched) ==> Sublist(r.data.value, fetched.data.value)
    ensures Fetched(fetched) ==> forall i :: 0 <= i < |r.data.value| ==> ContainsIgnoringCase(r.data.value[i].kind, kind)
    ensures Fetched(fetched) ==> forall i :: 0 <= i < |fetched.data.value| && ContainsIgnoringCase(fetched.data.value[i].kind, kind) ==>
      fetched.data.value[i] in r.data.value
  {
    Refine(fetched, xs => Filter(xs, (h: HealthRecord) => ContainsIgnoringCase(h.kind, kind)))
  }

  /** Every string contains the empty type query, so it keeps the whole fetched list. */
  lemma EmptyTypeKeepsAll(fetched: ApiResponse<seq<HealthRecord>>)
    ensures ByType(fetched, "") == if Fetched(fetched) then Ok(fetched.data.value) else fetched
  {
    if Fetched(fetched) {
      var xs := fetched.data.value;
      forall i | 0 <= i < |xs|
        ensures ContainsIgnoringCase(xs[i].kind, "")
      {
        assert Lower("") == "";
        EmptyContained(Lower(xs[i].kind));
      }
      FilterKeepsAll(xs, (h: HealthRecord) => ContainsIgnoringCase(h.kind, ""));
    }
  }

  // ---------------------------------------------------------------- recent records

  /**
   * The comparator `time(b) - time(a)` is negative: `a` is strictly newer
   * than `b`. A difference involving NaN is NaN, which is not negative.
   */
  predicate Newer(a: HealthRecord, b: HealthRecord, parse: string -> Instant) {
    parse(a.date).At? && parse(b.date).At? && parse(a.date).ms > parse(b.date).ms
  }

  /** Every date in `s` parses. */
  predicate AllDated(s: seq<HealthRecord>, parse: string -> Instant) {
    forall i :: 0 <= i < |s| ==> parse(s[i].date).At?
  }

  /** No record is strictly newer than one placed before it. */
  predicate NewestFirst(s: seq<HealthRecord>, parse: string -> Instant) {
    forall i, j :: 0 <= i < j < |s| ==> !Newer(s[j], s[i], parse)
  }

  /** Insert `x` after every record it is not strictly newer than: the step of a stable insertion sort. */
  function Insert(x: HealthRecord, sorted: seq<HealthRecord>, parse: string -> Instant): (r: seq<HealthRecord>)
    ensures multiset(r) == multiset(sorted) + multiset{x}
  {
    if sorted == [] then [x]
    else if Newer(x, sorted[0], parse) then [x] + sorted
    else
      assert sorted == [sorted[0]] + sorted[1..];
      [sorted[0]] + Insert(x, sorted[1..], parse)
  }

  /**
   * `[...data].sort(newest first)`, as a stable sort: each record, taken in
   * order, is inserted behind the ones already placed that it does not
   * strictly beat.
   */
  function SortNewestFirst(xs: seq<HealthRecord>, parse: string -> Instant): (r: seq<HealthRecord>)
    ensures multiset(r) == multiset(xs)
  {
    if xs == [] then []
    else
      assert xs == xs[..|xs| - 1] + [xs[|xs| - 1]];
      Insert(xs[|xs| - 1], SortNewestFirst(xs[..|xs| - 1], parse), parse)
  }

  lemma {:induction false} InsertKeepsOrder(x: HealthRecord, s: seq<HealthRecord>, parse: string -> Instant)
    requires AllDated(s, parse) && parse(x.date).At?
    requires NewestFirst(s, parse)
    ensures NewestFirst(Insert(x, s, parse), parse)
  {
    if s != [] && !Newer(x, s[0], parse) {
      var tail := s[1..];
      InsertKeepsOrder(x, tail, parse);
      var ins := Insert(x, tail, parse);
      var r := [s[0]] + ins;
      forall j | 1 <= j < |r|
        ensures !Newer(r[j], s[0], parse)
      {
        assert r[j] == ins[j - 1];
        assert r[j] in multiset(ins);
        assert r[j] == x || r[j] in multiset(tail);
      }
    }
  }

  /** With every date parsing, the sort leaves the records newest first. */
  lemma {:induction false} SortedNewestFirst(xs: seq<HealthRecord>, parse: string -> Instant)
    requires AllDated(xs, parse)
    ensures NewestFirst(SortNewestFirst(xs, parse), parse)
    ensures AllDated(SortNewestFirst(xs, parse), parse)
  {
    if xs != [] {
      var init := xs[..|xs| - 1];
      SortedNewestFirst(init, parse);
      var s := SortNewestFirst(init, parse);
      InsertKeepsOrder(xs[|xs| - 1], s, parse);
      var r := SortNewestFirst(xs, parse);
      forall i | 0 <= i < |r|
        ensures parse(r[i].date).At?
      {
        assert r[i] in multiset(xs);
      }
    }
  }

  /** The default of `getRecentRecords(limit = 5)`. */
  const DEFAULT_LIMIT: int := 5

  /**
   * `getRecentRecords(limit)`: the first `limit` records of the sorted copy
   * (None is the default of 5; a negative limit counts from the back, as
   * `slice` does). Every record returned was fetched, none twice over.
   */
  function Recent(fetched: ApiResponse<seq<HealthRecord>>, limit: Option<int>, parse: string -> Instant): (r: ApiResponse<seq<HealthRecord>>)
    ensures !Fetched(fetched) ==> r == fetched
    ensures Fetched(fetched) ==> r.success && r.data.Some? && r.error.None? && r.message.None?
    ensures Fetched(fetched) ==> r.data.value <= SortNewestFirst(fetched.data.value, parse)
    ensures Fetched(fetched) ==> multiset(r.data.value) <= multiset(fetched.data.value)
    ensures Fetched(fetched) && limit.GetOr(DEFAULT_LIMIT) >= 0 ==>
      |r.data.value| == if limit.GetOr(DEFAULT_LIMIT) < |fetched.data.value| then limit.GetOr(DEFAULT_LIMIT) else |fetched.data.value|
  {
    if Fetched(fetched) then
      var sorted := SortNewestFirst(fetched.data.value, parse);
      var kept := SliceTo(sorted, limit.GetOr(DEFAULT_LIMIT));
      assert sorted == kept + sorted[|kept|..];
      Ok(kept)
    else fetched
  }

  /** When every date parses, the recent view is newest first; a limit covering the list returns all of it, reordered. */
  lemma RecentNewestFirst(fetched: ApiResponse<seq<HealthRecord>>, limit: Option<int>, parse: string -> Instant)
    requires Fetched(fetched) && AllDated(fetched.data.value, parse)
    ensures NewestFirst(Recent(fetched, limit, parse).data.value, parse)
    ensures limit.GetOr(DEFAULT_LIMIT) >= |fetched.data.value| ==>
      multiset(Recent(fetched, limit, parse).data.value) == multiset(fetched.data.value)
  {
    SortedNewestFirst(fetched.data.value, parse);
    var sorted := SortNewestFirst(fetched.data.value, parse);
    var r := Recent(fetched, limit, parse).data.value;
    assert |sorted| == |multiset(sorted)| == |fetched.data.value|;
    if limit.GetOr(DEFAULT_LIMIT) >= |fetched.data.value| {
      assert r == sorted;
    }
    assert forall i, j :: 0 <= i < j < |r| ==> r[i] == sorted[i] && r[j] == sorted[j];
  }
}
