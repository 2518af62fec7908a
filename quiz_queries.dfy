/**
 * The report queries of the quiz service: each grows its SQL text and its
 * bind parameters one optional filter at a time. The SQL text itself is
 * evaluated by the database; here a query is the sequence of its parts, each
 * part knowing which bind variables it names, so what is proved is the
 * agreement between the clauses and the parameters handed to the driver.
 */
module QuizQueries {
  import opened Wrappers

  /** The three optional report filters, in the order the builders test them. */
  datatype Filter = FileFilter | StartFilter | EndFilter

  /** The filter arguments of `get_global_module_stats` and its siblings. */
  datatype Filters = Filters(startDate: Option<string>, endDate: Option<string>, fileId: Option<int>)

  /** A bind value. */
  datatype Param = IntParam(i: int) | TextParam(s: string)

  /** A piece of SQL text: fixed text naming the given bind variables, or one filter clause. */
  datatype Part = Fixed(text: string, binds: set<string>) | Clause(filter: Filter)

  /** A query in the making: its parts and its parameter dict. */
  datatype Builder = Builder(parts: seq<Part>, params: map<string, Param>)

  /** The SQL, and the parameters passed to `pd.read_sql` (`None` for no dict). */
  datatype Query = Query(parts: seq<Part>, params: Option<map<string, Param>>)

  /** `if file_id:` / `if start_date:` / `if end_date:` — Python truthiness, so 0 and "" mean no filter. */
  predicate Given(f: Filters, c: Filter) {
    match c
    case FileFilter => f.fileId.Some? && f.fileId.value != 0
    case StartFilter => f.startDate.Some? && f.startDate.value != ""
    case EndFilter => f.endDate.Some? && f.endDate.value != ""
  }

  /** No filter at all is given. */
  predicate NoFilter(f: Filters) {
    !Given(f, FileFilter) && !Given(f, StartFilter) && !Given(f, EndFilter)
  }

  /** The bind variable (and params key) of each filter. */
  function Key(c: Filter): string {
    match c
    case FileFilter => "file_id"
    case StartFilter => "start_date"
    case EndFilter => "end_date"
  }

  /** Position of each filter in the builders' order. */
  function Rank(c: Filter): nat {
    match c
    case FileFilter => 0
    case StartFilter => 1
    case EndFilter => 2
  }

  /** The value bound for a given filter. */
  function Value(f: Filters, c: Filter): Param
    requires Given(f, c)
  {
    match c
    case FileFilter => IntParam(f.fileId.value)
    case StartFilter => TextParam(f.startDate.value)
    case EndFilter => TextParam(f.endDate.value)
  }

  predicate IsFilterKey(k: string) {
    k == "file_id" || k == "start_date" || k == "end_date"
  }

  /** The bind variables a part names. */
  function PartBinds(p: Part): set<string> {
    match p
    case Fixed(_, binds) => binds
    case Clause(c) => {Key(c)}
  }

  /** The bind variables the whole text names. */
  function Binds(parts: seq<Part>): set<string> {
    if parts == [] then {} else Binds(parts[..|parts| - 1]) + PartBinds(parts[|parts| - 1])
  }

  lemma BindsSnoc(parts: seq<Part>, p: Part)
    ensures Binds(parts + [p]) == Binds(parts) + PartBinds(p)
  {
    assert (parts + [p])[..|parts|] == parts;
  }

  lemma {:induction false} BindsAppend(a: seq<Part>, b: seq<Part>)
    ensures Binds(a + b) == Binds(a) + Binds(b)
    decreases |b|
  {
    if b == [] {
      assert a + b == a;
    } else {
      var c := b[..|b| - 1];
      assert a + b == (a + c) + [b[|b| - 1]];
      BindsSnoc(a + c, b[|b| - 1]);
      BindsAppend(a, c);
    }
  }

  /** One filter: `query += clause` and `params[key] = value` when the filter is given. */
  function AddFilter(b: Builder, f: Filters, c: Filter): Builder {
    if Given(f, c) then Builder(b.parts + [Clause(c)], b.params[Key(c) := Value(f, c)]) else b
  }

  /** The `if file_id` / `if start_date` / `if end_date` block. */
  function WithFilters(b: Builder, f: Filters): Builder {
    AddFilter(AddFilter(AddFilter(b, f, FileFilter), f, StartFilter), f, EndFilter)
  }

  /** One filter's clause alone, as in the second half of the summary query. */
  function AddClause(parts: seq<Part>, f: Filters, c: Filter): seq<Part> {
    if Given(f, c) then parts + [Clause(c)] else parts
  }

  function WithClauses(parts: seq<Part>, f: Filters): seq<Part> {
    AddClause(AddClause(AddClause(parts, f, FileFilter), f, StartFilter), f, EndFilter)
  }

  /** The clauses of the given filters, in the order file, start, end. */
  function GivenClauses(f: Filters): seq<Part> {
    (if Given(f, FileFilter) then [Clause(FileFilter)] else [])
    + (if Given(f, StartFilter) then [Clause(StartFilter)] else [])
    + (if Given(f, EndFilter) then [Clause(EndFilter)] else [])
  }

  /** The entries of the given filters. */
  function FilterParams(f: Filters): map<string, Param> {
    var m1 := if Given(f, FileFilter) then map["file_id" := Value(f, FileFilter)] else map[];
    var m2 := if Given(f, StartFilter) then m1["start_date" := Value(f, StartFilter)] else m1;
    if Given(f, EndFilter) then m2["end_date" := Value(f, EndFilter)] else m2
  }

  /** One clause per given filter and no other, in strictly increasing builder order. */
  lemma GivenClausesInOrder(f: Filters)
    ensures forall i :: 0 <= i < |GivenClauses(f)| ==> GivenClauses(f)[i].Clause?
    ensures forall c :: Clause(c) in GivenClauses(f) <==> Given(f, c)
    ensures forall i, j :: 0 <= i < j < |GivenClauses(f)| ==> Rank(GivenClauses(f)[i].filter) < Rank(GivenClauses(f)[j].filter)
    ensures |GivenClauses(f)| <= 3
  {
    var g := GivenClauses(f);
    forall c ensures Clause(c) in g <==> Given(f, c) {
      match c
      case FileFilter =>
      case StartFilter =>
      case EndFilter =>
    }
  }

  /** The params hold exactly the given filters, each bound to its value. */
  lemma FilterParamsExact(f: Filters)
    ensures forall c :: Key(c) in FilterParams(f) <==> Given(f, c)
    ensures forall c :: Given(f, c) ==> FilterParams(f)[Key(c)] == Value(f, c)
    ensures forall k :: k in FilterParams(f) ==> IsFilterKey(k)
    ensures FilterParams(f) == map[] <==> NoFilter(f)
  {
    var m := FilterParams(f);
    forall c ensures Key(c) in m <==> Given(f, c) {
      match c
      case FileFilter =>
      case StartFilter =>
      case EndFilter =>
    }
    forall c | Given(f, c) ensures m[Key(c)] == Value(f, c) {
      match c
      case FileFilter =>
      case StartFilter =>
      case EndFilter =>
    }
    if !NoFilter(f) {
      if Given(f, FileFilter) {
        assert Key(FileFilter) in m;
      } else if Given(f, StartFilter) {
        assert Key(StartFilter) in m;
      } else {
        assert Key(EndFilter) in m;
      }
    }
  }

  /** The filter block appends the given clauses to the text and the given entries to the params. */
  lemma WithFiltersIs(b: Builder, f: Filters)
    ensures WithFilters(b, f).parts == b.parts + GivenClauses(f)
    ensures WithFilters(b, f).params == b.params + FilterParams(f)
    ensures WithClauses(b.parts, f) == b.parts + GivenClauses(f)
  {
  }

  /** The binds of the given clauses are the keys of the given entries. */
  lemma GivenClausesBinds(f: Filters)
    ensures Binds(GivenClauses(f)) == FilterParams(f).Keys
  {
    var c1 := if Given(f, FileFilter) then [Clause(FileFilter)] else [];
    var c2 := if Given(f, StartFilter) then [Clause(StartFilter)] else [];
    var c3 := if Given(f, EndFilter) then [Clause(EndFilter)] else [];
    BindsAppend(c1, c2);
    BindsAppend(c1 + c2, c3);
    BindsOfOne(c1);
    BindsOfOne(c2);
    BindsOfOne(c3);
    FilterParamsExact(f);
    assert GivenClauses(f) == c1 + c2 + c3;
  }

  lemma BindsOfOne(s: seq<Part>)
    requires |s| <= 1
    ensures s == [] ==> Binds(s) == {}
    ensures |s| == 1 ==> Binds(s) == PartBinds(s[0])
  {
    if |s| == 1 {
      assert s[..|s| - 1] == [];
    }
  }

  /** `params if params else None`. */
  function NoneIfEmpty(params: map<string, Param>): (r: Option<map<string, Param>>)
    ensures r.None? <==> params == map[]
    ensures r.Some? ==> r.value == params
  {
    if params == map[] then None else Some(params)
  }

  function ParamKeys(params: Option<map<string, Param>>): set<string> {
    if params.None? then {} else params.value.Keys
  }

  /** A filter block between two fixed parts binds the filters' keys and what the second part binds. */
  lemma FramedBinds(head: string, tail: Part, f: Filters)
    ensures Binds([Fixed(head, {})] + GivenClauses(f) + [tail]) == FilterParams(f).Keys + PartBinds(tail)
  {
    BindsOfOne([Fixed(head, {})]);
    GivenClausesBinds(f);
    BindsAppend([Fixed(head, {})], GivenClauses(f));
    BindsSnoc([Fixed(head, {})] + GivenClauses(f), tail);
  }

  const ModuleStatsHead := "module statistics"
  const ModuleStatsTail := Fixed("grouped by module, best score first", {})

  /** `get_global_module_stats`: the filtered per-module query. */
  function GlobalModuleStats(f: Filters): (r: Query)
    ensures r.parts == [Fixed(ModuleStatsHead, {})] + GivenClauses(f) + [ModuleStatsTail]
    ensures r.params == NoneIfEmpty(FilterParams(f))
    ensures r.params.None? <==> NoFilter(f)
    ensures Binds(r.parts) == ParamKeys(r.params)
  {
    var b := WithFilters(Builder([Fixed(ModuleStatsHead, {})], map[]), f);
    WithFiltersIs(Builder([Fixed(ModuleStatsHead, {})], map[]), f);
    FilterParamsExact(f);
    FramedBinds(ModuleStatsHead, ModuleStatsTail, f);
    assert b.params == FilterParams(f);
    Query(b.parts + [ModuleStatsTail], NoneIfEmpty(b.params))
  }

  const RankingHead := "evaluation scores"
  const RankingTail := Fixed("grouped by evaluation, best first, first :limit rows", {"limit"})

  /** `get_top_evaluations_ranking`: the params always hold `limit`, which the last part binds. */
  function TopEvaluationsRanking(limit: int, f: Filters): (r: Query)
    ensures r.parts == [Fixed(RankingHead, {})] + GivenClauses(f) + [RankingTail]
    ensures r.params == Some(map["limit" := IntParam(limit)] + FilterParams(f))
    ensures r.params.value["limit"] == IntParam(limit)
    ensures Binds(r.parts) == ParamKeys(r.params)
  {
    var start := Builder([Fixed(RankingHead, {})], map["limit" := IntParam(limit)]);
    var b := WithFilters(start, f);
    WithFiltersIs(start, f);
    FilterParamsExact(f);
    FramedBinds(RankingHead, RankingTail, f);
    assert "limit" !in FilterParams(f);
    Query(b.parts + [RankingTail], Some(b.params))
  }

  const SummaryHead := "per-evaluation scores"
  const SummaryMiddle := Fixed("summary over the scored evaluations", {})

  /** `get_quiz_summary_stats`: the filter clauses appear in both halves, the params are built once. */
  function QuizSummaryStats(f: Filters): (r: Query)
    ensures r.parts == [Fixed(SummaryHead, {})] + GivenClauses(f) + [SummaryMiddle] + GivenClauses(f)
    ensures r.params == NoneIfEmpty(FilterParams(f))
    ensures r.params.None? <==> NoFilter(f)
    ensures Binds(r.parts) == ParamKeys(r.params)
  {
    var b := WithFilters(Builder([Fixed(SummaryHead, {})], map[]), f);
    WithFiltersIs(Builder([Fixed(SummaryHead, {})], map[]), f);
    var mid := b.parts + [SummaryMiddle];
    WithFiltersIs(Builder(mid, map[]), f);
    FilterParamsExact(f);
    FramedBinds(SummaryHead, SummaryMiddle, f);
    GivenClausesBinds(f);
    BindsAppend(mid, GivenClauses(f));
    assert b.params == FilterParams(f);
    Query(WithClauses(mid, f), NoneIfEmpty(b.params))
  }

  /** `df.iloc[0].to_dict()` or `{}` on an empty result. */
  function SummaryRow<V>(rows: seq<map<string, V>>): (r: map<string, V>)
    ensures rows == [] ==> r == map[]
    ensures rows != [] ==> r == rows[0]
  {
    if rows == [] then map[] else rows[0]
  }
}
