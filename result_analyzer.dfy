/**
 * result_analyzer.py: the offline analysis of a saved results file. A
 * DataFrame is a sequence of saved records (`Frame`); the platform table,
 * the (platform, model) table, the per-category listing and the report are
 * each a specification function on those records, and the loops that build
 * them are methods proved against those functions.
 *
 * The file system is a parameter: `listing` is what `os.listdir` of the
 * results directory returns (none when the directory does not exist), and
 * `read` is what parsing a file with `json.load` and `pd.DataFrame` yields,
 * or the exception it raises. The console tables and the report's Markdown
 * text are left out; the methods return the values shown.
 */
module ResultAnalyzer {
  import opened Wrappers
  import opened Seqs
  import opened Stats
  import opened Metrics
  import LLMTester

  /** `ResultAnalyzer.__init__`'s default directory. */
  const DefaultResultsDir: string := "results/"
  const JsonSuffix: string := ".json"

  /** A row of the DataFrame: one saved record. */
  type Row = LLMTester.SavedRecord

  /** A DataFrame of saved records; `hasCategory` says whether it has a `category` column. */
  datatype Frame = Frame(rows: seq<Row>, hasCategory: bool)

  function PlatformOf(r: Row): string { r.platform }
  function ModelKeyOf(r: Row): (string, string) { (r.platform, r.model) }
  function CategoryOf(r: Row): string { r.category }
  function Ok(r: Row): bool { r.success }
  function LatencyOf(r: Row): real { r.latency }
  function UsageOf(r: Row): map<string, int> { r.usage }

  // ---------------------------------------------------------------------------
  // The latest results file (lines 24-31)

  predicate IsJson(name: string) { EndsWith(name, JsonSuffix) }

  /** `sorted(xs)[-1]`: the greatest name under Python's string order. */
  function Greatest(xs: seq<string>): (m: string)
    requires |xs| > 0
    ensures m in xs
  {
    if |xs| == 1 then xs[0]
    else
      var p := Greatest(xs[..|xs| - 1]);
      assert p in xs[..|xs| - 1];
      if StrLess(p, xs[|xs| - 1]) then xs[|xs| - 1] else p
  }

  /** Every other name sorts before the greatest one. */
  lemma {:induction false} GreatestIsMax(xs: seq<string>)
    requires |xs| > 0
    ensures forall x :: x in xs && x != Greatest(xs) ==> StrLess(x, Greatest(xs))
  {
    if |xs| > 1 {
      var p, last := xs[..|xs| - 1], xs[|xs| - 1];
      assert xs == p + [last];
      GreatestIsMax(p);
      var g := Greatest(p);
      forall x | x in xs && x != Greatest(xs) ensures StrLess(x, Greatest(xs)) {
        if StrLess(g, last) {
          if x != g {
            StrLessTransitive(x, g, last);
          }
        } else if x == last {
          StrLessTotal(last, g);
        }
      }
    }
  }

  /**
   * Lines 25-30: the latest results file is the greatest of the names ending
   * in `.json`; there is none when no name does.
   */
  function LatestResultsFile(names: seq<string>): (r: Option<string>)
    ensures r.None? <==> forall x :: x in names ==> !IsJson(x)
    ensures r.Some? ==> r.value in names && IsJson(r.value)
    ensures r.Some? ==> forall x :: x in names && IsJson(x) && x != r.value ==> StrLess(x, r.value)
  {
    var js := Select(names, IsJson, true);
    if |js| == 0 then None
    else
      GreatestIsMax(js);
      Some(Greatest(js))
  }

  /**
   * Lines 20-36: no frame when the directory is missing or holds no `.json`
   * file; otherwise whatever reading the latest file's path gives.
   */
  function LoadResult(dir: string, listing: Option<seq<string>>, read: string -> Result<Frame>): (r: Result<Option<Frame>>)
    ensures r == Success(None) <==> listing.None? || LatestResultsFile(listing.value).None?
    ensures r != Success(None) ==>
      && listing.Some? && LatestResultsFile(listing.value).Some?
      && var got := read(LLMTester.JoinPath(dir, LatestResultsFile(listing.value).value));
         if got.Success? then r == Success(Some(got.value)) else r == Failure(got.error)
  {
    if listing.None? then Success(None)
    else match LatestResultsFile(listing.value)
      case None => Success(None)
      case Some(latest) =>
        match read(LLMTester.JoinPath(dir, latest))
        case Failure(e) => Failure(e)
        case Success(f) => Success(Some(f))
  }

  /** `self.data.empty`: an empty frame counts as no data. */
  function NonEmpty(f: Frame): Option<Frame> {
    if |f.rows| == 0 then None else Some(f)
  }

  /**
   * Lines 42-46 (repeated in every analysis): a frame already held is used
   * as it is, otherwise the latest file is loaded; an exception while
   * loading propagates, and no frame or an empty one ends the analysis.
   */
  function Prepared(data: Option<Frame>, dir: string, listing: Option<seq<string>>, read: string -> Result<Frame>): (r: Result<Option<Frame>>)
    ensures r.Success? && r.value.Some? ==> |r.value.value.rows| > 0
    ensures data.Some? ==> r.Success?
  {
    if data.Some? then Success(NonEmpty(data.value))
    else match LoadResult(dir, listing, read)
      case Failure(e) => Failure(e)
      case Success(None) => Success(None)
      case Success(Some(f)) => Success(NonEmpty(f))
  }

  /** The frame held after the lazy load: the old one, or the one just loaded. */
  function DataAfter(data: Option<Frame>, dir: string, listing: Option<seq<string>>, read: string -> Result<Frame>): Option<Frame> {
    if data.Some? then data
    else match LoadResult(dir, listing, read)
      case Failure(_) => None
      case Success(l) => l
  }

  // ---------------------------------------------------------------------------
  // The platform table (lines 57-81)

  datatype PlatformRow = PlatformRow(platform: string, successRate: real, avgLatency: real,
                                     minLatency: real, maxLatency: real, avgTokens: real)

  /**
   * Lines 59-72 for one platform: the share of successful rows in percent;
   * average, minimum and maximum latency over the successful rows only, all
   * 0 without any; the average token count over the successful rows that
   * report one, 0 without any.
   */
  function PlatformStats(rows: seq<Row>, platform: string): (row: PlatformRow)
    requires platform in Keys(rows, PlatformOf)
    ensures row.platform == platform
    ensures 0.0 <= row.successRate <= 100.0
    ensures var group := Select(rows, PlatformOf, platform);
      var ok := Successes(group, Ok);
      && (row.successRate == 100.0 <==> |ok| == |group|)
      && (|ok| == 0 ==> row.successRate == 0.0 && row.avgLatency == 0.0 && row.minLatency == 0.0
                        && row.maxLatency == 0.0 && row.avgTokens == 0.0)
      && (|ok| > 0 ==> row.minLatency <= row.avgLatency <= row.maxLatency)
      && (|ok| > 0 ==> row.minLatency in Keys(ok, LatencyOf) && row.maxLatency in Keys(ok, LatencyOf))
      && (forall i :: 0 <= i < |ok| ==> row.minLatency <= ok[i].latency <= row.maxLatency)
  {
    var group := Select(rows, PlatformOf, platform);
    SelectNonEmpty(rows, PlatformOf, platform);
    var ok := Successes(group, Ok);
    var lat := Keys(ok, LatencyOf);
    TokenCountsBound(ok, UsageOf);
    assert |ok| > 0 ==> Min(lat) <= Mean(lat) <= Max(lat) by {
      if |ok| > 0 {
        MeanBetween(lat);
      }
    }
    PlatformRow(platform, Percent(|ok|, |group|), Mean(lat),
                if |ok| > 0 then Min(lat) else 0.0, if |ok| > 0 then Max(lat) else 0.0,
                MeanInt(TokenCounts(ok, UsageOf)))
  }

  /** The table of `compare_platforms`: one row per platform, in order of first appearance. */
  function PlatformTableOf(rows: seq<Row>): (table: seq<PlatformRow>)
    ensures |table| == |Unique(Keys(rows, PlatformOf))|
    ensures forall t :: 0 <= t < |table| ==> table[t].platform == Unique(Keys(rows, PlatformOf))[t]
  {
    var ps := Unique(Keys(rows, PlatformOf));
    seq(|ps|, t requires 0 <= t < |ps| => PlatformStats(rows, ps[t]))
  }

  /** Every row's platform has a row of the platform table. */
  lemma PlatformTableCovers(rows: seq<Row>)
    ensures var table := PlatformTableOf(rows);
      forall i :: 0 <= i < |rows| ==> exists t :: 0 <= t < |table| && table[t].platform == rows[i].platform
  {
    var ks := Keys(rows, PlatformOf);
    var ps := Unique(ks);
    var table := PlatformTableOf(rows);
    forall i | 0 <= i < |rows| ensures exists t :: 0 <= t < |table| && table[t].platform == rows[i].platform {
      assert ks[i] == rows[i].platform && ks[i] in ps;
      var t := FirstIndex(ps, ks[i]);
      assert table[t].platform == rows[i].platform;
    }
  }

  /**
   * The table has one row per platform, and lists the platforms in the
   * order in which they first occur among the rows.
   */
  lemma PlatformTableOrder(rows: seq<Row>)
    ensures var table := PlatformTableOf(rows);
      && (forall s, t :: 0 <= s < t < |table| ==> table[s].platform != table[t].platform)
      && (forall s, t :: 0 <= s < t < |table| ==>
            FirstIndex(Keys(rows, PlatformOf), table[s].platform) < FirstIndex(Keys(rows, PlatformOf), table[t].platform))
  {
    UniqueFirstAppearance(Keys(rows, PlatformOf));
  }

  /** Lines 59-72: one platform's figures, the token list built by its own loop. */
  method PlatformStatsRow(rows: seq<Row>, platform: string) returns (row: PlatformRow)
    requires platform in Keys(rows, PlatformOf)
    ensures row == PlatformStats(rows, platform)
  {
    var platformData := Select(rows, PlatformOf, platform);
    var successData := Successes(platformData, Ok);
    SelectNonEmpty(rows, PlatformOf, platform);
    var lat := Keys(successData, LatencyOf);
    var successRate := Percent(|successData|, |platformData|);
    var avgLatency := if |successData| > 0 then Mean(lat) else 0.0;
    var minLatency := if |successData| > 0 then Min(lat) else 0.0;
    var maxLatency := if |successData| > 0 then Max(lat) else 0.0;
    var tokens := CollectTokens(successData, UsageOf);
    var avgTokens := if |tokens| > 0 then (SumInt(tokens) as real) / (|tokens| as real) else 0.0;
    row := PlatformRow(platform, successRate, avgLatency, minLatency, maxLatency, avgTokens);
  }

  /** Lines 58-81: the per-platform loop. */
  method PlatformTable(rows: seq<Row>) returns (table: seq<PlatformRow>)
    ensures table == PlatformTableOf(rows)
  {
    var ps := Unique(Keys(rows, PlatformOf));
    ghost var spec := PlatformTableOf(rows);
    table := [];
    for t := 0 to |ps|
      invariant table == spec[..t]
    {
      var row := PlatformStatsRow(rows, ps[t]);
      assert spec[t] == row;
      TakeSnoc(spec, t);
      table := table + [row];
    }
    TakeAll(spec);
  }

  // ---------------------------------------------------------------------------
  // The (platform, model) table (lines 102-123)

  /** The order pandas sorts `(platform, model)` group keys in: by platform, then by model. */
  predicate PairLess(a: (string, string), b: (string, string)) {
    StrLess(a.0, b.0) || (a.0 == b.0 && StrLess(a.1, b.1))
  }

  lemma PairLessIrreflexive(a: (string, string))
    ensures !PairLess(a, a)
  {
    StrLessIrreflexive(a.0);
    StrLessIrreflexive(a.1);
  }

  lemma PairLessTransitive(a: (string, string), b: (string, string), c: (string, string))
    requires PairLess(a, b) && PairLess(b, c)
    ensures PairLess(a, c)
  {
    if StrLess(a.0, b.0) && StrLess(b.0, c.0) {
      StrLessTransitive(a.0, b.0, c.0);
    } else if a.0 == b.0 && b.0 == c.0 {
      StrLessTransitive(a.1, b.1, c.1);
    }
  }

  lemma PairLessTotal(a: (string, string), b: (string, string))
    requires a != b
    ensures PairLess(a, b) || PairLess(b, a)
  {
    if a.0 != b.0 {
      StrLessTotal(a.0, b.0);
    } else {
      StrLessTotal(a.1, b.1);
    }
  }

  ghost predicate StrictlySorted(s: seq<(string, string)>) {
    forall i, j :: 0 <= i < j < |s| ==> PairLess(s[i], s[j])
  }

  /** A strictly ascending sequence has no repetitions. */
  lemma SortedDistinct(s: seq<(string, string)>)
    requires StrictlySorted(s)
    ensures Distinct(s)
  {
    forall i, j | 0 <= i < j < |s| ensures s[i] != s[j] {
      PairLessIrreflexive(s[i]);
    }
  }

  /** `k` put into its place in an ascending sequence. */
  function Insert(s: seq<(string, string)>, k: (string, string)): (r: seq<(string, string)>)
    ensures |r| == |s| + 1
    ensures forall x :: x in r <==> x in s || x == k
  {
    if |s| == 0 then [k]
    else if PairLess(k, s[0]) then [k] + s
    else
      assert s == [s[0]] + s[1..];
      [s[0]] + Insert(s[1..], k)
  }

  lemma {:induction false} InsertSorted(s: seq<(string, string)>, k: (string, string))
    requires StrictlySorted(s) && k !in s
    ensures StrictlySorted(Insert(s, k))
  {
    if |s| > 0 {
      var r := Insert(s, k);
      if PairLess(k, s[0]) {
        forall i, j | 0 <= i < j < |r| ensures PairLess(r[i], r[j]) {
          if i == 0 {
            if j > 1 {
              PairLessTransitive(k, s[0], s[j - 1]);
            }
          } else {
            assert r[i] == s[i - 1] && r[j] == s[j - 1];
          }
        }
      } else {
        PairLessTotal(k, s[0]);
        var t := s[1..];
        assert StrictlySorted(t) by {
          forall i, j | 0 <= i < j < |t| ensures PairLess(t[i], t[j]) {
            assert t[i] == s[i + 1] && t[j] == s[j + 1];
          }
        }
        InsertSorted(t, k);
        var rt := Insert(t, k);
        assert r == [s[0]] + rt;
        forall x | x in rt ensures PairLess(s[0], x) {
          if x != k {
            var m :| 0 <= m < |t| && t[m] == x;
            assert s[m + 1] == x;
          }
        }
        forall i, j | 0 <= i < j < |r| ensures PairLess(r[i], r[j]) {
          if i == 0 {
            assert r[j] == rt[j - 1] && rt[j - 1] in rt;
          } else {
            assert r[i] == rt[i - 1] && r[j] == rt[j - 1];
          }
        }
      }
    }
  }

  /** The group keys of `groupby(['platform', 'model'])`: the distinct keys, ascending. */
  function SortedKeys(ks: seq<(string, string)>): (r: seq<(string, string)>)
    ensures forall x :: x in r <==> x in ks
    ensures |r| <= |ks|
  {
    if |ks| == 0 then []
    else
      var s := SortedKeys(ks[..|ks| - 1]);
      var k := ks[|ks| - 1];
      assert forall x :: x in ks <==> x in ks[..|ks| - 1] || x == k;
      if k in s then s else Insert(s, k)
  }

  /** The group keys are strictly ascending, hence distinct. */
  lemma {:induction false} SortedKeysSorted(ks: seq<(string, string)>)
    ensures StrictlySorted(SortedKeys(ks))
    ensures Distinct(SortedKeys(ks))
  {
    if |ks| > 0 {
      var s := SortedKeys(ks[..|ks| - 1]);
      SortedKeysSorted(ks[..|ks| - 1]);
      if ks[|ks| - 1] !in s {
        InsertSorted(s, ks[|ks| - 1]);
      }
    }
    SortedDistinct(SortedKeys(ks));
  }

  /** The groups of the model table. */
  function ModelKeys(rows: seq<Row>): seq<(string, string)> {
    SortedKeys(Keys(rows, ModelKeyOf))
  }

  datatype ModelRow = ModelRow(platform: string, model: string, successRate: real, avgLatency: real, avgTokens: real)

  /**
   * Lines 106-115 for one group: the share of successful rows in percent,
   * the average latency over the successful rows and the average token
   * count over those that report one, each 0 without any.
   */
  function ModelStats(rows: seq<Row>, key: (string, string)): (row: ModelRow)
    requires key in Keys(rows, ModelKeyOf)
    ensures row.platform == key.0 && row.model == key.1
    ensures 0.0 <= row.successRate <= 100.0
    ensures var group := Select(rows, ModelKeyOf, key);
      var ok := Successes(group, Ok);
      && (row.successRate == 100.0 <==> |ok| == |group|)
      && (|ok| == 0 ==> row.successRate == 0.0 && row.avgLatency == 0.0 && row.avgTokens == 0.0)
      && (|ok| > 0 ==> Min(Keys(ok, LatencyOf)) <= row.avgLatency <= Max(Keys(ok, LatencyOf)))
  {
    var group := Select(rows, ModelKeyOf, key);
    SelectNonEmpty(rows, ModelKeyOf, key);
    var ok := Successes(group, Ok);
    var lat := Keys(ok, LatencyOf);
    TokenCountsBound(ok, UsageOf);
    assert |ok| > 0 ==> Min(lat) <= Mean(lat) <= Max(lat) by {
      if |ok| > 0 {
        MeanBetween(lat);
      }
    }
    ModelRow(key.0, key.1, Percent(|ok|, |group|), Mean(lat), MeanInt(TokenCounts(ok, UsageOf)))
  }

  /** The table of `compare_models`: one row per (platform, model) group, in ascending key order. */
  function ModelTableOf(rows: seq<Row>): (table: seq<ModelRow>)
    ensures |table| == |ModelKeys(rows)|
    ensures forall t :: 0 <= t < |table| ==> (table[t].platform, table[t].model) == ModelKeys(rows)[t]
  {
    var ks := ModelKeys(rows);
    seq(|ks|, t requires 0 <= t < |ks| => ModelStats(rows, ks[t]))
  }

  /**
   * The groups are visited in ascending (platform, model) order, and they
   * partition the rows: each row lies in exactly one group, and together
   * the groups hold every row as often as it occurs.
   */
  lemma ModelGroupsPartition(rows: seq<Row>)
    ensures var ks := ModelKeys(rows);
      && (forall s, t :: 0 <= s < t < |ks| ==> PairLess(ks[s], ks[t]))
      && multiset(SelectAll(rows, ModelKeyOf, ks)) == multiset(rows)
      && (forall x :: x in rows ==> exists t :: 0 <= t < |ks| && x in Select(rows, ModelKeyOf, ks[t]))
      && (forall x, s, t ::
            (x in rows && 0 <= s < |ks| && 0 <= t < |ks| &&
             x in Select(rows, ModelKeyOf, ks[s]) && x in Select(rows, ModelKeyOf, ks[t])) ==> s == t)
  {
    var ks := ModelKeys(rows);
    SortedKeysSorted(Keys(rows, ModelKeyOf));
    forall x | x in rows ensures ModelKeyOf(x) in ks {
      var i :| 0 <= i < |rows| && rows[i] == x;
      assert Keys(rows, ModelKeyOf)[i] == ModelKeyOf(x);
    }
    GroupsPartition(rows, ModelKeyOf, ks);
    forall x | x in rows ensures exists t :: 0 <= t < |ks| && x in Select(rows, ModelKeyOf, ks[t]) {
      ExactlyOneGroup(rows, ModelKeyOf, ks, x);
    }
  }

  /** Lines 106-115: one group's figures, the token list built by its own loop. */
  method ModelStatsRow(rows: seq<Row>, key: (string, string)) returns (row: ModelRow)
    requires key in Keys(rows, ModelKeyOf)
    ensures row == ModelStats(rows, key)
  {
    var group := Select(rows, ModelKeyOf, key);
    var successData := Successes(group, Ok);
    SelectNonEmpty(rows, ModelKeyOf, key);
    var lat := Keys(successData, LatencyOf);
    var successRate := Percent(|successData|, |group|);
    var avgLatency := if |successData| > 0 then Mean(lat) else 0.0;
    var tokens := CollectTokens(successData, UsageOf);
    var avgTokens := if |tokens| > 0 then (SumInt(tokens) as real) / (|tokens| as real) else 0.0;
    row := ModelRow(key.0, key.1, successRate, avgLatency, avgTokens);
  }

  /** Lines 103-123: the per-group loop. */
  method ModelTable(rows: seq<Row>) returns (table: seq<ModelRow>)
    ensures table == ModelTableOf(rows)
  {
    var ks := ModelKeys(rows);
    ghost var spec := ModelTableOf(rows);
    table := [];
    for t := 0 to |ks|
      invariant table == spec[..t]
    {
      var row := ModelStatsRow(rows, ks[t]);
      assert spec[t] == row;
      TakeSnoc(spec, t);
      table := table + [row];
    }
    TakeAll(spec);
  }

  // ---------------------------------------------------------------------------
  // The category listing (lines 136-160)

  /** One line of the listing: category, platform, model, latency and the ✓/✗ status. */
  datatype CategoryLine = CategoryLine(category: string, platform: string, model: string, latency: real, passed: bool)

  function LineOf(r: Row): CategoryLine {
    CategoryLine(r.category, r.platform, r.model, r.latency, r.success)
  }

  /** The rows grouped by category, categories in order of first appearance, rows in their order within each. */
  function CategoryGroups(rows: seq<Row>): seq<Row> {
    SelectAll(rows, CategoryOf, Unique(Keys(rows, CategoryOf)))
  }

  /** The lines `analyze_by_category` shows: none without a `category` column, else one per row of the groups. */
  function CategoryListingOf(f: Frame): (lines: seq<CategoryLine>)
    ensures !f.hasCategory ==> lines == []
    ensures f.hasCategory ==> |lines| == |f.rows|
  {
    if !f.hasCategory then []
    else
      CategoryPartition(f.rows);
      Keys(CategoryGroups(f.rows), LineOf)
  }

  /** Grouping by category lists every row exactly as often as it occurs. */
  lemma CategoryPartition(rows: seq<Row>)
    ensures multiset(CategoryGroups(rows)) == multiset(rows)
    ensures |CategoryGroups(rows)| == |rows|
  {
    var cs := Unique(Keys(rows, CategoryOf));
    forall x | x in rows ensures CategoryOf(x) in cs {
      var i :| 0 <= i < |rows| && rows[i] == x;
      assert Keys(rows, CategoryOf)[i] == CategoryOf(x);
    }
    GroupsPartition(rows, CategoryOf, cs);
  }

  /** Lines 152-160: one line per row of a category, appended in row order. */
  method AddLines(before: seq<CategoryLine>, categoryData: seq<Row>) returns (lines: seq<CategoryLine>)
    ensures lines == before + Keys(categoryData, LineOf)
  {
    lines := before;
    for j := 0 to |categoryData|
      invariant lines == before + Keys(categoryData[..j], LineOf)
    {
      KeysSnoc(categoryData[..j], LineOf, categoryData[j]);
      TakeSnoc(categoryData, j);
      lines := lines + [LineOf(categoryData[j])];
    }
    TakeAll(categoryData);
  }

  /** Lines 149-160: for each category, each of its rows as one line. */
  method CategoryListing(f: Frame) returns (lines: seq<CategoryLine>)
    ensures lines == CategoryListingOf(f)
  {
    if !f.hasCategory {
      return [];
    }
    var rows := f.rows;
    var cs := Unique(Keys(rows, CategoryOf));
    lines := [];
    for i := 0 to |cs|
      invariant lines == Keys(SelectAll(rows, CategoryOf, cs[..i]), LineOf)
    {
      var categoryData := Select(rows, CategoryOf, cs[i]);
      lines := AddLines(lines, categoryData);
      KeysAppend(SelectAll(rows, CategoryOf, cs[..i]), categoryData, LineOf);
      SelectAllTake(rows, CategoryOf, cs, i);
    }
    TakeAll(cs);
  }

  // ---------------------------------------------------------------------------
  // The report (lines 165-228)

  /** `success_data['latency'].idxmin()`: the position of the first successful row of least latency. */
  ghost predicate IsFastest(rows: seq<Row>, i: int) {
    && 0 <= i < |rows| && rows[i].success
    && (forall j :: 0 <= j < |rows| && rows[j].success ==> rows[i].latency <= rows[j].latency)
    && (forall j :: 0 <= j < i && rows[j].success ==> rows[i].latency < rows[j].latency)
  }

  /** Lines 193-195: the fastest successful row, none when no row succeeded. */
  function FastestIndex(rows: seq<Row>): (r: Option<nat>)
    ensures r.None? <==> forall j :: 0 <= j < |rows| ==> !rows[j].success
    ensures r.Some? ==> IsFastest(rows, r.value)
  {
    if |rows| == 0 then None
    else
      var n := |rows| - 1;
      var p := FastestIndex(rows[..n]);
      assert forall j :: 0 <= j < n ==> rows[..n][j] == rows[j];
      if !rows[n].success then p
      else if p.None? || rows[n].latency < rows[p.value].latency then Some(n)
      else p
  }

  /** At most one row is the fastest: the first minimum is unique. */
  lemma FastestUnique(rows: seq<Row>, i: int, k: int)
    requires IsFastest(rows, i) && IsFastest(rows, k)
    ensures i == k
  {
  }

  datatype Fastest = Fastest(platform: string, model: string, latency: real)

  /** One entry of `platform_stats`: the rate and the average latency, `None` standing for "N/A". */
  datatype PlatformLine = PlatformLine(platform: string, successRate: real, avgLatency: Option<real>)

  /**
   * Lines 204-211 for one platform: the share of successful rows in percent
   * and the average latency over them, "N/A" without any.
   */
  function PlatformLineOf(rows: seq<Row>, platform: string): (line: PlatformLine)
    requires platform in Keys(rows, PlatformOf)
    ensures line.platform == platform
    ensures 0.0 <= line.successRate <= 100.0
    ensures var ok := Successes(Select(rows, PlatformOf, platform), Ok);
      && (line.avgLatency.None? <==> |ok| == 0)
      && (line.avgLatency.Some? ==> Min(Keys(ok, LatencyOf)) <= line.avgLatency.value <= Max(Keys(ok, LatencyOf)))
  {
    var group := Select(rows, PlatformOf, platform);
    SelectNonEmpty(rows, PlatformOf, platform);
    var ok := Successes(group, Ok);
    var lat := Keys(ok, LatencyOf);
    assert |ok| > 0 ==> Min(lat) <= Mean(lat) <= Max(lat) by {
      if |ok| > 0 {
        MeanBetween(lat);
      }
    }
    PlatformLine(platform, Percent(|ok|, |group|), if |ok| > 0 then Some(Mean(lat)) else None)
  }

  function PlatformLinesOf(rows: seq<Row>): (lines: seq<PlatformLine>)
    ensures |lines| == |Unique(Keys(rows, PlatformOf))|
  {
    var ps := Unique(Keys(rows, PlatformOf));
    seq(|ps|, t requires 0 <= t < |ps| => PlatformLineOf(rows, ps[t]))
  }

  /** The report's platform section agrees with the platform table: same platforms, rates and averages. */
  lemma PlatformLinesAgree(rows: seq<Row>)
    ensures var lines, table := PlatformLinesOf(rows), PlatformTableOf(rows);
      && |lines| == |table|
      && forall t :: 0 <= t < |lines| ==>
           && lines[t].platform == table[t].platform
           && lines[t].successRate == table[t].successRate
           && (lines[t].avgLatency.Some? ==> lines[t].avgLatency.value == table[t].avgLatency)
           && (lines[t].avgLatency.None? ==> table[t].avgLatency == 0.0)
  {
  }

  /** Lines 202-212: the loop accumulating `platform_stats`. */
  method PlatformLines(rows: seq<Row>) returns (lines: seq<PlatformLine>)
    ensures lines == PlatformLinesOf(rows)
  {
    var ps := Unique(Keys(rows, PlatformOf));
    lines := [];
    for t := 0 to |ps|
      invariant |lines| == t
      invariant forall u :: 0 <= u < t ==> lines[u] == PlatformLineOf(rows, ps[u])
    {
      var platform := ps[t];
      var platformData := Select(rows, PlatformOf, platform);
      var successData := Successes(platformData, Ok);
      SelectNonEmpty(rows, PlatformOf, platform);
      var avgLatency := if |successData| > 0 then Some(Mean(Keys(successData, LatencyOf))) else None;
      lines := lines + [PlatformLine(platform, Percent(|successData|, |platformData|), avgLatency)];
    }
  }

  /**
   * What `generate_report` writes, without its Markdown: the time stamp,
   * the counts, the overall success rate, the fastest row, the platform
   * section and the path the report is written to.
   */
  datatype Report = Report(timestamp: string, platformCount: nat, modelCount: nat, totalTests: nat,
                           successRate: real, fastest: Option<Fastest>, platforms: seq<PlatformLine>,
                           outputFile: string)

  /** Lines 218-223: a truthy `output_file`, else `report_<stamp>.md` in the results directory. */
  function ReportPath(dir: string, outputFile: Option<string>, fileStamp: string): (p: string)
    ensures outputFile.Some? && outputFile.value != "" ==> p == outputFile.value
    ensures !(outputFile.Some? && outputFile.value != "") ==> p == LLMTester.JoinPath(dir, "report_" + fileStamp + ".md")
  {
    if outputFile.Some? && outputFile.value != "" then outputFile.value
    else LLMTester.JoinPath(dir, "report_" + fileStamp + ".md")
  }

  function FastestOf(rows: seq<Row>): Option<Fastest> {
    match FastestIndex(rows)
    case None => None
    case Some(i) => Some(Fastest(rows[i].platform, rows[i].model, rows[i].latency))
  }

  /**
   * Lines 173-226 over a non-empty frame. The counts are the distinct
   * platforms, the (platform, model) groups and the rows; the success rate
   * is the share of successful rows; the fastest row is absent exactly when
   * no row succeeded.
   */
  function ReportOf(rows: seq<Row>, dir: string, outputFile: Option<string>, timestamp: string, fileStamp: string): (r: Report)
    requires |rows| > 0
    ensures r.timestamp == timestamp && r.totalTests == |rows|
    ensures r.platformCount == |Unique(Keys(rows, PlatformOf))| && r.modelCount == |ModelKeys(rows)|
    ensures 1 <= r.platformCount <= r.modelCount <= r.totalTests
    ensures 0.0 <= r.successRate <= 100.0
    ensures r.successRate == 0.0 <==> forall j :: 0 <= j < |rows| ==> !rows[j].success
    ensures r.fastest.None? <==> forall j :: 0 <= j < |rows| ==> !rows[j].success
    ensures r.fastest.Some? ==> exists i :: IsFastest(rows, i) && r.fastest.value == Fastest(rows[i].platform, rows[i].model, rows[i].latency)
    ensures r.platforms == PlatformLinesOf(rows) && |r.platforms| == r.platformCount
    ensures r.outputFile == ReportPath(dir, outputFile, fileStamp)
  {
    ReportCounts(rows);
    NoSuccesses(rows);
    var ok := Successes(rows, Ok);
    Report(timestamp, |Unique(Keys(rows, PlatformOf))|, |ModelKeys(rows)|, |rows|,
           Percent(|ok|, |rows|), FastestOf(rows), PlatformLinesOf(rows), ReportPath(dir, outputFile, fileStamp))
  }

  /** No row is successful exactly when the successful rows are none. */
  lemma NoSuccesses(rows: seq<Row>)
    ensures |Successes(rows, Ok)| == 0 <==> forall j :: 0 <= j < |rows| ==> !rows[j].success
  {
    var ok := Successes(rows, Ok);
    if |ok| > 0 {
      assert ok[0] in ok;
    } else {
      forall j | 0 <= j < |rows| ensures !rows[j].success {
        assert rows[j] in rows;
        assert rows[j] !in ok;
      }
    }
  }

  function PlatformOfKey(k: (string, string)): string { k.0 }

  /** Every platform of the rows is the platform of some group key. */
  lemma PlatformsOfGroups(rows: seq<Row>)
    ensures forall x :: x in Unique(Keys(rows, PlatformOf)) ==> x in Keys(ModelKeys(rows), PlatformOfKey)
  {
    var ks := ModelKeys(rows);
    var firsts := Keys(ks, PlatformOfKey);
    forall x | x in Unique(Keys(rows, PlatformOf)) ensures x in firsts {
      var i := FirstIndex(Keys(rows, PlatformOf), x);
      assert Keys(rows, ModelKeyOf)[i] == (x, rows[i].model);
      assert (x, rows[i].model) in ks;
      var t := FirstIndex(ks, (x, rows[i].model));
      assert firsts[t] == x;
    }
  }

  /** There is at least one platform, no more platforms than groups, and no more groups than rows. */
  lemma ReportCounts(rows: seq<Row>)
    requires |rows| > 0
    ensures 1 <= |Unique(Keys(rows, PlatformOf))| <= |ModelKeys(rows)| <= |rows|
  {
    var ps := Unique(Keys(rows, PlatformOf));
    assert Keys(rows, PlatformOf)[0] in ps;
    PlatformsOfGroups(rows);
    SubsetLength(ps, Keys(ModelKeys(rows), PlatformOfKey));
  }

  // ---------------------------------------------------------------------------
  // The analyzer

  class ResultAnalyzer {
    var resultsDir: string
    /** `self.data`: the loaded frame, or none before a load succeeded. */
    var data: Option<Frame>

    constructor (resultsDir: string)
      ensures this.resultsDir == resultsDir && data == None
    {
      this.resultsDir := resultsDir;
      data := None;
    }

    /** Lines 18-38: load the latest results file and keep its frame. */
    method LoadLatestResults(listing: Option<seq<string>>, read: string -> Result<Frame>) returns (r: Result<Option<Frame>>)
      modifies this
      ensures resultsDir == old(resultsDir)
      ensures r == LoadResult(resultsDir, listing, read)
      ensures data == if r.Success? && r.value.Some? then r.value else old(data)
    {
      if listing.None? {
        return Success(None);
      }
      var latest := LatestResultsFile(listing.value);
      if latest.None? {
        return Success(None);
      }
      var filePath := LLMTester.JoinPath(resultsDir, latest.value);
      var loaded := read(filePath);
      if loaded.Failure? {
        return Failure(loaded.error);
      }
      data := Some(loaded.value);
      r := Success(data);
    }

    /** Lines 42-46: the lazy load every analysis starts with. */
    method Prepare(listing: Option<seq<string>>, read: string -> Result<Frame>) returns (r: Result<Option<Frame>>)
      modifies this
      ensures resultsDir == old(resultsDir)
      ensures data == DataAfter(old(data), resultsDir, listing, read)
      ensures r == Prepared(old(data), resultsDir, listing, read)
    {
      if data.None? {
        var loaded := LoadLatestResults(listing, read);
        if loaded.Failure? {
          return Failure(loaded.error);
        }
      }
      if data.None? {
        return Success(None);
      }
      r := Success(NonEmpty(data.value));
    }

    /** `compare_platforms`: the platform table, or nothing to show. */
    method ComparePlatforms(listing: Option<seq<string>>, read: string -> Result<Frame>) returns (r: Result<Option<seq<PlatformRow>>>)
      modifies this
      ensures resultsDir == old(resultsDir)
      ensures data == DataAfter(old(data), resultsDir, listing, read)
      ensures r == match Prepared(old(data), resultsDir, listing, read)
        case Failure(e) => Failure(e)
        case Success(None) => Success(None)
        case Success(Some(f)) => Success(Some(PlatformTableOf(f.rows)))
    {
      var frame := Prepare(listing, read);
      match frame {
        case Failure(e) => return Failure(e);
        case Success(None) => return Success(None);
        case Success(Some(f)) =>
          var table := PlatformTable(f.rows);
          return Success(Some(table));
      }
    }

    /** `compare_models`: the (platform, model) table, or nothing to show. */
    method CompareModels(listing: Option<seq<string>>, read: string -> Result<Frame>) returns (r: Result<Option<seq<ModelRow>>>)
      modifies this
      ensures resultsDir == old(resultsDir)
      ensures data == DataAfter(old(data), resultsDir, listing, read)
      ensures r == match Prepared(old(data), resultsDir, listing, read)
        case Failure(e) => Failure(e)
        case Success(None) => Success(None)
        case Success(Some(f)) => Success(Some(ModelTableOf(f.rows)))
    {
      var frame := Prepare(listing, read);
      match frame {
        case Failure(e) => return Failure(e);
        case Success(None) => return Success(None);
        case Success(Some(f)) =>
          var table := ModelTable(f.rows);
          return Success(Some(table));
      }
    }

    /** `analyze_by_category`: the category listing, or nothing to show. */
    method AnalyzeByCategory(listing: Option<seq<string>>, read: string -> Result<Frame>) returns (r: Result<Option<seq<CategoryLine>>>)
      modifies this
      ensures resultsDir == old(resultsDir)
      ensures data == DataAfter(old(data), resultsDir, listing, read)
      ensures r == match Prepared(old(data), resultsDir, listing, read)
        case Failure(e) => Failure(e)
        case Success(None) => Success(None)
        case Success(Some(f)) => Success(Some(CategoryListingOf(f)))
    {
      var frame := Prepare(listing, read);
      match frame {
        case Failure(e) => return Failure(e);
        case Success(None) => return Success(None);
        case Success(Some(f)) =>
          var lines := CategoryListing(f);
          return Success(Some(lines));
      }
    }

    /**
     * `generate_report`: the report over the held or latest frame, or
     * nothing to show. `timestamp` and `fileStamp` are the two clock
     * readings the source formats.
     */
    method GenerateReport(listing: Option<seq<string>>, read: string -> Result<Frame>, outputFile: Option<string>,
                          timestamp: string, fileStamp: string) returns (r: Result<Option<Report>>)
      modifies this
      ensures resultsDir == old(resultsDir)
      ensures data == DataAfter(old(data), resultsDir, listing, read)
      ensures r == match Prepared(old(data), resultsDir, listing, read)
        case Failure(e) => Failure(e)
        case Success(None) => Success(None)
        case Success(Some(f)) => Success(Some(ReportOf(f.rows, resultsDir, outputFile, timestamp, fileStamp)))
    {
      var frame := Prepare(listing, read);
      match frame {
        case Failure(e) => return Failure(e);
        case Success(None) => return Success(None);
        case Success(Some(f)) =>
          var rows := f.rows;
          var platformStats := PlatformLines(rows);
          var successes := Successes(rows, Ok);
          var report := Report(timestamp, |Unique(Keys(rows, PlatformOf))|, |ModelKeys(rows)|, |rows|,
                               Percent(|successes|, |rows|), FastestOf(rows), platformStats,
                               ReportPath(resultsDir, outputFile, fileStamp));
          return Success(Some(report));
      }
    }
  }
}
