/**
 * llm_tester.py: the orchestrator. It builds one client per enabled
 * platform that has an adapter, runs every (platform, model, prompt)
 * combination through the adapters' `test_model`, keeps the records, prints
 * a per-(platform, model) summary and saves the records.
 *
 * What an adapter answers is a parameter `invoke`: for the n-th call of the
 * record list (n = the number of records kept before it), the client, the
 * model and the prompt, it gives the outcome of `call_api` and the two clock
 * readings `test_model` takes. A call may thus depend on everything that
 * happened before it (a cached Baidu token, the clock), without the model
 * fixing how.
 *
 * The test loop is specified by a list of jobs, one per combination in loop
 * order, folded by `Run`; both are defined by recursion on the FIRST element,
 * so that each loop can state "what is left to do" as its invariant.
 */
module LLMTester {
  import opened Wrappers
  import opened Seqs
  import opened Stats
  import opened ConfigManager
  import opened BaseClient
  import opened ClientFactory
  import opened Metrics

  const DefaultCategory: string := "general"
  const PromptKeyError: string := "KeyError: 'prompt'"
  const DefaultResultsPath: string := "results/"
  /** `r.response[:500]`: only the first 500 characters of a response are saved. */
  const SavedResponseLength: nat := 500

  /** A kept record: the adapter's `APIResponse` with the `category` attribute `run_tests` attaches. */
  datatype TestResult = TestResult(response: APIResponse, category: string)

  /** One adapter call as `test_model` sees it: what `call_api` returned or raised, and the two clock readings. */
  datatype Invocation = Invocation(reply: Result<APIResponse>, start: real, stop: real)

  /** `test_single_model`: no record for a platform without a client, else the client's `test_model`. */
  function TestSingleModel(clients: map<string, Client>, platformName: string, model: ModelConfig, prompt: string,
                           invoke: (nat, Client, ModelConfig, string) -> Invocation, call: nat): (r: Option<APIResponse>)
    ensures r.Some? <==> platformName in clients
    ensures r.Some? ==>
      var inv := invoke(call, clients[platformName], model, prompt);
      r.value == TestModel(clients[platformName].platformName, model, prompt, inv.reply, inv.start, inv.stop)
  {
    if platformName in clients then
      var inv := invoke(call, clients[platformName], model, prompt);
      Some(TestModel(clients[platformName].platformName, model, prompt, inv.reply, inv.start, inv.stop))
    else None
  }

  /**
   * With a clock that does not run backwards, a call through a client whose
   * adapter (if it returns) returns an adapter record yields a record whose
   * latency is non-negative and whose success flag says whether the adapter raised.
   */
  lemma SingleModelOutcome(clients: map<string, Client>, platformName: string, model: ModelConfig, prompt: string,
                           invoke: (nat, Client, ModelConfig, string) -> Invocation, call: nat)
    requires platformName in clients
    requires var inv := invoke(call, clients[platformName], model, prompt);
      && inv.start <= inv.stop
      && (inv.reply.Success? ==> AdapterRecord(inv.reply.value, clients[platformName].platformName, model, prompt))
    ensures var r := TestSingleModel(clients, platformName, model, prompt, invoke, call);
      var inv := invoke(call, clients[platformName], model, prompt);
      && r.Some? && r.value.latency >= 0.0
      && (r.value.success <==> inv.reply.Success?)
      && r.value.model == model.name && r.value.prompt == prompt
  {
    var inv := invoke(call, clients[platformName], model, prompt);
    TestModelOutcome(clients[platformName].platformName, model, prompt, inv.reply, inv.start, inv.stop);
  }

  // ---------------------------------------------------------------------------
  // Filters and the list of jobs

  /** A filter argument is in force when it is truthy: given and non-empty. */
  predicate Given(filter: Option<string>) {
    filter.Some? && filter.value != ""
  }

  function ModelName(m: ModelConfig): string { m.name }

  /** Lines 67-69: the platform's models, narrowed to those named by the model filter. */
  function ModelsToTest(models: seq<ModelConfig>, filterModel: Option<string>): (r: seq<ModelConfig>)
    ensures |r| <= |models|
    ensures forall m :: m in r <==> m in models && (Given(filterModel) ==> m.name == filterModel.value)
    ensures !Given(filterModel) ==> r == models
  {
    if Given(filterModel) then Select(models, ModelName, filterModel.value) else models
  }

  /**
   * The model filter keeps exactly the models of that name, each occurrence,
   * in configuration order: the `j`-th kept model is the one at the `j`-th matching position.
   */
  lemma ModelsToTestExact(models: seq<ModelConfig>, filterModel: Option<string>)
    requires Given(filterModel)
    ensures var r := ModelsToTest(models, filterModel);
      && (forall m :: multiset(r)[m] == if m.name == filterModel.value then multiset(models)[m] else 0)
      && |r| == |Matching(models, ModelName, filterModel.value)|
      && forall j :: 0 <= j < |r| ==> r[j] == models[Matching(models, ModelName, filterModel.value)[j]]
  {
    SelectAt(models, ModelName, filterModel.value);
    SelectCount(models, ModelName, filterModel.value);
  }

  /** Line 60: the named platform alone, or every platform that has a client, in creation order. */
  function PlatformsToTest(filterPlatform: Option<string>, clientNames: seq<string>): (r: seq<string>)
    ensures Given(filterPlatform) ==> r == [filterPlatform.value]
    ensures !Given(filterPlatform) ==> r == clientNames
  {
    if Given(filterPlatform) then [filterPlatform.value] else clientNames
  }

  /** One iteration of the innermost loop: a platform, one of its models and one prompt entry. */
  datatype Job = Job(platform: string, model: ModelConfig, prompt: RawPrompt)

  function PromptJobs(platform: string, model: ModelConfig, prompts: seq<RawPrompt>): seq<Job> {
    if |prompts| == 0 then []
    else [Job(platform, model, prompts[0])] + PromptJobs(platform, model, prompts[1..])
  }

  function ModelJobs(platform: string, models: seq<ModelConfig>, prompts: seq<RawPrompt>): seq<Job> {
    if |models| == 0 then []
    else PromptJobs(platform, models[0], prompts) + ModelJobs(platform, models[1..], prompts)
  }

  /** A platform without a kept config is skipped (lines 81-83). */
  function PlatformJobs(platforms: map<string, PlatformConfig>, name: string, prompts: seq<RawPrompt>,
                        filterModel: Option<string>): seq<Job> {
    if name in platforms then ModelJobs(name, ModelsToTest(platforms[name].models, filterModel), prompts) else []
  }

  /** The jobs of lines 80-101, in loop order. */
  function RunJobs(platforms: map<string, PlatformConfig>, names: seq<string>, prompts: seq<RawPrompt>,
                   filterModel: Option<string>): seq<Job> {
    if |names| == 0 then []
    else PlatformJobs(platforms, names[0], prompts, filterModel) + RunJobs(platforms, names[1..], prompts, filterModel)
  }

  /** Lines 59-71: the total announced before the run. */
  function AnnouncedTotal(platforms: map<string, PlatformConfig>, names: seq<string>, promptCount: nat,
                          filterModel: Option<string>): nat {
    if |names| == 0 then 0
    else
      (if names[0] in platforms then |ModelsToTest(platforms[names[0]].models, filterModel)| * promptCount else 0)
      + AnnouncedTotal(platforms, names[1..], promptCount, filterModel)
  }

  lemma {:induction false} PromptJobsAt(platform: string, model: ModelConfig, prompts: seq<RawPrompt>)
    ensures |PromptJobs(platform, model, prompts)| == |prompts|
    ensures forall i :: 0 <= i < |prompts| ==> PromptJobs(platform, model, prompts)[i] == Job(platform, model, prompts[i])
  {
    if |prompts| > 0 {
      PromptJobsAt(platform, model, prompts[1..]);
    }
  }

  /** `m` rows of `k` cells: the position where row `m` starts. */
  function Offset(m: nat, k: nat): nat {
    if m == 0 then 0 else Offset(m - 1, k) + k
  }

  lemma {:induction false} OffsetIsProduct(m: nat, k: nat)
    ensures Offset(m, k) == m * k
  {
    if m > 0 {
      OffsetIsProduct(m - 1, k);
      assert m * k == (m - 1) * k + k;
    }
  }

  /** Each model contributes one job per prompt entry. */
  lemma ModelJobsLength(platform: string, models: seq<ModelConfig>, prompts: seq<RawPrompt>)
    ensures |ModelJobs(platform, models, prompts)| == |models| * |prompts|
  {
    ModelJobsCount(platform, models, prompts);
    OffsetIsProduct(|models|, |prompts|);
  }

  lemma {:induction false} ModelJobsCount(platform: string, models: seq<ModelConfig>, prompts: seq<RawPrompt>)
    ensures |ModelJobs(platform, models, prompts)| == Offset(|models|, |prompts|)
  {
    if |models| > 0 {
      PromptJobsAt(platform, models[0], prompts);
      ModelJobsCount(platform, models[1..], prompts);
    }
  }

  /**
   * Model-major order: the job of model `m` and prompt `p` is job
   * `Offset(m, |prompts|) + p` (every prompt of a model runs before the next model).
   */
  lemma {:induction false} ModelJobsAt(platform: string, models: seq<ModelConfig>, prompts: seq<RawPrompt>, m: int, p: int, i: int)
    requires 0 <= m < |models| && 0 <= p < |prompts| && i == Offset(m, |prompts|) + p
    ensures i < |ModelJobs(platform, models, prompts)|
    ensures ModelJobs(platform, models, prompts)[i] == Job(platform, models[m], prompts[p])
  {
    if m == 0 {
      ModelJobsHead(platform, models, prompts, p, i);
    } else {
      var q := Offset(m - 1, |prompts|) + p;
      ModelJobsAt(platform, models[1..], prompts, m - 1, p, q);
      ModelJobsTail(platform, models, prompts, q, i);
      assert models[1..][m - 1] == models[m];
    }
  }

  /** The first `|prompts|` jobs are those of the first model. */
  lemma ModelJobsHead(platform: string, models: seq<ModelConfig>, prompts: seq<RawPrompt>, p: int, i: int)
    requires 0 < |models| && 0 <= p < |prompts| && i == p
    ensures i < |ModelJobs(platform, models, prompts)|
    ensures ModelJobs(platform, models, prompts)[i] == Job(platform, models[0], prompts[p])
  {
    PromptJobsAt(platform, models[0], prompts);
    var head := PromptJobs(platform, models[0], prompts);
    assert (head + ModelJobs(platform, models[1..], prompts))[p] == head[p];
  }

  /** After the first model's `|prompts|` jobs come those of the other models. */
  lemma ModelJobsTail(platform: string, models: seq<ModelConfig>, prompts: seq<RawPrompt>, q: int, i: int)
    requires 0 < |models| && 0 <= q < |ModelJobs(platform, models[1..], prompts)| && i == |prompts| + q
    ensures i < |ModelJobs(platform, models, prompts)|
    ensures ModelJobs(platform, models, prompts)[i] == ModelJobs(platform, models[1..], prompts)[q]
  {
    PromptJobsAt(platform, models[0], prompts);
    var head, rest := PromptJobs(platform, models[0], prompts), ModelJobs(platform, models[1..], prompts);
    assert (head + rest)[|head| + q] == rest[q];
  }

  /** The announced total is the number of jobs. */
  lemma {:induction false} AnnouncedCountsJobs(platforms: map<string, PlatformConfig>, names: seq<string>,
                                               prompts: seq<RawPrompt>, filterModel: Option<string>)
    ensures |RunJobs(platforms, names, prompts, filterModel)| == AnnouncedTotal(platforms, names, |prompts|, filterModel)
  {
    if |names| > 0 {
      AnnouncedCountsJobs(platforms, names[1..], prompts, filterModel);
      if names[0] in platforms {
        ModelJobsLength(names[0], ModelsToTest(platforms[names[0]].models, filterModel), prompts);
      }
    }
  }

  /**
   * Every job is for a platform to test that has a kept config, one of its
   * models that passes the model filter, and one of the prompt entries.
   */
  lemma {:induction false} JobsRespectFilters(platforms: map<string, PlatformConfig>, names: seq<string>,
                                              prompts: seq<RawPrompt>, filterModel: Option<string>, j: Job)
    requires j in RunJobs(platforms, names, prompts, filterModel)
    ensures j.platform in names && j.platform in platforms
    ensures j.model in platforms[j.platform].models
    ensures Given(filterModel) ==> j.model.name == filterModel.value
    ensures j.prompt in prompts
  {
    var n := names[0];
    if j in PlatformJobs(platforms, n, prompts, filterModel) {
      assert n in platforms;
      ModelJobsMember(n, ModelsToTest(platforms[n].models, filterModel), prompts, j);
    } else {
      JobsRespectFilters(platforms, names[1..], prompts, filterModel, j);
      assert j.platform in names by {
        var q :| 0 <= q < |names[1..]| && names[1..][q] == j.platform;
        assert names[q + 1] == j.platform;
      }
    }
  }

  lemma {:induction false} ModelJobsMember(platform: string, models: seq<ModelConfig>, prompts: seq<RawPrompt>, j: Job)
    requires j in ModelJobs(platform, models, prompts)
    ensures j.platform == platform && j.model in models && j.prompt in prompts
  {
    PromptJobsAt(platform, models[0], prompts);
    if j !in PromptJobs(platform, models[0], prompts) {
      ModelJobsMember(platform, models[1..], prompts, j);
    }
  }

  // ---------------------------------------------------------------------------
  // The run

  /** The record list and, once `prompt_data['prompt']` has raised, the exception. */
  datatype RunState = RunState(results: seq<TestResult>, error: Option<string>)

  /** The record kept for a job whose platform has a client and whose prompt entry has text. */
  function Record(clients: map<string, Client>, invoke: (nat, Client, ModelConfig, string) -> Invocation,
                  call: nat, j: Job): (t: TestResult)
    requires j.platform in clients && j.prompt.prompt.Some?
    ensures t.category == j.prompt.category.GetOr(DefaultCategory)
    ensures var inv := invoke(call, clients[j.platform], j.model, j.prompt.prompt.value);
      && t.response.latency == inv.stop - inv.start
      && (inv.reply.Failure? ==> !t.response.success && t.response.error == Some(inv.reply.error))
  {
    TestResult(TestSingleModel(clients, j.platform, j.model, j.prompt.prompt.value, invoke, call).value,
               j.prompt.category.GetOr(DefaultCategory))
  }

  /**
   * Lines 90-101: read the prompt (a missing `prompt` key raises), then keep
   * the record, if there is one, tagged with the category (default `general`).
   */
  function Step(clients: map<string, Client>, invoke: (nat, Client, ModelConfig, string) -> Invocation,
                s: RunState, j: Job): RunState {
    if s.error.Some? then s
    else if j.prompt.prompt.None? then RunState(s.results, Some(PromptKeyError))
    else if j.platform in clients then RunState(s.results + [Record(clients, invoke, |s.results|, j)], None)
    else s
  }

  function Run(clients: map<string, Client>, invoke: (nat, Client, ModelConfig, string) -> Invocation,
               s: RunState, jobs: seq<Job>): RunState
    decreases |jobs|
  {
    if |jobs| == 0 then s else Run(clients, invoke, Step(clients, invoke, s, jobs[0]), jobs[1..])
  }

  /** Once raised, nothing more happens. */
  lemma {:induction false} RunAbsorbs(clients: map<string, Client>, invoke: (nat, Client, ModelConfig, string) -> Invocation,
                                      s: RunState, jobs: seq<Job>)
    requires s.error.Some?
    ensures Run(clients, invoke, s, jobs) == s
    decreases |jobs|
  {
    if |jobs| > 0 {
      RunAbsorbs(clients, invoke, s, jobs[1..]);
    }
  }

  /** Running two lists of jobs one after the other is running their concatenation. */
  lemma {:induction false} RunConcat(clients: map<string, Client>, invoke: (nat, Client, ModelConfig, string) -> Invocation,
                                     s: RunState, a: seq<Job>, b: seq<Job>)
    ensures Run(clients, invoke, s, a + b) == Run(clients, invoke, Run(clients, invoke, s, a), b)
    decreases |a|
  {
    if |a| == 0 {
      assert a + b == b;
    } else {
      assert (a + b)[0] == a[0] && (a + b)[1..] == a[1..] + b;
      RunConcat(clients, invoke, Step(clients, invoke, s, a[0]), a[1..], b);
    }
  }

  /** Records are only ever appended, at most one per job. */
  lemma {:induction false} RunAppendsOnly(clients: map<string, Client>, invoke: (nat, Client, ModelConfig, string) -> Invocation,
                                          s: RunState, jobs: seq<Job>)
    ensures var t := Run(clients, invoke, s, jobs);
      |s.results| <= |t.results| <= |s.results| + |jobs| && t.results[..|s.results|] == s.results
    decreases |jobs|
  {
    if |jobs| > 0 {
      var s1 := Step(clients, invoke, s, jobs[0]);
      RunAppendsOnly(clients, invoke, s1, jobs[1..]);
      assert s1.results[..|s.results|] == s.results;
    }
  }

  /** A run that starts clean raises exactly when some prompt entry lacks its `prompt` key. */
  lemma {:induction false} RunRaises(clients: map<string, Client>, invoke: (nat, Client, ModelConfig, string) -> Invocation,
                                     s: RunState, jobs: seq<Job>)
    requires s.error.None?
    ensures Run(clients, invoke, s, jobs).error.Some? <==> exists i :: 0 <= i < |jobs| && jobs[i].prompt.prompt.None?
    ensures Run(clients, invoke, s, jobs).error.Some? ==> Run(clients, invoke, s, jobs).error == Some(PromptKeyError)
    decreases |jobs|
  {
    if |jobs| > 0 {
      var s1 := Step(clients, invoke, s, jobs[0]);
      if jobs[0].prompt.prompt.None? {
        RunAbsorbs(clients, invoke, s1, jobs[1..]);
      } else {
        RunRaises(clients, invoke, s1, jobs[1..]);
        if exists i :: 0 <= i < |jobs| && jobs[i].prompt.prompt.None? {
          var i :| 0 <= i < |jobs| && jobs[i].prompt.prompt.None?;
          assert jobs[1..][i - 1].prompt.prompt.None?;
        }
        if exists i :: 0 <= i < |jobs[1..]| && jobs[1..][i].prompt.prompt.None? {
          var i :| 0 <= i < |jobs[1..]| && jobs[1..][i].prompt.prompt.None?;
          assert jobs[i + 1].prompt.prompt.None?;
        }
      }
    }
  }

  /**
   * When every prompt entry has text and every platform has a client, the
   * run keeps one record per job, in job order, the i-th being the `call`
   * numbered by its position in the record list.
   */
  lemma {:induction false} RunComplete(clients: map<string, Client>, invoke: (nat, Client, ModelConfig, string) -> Invocation,
                                       s: RunState, jobs: seq<Job>)
    requires s.error.None?
    requires forall i :: 0 <= i < |jobs| ==> jobs[i].platform in clients && jobs[i].prompt.prompt.Some?
    ensures var t := Run(clients, invoke, s, jobs);
      && t.error.None?
      && |t.results| == |s.results| + |jobs|
      && t.results[..|s.results|] == s.results
      && forall i :: 0 <= i < |jobs| ==> t.results[|s.results| + i] == Record(clients, invoke, |s.results| + i, jobs[i])
    decreases |jobs|
  {
    if |jobs| > 0 {
      var s1 := Step(clients, invoke, s, jobs[0]);
      assert forall i :: 0 <= i < |jobs[1..]| ==> jobs[1..][i] == jobs[i + 1];
      RunComplete(clients, invoke, s1, jobs[1..]);
      var t := Run(clients, invoke, s1, jobs[1..]);
      assert t.results[..|s.results|] == s.results by {
        assert t.results[..|s1.results|][..|s.results|] == s1.results[..|s.results|];
      }
      assert t.results[|s.results|] == s1.results[|s.results|] by {
        assert t.results[..|s1.results|][|s.results|] == t.results[|s.results|];
      }
    }
  }

  /** Jobs for platforms without a client keep nothing (a filter naming such a platform runs nothing). */
  lemma {:induction false} NoClientNoResults(clients: map<string, Client>, invoke: (nat, Client, ModelConfig, string) -> Invocation,
                                             s: RunState, jobs: seq<Job>)
    requires forall i :: 0 <= i < |jobs| ==> jobs[i].platform !in clients
    ensures Run(clients, invoke, s, jobs).results == s.results
    decreases |jobs|
  {
    if |jobs| > 0 {
      assert forall i :: 0 <= i < |jobs[1..]| ==> jobs[1..][i] == jobs[i + 1];
      NoClientNoResults(clients, invoke, Step(clients, invoke, s, jobs[0]), jobs[1..]);
    }
  }

  /**
   * A run restricted to one platform that has a client and a kept config,
   * with prompt entries that all have text: the announced total is kept, and
   * the record of model `m` on prompt `p` is the one at position `m * |prompts| + p`.
   */
  lemma {:induction false} SinglePlatformRun(clients: map<string, Client>, invoke: (nat, Client, ModelConfig, string) -> Invocation,
                          platforms: map<string, PlatformConfig>, name: string, prompts: seq<RawPrompt>,
                          filterModel: Option<string>, before: seq<TestResult>, m: int, p: int)
    requires name in clients && name in platforms
    requires forall k :: 0 <= k < |prompts| ==> prompts[k].prompt.Some?
    requires 0 <= m < |ModelsToTest(platforms[name].models, filterModel)| && 0 <= p < |prompts|
    ensures var t := Run(clients, invoke, RunState(before, None), RunJobs(platforms, [name], prompts, filterModel));
      var models := ModelsToTest(platforms[name].models, filterModel);
      && t.error.None?
      && |t.results| == |before| + AnnouncedTotal(platforms, [name], |prompts|, filterModel)
      && |before| + m * |prompts| + p < |t.results|
      && t.results[|before| + m * |prompts| + p]
         == Record(clients, invoke, |before| + m * |prompts| + p, Job(name, models[m], prompts[p]))
  {
    var models := ModelsToTest(platforms[name].models, filterModel);
    var jobs := RunJobs(platforms, [name], prompts, filterModel);
    SingleRunJobs(platforms, name, prompts, filterModel);
    AnnouncedCountsJobs(platforms, [name], prompts, filterModel);
    ModelJobsRunnable(clients, name, models, prompts);
    RunComplete(clients, invoke, RunState(before, None), jobs);
    OffsetIsProduct(m, |prompts|);
    ModelJobsAt(name, models, prompts, m, p, m * |prompts| + p);
  }

  /** The jobs of a run restricted to one platform with a kept config are that platform's model jobs. */
  lemma SingleRunJobs(platforms: map<string, PlatformConfig>, name: string, prompts: seq<RawPrompt>, filterModel: Option<string>)
    requires name in platforms
    ensures RunJobs(platforms, [name], prompts, filterModel) == ModelJobs(name, ModelsToTest(platforms[name].models, filterModel), prompts)
  {
    assert [name][0] == name && [name][1..] == [];
    assert RunJobs(platforms, [name][1..], prompts, filterModel) == [];
  }

  /** Every model job of a platform with a client, over prompt entries with text, neither skips nor raises. */
  lemma ModelJobsRunnable(clients: map<string, Client>, name: string, models: seq<ModelConfig>, prompts: seq<RawPrompt>)
    requires name in clients
    requires forall k :: 0 <= k < |prompts| ==> prompts[k].prompt.Some?
    ensures var jobs := ModelJobs(name, models, prompts);
      forall k :: 0 <= k < |jobs| ==> jobs[k].platform in clients && jobs[k].prompt.prompt.Some?
  {
    var jobs := ModelJobs(name, models, prompts);
    forall k | 0 <= k < |jobs| ensures jobs[k].platform in clients && jobs[k].prompt.prompt.Some? {
      assert jobs[k] in jobs;
      ModelJobsMember(name, models, prompts, jobs[k]);
      var q :| 0 <= q < |prompts| && prompts[q] == jobs[k].prompt;
    }
  }

  // ---------------------------------------------------------------------------
  // The summary table

  datatype SummaryRow = SummaryRow(platform: string, model: string, successRate: real, avgLatency: real, avgTokens: real)

  function ResultKey(t: TestResult): (string, string) { (t.response.platform, t.response.model) }
  function Succeeded(t: TestResult): bool { t.response.success }
  function LatencyOf(t: TestResult): real { t.response.latency }
  function UsageOf(t: TestResult): map<string, int> { t.response.usage }

  /**
   * Lines 184-187: one row of the summary. The rate is the share of
   * successful records in percent; the averages run over successful records
   * only and fall back to 0.
   */
  function SummaryOf(key: (string, string), group: seq<TestResult>): (row: SummaryRow)
    requires |group| > 0
    ensures row.platform == key.0 && row.model == key.1
    ensures 0.0 <= row.successRate <= 100.0
    ensures row.successRate == 100.0 <==> |Successes(group, Succeeded)| == |group|
    ensures |Successes(group, Succeeded)| == 0 ==> row.successRate == 0.0 && row.avgLatency == 0.0 && row.avgTokens == 0.0
    ensures |Successes(group, Succeeded)| > 0 ==>
      var lat := Keys(Successes(group, Succeeded), LatencyOf);
      Min(lat) <= row.avgLatency <= Max(lat)
  {
    var ok := Successes(group, Succeeded);
    var lat := Keys(ok, LatencyOf);
    assert |ok| > 0 ==> Min(lat) <= Mean(lat) <= Max(lat) by {
      if |ok| > 0 {
        MeanBetween(lat);
      }
    }
    SummaryRow(key.0, key.1, Percent(|ok|, |group|), Mean(lat), MeanInt(TokenCounts(ok, UsageOf)))
  }

  /** The table of `display_summary`: one row per (platform, model), in order of first appearance. */
  function Summary(results: seq<TestResult>): (rows: seq<SummaryRow>)
    ensures |rows| == |Unique(Keys(results, ResultKey))|
  {
    var ks := Unique(Keys(results, ResultKey));
    seq(|ks|, i requires 0 <= i < |ks| =>
      SelectNonEmpty(results, ResultKey, ks[i]);
      SummaryOf(ks[i], Select(results, ResultKey, ks[i])))
  }

  /** The rows' groups partition the records: every record is counted in exactly one row. */
  lemma SummaryPartitions(results: seq<TestResult>)
    ensures var ks := Unique(Keys(results, ResultKey));
      multiset(SelectAll(results, ResultKey, ks)) == multiset(results)
  {
    var ks := Unique(Keys(results, ResultKey));
    forall x | x in results ensures ResultKey(x) in ks {
      var i :| 0 <= i < |results| && results[i] == x;
      assert Keys(results, ResultKey)[i] == ResultKey(x);
    }
    GroupsPartition(results, ResultKey, ks);
  }

  /** `defaultdict` entry: counts and the lists of latencies and token counts. */
  datatype Acc = Acc(success: nat, total: nat, latency: seq<real>, tokens: seq<int>)

  ghost function AccOf(group: seq<TestResult>): Acc {
    var ok := Successes(group, Succeeded);
    Acc(|ok|, |group|, Keys(ok, LatencyOf), TokenCounts(ok, UsageOf))
  }

  /**
   * Lines 177-182: one more record counted in its key's entry. The test
   * `result.usage and 'total_tokens' in result.usage` is the key test alone,
   * since a dict holding the key is non-empty.
   */
  function Bump(a: Acc, r: TestResult): Acc {
    if r.response.success then
      Acc(a.success + 1, a.total + 1, a.latency + [r.response.latency],
          if TotalTokens in r.response.usage then a.tokens + [r.response.usage[TotalTokens]] else a.tokens)
    else Acc(a.success, a.total + 1, a.latency, a.tokens)
  }

  /** Counting a record into its group's entry gives the entry of the extended group. */
  lemma AccSnoc(group: seq<TestResult>, r: TestResult)
    ensures AccOf(group + [r]) == Bump(AccOf(group), r)
  {
    var g := group + [r];
    assert g[..|g| - 1] == group;
    var ok := Successes(group, Succeeded);
    if r.response.success {
      var ok' := Successes(g, Succeeded);
      assert ok' == ok + [r];
      assert ok'[..|ok'| - 1] == ok;
    }
  }

  /** The loop state of lines 175-182 after the records `rs`: the keys in first-appearance order and an entry per key. */
  ghost predicate Tallied(rs: seq<TestResult>, order: seq<(string, string)>, stats: map<(string, string), Acc>) {
    && order == Unique(Keys(rs, ResultKey))
    && (forall k :: k in stats <==> k in order)
    && (forall k :: k in stats ==> stats[k] == AccOf(Select(rs, ResultKey, k)))
  }

  /** Counting record `r` into the state after `rs` gives the state after `rs + [r]`. */
  lemma TallyStep(rs: seq<TestResult>, r: TestResult, order: seq<(string, string)>, stats: map<(string, string), Acc>,
                  order': seq<(string, string)>, stats': map<(string, string), Acc>)
    requires Tallied(rs, order, stats)
    requires order' == if ResultKey(r) in stats then order else order + [ResultKey(r)]
    requires stats' == stats[ResultKey(r) := Bump(if ResultKey(r) in stats then stats[ResultKey(r)] else Acc(0, 0, [], []), r)]
    ensures Tallied(rs + [r], order', stats')
  {
    TallyOrder(rs, r, order, stats, order');
    assert forall k :: k in stats <==> k in Keys(rs, ResultKey);
    TallyEntries(rs, r, stats, stats');
  }

  /** `TallyStep` at position `i` of the records. */
  lemma TallyNext(rs: seq<TestResult>, i: int, order: seq<(string, string)>, stats: map<(string, string), Acc>,
                  order': seq<(string, string)>, stats': map<(string, string), Acc>)
    requires 0 <= i < |rs|
    requires Tallied(rs[..i], order, stats)
    requires order' == if ResultKey(rs[i]) in stats then order else order + [ResultKey(rs[i])]
    requires stats' == stats[ResultKey(rs[i]) := Bump(if ResultKey(rs[i]) in stats then stats[ResultKey(rs[i])] else Acc(0, 0, [], []), rs[i])]
    ensures Tallied(rs[..i + 1], order', stats')
  {
    TallyStep(rs[..i], rs[i], order, stats, order', stats');
    TakeSnoc(rs, i);
  }

  /** The key order grows by the new key exactly when the key is new. */
  lemma TallyOrder(rs: seq<TestResult>, r: TestResult, order: seq<(string, string)>, stats: map<(string, string), Acc>,
                   order': seq<(string, string)>)
    requires Tallied(rs, order, stats)
    requires order' == if ResultKey(r) in stats then order else order + [ResultKey(r)]
    ensures order' == Unique(Keys(rs + [r], ResultKey))
  {
    KeysSnoc(rs, ResultKey, r);
    UniqueSnoc(Keys(rs, ResultKey), ResultKey(r));
  }

  /** Every entry, the new record's included, is the tally of its key's group after the new record. */
  lemma TallyEntries(rs: seq<TestResult>, r: TestResult, stats: map<(string, string), Acc>, stats': map<(string, string), Acc>)
    requires forall k :: k in stats <==> k in Keys(rs, ResultKey)
    requires forall k :: k in stats ==> stats[k] == AccOf(Select(rs, ResultKey, k))
    requires stats' == stats[ResultKey(r) := Bump(if ResultKey(r) in stats then stats[ResultKey(r)] else Acc(0, 0, [], []), r)]
    ensures forall k :: k in stats' ==> stats'[k] == AccOf(Select(rs + [r], ResultKey, k))
  {
    forall k | k in stats' ensures stats'[k] == AccOf(Select(rs + [r], ResultKey, k)) {
      SelectSnoc(rs, ResultKey, k, r);
      if k == ResultKey(r) {
        if k !in stats {
          SelectAbsent(rs, ResultKey, k);
          assert Successes([], Succeeded) == [];
        }
        AccSnoc(Select(rs, ResultKey, k), r);
      }
    }
  }

  /** Lines 184-187 over one entry: the rate in percent and the two averages. */
  function RowOf(key: (string, string), a: Acc): SummaryRow
    requires a.total > 0
  {
    SummaryRow(key.0, key.1, Percent(a.success, a.total), Mean(a.latency), MeanInt(a.tokens))
  }

  /** The tallied entries, read in key order, are the rows `Summary` specifies. */
  lemma TalliedSummary(results: seq<TestResult>, order: seq<(string, string)>, stats: map<(string, string), Acc>)
    requires Tallied(results, order, stats)
    ensures forall k :: k in order ==> k in stats && stats[k].total > 0
    ensures |Summary(results)| == |order|
    ensures forall t :: 0 <= t < |order| ==> Summary(results)[t] == RowOf(order[t], stats[order[t]])
  {
    forall k | k in order ensures k in stats && stats[k].total > 0 {
      SelectNonEmpty(results, ResultKey, k);
    }
  }

  // ---------------------------------------------------------------------------
  // The saved records

  /** A row of the saved JSON/CSV files. */
  datatype SavedRecord = SavedRecord(
    platform: string,
    model: string,
    prompt: string,
    response: string,
    usage: map<string, int>,
    latency: real,
    success: bool,
    error: Option<string>,
    category: string)

  /** Python's `s[:n]`. */
  function Truncate(s: string, n: nat): (t: string)
    ensures |t| == if |s| <= n then |s| else n
    ensures t == s[..|t|]
  {
    if |s| <= n then s else s[..n]
  }

  /** Lines 133-143: a record as saved; only the response is cut to its first 500 characters. */
  function SaveRecord(t: TestResult): (r: SavedRecord)
    ensures |r.response| <= SavedResponseLength
    ensures |r.response| <= |t.response.response| && r.response == t.response.response[..|r.response|]
    ensures |t.response.response| <= SavedResponseLength ==> r.response == t.response.response
    ensures r.platform == t.response.platform && r.model == t.response.model && r.prompt == t.response.prompt
    ensures r.usage == t.response.usage && r.latency == t.response.latency && r.success == t.response.success
    ensures r.error == t.response.error && r.category == t.category
  {
    var a := t.response;
    SavedRecord(a.platform, a.model, a.prompt, Truncate(a.response, SavedResponseLength), a.usage, a.latency,
                a.success, a.error, t.category)
  }

  /** POSIX `os.path.join(a, b)`: an absolute `b` replaces `a`; otherwise one `/` separates them. */
  function JoinPath(a: string, b: string): (p: string)
    ensures |b| > 0 && b[0] == '/' ==> p == b
    ensures !(|b| > 0 && b[0] == '/') ==> p == a + b || p == a + "/" + b
    ensures EndsWith(p, b)
  {
    if |b| > 0 && b[0] == '/' then b
    else if a == "" || EndsWith(a, "/") then a + b
    else a + "/" + b
  }

  function ResultFileName(timestamp: string, extension: string): string {
    "test_results_" + timestamp + extension
  }

  datatype SaveOutcome =
    | NothingToSave
    | SaveRaised(error: string)
    | Saved(jsonPath: string, csvPath: string, records: seq<SavedRecord>)

  // ---------------------------------------------------------------------------
  // The tester

  predicate HasAdapter(name: string) { ClientMapping(name).Some? }

  /** The last status line `run_tests` reaches: no prompts, an exception, or the announced total and the outcome. */
  datatype RunStatus = NoPrompts | Raised(error: string) | Ran(announced: nat, raised: Option<string>)

  /**
   * The state of `_initialize_clients` after the platforms `names`: the
   * platforms with an adapter in order, each with the client the factory built.
   */
  ghost predicate ClientsFor(names: seq<string>, platforms: map<string, PlatformConfig>,
                             clients: map<string, Client>, clientNames: seq<string>) {
    && clientNames == Select(names, HasAdapter, true)
    && Distinct(clientNames)
    && (forall n :: n in clients <==> n in clientNames)
    && (forall n :: n in clients ==> n in platforms && CreateClient(n, platforms[n]) == Some(clients[n]))
  }

  /** One more platform offered to the factory keeps the loop state of `_initialize_clients`. */
  lemma ClientStep(names: seq<string>, i: int, platforms: map<string, PlatformConfig>,
                   clients: map<string, Client>, clientNames: seq<string>,
                   clients': map<string, Client>, clientNames': seq<string>)
    requires Distinct(names) && 0 <= i < |names| && names[i] in platforms
    requires ClientsFor(names[..i], platforms, clients, clientNames)
    requires var c := CreateClient(names[i], platforms[names[i]]);
      && clients' == (if c.Some? then clients[names[i] := c.value] else clients)
      && clientNames' == (if c.Some? then clientNames + [names[i]] else clientNames)
    ensures ClientsFor(names[..i + 1], platforms, clients', clientNames')
  {
    TakeSnoc(names, i);
    SelectSnoc(names[..i], HasAdapter, true, names[i]);
    if HasAdapter(names[i]) {
      DistinctFresh(names, i);
      ClientAdded(names[..i], names[i], platforms, clients, clientNames, clients', clientNames');
    }
  }

  /** A platform with an adapter, not offered before, adds its client and its name. */
  lemma ClientAdded(names: seq<string>, name: string, platforms: map<string, PlatformConfig>,
                    clients: map<string, Client>, clientNames: seq<string>,
                    clients': map<string, Client>, clientNames': seq<string>)
    requires name !in names && name in platforms && HasAdapter(name)
    requires ClientsFor(names, platforms, clients, clientNames)
    requires clients' == clients[name := CreateClient(name, platforms[name]).value]
    requires clientNames' == clientNames + [name]
    ensures ClientsFor(names + [name], platforms, clients', clientNames')
  {
    SelectSnoc(names, HasAdapter, true, name);
    DistinctSnoc(clientNames, name);
  }

  /** Lines 173-182: the `defaultdict` of entries per (platform, model), and its key order. */
  method Tally(rs: seq<TestResult>) returns (order: seq<(string, string)>, stats: map<(string, string), Acc>)
    ensures Tallied(rs, order, stats)
  {
    order := [];
    stats := map[];
    for i := 0 to |rs|
      invariant Tallied(rs[..i], order, stats)
    {
      var r := rs[i];
      var key := ResultKey(r);
      ghost var order0, stats0 := order, stats;
      var entry := if key in stats then stats[key] else Acc(0, 0, [], []);
      if key !in stats {
        order := order + [key];
      }
      stats := stats[key := Bump(entry, r)];
      TallyNext(rs, i, order0, stats0, order, stats);
    }
    TakeAll(rs);
  }

  /** Lines 184-195: one row per entry, in key order. */
  method SummaryRows(order: seq<(string, string)>, stats: map<(string, string), Acc>) returns (rows: seq<SummaryRow>)
    requires forall k :: k in order ==> k in stats && stats[k].total > 0
    ensures |rows| == |order|
    ensures forall t :: 0 <= t < |order| ==> rows[t] == RowOf(order[t], stats[order[t]])
  {
    rows := [];
    for j := 0 to |order|
      invariant |rows| == j
      invariant forall t :: 0 <= t < j ==> rows[t] == RowOf(order[t], stats[order[t]])
    {
      var key := order[j];
      var a := stats[key];
      var row := SummaryRow(key.0, key.1, Percent(a.success, a.total), Mean(a.latency), MeanInt(a.tokens));
      rows := rows + [row];
    }
  }

  class Tester {
    const configManager: ConfigManager
    /** `self.clients` ... */
    var clients: map<string, Client>
    /** ... and that dict's key order. */
    var clientNames: seq<string>
    var results: seq<TestResult>

    ghost predicate Valid()
      reads this, configManager
    {
      && configManager.Valid()
      && Distinct(clientNames)
      && (forall n :: n in clients <==> n in clientNames)
    }

    /**
     * `__init__` over a loaded configuration: no records, and a client for
     * every enabled platform that has an adapter, in configuration order.
     */
    constructor (cm: ConfigManager)
      requires cm.Valid()
      ensures configManager == cm && results == []
      ensures clientNames == Select(cm.platformNames, HasAdapter, true)
      ensures forall n :: n in clients ==> n in cm.platforms && CreateClient(n, cm.platforms[n]) == Some(clients[n])
      ensures forall n :: n in clients <==> n in cm.platformNames && HasAdapter(n)
      ensures Valid()
    {
      configManager := cm;
      clients := map[];
      clientNames := [];
      results := [];
      new;
      InitializeClients();
    }

    /** `_initialize_clients`: one factory call per enabled platform, keeping the clients it returns. */
    method InitializeClients()
      requires configManager.Valid() && clients == map[] && clientNames == []
      modifies this
      ensures results == old(results)
      ensures clientNames == Select(configManager.platformNames, HasAdapter, true)
      ensures forall n :: n in clients ==> n in configManager.platforms && CreateClient(n, configManager.platforms[n]) == Some(clients[n])
      ensures Valid()
    {
      var names := configManager.GetEnabledPlatforms();
      ghost var platforms := configManager.platforms;
      for i := 0 to |names|
        invariant results == old(results)
        invariant ClientsFor(names[..i], platforms, clients, clientNames)
      {
        var name := names[i];
        ghost var clients0, clientNames0 := clients, clientNames;
        var config := configManager.GetPlatformConfig(name);
        var client := CreateClient(name, config.value);
        if client.Some? {
          clients := clients[name := client.value];
          clientNames := clientNames + [name];
        }
        ClientStep(names, i, platforms, clients0, clientNames0, clients, clientNames);
      }
      TakeAll(names);
    }

    /** Lines 90-112 for one model: its prompts in order, stopping at the first that raises. */
    method TestPrompts(name: string, model: ModelConfig, prompts: seq<RawPrompt>,
                       invoke: (nat, Client, ModelConfig, string) -> Invocation) returns (error: Option<string>)
      modifies this
      ensures clients == old(clients) && clientNames == old(clientNames)
      ensures RunState(results, error) == Run(clients, invoke, RunState(old(results), None), PromptJobs(name, model, prompts))
    {
      ghost var goal := Run(clients, invoke, RunState(results, None), PromptJobs(name, model, prompts));
      for k := 0 to |prompts|
        invariant clients == old(clients) && clientNames == old(clientNames)
        invariant goal == Run(clients, invoke, RunState(results, None), PromptJobs(name, model, prompts[k..]))
      {
        var entry := prompts[k];
        assert prompts[k..][0] == entry && prompts[k..][1..] == prompts[k + 1..];
        if entry.prompt.None? {
          RunAbsorbs(clients, invoke, RunState(results, Some(PromptKeyError)), PromptJobs(name, model, prompts[k + 1..]));
          return Some(PromptKeyError);
        }
        var category := entry.category.GetOr(DefaultCategory);
        var result := TestSingleModel(clients, name, model, entry.prompt.value, invoke, |results|);
        if result.Some? {
          results := results + [TestResult(result.value, category)];
        }
      }
      return None;
    }

    /** Lines 89-112 for one platform: its models in order, stopping at the first prompt that raises. */
    method TestModels(name: string, models: seq<ModelConfig>, prompts: seq<RawPrompt>,
                      invoke: (nat, Client, ModelConfig, string) -> Invocation) returns (error: Option<string>)
      modifies this
      ensures clients == old(clients) && clientNames == old(clientNames)
      ensures RunState(results, error) == Run(clients, invoke, RunState(old(results), None), ModelJobs(name, models, prompts))
    {
      ghost var goal := Run(clients, invoke, RunState(results, None), ModelJobs(name, models, prompts));
      for j := 0 to |models|
        invariant clients == old(clients) && clientNames == old(clientNames)
        invariant goal == Run(clients, invoke, RunState(results, None), ModelJobs(name, models[j..], prompts))
      {
        assert models[j..][0] == models[j] && models[j..][1..] == models[j + 1..];
        ghost var before := RunState(results, None);
        RunConcat(clients, invoke, before, PromptJobs(name, models[j], prompts), ModelJobs(name, models[j + 1..], prompts));
        var err := TestPrompts(name, models[j], prompts, invoke);
        if err.Some? {
          RunAbsorbs(clients, invoke, RunState(results, err), ModelJobs(name, models[j + 1..], prompts));
          return err;
        }
      }
      return None;
    }

    /**
     * `run_tests`: read the prompts (none: stop; no configuration loaded:
     * raise), announce the total, then run the jobs until one raises.
     */
    method RunTests(filterPlatform: Option<string>, filterModel: Option<string>,
                    invoke: (nat, Client, ModelConfig, string) -> Invocation) returns (status: RunStatus)
      requires Valid()
      modifies this
      ensures Valid() && clients == old(clients) && clientNames == old(clientNames)
      ensures configManager.GetTestPrompts().Failure? ==>
        status == Raised(configManager.GetTestPrompts().error) && results == old(results)
      ensures configManager.GetTestPrompts() == Success([]) ==> status == NoPrompts && results == old(results)
      ensures configManager.GetTestPrompts().Success? && |configManager.GetTestPrompts().value| > 0 ==>
        var prompts := configManager.GetTestPrompts().value;
        var names := PlatformsToTest(filterPlatform, clientNames);
        var final := Run(clients, invoke, RunState(old(results), None),
                         RunJobs(configManager.platforms, names, prompts, filterModel));
        && status == Ran(AnnouncedTotal(configManager.platforms, names, |prompts|, filterModel), final.error)
        && results == final.results
    {
      var promptList := configManager.GetTestPrompts();
      if promptList.Failure? {
        return Raised(promptList.error);
      }
      var prompts := promptList.value;
      if |prompts| == 0 {
        return NoPrompts;
      }
      var names := PlatformsToTest(filterPlatform, clientNames);
      var platforms := configManager.platforms;

      var total := 0;
      for i := 0 to |names|
        invariant total + AnnouncedTotal(platforms, names[i..], |prompts|, filterModel)
               == AnnouncedTotal(platforms, names, |prompts|, filterModel)
      {
        assert names[i..][0] == names[i] && names[i..][1..] == names[i + 1..];
        var config := configManager.GetPlatformConfig(names[i]);
        if config.None? {
          continue;
        }
        var models := ModelsToTest(config.value.models, filterModel);
        total := total + |models| * |prompts|;
      }
      assert names[|names|..] == [];

      ghost var goal := Run(clients, invoke, RunState(results, None), RunJobs(platforms, names, prompts, filterModel));
      for i := 0 to |names|
        invariant Valid() && clients == old(clients) && clientNames == old(clientNames)
        invariant goal == Run(clients, invoke, RunState(results, None), RunJobs(platforms, names[i..], prompts, filterModel))
      {
        assert names[i..][0] == names[i] && names[i..][1..] == names[i + 1..];
        ghost var before := RunState(results, None);
        RunConcat(clients, invoke, before, PlatformJobs(platforms, names[i], prompts, filterModel),
                  RunJobs(platforms, names[i + 1..], prompts, filterModel));
        var config := configManager.GetPlatformConfig(names[i]);
        if config.None? {
          continue;
        }
        var models := ModelsToTest(config.value.models, filterModel);
        var err := TestModels(names[i], models, prompts, invoke);
        if err.Some? {
          RunAbsorbs(clients, invoke, RunState(results, err), RunJobs(platforms, names[i + 1..], prompts, filterModel));
          return Ran(total, err);
        }
      }
      assert names[|names|..] == [];
      return Ran(total, None);
    }

    /** `display_summary`: the rows of the summary table (none when there are no records). */
    method DisplaySummary() returns (rows: seq<SummaryRow>)
      ensures |results| == 0 ==> rows == []
      ensures rows == Summary(results)
    {
      if |results| == 0 {
        return [];
      }
      var order, stats := Tally(results);
      TalliedSummary(results, order, stats);
      rows := SummaryRows(order, stats);
    }

    /**
     * `save_results`: nothing without records; otherwise the results
     * directory (default `results/`), the two file names stamped with
     * `timestamp`, and the records as saved, in order.
     */
    method SaveResults(timestamp: string) returns (outcome: SaveOutcome)
      ensures |results| == 0 ==> outcome == NothingToSave
      ensures |results| > 0 && configManager.GetTestSettings().Failure? ==>
        outcome == SaveRaised(configManager.GetTestSettings().error)
      ensures |results| > 0 && configManager.GetTestSettings().Success? ==>
        var dir := configManager.GetTestSettings().value.resultsPath.GetOr(DefaultResultsPath);
        && outcome.Saved?
        && outcome.jsonPath == JoinPath(dir, ResultFileName(timestamp, ".json"))
        && outcome.csvPath == JoinPath(dir, ResultFileName(timestamp, ".csv"))
        && |outcome.records| == |results|
        && forall i :: 0 <= i < |results| ==> outcome.records[i] == SaveRecord(results[i])
    {
      if |results| == 0 {
        return NothingToSave;
      }
      var settings := configManager.GetTestSettings();
      if settings.Failure? {
        return SaveRaised(settings.error);
      }
      var dir := settings.value.resultsPath.GetOr(DefaultResultsPath);
      var jsonFile := JoinPath(dir, ResultFileName(timestamp, ".json"));
      var records: seq<SavedRecord> := [];
      for i := 0 to |results|
        invariant |records| == i
        invariant forall t :: 0 <= t < i ==> records[t] == SaveRecord(results[t])
      {
        records := records + [SaveRecord(results[i])];
      }
      var csvFile := JoinPath(dir, ResultFileName(timestamp, ".csv"));
      return Saved(jsonFile, csvFile, records);
    }
  }
}
