# LLM API benchmark: a verified model of the orchestration and aggregation core

This project models, in Dafny, the core of a small benchmark that sends the
same prompts to several large-language-model providers. It records latency,
token usage and success for each call, and it aggregates the records into
comparison tables and a report. The model covers these parts:

- **The configuration normaliser** (`config_manager.py`). The parsed YAML
  document is a value. Enabled platforms keep their document order, and
  model defaults are filled in (`max_tokens` 1000, `temperature` 0.7). A
  model entry without `name` raises `KeyError: 'name'`.
- **The adapter layer** (`api_clients/`). This covers the common
  `test_model` timing wrapper and `format_messages`, and the five adapters:
  OpenAI, Anthropic, Baidu, Zhipu and Alibaba.
  - Each provider SDK or HTTP endpoint is a function parameter.
  - Each adapter is proved to build the request its SDK receives, and to
    normalise the reply into an `APIResponse`.
  - Baidu's OAuth token cache is a class. Its fields are updated in place,
    and it is proved to fetch only when the cached token is stale.
- **The factory** (`api_clients/__init__.py`). This is an exact,
  case-sensitive name lookup.
- **The orchestrator** (`llm_tester.py`).
  - `_initialize_clients` is a loop over the enabled platforms.
  - `run_tests` first announces the total, then works through the
    cross-product of platform, model and prompt in nested loops. It stops at
    the first prompt without a `prompt` key.
  - `display_summary` groups the records with a `defaultdict` in the order
    each key is first seen.
  - `save_results` builds the records it saves (the response cut to 500
    characters) and the two file paths.
  - The nested loops are proved against a recursive specification of the
    run. Lemmas prove that:
    - the announced total equals the number of jobs;
    - every job respects the filters;
    - records are only appended;
    - the record at position `|before| + m*|prompts| + p` belongs to model
      `m` and prompt `p`.
- **The offline analyzer** (`result_analyzer.py`).
  - The latest results file is the greatest `.json` name in code-point
    order.
  - The per-platform table follows pandas `unique()` order.
  - The per-(platform, model) table follows `groupby` order, which is
    ascending by platform and then by model.
  - The per-category listing and the Markdown report's figures are also
    modelled.
  - The loaded frame is cached in the analyzer object, which loads it lazily.

Clocks, the directory listing, file contents and provider replies are
parameters: functions or values handed to the operation. Python's dynamic
behaviour is written out where it matters:

- truthiness of `enabled`, `top_p`, the filters and `output_file`;
- dictionary insertion order (a sequence of keys beside a map);
- `sorted(...)[-1]`, `idxmin()` (the first minimum) and `s[:500]`;
- POSIX `os.path.join`.

Module layout: one module per source file (`ConfigManager`, `BaseClient`,
`OpenAIClient`, `AnthropicClient`, `GenericClient`, `ClientFactory`,
`LLMTester`, `ResultAnalyzer`). The helper modules are:

- `Wrappers`: `Option`, `Result`, `Outcome`.
- `Seqs`: keys, first-appearance `Unique`, `Select` filtering, group
  partitions, string order.
- `Stats`: `Mean`, `Min`, `Max`, `Percent`.
- `Metrics`: successful rows and `total_tokens` collection, shared by the
  tester and the analyzer.

## Model

| member | source | states |
|---|---|---|
| BaseClient.FormatMessages | api_clients/base_client.py:49-51 | the message list is exactly one `user` message whose content is the prompt |
| BaseClient.FormatMessagesRoundTrip | api_clients/base_client.py:49-51 | the prompt can be read back from the formatted messages |
| BaseClient.UsageTriple | api_clients/openai_client.py:28-32 | the usage dict has exactly the three token keys, holding the three counts |
| BaseClient.TestModel | api_clients/base_client.py:30-47 | latency is the clock difference; a returned response is kept with only its latency overwritten; a raised error gives a failed record with empty response and usage and the error text |
| BaseClient.TestModelOutcome | api_clients/base_client.py:30-47 | with a monotone clock, latency is non-negative, and `success` holds iff the adapter did not raise; a failed record always carries an error |
| OpenAIClient.OrElse | api_clients/openai_client.py:22-24 | a truthy optional yields its value, `None` or `0.0` yields the fallback (`x or d`) |
| OpenAIClient.SdkBaseUrl | api_clients/openai_client.py:8-13 | the SDK gets a base URL iff the config has a non-empty one, and then it is that URL |
| OpenAIClient.BuildRequest | api_clients/openai_client.py:17-25 | model, messages, max tokens and temperature come from the config; `top_p` defaults to 1.0 and the penalties to 0.0 when falsy |
| OpenAIClient.RequestDefaults | api_clients/openai_client.py:22-24 | `top_p` is never 0 in the request; given non-zero values are passed through; absent penalties become 0.0 |
| OpenAIClient.CallApi | api_clients/openai_client.py:15-46 | succeeds iff the SDK returns a choice and a usage object; an SDK error is re-raised unchanged; on success the record holds the first choice's text, the three usage counts, latency 0 and `success` |
| AnthropicClient.BuildRequest | api_clients/anthropic_client.py:16-21 | the request carries the model's name, max tokens and temperature, and the prompt as its single user message |
| AnthropicClient.CallApi | api_clients/anthropic_client.py:14-42 | succeeds iff the SDK returns a non-empty content list; SDK errors are re-raised; the total token count is input plus output |
| GenericClient.GenericCallApi | api_clients/generic_client.py:20-22 | the generic HTTP client always raises `NotImplementedError` |
| GenericClient.RefreshToken | api_clients/generic_client.py:32-52 | a usable cached token is returned without fetching; otherwise the fetched token is stored with expiry `fetch time + expires_in (default 3600) - 60`; fetch errors and a reply without a token raise and leave the cache unchanged |
| GenericClient.FailedRefreshKeepsCache | api_clients/generic_client.py:43-52 | a failed refresh leaves the cached token and expiry as they were |
| GenericClient.FetchOnlyWhenStale | api_clients/generic_client.py:34-35 | while the cached token is usable, the result does not depend on the token endpoint at all |
| GenericClient.ExpiryBoundary | api_clients/generic_client.py:34-35 | a token stops being usable exactly at its expiry time (strict `<`) |
| GenericClient.FetchedTokenWindow | api_clients/generic_client.py:47-50 | a freshly fetched token is usable until its expiry and not at or after it |
| GenericClient.TokenScenario | api_clients/generic_client.py:32-52 | a first call fetches; a second call before the expiry returns the same token with no new fetch |
| GenericClient.Endpoint | api_clients/generic_client.py:59-64 | `ERNIE-Bot-4` maps to `completions_pro`, `ERNIE-Bot-turbo` to `eb-instant`, and every other name to `completions` |
| GenericClient.EndpointInverse | api_clients/generic_client.py:59-64 | each special endpoint is reached from exactly one model name, and the endpoint is always one of the three |
| GenericClient.BuildBaiduRequest | api_clients/generic_client.py:66-75 | the URL is the chat prefix plus the model's endpoint, the token is the query parameter, and the body carries the prompt, the temperature and `max_output_tokens` |
| GenericClient.BaiduRecord | api_clients/generic_client.py:77-97 | a reply with `error_code` raises; otherwise the record holds `result` (default empty) and the three usage counts, each defaulting to 0; transport errors are re-raised |
| GenericClient.EmptyBaiduReply | api_clients/generic_client.py:83-97 | a reply without `result` and `usage` gives a successful record with an empty response and all three counts 0 |
| GenericClient.BaiduClient.constructor | api_clients/generic_client.py:27-30 | the client starts from the config's keys with no token and expiry 0, so the first call always fetches |
| GenericClient.BaiduClient.TokenRequestOf | api_clients/generic_client.py:37-42 | the token request uses the client-credentials grant with the API and secret keys |
| GenericClient.BaiduClient.GetAccessToken | api_clients/generic_client.py:32-52 | the result and the new cache state (token, expiry) are those of `RefreshToken` on the old state |
| GenericClient.BaiduClient.CallApi | api_clients/generic_client.py:54-102 | the token step updates the cache as `RefreshToken`; a token failure is raised, and otherwise the reply to the built request is normalised by `BaiduRecord` |
| GenericClient.BuildZhipuRequest | api_clients/generic_client.py:113-118 | the request carries the model's name, the prompt message, temperature and max tokens |
| GenericClient.ZhipuCallApi | api_clients/generic_client.py:107-139 | succeeds iff the SDK returns at least one choice; errors are re-raised; the record holds the first choice and the three usage counts |
| GenericClient.BuildGenerationRequest | api_clients/generic_client.py:151-157 | the request carries the model's name, the prompt message, temperature, max tokens and `result_format='message'` |
| GenericClient.AlibabaCallApi | api_clients/generic_client.py:144-180 | succeeds iff the SDK returns status 200 with a choice; any other status raises; the record's usage maps input and output tokens to prompt and completion |
| ClientFactory.ClientMapping | api_clients/__init__.py:12-18 | a found adapter is registered under exactly the looked-up name |
| ClientFactory.MappingRoundTrip | api_clients/__init__.py:12-18 | the lookup and the registered keys are inverse, in both directions |
| ClientFactory.UnknownNameNoAdapter | api_clients/__init__.py:23-29 | any name outside the five keys yields no client |
| ClientFactory.CreateClient | api_clients/__init__.py:20-29 | a client exists iff the name is registered; it is of the registered adapter and holds the config and its name |
| ClientFactory.CreateClientKind | api_clients/__init__.py:20-29 | creating under a registered key builds exactly that adapter over the config |
| ConfigManager.EnabledNames | config_manager.py:49-51 | a name is listed iff some entry under it has a truthy `enabled` (Python truthiness of the YAML scalar; absent is false) |
| ConfigManager.BuildModel | config_manager.py:55-62 | the name is taken as given; `max_tokens` and `temperature` default to 1000 and 0.7; the optional parameters are copied |
| ConfigManager.BuildModelRoundTrip | config_manager.py:55-62 | writing a model config back as an entry and normalising it gives the same config |
| ConfigManager.BuildPlatform | config_manager.py:64-71 | the platform is enabled, carries its name and models, `api_key` defaults to empty, and the URLs and keys are copied |
| ConfigManager.ModelsOf | config_manager.py:53-62 | one config per entry of `models` (default none), in order |
| ConfigManager.ParseModels | config_manager.py:53-62 | succeeds iff every entry has `name`, and then yields each entry normalised in order; otherwise raises `KeyError: 'name'` |
| ConfigManager.ParseFails | config_manager.py:54-56 | one enabled platform with an unnamed model makes the whole parse fail |
| ConfigManager.ConfigManager.constructor | config_manager.py:29-33 | the manager holds the loaded document and starts with no platforms |
| ConfigManager.ConfigManager.ParsePlatforms | config_manager.py:46-71 | passes iff every enabled platform's models are named; then the platform names are the enabled ones in document order, and each maps to its normalised config |
| ConfigManager.ConfigManager.GetPlatformConfig | config_manager.py:73-74 | found iff the platform was kept, and then it is that platform's config |
| ConfigManager.ConfigManager.GetEnabledPlatforms | config_manager.py:76-77 | the result is the kept names in insertion order, which `ParsePlatforms` and `Load` prove is the enabled entries' document order; each name appears once, and they are exactly the kept platforms |
| ConfigManager.ConfigManager.GetTestPrompts | config_manager.py:79-80 | raises iff no document was loaded; missing sections give the empty list; otherwise gives the listed prompts |
| ConfigManager.ConfigManager.GetTestSettings | config_manager.py:82-83 | raises iff no document was loaded; a missing section gives the empty settings |
| ConfigManager.Load | config_manager.py:29-71 | a missing file gives a manager with no platforms; otherwise loading succeeds iff the parse does, with the enabled names in order, each mapped to its entry normalised by `BuildPlatform` (defaults filled in, models normalised) |
| LLMTester.TestSingleModel | llm_tester.py:42-49 | a record exists iff the platform has a client, and then it is that client's `test_model` result |
| LLMTester.SingleModelOutcome | llm_tester.py:42-49 | with a monotone clock and a conforming adapter, the record has non-negative latency, the right model and prompt, and `success` iff the call did not raise |
| LLMTester.ModelsToTest | llm_tester.py:67-69 | without a truthy model filter, the platform's models unchanged; with one, the kept models are exactly the platform's models of that name |
| LLMTester.ModelsToTestExact | llm_tester.py:68-69 | with a truthy model filter, exactly the models of that name, each occurrence kept, in their original order |
| LLMTester.PlatformsToTest | llm_tester.py:60 | a truthy platform filter gives exactly that platform; otherwise the client names in order |
| LLMTester.PromptJobsAt | llm_tester.py:90-92 | one job per prompt, in prompt order |
| LLMTester.ModelJobsLength | llm_tester.py:89-90 | a platform has `models x prompts` jobs |
| LLMTester.ModelJobsAt | llm_tester.py:89-90 | the job at `m*|prompts| + p` is model `m` with prompt `p` (model-major order) |
| LLMTester.AnnouncedCountsJobs | llm_tester.py:59-71 | the announced total equals the number of jobs the loops run |
| LLMTester.JobsRespectFilters | llm_tester.py:80-92 | every job is for a listed, configured platform, one of its models matching the model filter, and a configured prompt |
| LLMTester.ModelJobsMember | llm_tester.py:89-90 | every job of a platform pairs that platform with one of its models and one of the prompts |
| LLMTester.Record | llm_tester.py:91-101 | a kept record carries the prompt's category (default `general`) and the client's `test_model` result |
| LLMTester.RunAbsorbs | llm_tester.py:91 | once a prompt without `prompt` has raised, no further job changes the state |
| LLMTester.RunConcat | llm_tester.py:80-114 | running two job lists one after the other is running their concatenation |
| LLMTester.RunAppendsOnly | llm_tester.py:97-101 | earlier results are kept as a prefix, and at most one record is added per job |
| LLMTester.RunRaises | llm_tester.py:91 | the run raises iff some job's prompt has no `prompt` key, and the error is `KeyError: 'prompt'` |
| LLMTester.RunComplete | llm_tester.py:80-114 | when every job has a client and a prompt text, exactly one record per job is appended, in job order, and nothing raises |
| LLMTester.NoClientNoResults | llm_tester.py:97-99 | jobs for platforms without a client add no record, although they are counted in the announced total |
| LLMTester.SinglePlatformRun | llm_tester.py:80-114 | for one platform, the run appends the announced number of records, and the one at `|before| + m*|prompts| + p` is model `m` on prompt `p` |
| LLMTester.SingleRunJobs | llm_tester.py:80-89 | the jobs for one configured platform are its filtered models crossed with the prompts |
| LLMTester.ModelJobsRunnable | llm_tester.py:89-97 | jobs of a platform with a client and well-formed prompts can all be run |
| LLMTester.SummaryOf | llm_tester.py:184-187 | the rate lies in 0..100 and is 100 iff every record succeeded; without successes everything is 0; the average latency lies between the successful minimum and maximum |
| LLMTester.Summary | llm_tester.py:171-195 | one row per distinct (platform, model), in order of first appearance |
| LLMTester.SummaryPartitions | llm_tester.py:175-182 | the rows' groups together hold every record exactly once (as a multiset) |
| LLMTester.AccSnoc | llm_tester.py:175-182 | one more record updates its group's counters, latency list and token list as the loop body does |
| LLMTester.TallyOrder | llm_tester.py:173-177 | the `defaultdict`'s key order is the order in which keys first appear |
| LLMTester.TallyEntries | llm_tester.py:175-182 | every entry holds the counts and lists of exactly its own group |
| LLMTester.TalliedSummary | llm_tester.py:184-195 | the rows built from the tally are exactly the specified summary |
| LLMTester.Tally | llm_tester.py:173-182 | the loop leaves the key order and the per-key figures of every group seen |
| LLMTester.SummaryRows | llm_tester.py:184-195 | one row per tallied key, in key order, computed from its entry |
| LLMTester.Truncate | llm_tester.py:137 | the kept text is the first `min(n, length)` characters |
| LLMTester.SaveRecord | llm_tester.py:131-144 | the saved response is a prefix of at most 500 characters, kept whole when short; every other field is copied |
| LLMTester.JoinPath | llm_tester.py:130 | an absolute second part wins; otherwise the parts are joined with one separator; the path always ends with the file name |
| LLMTester.ClientStep | llm_tester.py:33-40 | one more enabled platform adds a client iff the factory knows its name |
| LLMTester.ClientAdded | llm_tester.py:35-37 | adding the factory's client for a new registered platform keeps the clients in step with the names |
| LLMTester.Tester.constructor | llm_tester.py:23-29 | no results; the clients are exactly the enabled platforms the factory knows, in order, each built by the factory |
| LLMTester.Tester.InitializeClients | llm_tester.py:31-40 | the clients are built for the enabled platforms with an adapter, in order, each by the factory; results are untouched |
| LLMTester.Tester.TestPrompts | llm_tester.py:90-114 | the state after the prompt loop is the run of that model's jobs |
| LLMTester.Tester.TestModels | llm_tester.py:89-114 | the state after the model loop is the run of the platform's jobs |
| LLMTester.Tester.RunTests | llm_tester.py:51-116 | no prompts returns early; a config error is raised; otherwise the announced total is reported and the results are exactly the run of all jobs |
| LLMTester.Tester.DisplaySummary | llm_tester.py:158-198 | no rows without results; otherwise the rows are the specified summary |
| LLMTester.Tester.SaveResults | llm_tester.py:118-156 | nothing happens without results; otherwise the JSON and CSV paths are stamped under the results path (default `results/`), and one saved record is built per result, in order |
| Seqs.UniqueFirstAppearance | result_analyzer.py:58 | `unique()` lists the distinct values in order of first appearance |
| Stats.Percent | result_analyzer.py:62 | a rate of `part` out of `whole` lies in 0..100; it is 100 iff all succeeded and 0 iff none did |
| Metrics.Successes | result_analyzer.py:60 | the successful rows are among the rows, and a row is among them iff it is one of the rows and has `success` |
| Metrics.SuccessesExact | result_analyzer.py:60 | the successful rows are exactly the rows with `success`, each occurrence kept (so counts are exact), in row order |
| Seqs.SelectAt | result_analyzer.py:59-60 | a boolean-mask selection keeps the matching rows in their original order: its `j`-th row is the row at the `j`-th matching position |
| Seqs.SelectCount | result_analyzer.py:59-60 | a selection holds each matching row as often as the frame does, and no other row |
| Metrics.TokenCountsBound | result_analyzer.py:68-72 | there are no more token counts than rows |
| Metrics.TokenCountsComplete | result_analyzer.py:68-72 | when every usage has `total_tokens`, the counts are those values row by row |
| Metrics.TokenCountsNone | result_analyzer.py:68-72 | when no usage has `total_tokens`, there are no counts (so the average is 0) |
| Metrics.CollectTokens | result_analyzer.py:68-71 | the loop collects exactly the specified token counts |
| ResultAnalyzer.Greatest | result_analyzer.py:30 | the last name in sorted order is one of the names |
| ResultAnalyzer.GreatestIsMax | result_analyzer.py:30 | every other name sorts strictly before it |
| ResultAnalyzer.LatestResultsFile | result_analyzer.py:25-30 | none iff no name ends in `.json`; otherwise a `.json` name after which every other `.json` name sorts |
| ResultAnalyzer.LoadResult | result_analyzer.py:18-38 | nothing to load exactly when the directory is missing or holds no `.json` file; otherwise the result is reading the latest file under the directory |
| ResultAnalyzer.Prepared | result_analyzer.py:42-46 | a cached frame is never reloaded, and a frame handed to the analyses is non-empty |
| ResultAnalyzer.PlatformStats | result_analyzer.py:58-72 | the rate lies in 0..100 and is 100 iff the whole group succeeded; without successes all figures are 0; otherwise min <= avg <= max and each successful latency lies in [min, max] |
| ResultAnalyzer.PlatformTableOf | result_analyzer.py:58-81 | one row per distinct platform, in order of first appearance |
| ResultAnalyzer.PlatformTableCovers | result_analyzer.py:58-59 | every row's platform has a table row |
| ResultAnalyzer.PlatformTableOrder | result_analyzer.py:58 | the table's platforms are distinct and follow first appearance |
| ResultAnalyzer.PlatformStatsRow | result_analyzer.py:59-72 | the row computed for a platform is the specified one |
| ResultAnalyzer.PlatformTable | result_analyzer.py:58-81 | the loop builds exactly the specified table |
| ResultAnalyzer.PairLessTotal | result_analyzer.py:103 | the group order is total on distinct keys |
| ResultAnalyzer.PairLessTransitive | result_analyzer.py:103 | the group order is transitive |
| ResultAnalyzer.SortedDistinct | result_analyzer.py:103 | strictly ascending keys are distinct |
| ResultAnalyzer.Insert | result_analyzer.py:103 | inserting adds exactly one key |
| ResultAnalyzer.InsertSorted | result_analyzer.py:103 | inserting a new key into an ascending list keeps it strictly ascending |
| ResultAnalyzer.SortedKeys | result_analyzer.py:103 | the groups are exactly the (platform, model) pairs present |
| ResultAnalyzer.SortedKeysSorted | result_analyzer.py:103-105 | the groups come in strictly ascending (platform, model) order, each once |
| ResultAnalyzer.ModelStats | result_analyzer.py:105-115 | the rate lies in 0..100 and is 100 iff the whole group succeeded; without successes all figures are 0; otherwise avg lies between the successful min and max |
| ResultAnalyzer.ModelTableOf | result_analyzer.py:103-123 | one row per group, in `groupby` order |
| ResultAnalyzer.ModelGroupsPartition | result_analyzer.py:103-105 | the groups are ascending and together hold every row exactly once |
| ResultAnalyzer.ModelStatsRow | result_analyzer.py:106-115 | the row computed for a group is the specified one |
| ResultAnalyzer.ModelTable | result_analyzer.py:103-123 | the loop builds exactly the specified table |
| ResultAnalyzer.CategoryListingOf | result_analyzer.py:136-160 | no lines without a `category` column; otherwise one line per row |
| ResultAnalyzer.CategoryPartition | result_analyzer.py:149-152 | grouping by category rearranges the rows without losing or duplicating any |
| ResultAnalyzer.AddLines | result_analyzer.py:152-160 | the inner loop appends one line per row of the category, in order |
| ResultAnalyzer.CategoryListing | result_analyzer.py:136-160 | the nested loops produce exactly the specified listing |
| ResultAnalyzer.FastestIndex | result_analyzer.py:193-195 | none iff no row succeeded; otherwise the first successful row with the least latency |
| ResultAnalyzer.FastestUnique | result_analyzer.py:195 | the fastest row is unique (ties go to the earliest) |
| ResultAnalyzer.PlatformLineOf | result_analyzer.py:204-211 | the rate lies in 0..100; the average is `N/A` iff the platform had no success, and otherwise lies between its min and max |
| ResultAnalyzer.PlatformLinesOf | result_analyzer.py:202-212 | one line per distinct platform |
| ResultAnalyzer.PlatformLinesAgree | result_analyzer.py:202-212 | the report's platform lines agree with the comparison table in platform, rate and (when present) average |
| ResultAnalyzer.PlatformLines | result_analyzer.py:202-212 | the loop builds exactly the specified lines |
| ResultAnalyzer.ReportPath | result_analyzer.py:218-223 | a truthy output file is used as given; otherwise a stamped `report_*.md` under the results directory |
| ResultAnalyzer.ReportOf | result_analyzer.py:173-228 | the counts; `1 <= platforms <= models <= tests`; the rate lies in 0..100 and is 0 iff nothing succeeded; the fastest entry exists iff something succeeded and is the first least-latency success; the platform lines and the output path |
| ResultAnalyzer.NoSuccesses | result_analyzer.py:193-194 | the success frame is empty iff no row succeeded |
| ResultAnalyzer.PlatformsOfGroups | result_analyzer.py:182-183 | every platform present has at least one (platform, model) group |
| ResultAnalyzer.ReportCounts | result_analyzer.py:182-184 | a non-empty frame has at least one platform, no more platforms than groups, and no more groups than rows |
| ResultAnalyzer.ResultAnalyzer.constructor | result_analyzer.py:13-16 | the analyzer holds the results directory and no data |
| ResultAnalyzer.ResultAnalyzer.LoadLatestResults | result_analyzer.py:18-38 | the result is the specified load; a loaded frame replaces the cached data, and otherwise the cache is kept |
| ResultAnalyzer.ResultAnalyzer.Prepare | result_analyzer.py:42-46 | the lazy load: the cache and the frame handed on are as specified |
| ResultAnalyzer.ResultAnalyzer.ComparePlatforms | result_analyzer.py:40-84 | nothing for a missing or empty frame; otherwise the specified platform table |
| ResultAnalyzer.ResultAnalyzer.CompareModels | result_analyzer.py:86-126 | nothing for a missing or empty frame; otherwise the specified model table |
| ResultAnalyzer.ResultAnalyzer.AnalyzeByCategory | result_analyzer.py:128-163 | nothing for a missing or empty frame or without a category column; otherwise the specified listing |
| ResultAnalyzer.ResultAnalyzer.GenerateReport | result_analyzer.py:165-228 | nothing for a missing or empty frame; otherwise the specified report |

## Left out

- Console output, `rich` tables and progress bars, logging, and the `main()` entry points: this is presentation only. The model returns the rows and figures that would be printed.
- Exception texts are approximated. A provider SDK's own error text is passed through as the SDK oracle's `error`. The messages the code builds itself (Baidu `error_code`, Alibaba status, missing token) are fixed strings, because the model does not format the reply objects.
- `KeyboardInterrupt` and other non-`Exception` errors are not modelled.
- The report's Markdown text (the f-string, `to_markdown`) and the number formats (`.1f`, `.2f`, `.0f`) are left out: they are formatting only. `Report` holds the values the text is built from, unrounded.
- Numbers are modelled as unbounded reals and integers. IEEE rounding of the means and percentages is not modelled.
- `datetime.now().strftime(...)` is not modelled: the timestamps are parameters.
- File I/O is left out. This covers `os.makedirs`, `open`, `json.dump` and `to_csv`, and the analyzer's `open` and `json.load`. `SaveResults` returns the file paths and the record list it would write. The analyzer receives the directory listing and a `read` function from file name to frame.
- The JSON round trip between the saved records and the loaded frame is not modelled. The row type is taken to be the saved record itself, including for files written by other tools.
- pandas `NaN` is not modelled. Nor is a `category` column that exists for only some rows: a frame either has the column for every row or not at all.
- `raw_response` is not modelled: it is debugging payload that nothing reads.
- The network and the provider SDKs (`openai`, `anthropic`, `requests`, `zhipuai`, `dashscope`) are not modelled: they are function parameters.
- The orchestrator gets each call's outcome from an oracle. It does not thread the Baidu token cache through `run_tests`: the token cache is proved separately in `BaiduClient`.
- ConfigManager.ConfigManager.ParsePlatforms: assumes the YAML mapping has distinct keys, which a YAML loader's mapping guarantees. It also takes the document as already parsed: YAML syntax and explicit `null` values are not modelled, and `.get(k, d)` is read as "absent gives `d`". The exception is `enabled`, which is a YAML scalar (null, boolean, integer, real or string) tested with Python truthiness, so `enabled: 1` and `enabled: "false"` both enable a platform; lists and mappings as `enabled` values are not modelled.
- LLMTester.Tester.InitializeClients: requires that no clients exist yet. The source calls it exactly once, from the constructor, on an empty dict.
- Concurrency: the source has none.
