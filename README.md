# Browser task runner and result extraction, in Dafny

A model of the orchestration core of an LLM-driven browser testing tool. The
tool runs a natural-language test instruction with a `browser_use` agent and
then recovers the agent's final answer from the execution history. Three
pieces are modelled:

- **Result extraction** (`result_extraction.dfy`, over the JSON values of
  `json.dfy`): `extract_final_result` of `src/app.py`. It is a pure function
  over a JSON document. Python's `None` is `JNull`, so a returned `None` and a
  returned JSON `null` are the same value, as they are in Python. Each place
  where the Python code raises on an ill-typed document is an explicit
  `Crash(site)` outcome, distinct from "not found":
  - `reversed` on a `history` that is `null`, a bool or a number;
  - `.get` on a `model_output` that is present but not a dict;
  - iterating an `action` value that is `null`, a bool or a number;
  - `.get` on an action that is not a dict. A non-empty string `action` is
    iterated character by character, so it crashes here too.

  A string `history` is iterated by character, and a dict `history` by its
  keys. Both yield only strings, which the loop skips, so both give `None`.
  The function is modelled on immutable values, so it cannot modify the
  document it reads.
- **Configuration resolution** (`config.dfy`, `provider_selection.dfy`):
  `_get_browser_config` and `get_llm` of `src/services/browser_task_runner.py`.
  `ResolveBrowser` gives the browser as a local, remote-CDP or remote-WSS spec,
  or the `ValueError` for an unsupported cloud provider. `Kwargs` gives the
  keyword arguments that spec hands to `BrowserConfig`. The method
  `GetBrowserConfig` builds that dict in place, as the source does (create,
  pop, insert), and is proved to produce `Kwargs(ResolveBrowser(cfg))`.
  `GetLlm` gives the LangChain constructor and the exact arguments passed.
  The `groq` arm is a `NameError`, because `ChatGroq` is never imported
  (imports at `src/services/browser_task_runner.py:4-6`).
- **Runner lifecycle** (`task_runner.dfy`): the class `BrowserTaskRunner`. It
  holds the one browser handle `__init__` assigns. `browserOpen` records
  whether the runner has not yet called `close` on that handle; `closeCount`
  counts those calls. A `log` records the runner's effects in order: run
  directory created, agent run, history saved, handle closed. `__init__` is
  `NewBrowserTaskRunner` plus the constructor. `execute_task` is
  `ExecuteTask`, with its `try`/`finally` in `RunAgent`, and `close` is
  `Close`. `ExecuteTask` takes as parameters the timestamp and the outcome of
  each external call: LLM client construction, `Agent(...)`, `agent.run`, and
  `save_history`. Each outcome is a return, an `Exception`, or a
  `BaseException` that is not an `Exception` (`asyncio.CancelledError`,
  `KeyboardInterrupt`). It is proved against the specification functions
  `Setup`, `TaskResult` and `TaskEvents`. The lemmas about those functions
  state the lifecycle facts:
  - the close in `finally` runs on every path into the `try`;
  - an `Exception` from the run or the save is wrapped;
  - a `BaseException` from them passes through unwrapped, after the close;
  - failures before the `try` are neither wrapped nor followed by a close,
    and leave behind only the run directory `mkdir` created.

  No method assigns the handle again after the constructor.

`ConfigManager` is not part of this model. Its store is a `map<string,
string>`. `get_config(key, default)` returns the stored value or the default.
`get_config(key)` without a default returns the empty string, which is how
`src/app.py:81-83` uses it (it takes `len` of the result).

Behaviour of the code that the model makes explicit:
- Extraction is not total. It raises on the ill-typed shapes listed above.
- `get_llm()` and `Agent(...)` run before the `try`. Their exceptions
  propagate unwrapped, and the handle is not closed on that path.
- `groq` is accepted as a provider name, but that arm raises `NameError`.
- The handle is assigned only in `__init__`. Every `execute_task` that
  reaches the `try` closes it, and a later call runs its agent with the same
  handle.

## Model

| member | source | states |
|---|---|---|
| ResultExtraction.ExtractFinalResult | src/app.py:89-104 | a dict with `final_result` returns that value as-is, whatever else it holds; a non-dict, or a dict with neither key, returns None; a crash happens only in a dict with `history` and no `final_result`; the history-site crash happens exactly when `history` is not reversible |
| ResultExtraction.HistoryEntries | src/app.py:94 | `reversed(history)` raises exactly for None, bool and int; lists, strings and dicts are iterated |
| ResultExtraction.ActionsOf | src/app.py:96-97 | a missing `model_output`, or a dict `model_output` without `action`, gives no actions; the function raises at the `model_output` site exactly when `model_output` is present and not a dict, and at the iteration site exactly when `action` is present in a dict `model_output` and is None, a bool or a number |
| ResultExtraction.ActionStep | src/app.py:98-103 | an action that is not a dict raises at `action.get`; a dict action whose `done` is neither a dict nor a string moves on |
| ResultExtraction.EntryStep | src/app.py:95-103 | an entry that is not a dict is skipped |
| ResultExtraction.ScanActions | src/app.py:98-103 | the inner loop moves on exactly when no action stops it; otherwise its outcome is that of the first action that stops, all earlier ones moving on |
| ResultExtraction.ScanHistory | src/app.py:94-103 | if no entry stops the scan the result is None; for every entry that stops with every newer entry moving on, the result is that entry's outcome (newest first) |
| ResultExtraction.MostRecentWins | src/app.py:93-103 | the newest entry that stops the scan decides the result; older entries are not consulted |
| ResultExtraction.NothingFoundIsNone | src/app.py:93-104 | with no qualifying entry in `history`, the result is None |
| ResultExtraction.SingletonActionIsList | src/app.py:97 | a single action dict is treated exactly like a one-element action list |
| ResultExtraction.FirstStoppingActionWins | src/app.py:98-103 | within one entry actions are examined in list order and the first one that stops decides |
| ResultExtraction.DoneValue | src/app.py:99-103 | a dict `done` returns its `text` field (None if absent); a string `done` is returned verbatim |
| ResultExtraction.MissingTextStopsScan | src/app.py:100-101 | a `done` dict without `text` in the newest entry returns None and stops the scan, whatever older entries hold |
| ResultExtraction.ModelOutputNotDictCrashes | src/app.py:96 | a non-dict `model_output` in the newest entry raises instead of yielding "not found" |
| ResultExtraction.ActionNotDictCrashes | src/app.py:98-99 | a non-dict action reached before any `done` raises instead of being skipped |
| ResultExtraction.StringHistoryIsNone | src/app.py:94-95 | a string `history` is iterated by character, every character is skipped, and the result is None |
| ResultExtraction.NoHistoryCrashFromScan | src/app.py:94-103 | the loops themselves never raise the TypeError of `reversed` |
| ResultExtraction.ExampleNewestDoneWins | src/app.py:93-103 | of two entries that each end in a `done` with `text`, the later one's text is returned |
| ResultExtraction.ExampleSingletonStringDone | src/app.py:97-103 | a single action object with a string `done` returns that string |
| Config.Lower | src/services/browser_task_runner.py:28-30 | `str.lower()` on ASCII: each character is lower-cased on its own, an upper-case letter becomes the letter 32 code points above it, no upper-case letter is left and nothing else changes |
| Config.LowerIdempotent | src/services/browser_task_runner.py:28-30 | lower-casing is idempotent, so the lower-cased settings are case-insensitive |
| ProviderSelection.ResolveBrowser | src/services/browser_task_runner.py:27-57 | the browser is local exactly when `BROWSER_TYPE` (lower-cased, default `local`) is not `remote`, headless exactly when `BROWSER_HEADLESS` (lower-cased, default `true`) is `true`; resolution fails exactly for a remote type with a provider outside the four, with message "Unsupported cloud provider: " + provider |
| ProviderSelection.Kwargs | src/services/browser_task_runner.py:32-53 | local mode passes exactly `headless` and `disable_security = True`; remote mode passes neither and exactly one URL key, `cdp_url` or `wss_url` |
| ProviderSelection.GetBrowserConfig | src/services/browser_task_runner.py:27-57 | building the dict in place yields the keyword arguments of the resolved browser, or the same error |
| ProviderSelection.RemoteFollowsCloudTable | src/services/browser_task_runner.py:37-55 | in remote mode, browserbase, steeldev and lightpanda give a `cdp_url` and browserless a `wss_url`, each the provider's template followed by its own API key; any other provider fails |
| ProviderSelection.RemoteUrlCarriesKey | src/services/browser_task_runner.py:42-53 | the remote URL is the template prefix followed by the configured key verbatim |
| ProviderSelection.RemoteUrlDeterminesKey | src/services/browser_task_runner.py:42-53 | for one provider, equal URLs imply equal keys (the key is recoverable from the URL) |
| ProviderSelection.BrowserTypeIgnoresCase | src/services/browser_task_runner.py:28 | the case of `BROWSER_TYPE` does not change the browser |
| ProviderSelection.GetLlm | src/services/browser_task_runner.py:59-102 | `get_llm` fails exactly for `groq`, with a NameError for `ChatGroq`; anthropic, azure and google select their own clients exactly; every non-Azure client gets `MODEL_NAME` (default `gpt-4`); deepseek uses the OpenAI client with base URL `https://api.deepseek.com/v1`; any other provider gets the plain OpenAI client with `OPENAI_API_KEY`; every client gets temperature 0.7 |
| ProviderSelection.LlmUsesProviderKey | src/services/browser_task_runner.py:63-102 | each client is constructed with its own provider's API key, OpenAI's for unrecognised providers |
| ProviderSelection.AzureIgnoresModelName | src/services/browser_task_runner.py:69-77 | Azure ignores `MODEL_NAME`, uses `AZURE_DEPLOYMENT_NAME` as both deployment and model name, passes `AZURE_OPENAI_ENDPOINT` as the endpoint, and takes the API version from `AZURE_OPENAI_API_VERSION`, default `2024-08-01-preview` |
| ProviderSelection.LlmProviderIgnoresCase | src/services/browser_task_runner.py:60 | the case of `MODEL_PROVIDER` does not change the client |
| TaskRunner.HistoryPath | src/services/browser_task_runner.py:107-109 | the history file lies inside the run directory `<folder>/<ts>` that `mkdir` creates; its length is the folder's plus twice the timestamp's plus the fixed separators and name parts |
| TaskRunner.HistoryPathDeterminesTimestamp | src/services/browser_task_runner.py:106-109 | two runs with different timestamps never share a history path |
| TaskRunner.Setup | src/services/browser_task_runner.py:105-116 | the agent is built exactly when `get_llm`, the client constructor and `Agent(...)` all succeed, with the task, the configured client and `USE_VISION` (lower-cased, default `false`) |
| TaskRunner.CloseOnEveryPathIntoTry | src/services/browser_task_runner.py:107-125 | every path into the `try` closes the handle exactly once, as its last effect; a failure before the `try` leaves only the run directory created at line 108 and closes nothing |
| TaskRunner.ExecutionErrorsWrapped | src/services/browser_task_runner.py:111-123 | an `Exception` from the run or the save becomes `BrowserTaskExecutionError("Task execution failed: " + message)`, exactly then; a `BaseException` that is not an `Exception` from them propagates unchanged, exactly then; setup failures propagate unchanged, exactly then |
| TaskRunner.SuccessfulRun | src/services/browser_task_runner.py:105-121 | a completed task ran its agent with 50 steps, after creating `<folder>/<ts>`, then saved the history to `<folder>/<ts>/history_<ts>.json`, then closed the handle, and returns that path with the timestamp |
| TaskRunner.SaveOnlyAfterRun | src/services/browser_task_runner.py:119-121 | the history is saved only as the third effect, after the run directory and a run that returned, and the saved path is the returned path |
| TaskRunner.GroqNeverRuns | src/services/browser_task_runner.py:85-90 | with the `groq` provider, `execute_task` raises the NameError before the `try`: it has created the run directory, runs nothing and closes nothing |
| TaskRunner.BrowserTaskRunner.constructor | src/services/browser_task_runner.py:25 | a new runner has not closed its handle and has no effects |
| TaskRunner.BrowserTaskRunner.BuildAgent | src/services/browser_task_runner.py:105-116 | the agent-construction statement builds what `Setup` specifies, or raises what it specifies |
| TaskRunner.BrowserTaskRunner.CloseBrowser | src/services/browser_task_runner.py:125 | closing records the call on the handle, counts one close and logs it |
| TaskRunner.BrowserTaskRunner.RunAgent | src/services/browser_task_runner.py:118-125 | the `try` block with its `except Exception` and `finally` returns or raises `TryResult`, logs `TryEvents` and then the close, and closes the handle once |
| TaskRunner.BrowserTaskRunner.ExecuteTask | src/services/browser_task_runner.py:104-125 | returns or raises `TaskResult`; appends `TaskEvents` to the log; closes exactly once unless setup failed; the handle counts as not yet closed afterwards only if it was so before and setup failed |
| TaskRunner.BrowserTaskRunner.Close | src/services/browser_task_runner.py:127-128 | `close()` calls `close` on the handle again, even after a task closed it |
| TaskRunner.NewBrowserTaskRunner | src/services/browser_task_runner.py:19-57 | construction fails exactly when browser resolution fails, `BrowserConfig(**config_params)` raises or `Browser(config=...)` raises, and propagates the first of those exceptions unchanged; otherwise the new runner has not closed its handle, which was created with the resolved keyword arguments |

## Left out

- The Streamlit UI of `src/app.py` (page setup, styling, sidebar, buttons, rendering, stdout/stderr redirection), `src/tests/predefined_tests.py` (static prompt strings) and `src/utils/file_utils.py` (thin `os.stat` and `Path.owner` wrappers): presentation, static data and OS calls.
- JSON floating-point numbers: the JSON datatype has no float case. In Python a float is neither a dict nor a string, and iterating it raises like an int, so it would behave as `JInt` does.
- `load_dotenv`, the `HISTORY_DIR` environment variable, the `datetime.now()` format, `json.load` and `HistoryCleaner`: the history folder and the timestamp are parameters. `mkdir` is modelled only as its effect, the `RunDirectoryCreated` event before setup; a failing `mkdir` (before the `try`) is not modelled.
- The state of the `browser_use` `Browser` object: whether constructing it launches anything, and whether a closed `Browser` relaunches when an agent uses it again, are library behaviour outside this model. `browserOpen` only records whether the runner has called `close` on its handle.
- The real LangChain clients, `BrowserConfig`, `Browser` and `Agent`: they appear as spec records, and whether each constructor call, `agent.run` and `save_history` returns or raises is a parameter. `await self.browser.close()` is assumed to return. A close that raises inside `finally` would replace the exception, and that is not modelled.
- `ConfigManager` itself (it is not part of this model): it is a snapshot map taken when the runner is built. Later `set_config` calls are not modelled.
- `str.lower()` beyond ASCII: `Lower` folds only `A`-`Z`.
- Path normalisation of `pathlib` (duplicate or trailing separators in the history folder): the history path is plain concatenation with `/`.
- asyncio: the awaits in `execute_task` and `close` are strictly sequential, so the model is sequential.
- ResultExtraction.HistoryEntries: a dict `history` is modelled as yielding no entries, not its keys. Every key is a string that the loop skips, so the result is the same.
