/**
 * The lifecycle of `BrowserTaskRunner` in src/services/browser_task_runner.py:
 * `__init__` assigns the one browser handle `self.browser`, `execute_task`
 * creates the run directory, runs one agent with that handle and calls its
 * `close` in a `finally`, and `close` calls it again.
 *
 * The clock, the LangChain client and `Agent` constructors, `agent.run` and
 * `agent.save_history` are outside the model: the timestamp and the outcome of
 * each of those calls (it returns, or raises) are parameters. The runner
 * records its effects on the file system and the browser handle in `log`.
 */
module TaskRunner {
  import opened Wrappers
  import opened Config
  import opened ProviderSelection

  /**
   * The outcome of a call the model does not look inside: it returns, raises an
   * `Exception`, or raises a `BaseException` that is not an `Exception`
   * (`asyncio.CancelledError`, `KeyboardInterrupt`), which `except Exception`
   * does not catch.
   */
  datatype StepResult = Ok | Raised(message: string) | Interrupted(message: string)

  /** The outcomes of the external calls one `execute_task` makes, in the order it makes them. */
  datatype Externals = Externals(llmBuild: StepResult, agentBuild: StepResult, run: StepResult, save: StepResult)

  /** The arguments `Agent(...)` is constructed with, besides the runner's own browser handle. */
  datatype AgentSpec = AgentSpec(task: string, llm: LlmSpec, useVision: bool)

  /** An effect of the runner, in the order it happens. */
  datatype Event =
    | RunDirectoryCreated(path: string)
    | AgentRun(agent: AgentSpec, maxSteps: nat)
    | HistorySaved(path: string)
    | BrowserClosed

  /** The exceptions raised before the `try`: they propagate as they are. */
  datatype SetupError =
    | LlmUnavailable(error: LlmError)          // `get_llm` raised (the `groq` arm)
    | LlmConstructionFailed(cause: StepResult)   // the LangChain client constructor raised
    | AgentConstructionFailed(cause: StepResult) // `Agent(...)` raised

  /** What `execute_task` returns or raises. */
  datatype TaskOutcome =
    | Completed(historyPath: string, timestamp: string)
    | BrowserTaskExecutionError(message: string)
    | Propagated(cause: StepResult)  // a BaseException of the run or the save, passed on after the close
    | SetupFailed(error: SetupError)

  const MaxSteps: nat := 50
  const FailurePrefix := "Task execution failed: "

  /** `USE_VISION` lower-cased is `true`, default `false`. */
  function UseVision(cfg: ConfigStore): bool
  {
    Lower(GetConfig(cfg, "USE_VISION", "false")) == "true"
  }

  /** `<history_folder>/<timestamp>`, the directory of one run. */
  function RunDirectory(historyFolder: string, timestamp: string): string
  {
    historyFolder + "/" + timestamp
  }

  /** `<history_folder>/<timestamp>/history_<timestamp>.json`. */
  function HistoryPath(historyFolder: string, timestamp: string): (p: string)
    ensures |p| == |historyFolder| + 2 * |timestamp| + 15
    ensures var dir := RunDirectory(historyFolder, timestamp) + "/";
            |dir| <= |p| && p[..|dir|] == dir
  {
    RunDirectory(historyFolder, timestamp) + "/history_" + timestamp + ".json"
  }

  /** Distinct runs never share a history file: the path determines the timestamp. */
  lemma HistoryPathDeterminesTimestamp(historyFolder: string, t1: string, t2: string)
    requires HistoryPath(historyFolder, t1) == HistoryPath(historyFolder, t2)
    ensures t1 == t2
  {
    var start := |historyFolder| + 1;
    assert |t1| == |t2|;
    assert HistoryPath(historyFolder, t1)[start..start + |t1|] == t1;
    assert HistoryPath(historyFolder, t2)[start..start + |t2|] == t2;
  }

  /** The agent `Agent(task=..., llm=self.get_llm(), use_vision=...)` builds, or what is raised first. */
  function Setup(cfg: ConfigStore, task: string, ext: Externals): (r: Result<AgentSpec, SetupError>)
    ensures r.Success? ==> GetLlm(cfg).Success? && r.value == AgentSpec(task, GetLlm(cfg).value, UseVision(cfg))
    ensures r.Success? <==> GetLlm(cfg).Success? && ext.llmBuild.Ok? && ext.agentBuild.Ok?
  {
    match GetLlm(cfg)
    case Failure(e) => Failure(LlmUnavailable(e))
    case Success(llm) =>
      if !ext.llmBuild.Ok? then Failure(LlmConstructionFailed(ext.llmBuild))
      else if !ext.agentBuild.Ok? then Failure(AgentConstructionFailed(ext.agentBuild))
      else Success(AgentSpec(task, llm, UseVision(cfg)))
  }

  /** What the `try` block with its `except` clause returns or raises. */
  function TryResult(historyFolder: string, timestamp: string, ext: Externals): TaskOutcome
  {
    if ext.run.Raised? then BrowserTaskExecutionError(FailurePrefix + ext.run.message)
    else if ext.run.Interrupted? then Propagated(ext.run)
    else if ext.save.Raised? then BrowserTaskExecutionError(FailurePrefix + ext.save.message)
    else if ext.save.Interrupted? then Propagated(ext.save)
    else Completed(HistoryPath(historyFolder, timestamp), timestamp)
  }

  /** The effects of the `try` block, before the `finally`. */
  function TryEvents(agent: AgentSpec, historyFolder: string, timestamp: string, ext: Externals): seq<Event>
  {
    [AgentRun(agent, MaxSteps)] +
    (if ext.run.Ok? && ext.save.Ok? then [HistorySaved(HistoryPath(historyFolder, timestamp))] else [])
  }

  /** What one `execute_task` returns or raises. */
  function TaskResult(cfg: ConfigStore, historyFolder: string, timestamp: string, task: string, ext: Externals): TaskOutcome
  {
    match Setup(cfg, task, ext)
    case Failure(e) => SetupFailed(e)
    case Success(_) => TryResult(historyFolder, timestamp, ext)
  }

  /** The effects of one `execute_task`, in order. */
  function TaskEvents(cfg: ConfigStore, historyFolder: string, timestamp: string, task: string, ext: Externals): seq<Event>
  {
    [RunDirectoryCreated(RunDirectory(historyFolder, timestamp))] +
    match Setup(cfg, task, ext)
    case Failure(_) => []
    case Success(agent) => TryEvents(agent, historyFolder, timestamp, ext) + [BrowserClosed]
  }

  /** The number of times the browser handle was closed in a sequence of effects. */
  function Closes(events: seq<Event>): nat
  {
    if events == [] then 0
    else Closes(events[..|events| - 1]) + (if events[|events| - 1] == BrowserClosed then 1 else 0)
  }

  lemma {:induction false} ClosesAppend(a: seq<Event>, b: seq<Event>)
    ensures Closes(a + b) == Closes(a) + Closes(b)
    decreases |b|
  {
    if b == [] {
      assert a + b == a;
    } else {
      var b' := b[..|b| - 1];
      assert (a + b)[..|a + b| - 1] == a + b';
      ClosesAppend(a, b');
    }
  }

  lemma ClosesNone(events: seq<Event>)
    requires BrowserClosed !in events
    ensures Closes(events) == 0
  {
    if events != [] {
      ClosesNone(events[..|events| - 1]);
    }
  }

  /**
   * The close in the `finally` runs exactly once, as the last effect, on every
   * path that enters the `try`; a failure before the `try` leaves only the run
   * directory created before it.
   */
  lemma CloseOnEveryPathIntoTry(cfg: ConfigStore, historyFolder: string, timestamp: string, task: string, ext: Externals)
    ensures var events := TaskEvents(cfg, historyFolder, timestamp, task, ext);
            Closes(events) == (if Setup(cfg, task, ext).Success? then 1 else 0)
    ensures var events := TaskEvents(cfg, historyFolder, timestamp, task, ext);
            events[|events| - 1] == BrowserClosed <==>
            !TaskResult(cfg, historyFolder, timestamp, task, ext).SetupFailed?
    ensures TaskResult(cfg, historyFolder, timestamp, task, ext).SetupFailed? ==>
              TaskEvents(cfg, historyFolder, timestamp, task, ext) ==
              [RunDirectoryCreated(RunDirectory(historyFolder, timestamp))]
  {
    var events := TaskEvents(cfg, historyFolder, timestamp, task, ext);
    if Setup(cfg, task, ext).Success? {
      var body := events[..|events| - 1];
      assert BrowserClosed !in body;
      ClosesNone(body);
      assert events == body + [BrowserClosed];
      ClosesAppend(body, [BrowserClosed]);
    } else {
      ClosesNone(events);
    }
  }

  /**
   * An `Exception` from the run or the save is raised again wrapped, with the
   * original message after "Task execution failed: "; a `BaseException` from
   * them passes through unwrapped; setup failures pass through unchanged.
   */
  lemma ExecutionErrorsWrapped(cfg: ConfigStore, historyFolder: string, timestamp: string, task: string, ext: Externals)
    ensures var r := TaskResult(cfg, historyFolder, timestamp, task, ext);
            r.BrowserTaskExecutionError? <==>
              Setup(cfg, task, ext).Success? && (ext.run.Raised? || (ext.run.Ok? && ext.save.Raised?))
    ensures var r := TaskResult(cfg, historyFolder, timestamp, task, ext);
            r.BrowserTaskExecutionError? ==>
              r.message == FailurePrefix + (if ext.run.Raised? then ext.run.message else ext.save.message)
    ensures var r := TaskResult(cfg, historyFolder, timestamp, task, ext);
            r.Propagated? <==>
              Setup(cfg, task, ext).Success? && (ext.run.Interrupted? || (ext.run.Ok? && ext.save.Interrupted?))
    ensures var r := TaskResult(cfg, historyFolder, timestamp, task, ext);
            r.Propagated? ==> r.cause == (if ext.run.Interrupted? then ext.run else ext.save)
    ensures var r := TaskResult(cfg, historyFolder, timestamp, task, ext);
            r.SetupFailed? <==> Setup(cfg, task, ext).Failure?
    ensures var r := TaskResult(cfg, historyFolder, timestamp, task, ext);
            r.SetupFailed? ==> r.error == Setup(cfg, task, ext).error
  {
  }

  /**
   * The agent runs with a budget of 50 steps and the configured client and
   * vision flag; the history is saved only after the run returned, to the
   * path that is returned together with the timestamp.
   */
  lemma SuccessfulRun(cfg: ConfigStore, historyFolder: string, timestamp: string, task: string, ext: Externals)
    requires TaskResult(cfg, historyFolder, timestamp, task, ext).Completed?
    ensures TaskResult(cfg, historyFolder, timestamp, task, ext) ==
            Completed(HistoryPath(historyFolder, timestamp), timestamp)
    ensures ext.run.Ok? && ext.save.Ok? && GetLlm(cfg).Success?
    ensures TaskEvents(cfg, historyFolder, timestamp, task, ext) ==
            [RunDirectoryCreated(RunDirectory(historyFolder, timestamp)),
             AgentRun(AgentSpec(task, GetLlm(cfg).value, UseVision(cfg)), 50),
             HistorySaved(HistoryPath(historyFolder, timestamp)),
             BrowserClosed]
  {
  }

  /** A history file is written only by a run that returned, and only on the path that is returned. */
  lemma SaveOnlyAfterRun(cfg: ConfigStore, historyFolder: string, timestamp: string, task: string, ext: Externals, i: nat)
    requires var events := TaskEvents(cfg, historyFolder, timestamp, task, ext);
             i < |events| && events[i].HistorySaved?
    ensures i == 2 && ext.run.Ok?
    ensures TaskEvents(cfg, historyFolder, timestamp, task, ext)[1].AgentRun?
    ensures TaskResult(cfg, historyFolder, timestamp, task, ext) ==
            Completed(TaskEvents(cfg, historyFolder, timestamp, task, ext)[i].path, timestamp)
  {
  }

  /** A `groq` configuration fails before the `try`: nothing runs and nothing is closed. */
  lemma GroqNeverRuns(cfg: ConfigStore, historyFolder: string, timestamp: string, task: string, ext: Externals)
    requires LlmProvider(cfg) == "groq"
    ensures TaskResult(cfg, historyFolder, timestamp, task, ext) == SetupFailed(LlmUnavailable(NameError("ChatGroq")))
    ensures TaskEvents(cfg, historyFolder, timestamp, task, ext) == [RunDirectoryCreated(RunDirectory(historyFolder, timestamp))]
  {
  }

  /** A runner and the one browser handle `__init__` assigns to `self.browser`. */
  class BrowserTaskRunner {
    const config: ConfigStore
    const historyFolder: string
    /** The keyword arguments the browser handle was created with. */
    const browserConfig: map<string, Param>
    /** Whether the runner has not yet called `close` on its handle. */
    var browserOpen: bool
    var closeCount: nat
    var log: seq<Event>

    /** The handle counts as open until its first close, and `closeCount` counts the closes in `log`. */
    ghost predicate Valid()
      reads this
    {
      closeCount == Closes(log) && (browserOpen <==> closeCount == 0)
    }

    /** `self.browser = Browser(config=browser_config)`: the only assignment of the handle. */
    constructor (config: ConfigStore, historyFolder: string, browserConfig: map<string, Param>)
      ensures Valid()
      ensures this.config == config && this.historyFolder == historyFolder && this.browserConfig == browserConfig
      ensures browserOpen && closeCount == 0 && log == []
    {
      this.config := config;
      this.historyFolder := historyFolder;
      this.browserConfig := browserConfig;
      browserOpen := true;
      closeCount := 0;
      log := [];
    }

    /** `self.browser.close()`. */
    method CloseBrowser()
      requires Valid()
      modifies this
      ensures Valid()
      ensures !browserOpen && closeCount == old(closeCount) + 1 && log == old(log) + [BrowserClosed]
    {
      ClosesAppend(log, [BrowserClosed]);
      browserOpen := false;
      closeCount := closeCount + 1;
      log := log + [BrowserClosed];
    }

    /**
     * The statement `agent = Agent(task=task, llm=self.get_llm(), use_vision=use_vision,
     * browser=self.browser)` of `execute_task`, with the `use_vision` lookup before it.
     */
    method BuildAgent(task: string, ext: Externals) returns (r: Result<AgentSpec, SetupError>)
      ensures r == Setup(config, task, ext)
    {
      var useVision := Lower(GetConfig(config, "USE_VISION", "false")) == "true";
      var llm := GetLlm(config);
      if llm.Failure? {
        return Failure(LlmUnavailable(llm.error));
      }
      if !ext.llmBuild.Ok? {
        return Failure(LlmConstructionFailed(ext.llmBuild));
      }
      if !ext.agentBuild.Ok? {
        return Failure(AgentConstructionFailed(ext.agentBuild));
      }
      return Success(AgentSpec(task, llm.value, useVision));
    }

    /**
     * The `try` block of `execute_task`, with its `except Exception` clause and
     * its `finally`, for an agent that was built.
     */
    method RunAgent(agent: AgentSpec, timestamp: string, ext: Externals) returns (outcome: TaskOutcome)
      requires Valid()
      modifies this
      ensures Valid()
      ensures outcome == TryResult(historyFolder, timestamp, ext)
      ensures log == old(log) + TryEvents(agent, historyFolder, timestamp, ext) + [BrowserClosed]
      ensures !browserOpen && closeCount == old(closeCount) + 1
    {
      var historyPath := HistoryPath(historyFolder, timestamp);
      ghost var effects := [AgentRun(agent, MaxSteps)];
      log := log + [AgentRun(agent, MaxSteps)];
      if ext.run.Raised? {
        outcome := BrowserTaskExecutionError(FailurePrefix + ext.run.message);
      } else if ext.run.Interrupted? {
        outcome := Propagated(ext.run);
      } else if ext.save.Raised? {
        outcome := BrowserTaskExecutionError(FailurePrefix + ext.save.message);
      } else if ext.save.Interrupted? {
        outcome := Propagated(ext.save);
      } else {
        log := log + [HistorySaved(historyPath)];
        effects := effects + [HistorySaved(historyPath)];
        outcome := Completed(historyPath, timestamp);
      }
      assert effects == TryEvents(agent, historyFolder, timestamp, ext);
      // finally
      ClosesNone(effects);
      ClosesAppend(old(log), effects);
      CloseBrowser();
    }

    /** `execute_task(task)`, at the given timestamp and with the given outcomes of its external calls. */
    method ExecuteTask(task: string, timestamp: string, ext: Externals) returns (outcome: TaskOutcome)
      requires Valid()
      modifies this
      ensures Valid()
      ensures outcome == TaskResult(config, historyFolder, timestamp, task, ext)
      ensures log == old(log) + TaskEvents(config, historyFolder, timestamp, task, ext)
      ensures closeCount == old(closeCount) + (if outcome.SetupFailed? then 0 else 1)
      ensures browserOpen == (old(browserOpen) && outcome.SetupFailed?)
    {
      // timestamp_folder.mkdir(parents=True, exist_ok=True)
      var created := [RunDirectoryCreated(RunDirectory(historyFolder, timestamp))];
      ClosesNone(created);
      ClosesAppend(log, created);
      log := log + created;

      var built := BuildAgent(task, ext);
      if built.Failure? {
        return SetupFailed(built.error);
      }
      outcome := RunAgent(built.value, timestamp, ext);
    }

    /** `close()`. */
    method Close()
      requires Valid()
      modifies this
      ensures Valid()
      ensures !browserOpen && closeCount == old(closeCount) + 1 && log == old(log) + [BrowserClosed]
    {
      CloseBrowser();
    }
  }

  /** The exceptions `__init__` raises; each propagates as it is. */
  datatype InitError =
    | BrowserConfigInvalid(error: ConfigError)     // `_get_browser_config` raised its ValueError
    | BrowserConfigFailed(cause: StepResult)       // `BrowserConfig(**config_params)` raised
    | BrowserConstructionFailed(cause: StepResult) // `Browser(config=browser_config)` raised

  /**
   * `BrowserTaskRunner()`: resolves the browser configuration, which may raise,
   * builds the `BrowserConfig` and then the `Browser`. Whether each of those
   * two library constructors returns or raises is a parameter.
   */
  method NewBrowserTaskRunner(config: ConfigStore, historyFolder: string, configBuild: StepResult, browserBuild: StepResult)
    returns (r: Result<BrowserTaskRunner, InitError>)
    ensures r.Failure? <==> ResolveBrowser(config).Failure? || !configBuild.Ok? || !browserBuild.Ok?
    ensures r.Failure? ==> r.error == (if ResolveBrowser(config).Failure? then BrowserConfigInvalid(ResolveBrowser(config).error)
                                       else if !configBuild.Ok? then BrowserConfigFailed(configBuild)
                                       else BrowserConstructionFailed(browserBuild))
    ensures r.Success? ==> fresh(r.value) && r.value.Valid() && r.value.browserOpen && r.value.log == [] &&
                           r.value.config == config && r.value.historyFolder == historyFolder &&
                           r.value.browserConfig == Kwargs(ResolveBrowser(config).value)
  {
    var browserConfig := GetBrowserConfig(config);
    match browserConfig
    case Failure(e) =>
      return Failure(BrowserConfigInvalid(e));
    case Success(kwargs) =>
      // return BrowserConfig(**config_params)
      if !configBuild.Ok? {
        return Failure(BrowserConfigFailed(configBuild));
      }
      // self.browser = Browser(config=browser_config)
      if !browserBuild.Ok? {
        return Failure(BrowserConstructionFailed(browserBuild));
      }
      var runner := new BrowserTaskRunner(config, historyFolder, kwargs);
      return Success(runner);
  }
}
