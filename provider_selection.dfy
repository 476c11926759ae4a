/**
 * `BrowserTaskRunner._get_browser_config` and `BrowserTaskRunner.get_llm` of
 * src/services/browser_task_runner.py: the configuration-driven choice of
 * browser transport and of LLM client.
 *
 * A browser configuration is the keyword-argument dict handed to
 * `BrowserConfig(**config_params)`; an LLM client is the constructor the code
 * calls together with the exact arguments it passes.
 */
module ProviderSelection {
  import opened Wrappers
  import opened Config

  // ---------------------------------------------------------------------------
  // Browser transport
  // ---------------------------------------------------------------------------

  /** The browser the runner connects to: a local one, or a remote one over a CDP or a WSS URL. */
  datatype BrowserSpec = Local(headless: bool) | RemoteCdp(cdpUrl: string) | RemoteWss(wssUrl: string)

  /** A value in `config_params`. */
  datatype Param = PBool(b: bool) | PStr(s: string)

  /** The exception `_get_browser_config` raises. */
  datatype ConfigError = ValueError(message: string)

  const BrowserbaseUrlPrefix := "wss://connect.browserbase.com?apiKey="
  const SteeldevUrlPrefix := "wss://connect.steel.dev?apiKey="
  const BrowserlessUrlPrefix := "wss://production-sfo.browserless.io/chromium/playwright?token="
  const LightpandaUrlPrefix := "wss://cloud.lightpanda.io/ws?token="
  const UnsupportedCloudPrefix := "Unsupported cloud provider: "

  /** `BROWSER_TYPE`, lower-cased, default `local`. */
  function BrowserType(cfg: ConfigStore): string
  {
    Lower(GetConfig(cfg, "BROWSER_TYPE", "local"))
  }

  /** `BROWSER_CLOUD_PROVIDER`, lower-cased, default empty. */
  function CloudProvider(cfg: ConfigStore): string
  {
    Lower(GetConfig(cfg, "BROWSER_CLOUD_PROVIDER", ""))
  }

  /** `BROWSER_HEADLESS` lower-cased is `true`, default `true`. */
  function HeadlessMode(cfg: ConfigStore): bool
  {
    Lower(GetConfig(cfg, "BROWSER_HEADLESS", "true")) == "true"
  }

  /** The browser that `_get_browser_config` configures, or the error it raises. */
  function ResolveBrowser(cfg: ConfigStore): (r: Result<BrowserSpec, ConfigError>)
    ensures (r.Success? && r.value.Local?) <==> BrowserType(cfg) != "remote"
    ensures r.Success? && r.value.Local? ==> r.value.headless == HeadlessMode(cfg)
    ensures r.Failure? <==>
              BrowserType(cfg) == "remote" &&
              CloudProvider(cfg) !in {"browserbase", "steeldev", "browserless", "lightpanda"}
    ensures r.Failure? ==> r.error == ValueError(UnsupportedCloudPrefix + CloudProvider(cfg))
  {
    if BrowserType(cfg) != "remote" then Success(Local(HeadlessMode(cfg)))
    else
      var cloud := CloudProvider(cfg);
      if cloud == "browserbase" then
        Success(RemoteCdp(BrowserbaseUrlPrefix + GetConfigOrEmpty(cfg, "BROWSERBASE_API_KEY")))
      else if cloud == "steeldev" then
        Success(RemoteCdp(SteeldevUrlPrefix + GetConfigOrEmpty(cfg, "STEELDEV_API_KEY")))
      else if cloud == "browserless" then
        Success(RemoteWss(BrowserlessUrlPrefix + GetConfigOrEmpty(cfg, "BROWSERLESS_API_KEY")))
      else if cloud == "lightpanda" then
        Success(RemoteCdp(LightpandaUrlPrefix + GetConfigOrEmpty(cfg, "LIGHTPANDA_API_KEY")))
      else
        Failure(ValueError(UnsupportedCloudPrefix + cloud))
  }

  /** The keyword arguments `BrowserConfig` receives for a browser. */
  function Kwargs(spec: BrowserSpec): (kw: map<string, Param>)
    ensures spec.Local? <==> "headless" in kw
    ensures spec.Local? ==> kw.Keys == {"headless", "disable_security"} &&
                            kw["headless"] == PBool(spec.headless) && kw["disable_security"] == PBool(true)
    ensures !spec.Local? ==> "disable_security" !in kw && |kw.Keys| == 1
    ensures spec.RemoteCdp? ==> kw == map["cdp_url" := PStr(spec.cdpUrl)]
    ensures spec.RemoteWss? ==> kw == map["wss_url" := PStr(spec.wssUrl)]
  {
    match spec
    case Local(headless) => map["headless" := PBool(headless), "disable_security" := PBool(true)]
    case RemoteCdp(url) => map["cdp_url" := PStr(url)]
    case RemoteWss(url) => map["wss_url" := PStr(url)]
  }

  /**
   * `_get_browser_config`: builds `config_params` in place, removing the
   * local-only keys and adding one URL key in remote mode.
   */
  method GetBrowserConfig(cfg: ConfigStore) returns (r: Result<map<string, Param>, ConfigError>)
    ensures r.Failure? <==> ResolveBrowser(cfg).Failure?
    ensures r.Failure? ==> r.error == ResolveBrowser(cfg).error
    ensures r.Success? ==> r.value == Kwargs(ResolveBrowser(cfg).value)
  {
    var browserType := Lower(GetConfig(cfg, "BROWSER_TYPE", "local"));
    var cloudProvider := Lower(GetConfig(cfg, "BROWSER_CLOUD_PROVIDER", ""));
    var headlessMode := Lower(GetConfig(cfg, "BROWSER_HEADLESS", "true")) == "true";

    var configParams: map<string, Param> := map["headless" := PBool(headlessMode), "disable_security" := PBool(true)];

    if browserType == "remote" {
      configParams := configParams - {"headless"};
      configParams := configParams - {"disable_security"};

      var apiKey := "";
      if cloudProvider == "browserbase" {
        apiKey := GetConfigOrEmpty(cfg, "BROWSERBASE_API_KEY");
        configParams := configParams["cdp_url" := PStr(BrowserbaseUrlPrefix + apiKey)];
      } else if cloudProvider == "steeldev" {
        apiKey := GetConfigOrEmpty(cfg, "STEELDEV_API_KEY");
        configParams := configParams["cdp_url" := PStr(SteeldevUrlPrefix + apiKey)];
      } else if cloudProvider == "browserless" {
        apiKey := GetConfigOrEmpty(cfg, "BROWSERLESS_API_KEY");
        configParams := configParams["wss_url" := PStr(BrowserlessUrlPrefix + apiKey)];
      } else if cloudProvider == "lightpanda" {
        apiKey := GetConfigOrEmpty(cfg, "LIGHTPANDA_API_KEY");
        configParams := configParams["cdp_url" := PStr(LightpandaUrlPrefix + apiKey)];
      } else {
        return Failure(ValueError(UnsupportedCloudPrefix + cloudProvider));
      }
    }
    return Success(configParams);
  }

  /** One row of the table of supported cloud browser providers. */
  datatype CloudEndpoint = CloudEndpoint(keyName: string, urlPrefix: string, overWss: bool)

  /** The four supported cloud providers: the key each reads and the URL template it fills. */
  function SupportedCloud(provider: string): Option<CloudEndpoint>
  {
    if provider == "browserbase" then Some(CloudEndpoint("BROWSERBASE_API_KEY", BrowserbaseUrlPrefix, false))
    else if provider == "steeldev" then Some(CloudEndpoint("STEELDEV_API_KEY", SteeldevUrlPrefix, false))
    else if provider == "browserless" then Some(CloudEndpoint("BROWSERLESS_API_KEY", BrowserlessUrlPrefix, true))
    else if provider == "lightpanda" then Some(CloudEndpoint("LIGHTPANDA_API_KEY", LightpandaUrlPrefix, false))
    else None
  }

  /** The URL of a remote browser. */
  function RemoteUrl(spec: BrowserSpec): string
    requires !spec.Local?
  {
    if spec.RemoteCdp? then spec.cdpUrl else spec.wssUrl
  }

  /**
   * In remote mode the connection follows the provider table: an unsupported
   * provider raises, a supported one yields its URL template filled with its key.
   */
  lemma RemoteFollowsCloudTable(cfg: ConfigStore)
    requires BrowserType(cfg) == "remote"
    ensures ResolveBrowser(cfg).Failure? <==> SupportedCloud(CloudProvider(cfg)).None?
    ensures SupportedCloud(CloudProvider(cfg)).Some? ==>
              var e := SupportedCloud(CloudProvider(cfg)).value;
              var url := e.urlPrefix + GetConfigOrEmpty(cfg, e.keyName);
              ResolveBrowser(cfg) == Success(if e.overWss then RemoteWss(url) else RemoteCdp(url))
  {
  }

  /** The API key is substituted verbatim: it is exactly what follows the template's prefix. */
  lemma RemoteUrlCarriesKey(cfg: ConfigStore)
    requires ResolveBrowser(cfg).Success? && !ResolveBrowser(cfg).value.Local?
    ensures SupportedCloud(CloudProvider(cfg)).Some?
    ensures var e := SupportedCloud(CloudProvider(cfg)).value;
            var url := RemoteUrl(ResolveBrowser(cfg).value);
            |e.urlPrefix| <= |url| && url[..|e.urlPrefix|] == e.urlPrefix &&
            url[|e.urlPrefix|..] == GetConfigOrEmpty(cfg, e.keyName)
  {
    var e := SupportedCloud(CloudProvider(cfg)).value;
    var key := GetConfigOrEmpty(cfg, e.keyName);
    assert RemoteUrl(ResolveBrowser(cfg).value) == e.urlPrefix + key;
    assert (e.urlPrefix + key)[|e.urlPrefix|..] == key;
  }

  /** Two configurations with the same supported provider connect to the same URL only if their keys agree. */
  lemma RemoteUrlDeterminesKey(cfg1: ConfigStore, cfg2: ConfigStore)
    requires ResolveBrowser(cfg1).Success? && !ResolveBrowser(cfg1).value.Local?
    requires CloudProvider(cfg1) == CloudProvider(cfg2) && BrowserType(cfg2) == "remote"
    requires ResolveBrowser(cfg1) == ResolveBrowser(cfg2)
    ensures var name := SupportedCloud(CloudProvider(cfg1)).value.keyName;
            GetConfigOrEmpty(cfg1, name) == GetConfigOrEmpty(cfg2, name)
  {
    RemoteUrlCarriesKey(cfg1);
    RemoteUrlCarriesKey(cfg2);
  }

  /** `BROWSER_TYPE` is compared lower-cased, so its case does not matter. */
  lemma BrowserTypeIgnoresCase(cfg: ConfigStore, browserType: string)
    ensures ResolveBrowser(cfg["BROWSER_TYPE" := browserType]) ==
            ResolveBrowser(cfg["BROWSER_TYPE" := Lower(browserType)])
  {
    LowerIdempotent(browserType);
    var c1 := cfg["BROWSER_TYPE" := browserType];
    var c2 := cfg["BROWSER_TYPE" := Lower(browserType)];
    assert BrowserType(c1) == BrowserType(c2);
    assert CloudProvider(c1) == CloudProvider(c2);
    assert HeadlessMode(c1) == HeadlessMode(c2);
    forall k | k != "BROWSER_TYPE" ensures GetConfigOrEmpty(c1, k) == GetConfigOrEmpty(c2, k) {
    }
  }

  // ---------------------------------------------------------------------------
  // LLM client
  // ---------------------------------------------------------------------------

  /** The LangChain client constructors `get_llm` calls, with the arguments it passes. */
  datatype LlmSpec =
    | ChatAnthropic(model: string, anthropicApiKey: string, temperature: real)
    | AzureChatOpenAI(apiVersion: string, azureDeployment: string, azureEndpoint: string,
                      apiKey: string, temperature: real, modelName: string)
    | ChatOpenAI(model: string, apiKey: string, openaiApiBase: Option<string>, temperature: real)
    | ChatGoogleGenerativeAI(model: string, googleApiKey: string, temperature: real)
  {
    /** The API key the client is constructed with. */
    function Key(): string
    {
      match this
      case ChatAnthropic(_, key, _) => key
      case AzureChatOpenAI(_, _, _, key, _, _) => key
      case ChatOpenAI(_, key, _, _) => key
      case ChatGoogleGenerativeAI(_, key, _) => key
    }
  }

  /** The exception `get_llm` raises: `ChatGroq` is referenced but never imported. */
  datatype LlmError = NameError(name: string)

  const Temperature: real := 0.7
  const DefaultAzureApiVersion := "2024-08-01-preview"
  const DeepseekApiBase := "https://api.deepseek.com/v1"

  /** `MODEL_PROVIDER`, lower-cased, default `openai`. */
  function LlmProvider(cfg: ConfigStore): string
  {
    Lower(GetConfig(cfg, "MODEL_PROVIDER", "openai"))
  }

  /** `MODEL_NAME`, default `gpt-4`. */
  function ModelName(cfg: ConfigStore): string
  {
    GetConfig(cfg, "MODEL_NAME", "gpt-4")
  }

  /** The provider names `get_llm` dispatches on before its default arm. */
  const NamedProviders: set<string> := {"anthropic", "azure", "deepseek", "groq", "google"}

  /** `get_llm`: the client for the configured provider, or the NameError of the `groq` arm. */
  function GetLlm(cfg: ConfigStore): (r: Result<LlmSpec, LlmError>)
    ensures r.Failure? <==> LlmProvider(cfg) == "groq"
    ensures r.Failure? ==> r.error == NameError("ChatGroq")
    ensures r.Success? ==> r.value.temperature == Temperature
    ensures r.Success? && !r.value.AzureChatOpenAI? ==> r.value.model == ModelName(cfg)
    ensures r.Success? && r.value.AzureChatOpenAI? <==> LlmProvider(cfg) == "azure"
    ensures r.Success? && r.value.ChatAnthropic? <==> LlmProvider(cfg) == "anthropic"
    ensures r.Success? && r.value.ChatGoogleGenerativeAI? <==> LlmProvider(cfg) == "google"
    ensures LlmProvider(cfg) !in NamedProviders ==>
              r == Success(ChatOpenAI(ModelName(cfg), GetConfigOrEmpty(cfg, "OPENAI_API_KEY"), None, Temperature))
    ensures LlmProvider(cfg) == "deepseek" ==>
              r == Success(ChatOpenAI(ModelName(cfg), GetConfigOrEmpty(cfg, "DEEPSEEK_API_KEY"), Some(DeepseekApiBase), Temperature))
  {
    var provider := LlmProvider(cfg);
    var model := ModelName(cfg);
    if provider == "anthropic" then
      Success(ChatAnthropic(model, GetConfigOrEmpty(cfg, "ANTHROPIC_API_KEY"), Temperature))
    else if provider == "azure" then
      Success(AzureChatOpenAI(
        GetConfig(cfg, "AZURE_OPENAI_API_VERSION", DefaultAzureApiVersion),
        GetConfigOrEmpty(cfg, "AZURE_DEPLOYMENT_NAME"),
        GetConfigOrEmpty(cfg, "AZURE_OPENAI_ENDPOINT"),
        GetConfigOrEmpty(cfg, "AZURE_OPENAI_API_KEY"),
        Temperature,
        GetConfigOrEmpty(cfg, "AZURE_DEPLOYMENT_NAME")))
    else if provider == "deepseek" then
      Success(ChatOpenAI(model, GetConfigOrEmpty(cfg, "DEEPSEEK_API_KEY"), Some(DeepseekApiBase), Temperature))
    else if provider == "groq" then
      Failure(NameError("ChatGroq"))
    else if provider == "google" then
      Success(ChatGoogleGenerativeAI(model, GetConfigOrEmpty(cfg, "GOOGLE_API_KEY"), Temperature))
    else
      Success(ChatOpenAI(model, GetConfigOrEmpty(cfg, "OPENAI_API_KEY"), None, Temperature))
  }

  /** The configuration key each provider reads its API key from; any other provider reads OpenAI's. */
  function ApiKeyName(provider: string): string
  {
    if provider == "anthropic" then "ANTHROPIC_API_KEY"
    else if provider == "azure" then "AZURE_OPENAI_API_KEY"
    else if provider == "deepseek" then "DEEPSEEK_API_KEY"
    else if provider == "groq" then "GROQ_API_KEY"
    else if provider == "google" then "GOOGLE_API_KEY"
    else "OPENAI_API_KEY"
  }

  /** Every client is constructed with its own provider's API key. */
  lemma LlmUsesProviderKey(cfg: ConfigStore)
    requires GetLlm(cfg).Success?
    ensures GetLlm(cfg).value.Key() == GetConfigOrEmpty(cfg, ApiKeyName(LlmProvider(cfg)))
  {
  }

  /**
   * Azure ignores `MODEL_NAME`: its deployment name is both the deployment
   * and the model name; the endpoint and API version come from their own
   * keys, and the API version defaults to 2024-08-01-preview.
   */
  lemma AzureIgnoresModelName(cfg: ConfigStore, name: string)
    requires LlmProvider(cfg) == "azure"
    ensures GetLlm(cfg["MODEL_NAME" := name]) == GetLlm(cfg)
    ensures GetLlm(cfg).value.modelName == GetLlm(cfg).value.azureDeployment ==
            GetConfigOrEmpty(cfg, "AZURE_DEPLOYMENT_NAME")
    ensures GetLlm(cfg).value.azureEndpoint == GetConfigOrEmpty(cfg, "AZURE_OPENAI_ENDPOINT")
    ensures GetLlm(cfg).value.apiVersion == GetConfig(cfg, "AZURE_OPENAI_API_VERSION", DefaultAzureApiVersion)
    ensures "AZURE_OPENAI_API_VERSION" !in cfg ==> GetLlm(cfg).value.apiVersion == DefaultAzureApiVersion
  {
    var c := cfg["MODEL_NAME" := name];
    assert LlmProvider(c) == LlmProvider(cfg);
    forall k | k != "MODEL_NAME" ensures GetConfig(c, k, "") == GetConfig(cfg, k, "") {
    }
  }

  /** `MODEL_PROVIDER` is compared lower-cased, so its case does not matter. */
  lemma LlmProviderIgnoresCase(cfg: ConfigStore, provider: string)
    ensures GetLlm(cfg["MODEL_PROVIDER" := provider]) == GetLlm(cfg["MODEL_PROVIDER" := Lower(provider)])
  {
    LowerIdempotent(provider);
    var c1 := cfg["MODEL_PROVIDER" := provider];
    var c2 := cfg["MODEL_PROVIDER" := Lower(provider)];
    assert LlmProvider(c1) == LlmProvider(c2);
    assert ModelName(c1) == ModelName(c2);
    forall k | k != "MODEL_PROVIDER" ensures GetConfig(c1, k, "") == GetConfig(c2, k, "") {
    }
  }
}
