/**
 * The earlier command-line orchestrator (`scripts/orchestrator.py`). Its
 * folder-name, folder and URL helpers have the same bodies as those of the
 * unified script and are the ones of `OrchestratorUnified` and
 * `ConfluenceClient`. What differs: only the mode check on the options, the
 * Atlassian settings from the environment only, and an OpenAI client only.
 */
module Orchestrator {
  import opened Wrappers
  import opened ConfluenceClient
  import opened OrchestratorUnified

  /** The option check of `run`: `--business-analyst` and `--pert-only` exclude each other. */
  function ValidateFlags(args: RunArgs): (r: Result<(), RunError>)
    ensures r.Success? <==> !(args.businessAnalyst && args.pertOnly)
    ensures r.Failure? ==> r.error == ExclusiveModes
  {
    if args.businessAnalyst && args.pertOnly then Failure(ExclusiveModes) else Success(())
  }

  /** `parse_confluence_config_from_env`: the newer variable names first, then the older ones. */
  function ParseConfluenceConfigFromEnv(env: Env, urlparse: string -> Url): Result<ConfluenceConfig, RunError>
  {
    ConfigFromValues(
      FirstTruthy([GetEnv(env, "ATLASSIAN_URL"), GetEnv(env, "CONFLUENCE_BASE_URL")]),
      FirstTruthy([GetEnv(env, "ATLASSIAN_USER_EMAIL"), GetEnv(env, "CONFLUENCE_EMAIL")]),
      FirstTruthy([GetEnv(env, "ATLASSIAN_API_KEY"), GetEnv(env, "ATLASSIAN_API_TOKEN"), GetEnv(env, "CONFLUENCE_API_TOKEN")]),
      urlparse)
  }

  /**
   * `get_openai_client`: the client needs the `openai` package, then
   * `OPENAI_API_KEY`.
   */
  function GetOpenAiClient(env: Env, openaiInstalled: bool): (r: Result<Provider, RunError>)
    ensures r.Success? <==> openaiInstalled && Truthy(GetEnv(env, "OPENAI_API_KEY"))
    ensures r.Success? ==> r.value == OpenAIProvider
    ensures r.Failure? ==> r.error == if openaiInstalled then MissingOpenAiKey else MissingPackage("openai")
  {
    if !openaiInstalled then Failure(MissingPackage("openai"))
    else if Truthy(GetEnv(env, "OPENAI_API_KEY")) then Success(OpenAIProvider)
    else Failure(MissingOpenAiKey)
  }

  /** The checks `run` makes before fetching: the mode check, then the Atlassian settings. */
  function Preflight(args: RunArgs, env: Env, urlparse: string -> Url): (r: Result<(), RunError>)
    ensures args.businessAnalyst && args.pertOnly ==> r == Failure(ExclusiveModes)
    ensures r.Success? <==> !(args.businessAnalyst && args.pertOnly) && ParseConfluenceConfigFromEnv(env, urlparse).Success?
  {
    match ValidateFlags(args)
    case Failure(e) => Failure(e)
    case Success(_) =>
      match ParseConfluenceConfigFromEnv(env, urlparse)
      case Failure(e) => Failure(e)
      case Success(_) => Success(())
  }

  /** At most one of the two token variables is set, or both hold the same value. */
  predicate TokensAgree(env: Env)
  {
    var key, token := GetEnv(env, "ATLASSIAN_API_KEY"), GetEnv(env, "ATLASSIAN_API_TOKEN");
    !Truthy(key) || !Truthy(token) || key == token
  }

  /** Swapping the first two operands of an `or` chain that agree changes no choice. */
  lemma SwapAgreeing(a: Option<string>, b: Option<string>, c: Option<string>)
    requires !Truthy(a) || !Truthy(b) || a == b
    ensures SameChoice(FirstTruthy([a, b, c]), FirstTruthy([b, a, c]))
  {
    if Truthy(a) {
      FirstTruthyHead([a, b, c]);
      if Truthy(b) { FirstTruthyHead([b, a, c]); } else { FirstTruthySkip(b, [a, c]); FirstTruthyHead([a, c]); }
    } else if Truthy(b) {
      FirstTruthyHead([b, a, c]);
      FirstTruthySkip(a, [b, c]);
      FirstTruthyHead([b, c]);
    } else {
      FirstTruthySkip(a, [b, c]);
      FirstTruthySkip(b, [c]);
      FirstTruthySkip(b, [a, c]);
      FirstTruthySkip(a, [c]);
    }
  }

  /** Two token choices that are both truthy or both not lead to the same outcome apart from the token. */
  lemma ConfigFromValuesTokenOnly(url: Option<string>, email: Option<string>, t1: Option<string>, t2: Option<string>,
                                  urlparse: string -> Url)
    requires Truthy(t1) == Truthy(t2)
    ensures var r1, r2 := ConfigFromValues(url, email, t1, urlparse), ConfigFromValues(url, email, t2, urlparse);
            (r1.Success? <==> r2.Success?) && (r1.Failure? ==> r1 == r2)
            && (r1.Success? ==> r1.value.baseUrl == r2.value.baseUrl && r1.value.rootBase == r2.value.rootBase
                                && r1.value.email == r2.value.email)
  {
  }

  /** With no URL in the file, `load_config` chooses among the two URL variables alone. */
  lemma LoadedUrlFromEnv(file: ConfigFile, env: Env)
    requires !Truthy(file.url)
    ensures SameChoice(LoadedUrl(file, env), FirstTruthy([GetEnv(env, "ATLASSIAN_URL"), GetEnv(env, "CONFLUENCE_BASE_URL")]))
  {
    var eu, eb := GetEnv(env, "ATLASSIAN_URL"), GetEnv(env, "CONFLUENCE_BASE_URL");
    DropFalsyLast([eu, eb], file.url);
    assert [eu, eb] + [file.url] == [eu, eb, file.url];
  }

  /** With no email in the file, `load_config` chooses among the two email variables alone. */
  lemma LoadedEmailFromEnv(file: ConfigFile, env: Env)
    requires !Truthy(file.email)
    ensures SameChoice(LoadedEmail(file, env), FirstTruthy([GetEnv(env, "ATLASSIAN_USER_EMAIL"), GetEnv(env, "CONFLUENCE_EMAIL")]))
  {
    var ee, ec := GetEnv(env, "ATLASSIAN_USER_EMAIL"), GetEnv(env, "CONFLUENCE_EMAIL");
    DropFalsyLast([ee, ec], file.email);
    assert [ee, ec] + [file.email] == [ee, ec, file.email];
  }

  /** With no token in the file, `load_config` chooses among the three token variables alone. */
  lemma LoadedTokenFromEnv(file: ConfigFile, env: Env)
    requires !Truthy(file.token)
    ensures SameChoice(LoadedToken(file, env), FirstTruthy([GetEnv(env, "ATLASSIAN_API_TOKEN"), GetEnv(env, "ATLASSIAN_API_KEY"),
                                                            GetEnv(env, "CONFLUENCE_API_TOKEN")]))
  {
    var et, ek, ect := GetEnv(env, "ATLASSIAN_API_TOKEN"), GetEnv(env, "ATLASSIAN_API_KEY"), GetEnv(env, "CONFLUENCE_API_TOKEN");
    DropFalsyLast([et, ek, ect], file.token);
    assert [et, ek, ect] + [file.token] == [et, ek, ect, file.token];
  }

  /** Reordering the operands of an `or` chain keeps whether the choice is truthy. */
  lemma SwapKeepsTruth(a: Option<string>, b: Option<string>, c: Option<string>)
    ensures Truthy(FirstTruthy([a, b, c])) == Truthy(FirstTruthy([b, a, c]))
  {
    if Truthy(a) {
      assert Truthy([b, a, c][1]);
    } else if Truthy(b) {
      assert Truthy([a, b, c][1]);
    }
  }

  /**
   * The Atlassian values this script takes from the environment, compared
   * with those the unified script ends up with when its configuration file
   * holds none: the same variables, so the same refusals, URL and email;
   * only the token differs, when both token variables are set to different
   * values.
   */
  lemma EnvConfigMatchesUnified(file: ConfigFile, env: Env, config: AppConfig, urlparse: string -> Url)
    requires LoadConfig(file, env) == Success(config)
    requires !Truthy(file.url) && !Truthy(file.email) && !Truthy(file.token)
    ensures var legacy, unified := ParseConfluenceConfigFromEnv(env, urlparse), ParseConfluenceConfigScript(config, env, urlparse);
            (legacy.Success? <==> unified.Success?) && (legacy.Failure? ==> legacy == unified)
            && (legacy.Success? ==> legacy.value.baseUrl == unified.value.baseUrl
                                    && legacy.value.rootBase == unified.value.rootBase
                                    && legacy.value.email == unified.value.email)
    ensures TokensAgree(env) ==> ParseConfluenceConfigFromEnv(env, urlparse) == ParseConfluenceConfigScript(config, env, urlparse)
  {
    var et, ek, ect := GetEnv(env, "ATLASSIAN_API_TOKEN"), GetEnv(env, "ATLASSIAN_API_KEY"), GetEnv(env, "CONFLUENCE_API_TOKEN");
    var url := FirstTruthy([GetEnv(env, "ATLASSIAN_URL"), GetEnv(env, "CONFLUENCE_BASE_URL")]);
    var email := FirstTruthy([GetEnv(env, "ATLASSIAN_USER_EMAIL"), GetEnv(env, "CONFLUENCE_EMAIL")]);
    var tEnv, tLegacy := FirstTruthy([et, ek, ect]), FirstTruthy([ek, et, ect]);
    LoadedAtlassianOrder(file, env, config, urlparse);
    LoadedUrlFromEnv(file, env);
    LoadedEmailFromEnv(file, env);
    LoadedTokenFromEnv(file, env);
    ConfigFromValuesSameChoice(LoadedUrl(file, env), LoadedEmail(file, env), LoadedToken(file, env), url, email, tEnv, urlparse);
    var unified := ConfigFromValues(url, email, tEnv, urlparse);
    assert ParseConfluenceConfigScript(config, env, urlparse) == unified;
    assert ParseConfluenceConfigFromEnv(env, urlparse) == ConfigFromValues(url, email, tLegacy, urlparse);
    SwapKeepsTruth(ek, et, ect);
    ConfigFromValuesTokenOnly(url, email, tLegacy, tEnv, urlparse);
    if TokensAgree(env) {
      SwapAgreeing(ek, et, ect);
      ConfigFromValuesSameChoice(url, email, tLegacy, url, email, tEnv, urlparse);
    }
  }

  /**
   * With both `ATLASSIAN_API_KEY` and `ATLASSIAN_API_TOKEN` set to different
   * values, this script sends the first and the unified script the second.
   */
  lemma TokenOrderDiffers(file: ConfigFile, env: Env, config: AppConfig, urlparse: string -> Url)
    requires LoadConfig(file, env) == Success(config)
    requires !Truthy(file.url) && !Truthy(file.email) && !Truthy(file.token)
    requires Truthy(GetEnv(env, "ATLASSIAN_API_KEY")) && Truthy(GetEnv(env, "ATLASSIAN_API_TOKEN"))
    requires GetEnv(env, "ATLASSIAN_API_KEY") != GetEnv(env, "ATLASSIAN_API_TOKEN")
    ensures var legacy, unified := ParseConfluenceConfigFromEnv(env, urlparse), ParseConfluenceConfigScript(config, env, urlparse);
            (legacy.Success? <==> unified.Success?)
            && (legacy.Success? ==> legacy.value.apiToken == GetEnv(env, "ATLASSIAN_API_KEY").value
                                    && unified.value.apiToken == GetEnv(env, "ATLASSIAN_API_TOKEN").value
                                    && legacy != unified)
  {
    var et, ek, ect := GetEnv(env, "ATLASSIAN_API_TOKEN"), GetEnv(env, "ATLASSIAN_API_KEY"), GetEnv(env, "CONFLUENCE_API_TOKEN");
    EnvConfigMatchesUnified(file, env, config, urlparse);
    LoadedAtlassianOrder(file, env, config, urlparse);
    FirstTruthyHead([ek, et, ect]);
    FirstTruthyHead([et, ek, ect, file.token]);
  }

  /**
   * For OpenAI the unified script's option checks reduce to this script's
   * mode check, whatever the model and agent overrides.
   */
  lemma FlagsMatchUnifiedForOpenAI(args: RunArgs, agent: AgentArgs)
    ensures ValidateFlags(args) == ValidateOptions(args, agent, "openai")
  {
  }

  /**
   * The two scripts behave alike when the unified one is configured for
   * OpenAI, `OPENAI_API_KEY` is set, its configuration file holds no
   * Atlassian values and the two token variables agree. The fetched pages
   * are parameters of both, as they are fetched with the same settings.
   */
  lemma ScriptsAgree(existing: set<Path>, root: Path, args: RunArgs, agent: AgentArgs, file: ConfigFile, env: Env,
                     urlparse: string -> Url, packages: Packages, jira: Result<Page, string>, confluence: Result<Page, string>,
                     baNotes: Result<string, string>, pertSheet: Result<string, string>)
    requires ProviderName(file, env) == "openai" && Truthy(GetEnv(env, "OPENAI_API_KEY"))
    requires !Truthy(file.url) && !Truthy(file.email) && !Truthy(file.token)
    requires TokensAgree(env)
    ensures RunSpec(existing, root, args, Preflight(args, env, urlparse), jira, confluence, GetOpenAiClient(env, packages.openai),
                    baNotes, pertSheet)
         == UnifiedRunSpec(existing, root, args, agent, file, env, urlparse, packages, jira, confluence, baNotes, pertSheet)
  {
    FirstTruthyHead([GetEnv(env, "OPENAI_API_KEY"), file.openaiApiKey]);
    var config := LoadConfig(file, env).value;
    assert Preflight(args, env, urlparse) == OrchestratorUnified.Preflight(args, agent, config, env, urlparse) by {
      EnvConfigMatchesUnified(file, env, config, urlparse);
      FlagsMatchUnifiedForOpenAI(args, agent);
    }
    assert GetOpenAiClient(env, packages.openai) == CreateProvider(config, packages);
  }

  /**
   * Without an OpenAI key the unified script stops while loading its
   * configuration and touches nothing, while this script replaces the
   * output folder and writes the input files before its client fails.
   */
  lemma MissingKeyDiffers(existing: set<Path>, root: Path, args: RunArgs, agent: AgentArgs, file: ConfigFile, env: Env,
                          urlparse: string -> Url, packages: Packages, jira: Result<Page, string>, confluence: Result<Page, string>,
                          baNotes: Result<string, string>, pertSheet: Result<string, string>)
    requires LoadConfig(file, env) == Failure(MissingOpenAiKey)
    requires Closed(existing) && !args.pertOnly && args.force
    requires BeforeFolder(existing, root, args, Preflight(args, env, urlparse), jira, confluence).Success?
    ensures UnifiedRunSpec(existing, root, args, agent, file, env, urlparse, packages, jira, confluence, baNotes, pertSheet)
         == RunReport(Failure(MissingOpenAiKey), [], existing)
    ensures var folder := OutputDirPath(root, BeforeFolder(existing, root, args, Preflight(args, env, urlparse), jira, confluence).value);
            var legacy := RunSpec(existing, root, args, Preflight(args, env, urlparse), jira, confluence,
                                  GetOpenAiClient(env, packages.openai), baNotes, pertSheet);
            legacy.outcome.Failure? && legacy.created == InputFiles && folder in legacy.files
  {
    assert !Truthy(LoadedOpenAiKey(file, env));
    FolderReplacedBeforeProviderCheck(existing, root, args, Preflight(args, env, urlparse), jira, confluence,
                                      GetOpenAiClient(env, packages.openai), baNotes, pertSheet);
  }

  /** `run` of this script: its own checks and client, then the steps shared with the unified script. */
  method Run(ws: Workspace, root: Path, args: RunArgs, env: Env, urlparse: string -> Url, openaiInstalled: bool,
             jira: Result<Page, string>, confluence: Result<Page, string>,
             baNotes: Result<string, string>, pertSheet: Result<string, string>)
    returns (outcome: Result<Path, RunError>, created: seq<string>)
    requires ws.Valid()
    modifies ws
    ensures ws.Valid()
    ensures RunReport(outcome, created, ws.existing) ==
            RunSpec(old(ws.existing), root, args, Preflight(args, env, urlparse), jira, confluence,
                    GetOpenAiClient(env, openaiInstalled), baNotes, pertSheet)
  {
    outcome, created := ws.Execute(root, args, Preflight(args, env, urlparse), jira, confluence,
                                   GetOpenAiClient(env, openaiInstalled), baNotes, pertSheet);
  }
}
