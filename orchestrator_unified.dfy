/**
 * The command-line orchestrator (`scripts/orchestrator_unified.py`): the
 * output-folder name, the folder rules, the option checks and the order of
 * the steps of `run`, over an abstract file system.
 *
 * The file system is the set of paths that exist, a path being its list of
 * components; directories and files are not told apart. The collaborators
 * of `run` (the configuration loader, the page fetch, the language model)
 * are outcomes passed in. The URL helpers the script copies from the
 * backend client are those of `ConfluenceClient`.
 */
module OrchestratorUnified {
  import opened Wrappers
  import opened Text
  import opened ConfluenceClient

  // ---------------------------------------------------------------------
  // Folder names: `re.sub(r"[^a-zA-Z0-9_-]+", "-", hint or "estimation").strip("-")`
  // ---------------------------------------------------------------------

  /** The characters a folder name keeps. */
  predicate IsFolderChar(c: char) { IsAsciiAlnum(c) || c == '_' || c == '-' }

  /** The class the pattern `[^a-zA-Z0-9_-]` matches. */
  predicate Disallowed(c: char) { !IsFolderChar(c) }

  predicate IsDash(c: char) { c == '-' }

  predicate AllFolderChars(s: string)
  {
    forall i :: 0 <= i < |s| ==> IsFolderChar(s[i])
  }

  /**
   * The substitution: scanning left to right, each maximal run of disallowed
   * characters is replaced by one `-`, and every other character is kept.
   */
  function Sanitize(s: string): (r: string)
    ensures |r| <= |s|
    ensures AllFolderChars(r)
    decreases |s|
  {
    if |s| == 0 then ""
    else if IsFolderChar(s[0]) then [s[0]] + Sanitize(s[1..])
    else "-" + Sanitize(s[RunEnd(s, 0, Disallowed)..])
  }

  /** `name_hint or "estimation"`. */
  function NameOrDefault(hint: Option<string>): string
  {
    if Truthy(hint) then hint.value else "estimation"
  }

  /** `_make_safe_folder_name`: only folder characters, and no `-` at either end. */
  function SafeFolderName(hint: Option<string>): (r: string)
    ensures AllFolderChars(r)
    ensures r == [] || (r[0] != '-' && r[|r| - 1] != '-')
  {
    var s := Sanitize(NameOrDefault(hint));
    StripKeepsFolderChars(s);
    StripBy(s, IsDash)
  }

  /** Stripping characters off both ends keeps the rest as it was. */
  lemma StripKeepsFolderChars(s: string)
    requires AllFolderChars(s)
    ensures AllFolderChars(StripBy(s, IsDash))
  {
    var t := RStripBy(s, IsDash);
    var r := LStripBy(t, IsDash);
    assert r == StripBy(s, IsDash);
    forall i | 0 <= i < |r| ensures IsFolderChar(r[i]) {
      assert r[i] == t[|t| - |r| + i] == s[|t| - |r| + i];
    }
  }

  /** A string that does not start or end with `-` is its own strip. */
  lemma StripNoDashEnds(s: string)
    requires s == [] || (s[0] != '-' && s[|s| - 1] != '-')
    ensures StripBy(s, IsDash) == s
  {
  }

  /** A name made of folder characters only passes the substitution unchanged. */
  lemma {:induction false} SanitizeClean(s: string)
    requires AllFolderChars(s)
    ensures Sanitize(s) == s
    decreases |s|
  {
    if |s| > 0 {
      SanitizeClean(s[1..]);
    }
  }

  /** Folder characters in front pass through, and the rest is rewritten on its own. */
  lemma {:induction false} SanitizeCleanPrefix(c: string, y: string)
    requires AllFolderChars(c)
    ensures Sanitize(c + y) == c + Sanitize(y)
    decreases |c|
  {
    if |c| > 0 {
      assert (c + y)[1..] == c[1..] + y;
      SanitizeCleanPrefix(c[1..], y);
    } else {
      assert c + y == y;
    }
  }

  /** A maximal run of disallowed characters becomes exactly one `-`. */
  lemma SanitizeRun(x: string, y: string)
    requires x != "" && forall i :: 0 <= i < |x| ==> Disallowed(x[i])
    requires y == "" || IsFolderChar(y[0])
    ensures Sanitize(x + y) == "-" + Sanitize(y)
  {
    var s := x + y;
    var e := RunEnd(s, 0, Disallowed);
    assert forall k :: 0 <= k < |x| ==> s[k] == x[k];
    assert |y| > 0 ==> s[|x|] == y[0];
    assert e == |x|;
    assert s[e..] == y;
  }

  /** A name with no `-` at either end, made of folder characters only, is its own safe name. */
  lemma CleanNameKept(hint: Option<string>)
    requires var s := NameOrDefault(hint); AllFolderChars(s) && (s == [] || (s[0] != '-' && s[|s| - 1] != '-'))
    ensures SafeFolderName(hint) == NameOrDefault(hint)
  {
    SanitizeClean(NameOrDefault(hint));
    StripNoDashEnds(NameOrDefault(hint));
  }

  /** None and the empty string both stand for the default name. */
  lemma DefaultFolderName(hint: Option<string>)
    requires !Truthy(hint)
    ensures SafeFolderName(hint) == "estimation"
  {
    var d := NameOrDefault(hint);
    assert d == "estimation";
    assert AllFolderChars(d) by {
      forall i | 0 <= i < |d| ensures IsFolderChar(d[i]) {
        assert IsAsciiLower(d[i]);
      }
    }
    CleanNameKept(hint);
  }

  /** The rewrite is idempotent on every non-empty result. */
  lemma SafeFolderNameIdempotent(hint: Option<string>)
    requires SafeFolderName(hint) != ""
    ensures SafeFolderName(Some(SafeFolderName(hint))) == SafeFolderName(hint)
  {
    var r := SafeFolderName(hint);
    SanitizeClean(r);
    StripNoDashEnds(r);
  }

  /** A name made of disallowed characters only yields the empty name. */
  lemma OnlyDisallowedIsEmpty(s: string)
    requires s != "" && forall i :: 0 <= i < |s| ==> Disallowed(s[i])
    ensures SafeFolderName(Some(s)) == ""
  {
    SanitizeRun(s, "");
    assert s + "" == s;
    assert Sanitize(s) == "-";
  }

  /** Folder characters include neither the path separator nor the dot. */
  lemma FolderCharsNoSeparator(name: string)
    requires AllFolderChars(name)
    ensures '/' !in name && '.' !in name
  {
    forall i | 0 <= i < |name| ensures name[i] != '/' && name[i] != '.' {
      assert IsFolderChar(name[i]);
    }
  }

  // ---------------------------------------------------------------------
  // Paths
  // ---------------------------------------------------------------------

  /** A path as its components; `[]` is the file-system root. */
  type Path = seq<string>

  function EstimationsDir(root: Path): Path { root + ["estimations"] }
  function BaPromptPath(root: Path): Path { root + ["personas", "ba.txt"] }
  function EngineerPromptPath(root: Path): Path { root + ["personas", "engineer.txt"] }
  function PertTemplatePath(root: Path): Path { root + ["templates", "PERT_TEMPLATE.md"] }

  const BaNotesFile := "BA_Estimation_Notes.md"
  const PertFile := "PERT_Estimate.md"
  const MetadataFile := "metadata.json"
  const InputFiles := ["input.source.url.txt", "input.confluence.page.md", "PERT_TEMPLATE.md"]

  /**
   * `get_output_dir_path`: `ESTIMATIONS_DIR / safe_hint`. Joining the empty
   * name adds no component, so an empty safe name is the estimations folder
   * itself. The folder never leaves the estimations folder: its last
   * component is neither `.` nor `..` and holds no `/`.
   */
  function OutputDirPath(root: Path, hint: Option<string>): (p: Path)
    ensures EstimationsDir(root) <= p && |p| <= |EstimationsDir(root)| + 1
    ensures p == EstimationsDir(root) <==> SafeFolderName(hint) == ""
    ensures |p| == |EstimationsDir(root)| + 1 ==> p[|p| - 1] == SafeFolderName(hint)
    ensures |p| == |EstimationsDir(root)| + 1 ==> '/' !in p[|p| - 1] && '.' !in p[|p| - 1]
  {
    var name := SafeFolderName(hint);
    FolderCharsNoSeparator(name);
    if name == "" then EstimationsDir(root) else EstimationsDir(root) + [name]
  }

  // ---------------------------------------------------------------------
  // The file system
  // ---------------------------------------------------------------------

  /** Every existing path's ancestors exist. */
  predicate Closed(existing: set<Path>)
  {
    forall p, i :: p in existing && 0 <= i <= |p| ==> p[..i] in existing
  }

  /** What `shutil.rmtree(dir)` leaves: every path under `dir`, `dir` included, is gone. */
  function RemoveTree(existing: set<Path>, dir: Path): set<Path>
  {
    set p | p in existing && !(dir <= p)
  }

  /** What `mkdir(parents=True)` creates: the directory and all its ancestors. */
  function Ancestors(dir: Path): set<Path>
  {
    set i | 0 <= i <= |dir| :: dir[..i]
  }

  /** The files written into `dir`, one per name. */
  function Written(dir: Path, names: seq<string>): set<Path>
  {
    set n | n in names :: dir + [n]
  }

  /** The reasons a run stops; each is an `OrchestratorError` (or its cause) in the script. */
  datatype RunError =
    | MissingFile(path: Path)
    | ExclusiveModes
    | ModelWithAgent
    | AgentNeedsAlias
    | AliasNeedsAgent
    | MissingAtlassianConfig
    | BadAtlassianUrl
    | FetchFailed(message: string)
    | FolderExists(folder: Path)
    | MissingFolder(folder: Path)
    | MissingBaNotes(folder: Path)
    | PertExists(folder: Path)
    | InvalidProvider(name: string)
    | MissingOpenAiKey
    | MissingRegion
    | MissingPackage(package: string)
    | GenerationFailed(message: string)

  /**
   * `ensure_output_dir` on the set of existing paths: an existing folder is
   * refused without `force`; with it the folder's tree is removed; then the
   * folder is created with its parents. Afterwards the folder exists, nothing
   * outside its tree is lost, and only the folder and its ancestors are new.
   */
  function EnsureOutputDirSpec(existing: set<Path>, folder: Path, force: bool): (r: Result<set<Path>, RunError>)
    ensures r.Failure? <==> folder in existing && !force
    ensures r.Failure? ==> r.error == FolderExists(folder)
    ensures r.Success? ==> folder in r.value
    ensures r.Success? ==> forall p :: p in existing && !(folder <= p) ==> p in r.value
    ensures r.Success? ==> forall p :: p in r.value && p !in existing ==> p <= folder
  {
    if folder in existing && !force then Failure(FolderExists(folder))
    else
      assert folder[..|folder|] == folder;
      Success((if folder in existing then RemoveTree(existing, folder) else existing) + Ancestors(folder))
  }

  /** On a consistent file system the folder is empty after `ensure_output_dir`. */
  lemma EnsureOutputDirEmpties(existing: set<Path>, folder: Path, force: bool)
    requires Closed(existing)
    requires EnsureOutputDirSpec(existing, folder, force).Success?
    ensures forall p :: p in EnsureOutputDirSpec(existing, folder, force).value ==> !(folder < p)
    ensures Closed(EnsureOutputDirSpec(existing, folder, force).value)
  {
    var after := EnsureOutputDirSpec(existing, folder, force).value;
    forall p | p in after
      ensures !(folder < p)
    {
      if p in Ancestors(folder) {
        var i :| 0 <= i <= |folder| && p == folder[..i];
      } else {
        NothingUnderAbsent(existing, folder, p);
        assert p in existing && !(folder <= p);
      }
    }
    forall p, i | p in after && 0 <= i <= |p|
      ensures p[..i] in after
    {
      if p in Ancestors(folder) {
        var j :| 0 <= j <= |folder| && p == folder[..j];
        assert p[..i] == folder[..i];
      } else {
        NothingUnderAbsent(existing, folder, p);
        assert p in existing && !(folder <= p);
        assert p[..i] in existing;
        assert !(folder <= p[..i]);
      }
    }
  }

  /** In a consistent file system nothing lies under a path that does not exist. */
  lemma NothingUnderAbsent(existing: set<Path>, folder: Path, p: Path)
    requires Closed(existing) && p in existing
    ensures folder <= p ==> folder in existing
  {
    var k := if |folder| <= |p| then |folder| else |p|;
    assert p[..k] in existing;
    assert folder <= p ==> p[..k] == folder;
  }

  /** Writing files into an existing folder keeps the file system consistent. */
  lemma WrittenClosed(existing: set<Path>, dir: Path, names: seq<string>)
    requires Closed(existing) && dir in existing
    ensures Closed(existing + Written(dir, names))
  {
    forall p, i | p in existing + Written(dir, names) && 0 <= i <= |p|
      ensures p[..i] in existing + Written(dir, names)
    {
      if p !in existing {
        var n :| n in names && p == dir + [n];
        if i <= |dir| {
          assert p[..i] == dir[..i];
        } else {
          assert p[..i] == p;
        }
      }
    }
  }

  lemma WrittenAppend(dir: Path, names: seq<string>, n: string)
    ensures Written(dir, names + [n]) == Written(dir, names) + {dir + [n]}
  {
  }

  lemma WrittenConcat(base: set<Path>, dir: Path, a: seq<string>, b: seq<string>)
    ensures base + Written(dir, a) + Written(dir, b) == base + Written(dir, a + b)
  {
    assert Written(dir, a + b) == Written(dir, a) + Written(dir, b);
  }

  /** Writing the three input files one by one is writing `InputFiles`. */
  lemma WrittenInputs(base: set<Path>, dir: Path)
    ensures base + {dir + [InputFiles[0]]} + {dir + [InputFiles[1]]} + {dir + [InputFiles[2]]} == base + Written(dir, InputFiles)
  {
    assert Written(dir, InputFiles) == {dir + [InputFiles[0]], dir + [InputFiles[1]], dir + [InputFiles[2]]};
  }

  // ---------------------------------------------------------------------
  // Option checks
  // ---------------------------------------------------------------------

  /** The command-line flags `run` shares with the legacy script. */
  datatype RunArgs = RunArgs(sourceUrl: string, name: Option<string>, force: bool, businessAnalyst: bool, pertOnly: bool)

  /** The model and agent overrides `--model`, `--agent-id`, `--agent-alias-id`. */
  datatype AgentArgs = AgentArgs(model: Option<string>, agentId: Option<string>, agentAliasId: Option<string>)

  /**
   * The option checks of `run`, in order: the two modes exclude each other;
   * for Bedrock a model excludes an agent, and an agent id and an alias id
   * need each other. Any other provider skips the Bedrock checks.
   */
  function ValidateOptions(args: RunArgs, agent: AgentArgs, provider: string): (r: Result<(), RunError>)
    ensures args.businessAnalyst && args.pertOnly ==> r == Failure(ExclusiveModes)
  {
    if args.businessAnalyst && args.pertOnly then Failure(ExclusiveModes)
    else if provider == "bedrock" && Truthy(agent.model) && Truthy(agent.agentId) then Failure(ModelWithAgent)
    else if provider == "bedrock" && Truthy(agent.agentId) && !Truthy(agent.agentAliasId) then Failure(AgentNeedsAlias)
    else if provider == "bedrock" && Truthy(agent.agentAliasId) && !Truthy(agent.agentId) then Failure(AliasNeedsAgent)
    else Success(())
  }

  /** The accepted combinations, stated as one rule. */
  lemma ValidateOptionsIff(args: RunArgs, agent: AgentArgs, provider: string)
    ensures ValidateOptions(args, agent, provider).Success? <==>
            !(args.businessAnalyst && args.pertOnly) &&
            (provider == "bedrock" ==>
              !(Truthy(agent.model) && Truthy(agent.agentId)) && (Truthy(agent.agentId) <==> Truthy(agent.agentAliasId)))
  {
  }

  /**
   * The checks of the `--pert-only` mode: the folder must exist and hold the
   * BA notes, and an existing PERT sheet needs `force` to be overwritten.
   */
  function CheckPertOnly(existing: set<Path>, folder: Path, force: bool): (r: Result<(), RunError>)
    ensures r.Success? <==> folder in existing && folder + [BaNotesFile] in existing && (folder + [PertFile] in existing ==> force)
    ensures folder !in existing ==> r == Failure(MissingFolder(folder))
  {
    if folder !in existing then Failure(MissingFolder(folder))
    else if folder + [BaNotesFile] !in existing then Failure(MissingBaNotes(folder))
    else if folder + [PertFile] in existing && !force then Failure(PertExists(folder))
    else Success(())
  }

  // ---------------------------------------------------------------------
  // Configuration
  // ---------------------------------------------------------------------

  /** The environment variables. */
  type Env = map<string, string>

  /** `os.getenv(key)`. */
  function GetEnv(env: Env, key: string): Option<string>
  {
    if key in env then Some(env[key]) else None
  }

  /**
   * Python's `a or b or …`: the first truthy operand, or the last operand when
   * none is truthy.
   */
  function FirstTruthy(cands: seq<Option<string>>): (r: Option<string>)
    requires |cands| >= 1
    ensures Truthy(r) <==> exists i :: 0 <= i < |cands| && Truthy(cands[i])
    ensures Truthy(r) ==> exists i :: 0 <= i < |cands| && r == cands[i] && forall j :: 0 <= j < i ==> !Truthy(cands[j])
    ensures !Truthy(r) ==> r == cands[|cands| - 1]
  {
    if |cands| == 1 || Truthy(cands[0]) then cands[0]
    else
      var r := FirstTruthy(cands[1..]);
      assert forall i :: 1 <= i < |cands| ==> cands[i] == cands[1..][i - 1];
      r
  }

  /** A leading candidate that is truthy wins. */
  lemma FirstTruthyHead(cands: seq<Option<string>>)
    requires |cands| >= 1 && Truthy(cands[0])
    ensures FirstTruthy(cands) == cands[0]
  {
  }

  /** A leading candidate that is not truthy is skipped. */
  lemma FirstTruthySkip(o: Option<string>, rest: seq<Option<string>>)
    requires !Truthy(o) && |rest| >= 1
    ensures FirstTruthy([o] + rest) == FirstTruthy(rest)
  {
    assert ([o] + rest)[1..] == rest;
  }

  /**
   * The configuration `load_config` returns, for the fields `run` uses. Each
   * value has already been chosen, the environment first and the
   * configuration file last.
   */
  datatype AppConfig = AppConfig(
    provider: string,
    openaiApiKey: Option<string>,
    bedrockRegion: Option<string>,
    atlassianUrl: Option<string>,
    atlassianEmail: Option<string>,
    atlassianToken: Option<string>)

  /**
   * The Atlassian settings from three chosen values: refused unless all
   * three are truthy, then the backend client's `parse_confluence_config`
   * on the URL as `urlparse` splits it.
   */
  function ConfigFromValues(url: Option<string>, email: Option<string>, token: Option<string>, urlparse: string -> Url): (r: Result<ConfluenceConfig, RunError>)
    ensures !(Truthy(url) && Truthy(email) && Truthy(token)) <==> r == Failure(MissingAtlassianConfig)
    ensures r.Success? ==> r.value.email == email.value && r.value.apiToken == token.value
    ensures r.Success? ==> Success(r.value.rootBase) == NormalizeRootBaseUrl(urlparse(url.value))
    ensures Truthy(url) && Truthy(email) && Truthy(token) ==>
              (r == Failure(BadAtlassianUrl) <==> urlparse(url.value).scheme == "" || urlparse(url.value).netloc == "")
  {
    if !(Truthy(url) && Truthy(email) && Truthy(token)) then Failure(MissingAtlassianConfig)
    else
      match ParseConfluenceConfig(urlparse(url.value), email.value, token.value)
      case Failure(_) => Failure(BadAtlassianUrl)
      case Success(c) => Success(c)
  }

  function UrlCandidates(config: AppConfig, env: Env): seq<Option<string>>
  {
    [config.atlassianUrl, GetEnv(env, "ATLASSIAN_URL"), GetEnv(env, "CONFLUENCE_BASE_URL")]
  }

  function EmailCandidates(config: AppConfig, env: Env): seq<Option<string>>
  {
    [config.atlassianEmail, GetEnv(env, "ATLASSIAN_USER_EMAIL"), GetEnv(env, "CONFLUENCE_EMAIL")]
  }

  function TokenCandidates(config: AppConfig, env: Env): seq<Option<string>>
  {
    [config.atlassianToken, GetEnv(env, "ATLASSIAN_API_KEY"), GetEnv(env, "ATLASSIAN_API_TOKEN"), GetEnv(env, "CONFLUENCE_API_TOKEN")]
  }

  /**
   * `parse_confluence_config`: each setting from the loaded configuration
   * first, then from the environment variables as fallbacks.
   */
  function ParseConfluenceConfigScript(config: AppConfig, env: Env, urlparse: string -> Url): Result<ConfluenceConfig, RunError>
  {
    ConfigFromValues(
      FirstTruthy(UrlCandidates(config, env)),
      FirstTruthy(EmailCandidates(config, env)),
      FirstTruthy(TokenCandidates(config, env)),
      urlparse)
  }

  /**
   * Within `parse_confluence_config`, truthy values of the loaded
   * configuration are used as they are and the fallbacks are not consulted.
   */
  lemma ConfigFilePreferred(config: AppConfig, env: Env, urlparse: string -> Url)
    requires Truthy(config.atlassianUrl) && Truthy(config.atlassianEmail) && Truthy(config.atlassianToken)
    ensures ParseConfluenceConfigScript(config, env, urlparse) ==
            ConfigFromValues(config.atlassianUrl, config.atlassianEmail, config.atlassianToken, urlparse)
  {
    FirstTruthyHead(UrlCandidates(config, env));
    FirstTruthyHead(EmailCandidates(config, env));
    FirstTruthyHead(TokenCandidates(config, env));
  }

  /** The run is refused when no source supplies a URL, an email or a token. */
  lemma ConfigMissingRejected(config: AppConfig, env: Env, urlparse: string -> Url)
    requires (forall i :: 0 <= i < |UrlCandidates(config, env)| ==> !Truthy(UrlCandidates(config, env)[i]))
          || (forall i :: 0 <= i < |EmailCandidates(config, env)| ==> !Truthy(EmailCandidates(config, env)[i]))
          || (forall i :: 0 <= i < |TokenCandidates(config, env)| ==> !Truthy(TokenCandidates(config, env)[i]))
    ensures ParseConfluenceConfigScript(config, env, urlparse) == Failure(MissingAtlassianConfig)
  {
  }

  // ---------------------------------------------------------------------
  // Loading the configuration
  // ---------------------------------------------------------------------

  /**
   * The values `load_config` can take from the INI file, each `None` when
   * the file, its section or its key is absent: `[provider] provider`,
   * `[openai] api_key`, `[bedrock] region`, and `[atlassian] url`, `email`
   * and `token`.
   */
  datatype ConfigFile = ConfigFile(
    provider: Option<string>,
    openaiApiKey: Option<string>,
    bedrockRegion: Option<string>,
    url: Option<string>,
    email: Option<string>,
    token: Option<string>)

  /** The provider name: `LLM_PROVIDER`, else the file's, else "openai", lower-cased. */
  function ProviderName(file: ConfigFile, env: Env): string
  {
    var chosen := FirstTruthy([GetEnv(env, "LLM_PROVIDER"), file.provider, Some("openai")]);
    assert Truthy([GetEnv(env, "LLM_PROVIDER"), file.provider, Some("openai")][2]);
    LowerString(chosen.value)
  }

  function LoadedOpenAiKey(file: ConfigFile, env: Env): Option<string>
  {
    FirstTruthy([GetEnv(env, "OPENAI_API_KEY"), file.openaiApiKey])
  }

  function LoadedRegion(file: ConfigFile, env: Env): Option<string>
  {
    FirstTruthy([GetEnv(env, "AWS_REGION"), file.bedrockRegion])
  }

  function LoadedUrl(file: ConfigFile, env: Env): Option<string>
  {
    FirstTruthy([GetEnv(env, "ATLASSIAN_URL"), GetEnv(env, "CONFLUENCE_BASE_URL"), file.url])
  }

  function LoadedEmail(file: ConfigFile, env: Env): Option<string>
  {
    FirstTruthy([GetEnv(env, "ATLASSIAN_USER_EMAIL"), GetEnv(env, "CONFLUENCE_EMAIL"), file.email])
  }

  function LoadedToken(file: ConfigFile, env: Env): Option<string>
  {
    FirstTruthy([GetEnv(env, "ATLASSIAN_API_TOKEN"), GetEnv(env, "ATLASSIAN_API_KEY"),
                 GetEnv(env, "CONFLUENCE_API_TOKEN"), file.token])
  }

  /**
   * `load_config`, for the settings `run` depends on: the provider must be
   * "openai" or "bedrock"; OpenAI needs an API key and Bedrock a region; the
   * Atlassian values are carried as chosen, whether truthy or not.
   */
  function LoadConfig(file: ConfigFile, env: Env): (r: Result<AppConfig, RunError>)
    ensures var name := ProviderName(file, env);
            r.Success? <==> ((name == "openai" && Truthy(LoadedOpenAiKey(file, env)))
                             || (name == "bedrock" && Truthy(LoadedRegion(file, env))))
    ensures var name := ProviderName(file, env);
            r.Failure? ==> r.error == (if name != "openai" && name != "bedrock" then InvalidProvider(name)
                                       else if name == "openai" then MissingOpenAiKey else MissingRegion)
    ensures r.Success? ==> (r.value.provider == ProviderName(file, env)
                            && r.value.atlassianUrl == LoadedUrl(file, env)
                            && r.value.atlassianEmail == LoadedEmail(file, env)
                            && r.value.atlassianToken == LoadedToken(file, env))
    ensures r.Success? && r.value.provider == "openai" ==> r.value.openaiApiKey == LoadedOpenAiKey(file, env)
    ensures r.Success? && r.value.provider == "bedrock" ==> r.value.bedrockRegion == LoadedRegion(file, env)
  {
    var name := ProviderName(file, env);
    if name != "openai" && name != "bedrock" then Failure(InvalidProvider(name))
    else if name == "openai" && !Truthy(LoadedOpenAiKey(file, env)) then Failure(MissingOpenAiKey)
    else if name == "bedrock" && !Truthy(LoadedRegion(file, env)) then Failure(MissingRegion)
    else
      var key := if name == "openai" then LoadedOpenAiKey(file, env) else None;
      var region := if name == "bedrock" then LoadedRegion(file, env) else None;
      Success(AppConfig(name, key, region, LoadedUrl(file, env), LoadedEmail(file, env), LoadedToken(file, env)))
  }

  /** Two choices that the `all([...])` test and the later uses cannot tell apart. */
  predicate SameChoice(a: Option<string>, b: Option<string>)
  {
    Truthy(a) == Truthy(b) && (Truthy(a) ==> a == b)
  }

  lemma ConfigFromValuesSameChoice(u1: Option<string>, e1: Option<string>, t1: Option<string>,
                                   u2: Option<string>, e2: Option<string>, t2: Option<string>, urlparse: string -> Url)
    requires SameChoice(u1, u2) && SameChoice(e1, e2) && SameChoice(t1, t2)
    ensures ConfigFromValues(u1, e1, t1, urlparse) == ConfigFromValues(u2, e2, t2, urlparse)
  {
  }

  /** A falsy last operand of an `or` chain changes nothing the chain's users can see. */
  lemma {:induction false} DropFalsyLast(c: seq<Option<string>>, o: Option<string>)
    requires |c| >= 1 && !Truthy(o)
    ensures SameChoice(FirstTruthy(c + [o]), FirstTruthy(c))
    decreases |c|
  {
    if Truthy(c[0]) {
      FirstTruthyHead(c + [o]);
      FirstTruthyHead(c);
    } else if |c| == 1 {
      FirstTruthySkip(c[0], [o]);
      assert c + [o] == [c[0]] + [o];
    } else {
      DropFalsyLast(c[1..], o);
      FirstTruthySkip(c[0], c[1..] + [o]);
      FirstTruthySkip(c[0], c[1..]);
      assert c + [o] == [c[0]] + (c[1..] + [o]);
      assert c == [c[0]] + c[1..];
    }
  }

  /** Choosing again among operands the first choice was made from gives that choice. */
  lemma Rechoose(c: seq<Option<string>>, rest: seq<Option<string>>)
    requires |c| >= 1 && |rest| >= 1
    requires forall i :: 0 <= i < |rest| ==> rest[i] in c
    ensures SameChoice(FirstTruthy([FirstTruthy(c)] + rest), FirstTruthy(c))
  {
    var first := FirstTruthy(c);
    if Truthy(first) {
      FirstTruthyHead([first] + rest);
    } else {
      FirstTruthySkip(first, rest);
      forall i | 0 <= i < |rest| ensures !Truthy(rest[i]) {
        var j :| 0 <= j < |c| && c[j] == rest[i];
      }
    }
  }

  lemma UrlRechosen(file: ConfigFile, env: Env, config: AppConfig)
    requires config.atlassianUrl == LoadedUrl(file, env)
    ensures SameChoice(FirstTruthy(UrlCandidates(config, env)), LoadedUrl(file, env))
  {
    var eu, eb := GetEnv(env, "ATLASSIAN_URL"), GetEnv(env, "CONFLUENCE_BASE_URL");
    assert UrlCandidates(config, env) == [FirstTruthy([eu, eb, file.url])] + [eu, eb];
    Rechoose([eu, eb, file.url], [eu, eb]);
  }

  lemma EmailRechosen(file: ConfigFile, env: Env, config: AppConfig)
    requires config.atlassianEmail == LoadedEmail(file, env)
    ensures SameChoice(FirstTruthy(EmailCandidates(config, env)), LoadedEmail(file, env))
  {
    var ee, ec := GetEnv(env, "ATLASSIAN_USER_EMAIL"), GetEnv(env, "CONFLUENCE_EMAIL");
    assert EmailCandidates(config, env) == [FirstTruthy([ee, ec, file.email])] + [ee, ec];
    Rechoose([ee, ec, file.email], [ee, ec]);
  }

  lemma TokenRechosen(file: ConfigFile, env: Env, config: AppConfig)
    requires config.atlassianToken == LoadedToken(file, env)
    ensures SameChoice(FirstTruthy(TokenCandidates(config, env)), LoadedToken(file, env))
  {
    var et, ek, ect := GetEnv(env, "ATLASSIAN_API_TOKEN"), GetEnv(env, "ATLASSIAN_API_KEY"), GetEnv(env, "CONFLUENCE_API_TOKEN");
    assert TokenCandidates(config, env) == [FirstTruthy([et, ek, ect, file.token])] + [ek, et, ect];
    Rechoose([et, ek, ect, file.token], [ek, et, ect]);
  }

  /**
   * End to end, the Atlassian values `run` uses are chosen from the
   * environment first and from the configuration file last: asking the
   * environment again in `parse_confluence_config` changes no choice.
   */
  lemma LoadedAtlassianOrder(file: ConfigFile, env: Env, config: AppConfig, urlparse: string -> Url)
    requires LoadConfig(file, env) == Success(config)
    ensures ParseConfluenceConfigScript(config, env, urlparse)
         == ConfigFromValues(LoadedUrl(file, env), LoadedEmail(file, env), LoadedToken(file, env), urlparse)
  {
    UrlRechosen(file, env, config);
    EmailRechosen(file, env, config);
    TokenRechosen(file, env, config);
    ConfigFromValuesSameChoice(FirstTruthy(UrlCandidates(config, env)), FirstTruthy(EmailCandidates(config, env)),
                               FirstTruthy(TokenCandidates(config, env)), LoadedUrl(file, env), LoadedEmail(file, env),
                               LoadedToken(file, env), urlparse);
  }

  /** Environment variables override the configuration file: set ones decide, whatever the file holds. */
  lemma EnvironmentOverridesFile(file: ConfigFile, env: Env, config: AppConfig, urlparse: string -> Url)
    requires LoadConfig(file, env) == Success(config)
    requires Truthy(GetEnv(env, "ATLASSIAN_URL")) && Truthy(GetEnv(env, "ATLASSIAN_USER_EMAIL"))
    requires Truthy(GetEnv(env, "ATLASSIAN_API_TOKEN"))
    ensures ParseConfluenceConfigScript(config, env, urlparse)
         == ConfigFromValues(GetEnv(env, "ATLASSIAN_URL"), GetEnv(env, "ATLASSIAN_USER_EMAIL"),
                             GetEnv(env, "ATLASSIAN_API_TOKEN"), urlparse)
  {
    LoadedAtlassianOrder(file, env, config, urlparse);
    FirstTruthyHead([GetEnv(env, "ATLASSIAN_URL"), GetEnv(env, "CONFLUENCE_BASE_URL"), file.url]);
    FirstTruthyHead([GetEnv(env, "ATLASSIAN_USER_EMAIL"), GetEnv(env, "CONFLUENCE_EMAIL"), file.email]);
    FirstTruthyHead([GetEnv(env, "ATLASSIAN_API_TOKEN"), GetEnv(env, "ATLASSIAN_API_KEY"),
                     GetEnv(env, "CONFLUENCE_API_TOKEN"), file.token]);
  }

  /** The client `create_llm_provider` builds. */
  datatype Provider = OpenAIProvider | BedrockProvider

  /** Whether the `openai` and the `boto3` packages can be imported. */
  datatype Packages = Packages(openai: bool, boto3: bool)

  /**
   * `create_llm_provider`: the OpenAI client needs an API key; every other
   * provider name is taken as Bedrock, which needs a region. Once the
   * credential is there, the provider's constructor fails when its package
   * cannot be imported.
   */
  function CreateProvider(config: AppConfig, packages: Packages): (r: Result<Provider, RunError>)
    ensures r.Success? <==> if config.provider == "openai" then Truthy(config.openaiApiKey) && packages.openai
                            else Truthy(config.bedrockRegion) && packages.boto3
    ensures r.Success? ==> (r.value == OpenAIProvider <==> config.provider == "openai")
    ensures r.Failure? && config.provider == "openai" ==>
              r.error == (if Truthy(config.openaiApiKey) then MissingPackage("openai") else MissingOpenAiKey)
    ensures r.Failure? && config.provider != "openai" ==>
              r.error == (if Truthy(config.bedrockRegion) then MissingPackage("boto3") else MissingRegion)
  {
    if config.provider == "openai" then
      if !Truthy(config.openaiApiKey) then Failure(MissingOpenAiKey)
      else if !packages.openai then Failure(MissingPackage("openai"))
      else Success(OpenAIProvider)
    else
      if !Truthy(config.bedrockRegion) then Failure(MissingRegion)
      else if !packages.boto3 then Failure(MissingPackage("boto3"))
      else Success(BedrockProvider)
  }

  /**
   * After `load_config` the key or the region is always there, so creating
   * the provider fails only for a package that cannot be imported.
   */
  lemma LoadedProviderNeedsOnlyPackage(file: ConfigFile, env: Env, packages: Packages)
    requires LoadConfig(file, env).Success?
    ensures var config := LoadConfig(file, env).value;
            var r := CreateProvider(config, packages);
            (r.Success? <==> if config.provider == "openai" then packages.openai else packages.boto3)
            && (r.Failure? ==> r.error == MissingPackage(if config.provider == "openai" then "openai" else "boto3"))
  {
  }

  /** The checks `run` makes before fetching: the options, then the Atlassian settings. */
  function Preflight(args: RunArgs, agent: AgentArgs, config: AppConfig, env: Env, urlparse: string -> Url): (r: Result<(), RunError>)
    ensures ValidateOptions(args, agent, config.provider).Failure? ==> r == ValidateOptions(args, agent, config.provider)
    ensures r.Success? <==> ValidateOptions(args, agent, config.provider).Success? && ParseConfluenceConfigScript(config, env, urlparse).Success?
  {
    match ValidateOptions(args, agent, config.provider)
    case Failure(e) => Failure(e)
    case Success(_) =>
      match ParseConfluenceConfigScript(config, env, urlparse)
      case Failure(e) => Failure(e)
      case Success(_) => Success(())
  }

  // ---------------------------------------------------------------------
  // The run
  // ---------------------------------------------------------------------

  /** A fetched page: its title and its Markdown body. */
  datatype Page = Page(title: string, markdown: string)

  /** What a run leaves: its outcome, the files it lists as created, and the paths that exist. */
  datatype RunReport = RunReport(outcome: Result<Path, RunError>, created: seq<string>, files: set<Path>)

  /**
   * The steps before the output folder: the three prompt files are read, the
   * checks of `preflight` are made, and the page is fetched, from Jira when
   * the URL is a Jira issue and from Confluence otherwise. The result is the
   * folder-name hint, `name or title`.
   */
  function BeforeFolder(existing: set<Path>, root: Path, args: RunArgs, preflight: Result<(), RunError>,
                        jira: Result<Page, string>, confluence: Result<Page, string>): Result<Option<string>, RunError>
  {
    if BaPromptPath(root) !in existing then Failure(MissingFile(BaPromptPath(root)))
    else if EngineerPromptPath(root) !in existing then Failure(MissingFile(EngineerPromptPath(root)))
    else if PertTemplatePath(root) !in existing then Failure(MissingFile(PertTemplatePath(root)))
    else if preflight.Failure? then Failure(preflight.error)
    else
      var fetched := if IsJiraIssueUrl(args.sourceUrl) then jira else confluence;
      if fetched.Failure? then Failure(FetchFailed(fetched.error))
      else Success(if Truthy(args.name) then args.name else Some(fetched.value.title))
  }

  /** `--pert-only`: only the PERT sheet is written, into the existing folder. */
  function PertOnlySpec(existing: set<Path>, folder: Path, force: bool,
                        provider: Result<Provider, RunError>, pertSheet: Result<string, string>): (r: RunReport)
    ensures r.outcome.Success? <==> CheckPertOnly(existing, folder, force).Success? && provider.Success? && pertSheet.Success?
    ensures r.outcome.Success? ==> r.outcome.value == folder && r.created == [PertFile] && r.files == existing + {folder + [PertFile]}
    ensures r.outcome.Failure? ==> r.created == [] && r.files == existing
  {
    match CheckPertOnly(existing, folder, force)
    case Failure(e) => RunReport(Failure(e), [], existing)
    case Success(_) =>
      if provider.Failure? then RunReport(Failure(provider.error), [], existing)
      else if pertSheet.Failure? then RunReport(Failure(GenerationFailed(pertSheet.error)), [], existing)
      else RunReport(Success(folder), [PertFile], existing + {folder + [PertFile]})
  }

  /** The files a run that starts from a fresh folder has written when it ends. */
  function FreshFiles(businessAnalyst: bool, provider: Result<Provider, RunError>,
                      baNotes: Result<string, string>, pertSheet: Result<string, string>): seq<string>
  {
    if provider.Failure? || baNotes.Failure? then InputFiles
    else if businessAnalyst then InputFiles + [BaNotesFile, MetadataFile]
    else if pertSheet.Failure? then InputFiles + [BaNotesFile]
    else InputFiles + [BaNotesFile, PertFile, MetadataFile]
  }

  /** How a run that starts from a fresh folder ends. */
  function FreshOutcome(folder: Path, businessAnalyst: bool, provider: Result<Provider, RunError>,
                        baNotes: Result<string, string>, pertSheet: Result<string, string>): Result<Path, RunError>
  {
    if provider.Failure? then Failure(provider.error)
    else if baNotes.Failure? then Failure(GenerationFailed(baNotes.error))
    else if !businessAnalyst && pertSheet.Failure? then Failure(GenerationFailed(pertSheet.error))
    else Success(folder)
  }

  /**
   * The other modes: the folder is prepared by `ensure_output_dir`, the
   * three input files are written, the provider is created, then the BA
   * notes, the PERT sheet unless `--business-analyst`, and the metadata.
   * Once the folder is prepared, whatever happens next, the files that
   * exist are the prepared folder plus the files listed as created.
   */
  function FreshSpec(existing: set<Path>, folder: Path, args: RunArgs, provider: Result<Provider, RunError>,
                     baNotes: Result<string, string>, pertSheet: Result<string, string>): (r: RunReport)
    ensures EnsureOutputDirSpec(existing, folder, args.force).Failure? ==>
              r == RunReport(Failure(FolderExists(folder)), [], existing)
    ensures EnsureOutputDirSpec(existing, folder, args.force).Success? ==>
              InputFiles <= r.created && r.files == EnsureOutputDirSpec(existing, folder, args.force).value + Written(folder, r.created)
    ensures r.outcome.Success? ==>
              r.outcome.value == folder
              && r.created == (if args.businessAnalyst then InputFiles + [BaNotesFile, MetadataFile]
                               else InputFiles + [BaNotesFile, PertFile, MetadataFile])
  {
    match EnsureOutputDirSpec(existing, folder, args.force)
    case Failure(e) => RunReport(Failure(e), [], existing)
    case Success(after) =>
      var created := FreshFiles(args.businessAnalyst, provider, baNotes, pertSheet);
      RunReport(FreshOutcome(folder, args.businessAnalyst, provider, baNotes, pertSheet), created, after + Written(folder, created))
  }

  /** The whole of `run`, after the configuration is loaded. */
  function RunSpec(existing: set<Path>, root: Path, args: RunArgs, preflight: Result<(), RunError>,
                   jira: Result<Page, string>, confluence: Result<Page, string>, provider: Result<Provider, RunError>,
                   baNotes: Result<string, string>, pertSheet: Result<string, string>): RunReport
  {
    match BeforeFolder(existing, root, args, preflight, jira, confluence)
    case Failure(e) => RunReport(Failure(e), [], existing)
    case Success(hint) =>
      var folder := OutputDirPath(root, hint);
      if args.pertOnly then PertOnlySpec(existing, folder, args.force, provider, pertSheet)
      else FreshSpec(existing, folder, args, provider, baNotes, pertSheet)
  }

  /** A run that stops before the output folder changes no file and lists none. */
  lemma EarlyFailureChangesNothing(existing: set<Path>, root: Path, args: RunArgs, preflight: Result<(), RunError>,
                                   jira: Result<Page, string>, confluence: Result<Page, string>, provider: Result<Provider, RunError>,
                                   baNotes: Result<string, string>, pertSheet: Result<string, string>)
    requires BeforeFolder(existing, root, args, preflight, jira, confluence).Failure? || preflight.Failure?
    ensures var r := RunSpec(existing, root, args, preflight, jira, confluence, provider, baNotes, pertSheet);
            r.outcome.Failure? && r.created == [] && r.files == existing
  {
  }

  /** On success the files listed depend on the mode only, and all of them exist in the output folder. */
  lemma SuccessListsFiles(existing: set<Path>, root: Path, args: RunArgs, preflight: Result<(), RunError>,
                          jira: Result<Page, string>, confluence: Result<Page, string>, provider: Result<Provider, RunError>,
                          baNotes: Result<string, string>, pertSheet: Result<string, string>)
    ensures var r := RunSpec(existing, root, args, preflight, jira, confluence, provider, baNotes, pertSheet);
            r.outcome.Success? ==>
              r.created == (if args.pertOnly then [PertFile]
                            else if args.businessAnalyst then InputFiles + [BaNotesFile, MetadataFile]
                            else InputFiles + [BaNotesFile, PertFile, MetadataFile])
              && forall n :: n in r.created ==> r.outcome.value + [n] in r.files
  {
    var r := RunSpec(existing, root, args, preflight, jira, confluence, provider, baNotes, pertSheet);
    var b := BeforeFolder(existing, root, args, preflight, jira, confluence);
    if b.Success? && r.outcome.Success? {
      var folder := OutputDirPath(root, b.value);
      forall n | n in r.created ensures folder + [n] in r.files {
        if !args.pertOnly {
          assert folder + [n] in Written(folder, r.created);
        }
      }
    }
  }

  /** `--pert-only` never removes a path and adds at most the PERT sheet of the output folder. */
  lemma PertOnlyOnlyAdds(existing: set<Path>, root: Path, args: RunArgs, preflight: Result<(), RunError>,
                         jira: Result<Page, string>, confluence: Result<Page, string>, provider: Result<Provider, RunError>,
                         baNotes: Result<string, string>, pertSheet: Result<string, string>)
    requires args.pertOnly && BeforeFolder(existing, root, args, preflight, jira, confluence).Success?
    ensures var folder := OutputDirPath(root, BeforeFolder(existing, root, args, preflight, jira, confluence).value);
            var r := RunSpec(existing, root, args, preflight, jira, confluence, provider, baNotes, pertSheet);
            existing <= r.files <= existing + {folder + [PertFile]}
  {
  }

  /**
   * The folder is replaced before the provider is created: with `force`, a
   * run whose provider cannot be created has still removed the old folder's
   * contents and left only the three input files in it.
   */
  lemma FolderReplacedBeforeProviderCheck(existing: set<Path>, root: Path, args: RunArgs, preflight: Result<(), RunError>,
                                          jira: Result<Page, string>, confluence: Result<Page, string>, provider: Result<Provider, RunError>,
                                          baNotes: Result<string, string>, pertSheet: Result<string, string>)
    requires Closed(existing)
    requires BeforeFolder(existing, root, args, preflight, jira, confluence).Success?
    requires !args.pertOnly && args.force && provider.Failure?
    ensures var folder := OutputDirPath(root, BeforeFolder(existing, root, args, preflight, jira, confluence).value);
            var r := RunSpec(existing, root, args, preflight, jira, confluence, provider, baNotes, pertSheet);
            r.outcome == Failure(provider.error) && r.created == InputFiles && folder in r.files
            && forall p :: p in r.files && folder < p ==> exists n :: n in InputFiles && p == folder + [n]
  {
    var folder := OutputDirPath(root, BeforeFolder(existing, root, args, preflight, jira, confluence).value);
    EnsureOutputDirEmpties(existing, folder, true);
  }

  /** A run changes nothing outside its output folder, and adds only that folder, its ancestors and its files. */
  lemma RunTouchesOnlyOutputFolder(existing: set<Path>, root: Path, args: RunArgs, preflight: Result<(), RunError>,
                                   jira: Result<Page, string>, confluence: Result<Page, string>, provider: Result<Provider, RunError>,
                                   baNotes: Result<string, string>, pertSheet: Result<string, string>)
    requires BeforeFolder(existing, root, args, preflight, jira, confluence).Success?
    ensures var folder := OutputDirPath(root, BeforeFolder(existing, root, args, preflight, jira, confluence).value);
            var r := RunSpec(existing, root, args, preflight, jira, confluence, provider, baNotes, pertSheet);
            (forall p :: p in existing && !(folder <= p) ==> p in r.files)
            && (forall p :: p in r.files && p !in existing ==> p <= folder || (folder < p && |p| == |folder| + 1))
  {
    var folder := OutputDirPath(root, BeforeFolder(existing, root, args, preflight, jira, confluence).value);
    var r := RunSpec(existing, root, args, preflight, jira, confluence, provider, baNotes, pertSheet);
    if args.pertOnly {
      assert r == PertOnlySpec(existing, folder, args.force, provider, pertSheet);
    } else {
      assert r == FreshSpec(existing, folder, args, provider, baNotes, pertSheet);
      FreshTouchesOnlyFolder(existing, folder, args, provider, baNotes, pertSheet);
    }
  }

  /** The fresh branch changes nothing outside `folder` and adds only the folder, its ancestors and its files. */
  lemma FreshTouchesOnlyFolder(existing: set<Path>, folder: Path, args: RunArgs, provider: Result<Provider, RunError>,
                               baNotes: Result<string, string>, pertSheet: Result<string, string>)
    ensures var r := FreshSpec(existing, folder, args, provider, baNotes, pertSheet);
            (forall p :: p in existing && !(folder <= p) ==> p in r.files)
            && (forall p :: p in r.files && p !in existing ==> p <= folder || (folder < p && |p| == |folder| + 1))
  {
    var prepared := EnsureOutputDirSpec(existing, folder, args.force);
    var r := FreshSpec(existing, folder, args, provider, baNotes, pertSheet);
    if prepared.Success? {
      forall p | p in r.files && p !in existing
        ensures p <= folder || (folder < p && |p| == |folder| + 1)
      {
        if p !in prepared.value {
          var n :| n in r.created && p == folder + [n];
        }
      }
    }
  }

  /** A fresh run into an existing folder without `force` is refused and changes nothing. */
  lemma ExistingFolderRefused(existing: set<Path>, root: Path, args: RunArgs, preflight: Result<(), RunError>,
                              jira: Result<Page, string>, confluence: Result<Page, string>, provider: Result<Provider, RunError>,
                              baNotes: Result<string, string>, pertSheet: Result<string, string>)
    requires BeforeFolder(existing, root, args, preflight, jira, confluence).Success?
    requires !args.pertOnly && !args.force
    requires OutputDirPath(root, BeforeFolder(existing, root, args, preflight, jira, confluence).value) in existing
    ensures var folder := OutputDirPath(root, BeforeFolder(existing, root, args, preflight, jira, confluence).value);
            RunSpec(existing, root, args, preflight, jira, confluence, provider, baNotes, pertSheet)
              == RunReport(Failure(FolderExists(folder)), [], existing)
  {
  }

  /** The file system as the script sees it, changed in place by its steps. */
  class Workspace {
    var existing: set<Path>

    predicate Valid()
      reads this
    {
      Closed(existing)
    }

    constructor(paths: set<Path>)
      requires Closed(paths)
      ensures existing == paths && Valid()
    {
      existing := paths;
    }

    /** `ensure_output_dir`. */
    method EnsureOutputDir(root: Path, hint: Option<string>, force: bool) returns (r: Result<Path, RunError>)
      requires Valid()
      modifies this
      ensures Valid()
      ensures var folder := OutputDirPath(root, hint);
              match EnsureOutputDirSpec(old(existing), folder, force)
              case Failure(e) => r == Failure(e) && existing == old(existing)
              case Success(after) => r == Success(folder) && existing == after
    {
      var folder := OutputDirPath(root, hint);
      if folder in existing {
        if !force {
          return Failure(FolderExists(folder));
        }
        existing := RemoveTree(existing, folder);
      }
      existing := existing + Ancestors(folder);
      EnsureOutputDirEmpties(old(existing), folder, force);
      r := Success(folder);
    }

    /** `(folder / name).write_text(…)` into an existing folder. */
    method WriteFile(folder: Path, name: string)
      requires Valid() && folder in existing
      modifies this
      ensures Valid() && existing == old(existing) + {folder + [name]}
    {
      WrittenClosed(existing, folder, [name]);
      assert Written(folder, [name]) == {folder + [name]};
      existing := existing + {folder + [name]};
    }

    /** `read_text_file`: a missing file stops the run. */
    method ReadTextFile(path: Path) returns (r: Result<(), RunError>)
      ensures r.Success? <==> path in existing
      ensures r.Failure? ==> r.error == MissingFile(path)
    {
      if path !in existing {
        return Failure(MissingFile(path));
      }
      r := Success(());
    }

    /** The `--pert-only` branch of `run`. */
    method ExecutePertOnly(folder: Path, force: bool, provider: Result<Provider, RunError>, pertSheet: Result<string, string>)
      returns (outcome: Result<Path, RunError>, created: seq<string>)
      requires Valid()
      modifies this
      ensures Valid()
      ensures RunReport(outcome, created, existing) == PertOnlySpec(old(existing), folder, force, provider, pertSheet)
    {
      created := [];
      var check := CheckPertOnly(existing, folder, force);
      if check.Failure? { return Failure(check.error), created; }
      if provider.Failure? { return Failure(provider.error), created; }
      if pertSheet.Failure? { return Failure(GenerationFailed(pertSheet.error)), created; }
      WriteFile(folder, PertFile);
      created := created + [PertFile];
      outcome := Success(folder);
    }

    /**
     * The generation steps in a prepared folder, after the three input files:
     * the provider, the BA notes, the PERT sheet unless `--business-analyst`,
     * and the metadata, each file written before the next step.
     */
    method Generate(folder: Path, businessAnalyst: bool, provider: Result<Provider, RunError>,
                    baNotes: Result<string, string>, pertSheet: Result<string, string>)
      returns (outcome: Result<Path, RunError>, written: seq<string>)
      requires Valid() && folder in existing
      modifies this
      ensures Valid()
      ensures outcome == FreshOutcome(folder, businessAnalyst, provider, baNotes, pertSheet)
      ensures InputFiles + written == FreshFiles(businessAnalyst, provider, baNotes, pertSheet)
      ensures existing == old(existing) + Written(folder, written)
    {
      written := [];
      if provider.Failure? { return Failure(provider.error), written; }
      if baNotes.Failure? { return Failure(GenerationFailed(baNotes.error)), written; }
      WriteFile(folder, BaNotesFile);
      written := written + [BaNotesFile];
      if !businessAnalyst {
        if pertSheet.Failure? { return Failure(GenerationFailed(pertSheet.error)), written; }
        WriteFile(folder, PertFile);
        WrittenAppend(folder, written, PertFile);
        written := written + [PertFile];
      }
      WriteFile(folder, MetadataFile);
      WrittenAppend(folder, written, MetadataFile);
      written := written + [MetadataFile];
      outcome := Success(folder);
    }

    /** The other branch of `run`: a fresh folder, the three input files, then the generated files. */
    method ExecuteFresh(root: Path, hint: Option<string>, args: RunArgs, provider: Result<Provider, RunError>,
                        baNotes: Result<string, string>, pertSheet: Result<string, string>)
      returns (outcome: Result<Path, RunError>, created: seq<string>)
      requires Valid()
      modifies this
      ensures Valid()
      ensures RunReport(outcome, created, existing) ==
              FreshSpec(old(existing), OutputDirPath(root, hint), args, provider, baNotes, pertSheet)
    {
      var made := EnsureOutputDir(root, hint, args.force);
      if made.Failure? { return Failure(made.error), []; }
      var folder := made.value;
      ghost var after := existing;
      assert after == EnsureOutputDirSpec(old(existing), folder, args.force).value;
      WriteFile(folder, InputFiles[0]);
      WriteFile(folder, InputFiles[1]);
      WriteFile(folder, InputFiles[2]);
      WrittenInputs(after, folder);
      created := InputFiles;
      var written;
      outcome, written := Generate(folder, args.businessAnalyst, provider, baNotes, pertSheet);
      WrittenConcat(after, folder, created, written);
      created := created + written;
    }

    /** The steps of `run` before the output folder; they change nothing. */
    method Prelude(root: Path, args: RunArgs, preflight: Result<(), RunError>,
                   jira: Result<Page, string>, confluence: Result<Page, string>)
      returns (r: Result<Option<string>, RunError>)
      ensures r == BeforeFolder(existing, root, args, preflight, jira, confluence)
    {
      var read := ReadTextFile(BaPromptPath(root));
      if read.Failure? { return Failure(read.error); }
      read := ReadTextFile(EngineerPromptPath(root));
      if read.Failure? { return Failure(read.error); }
      read := ReadTextFile(PertTemplatePath(root));
      if read.Failure? { return Failure(read.error); }
      if preflight.Failure? { return Failure(preflight.error); }
      var fetched := if IsJiraIssueUrl(args.sourceUrl) then jira else confluence;
      if fetched.Failure? { return Failure(FetchFailed(fetched.error)); }
      r := Success(if Truthy(args.name) then args.name else Some(fetched.value.title));
    }

    /**
     * `run` after the configuration is loaded, appending to `created_files`
     * as it writes; a step that raises ends the run with the files written
     * so far left in place.
     */
    method Execute(root: Path, args: RunArgs, preflight: Result<(), RunError>,
                   jira: Result<Page, string>, confluence: Result<Page, string>, provider: Result<Provider, RunError>,
                   baNotes: Result<string, string>, pertSheet: Result<string, string>)
      returns (outcome: Result<Path, RunError>, created: seq<string>)
      requires Valid()
      modifies this
      ensures Valid()
      ensures RunReport(outcome, created, existing) ==
              RunSpec(old(existing), root, args, preflight, jira, confluence, provider, baNotes, pertSheet)
    {
      var before := Prelude(root, args, preflight, jira, confluence);
      if before.Failure? {
        return Failure(before.error), [];
      }
      if args.pertOnly {
        outcome, created := ExecutePertOnly(OutputDirPath(root, before.value), args.force, provider, pertSheet);
      } else {
        outcome, created := ExecuteFresh(root, before.value, args, provider, baNotes, pertSheet);
      }
    }
  }

  /**
   * The whole of this script's `run`: the configuration is loaded first, and
   * a failure there stops the run before any file is read or written.
   */
  function UnifiedRunSpec(existing: set<Path>, root: Path, args: RunArgs, agent: AgentArgs, file: ConfigFile, env: Env,
                          urlparse: string -> Url, packages: Packages, jira: Result<Page, string>, confluence: Result<Page, string>,
                          baNotes: Result<string, string>, pertSheet: Result<string, string>): RunReport
  {
    match LoadConfig(file, env)
    case Failure(e) => RunReport(Failure(e), [], existing)
    case Success(config) =>
      RunSpec(existing, root, args, Preflight(args, agent, config, env, urlparse), jira, confluence,
              CreateProvider(config, packages), baNotes, pertSheet)
  }

  /** A configuration that cannot be loaded stops the run with that error, changing and listing nothing. */
  lemma LoadFailureChangesNothing(existing: set<Path>, root: Path, args: RunArgs, agent: AgentArgs, file: ConfigFile, env: Env,
                                  urlparse: string -> Url, packages: Packages, jira: Result<Page, string>, confluence: Result<Page, string>,
                                  baNotes: Result<string, string>, pertSheet: Result<string, string>)
    requires LoadConfig(file, env).Failure?
    ensures UnifiedRunSpec(existing, root, args, agent, file, env, urlparse, packages, jira, confluence, baNotes, pertSheet)
         == RunReport(Failure(LoadConfig(file, env).error), [], existing)
    ensures LoadConfig(file, env).error in {InvalidProvider(ProviderName(file, env)), MissingOpenAiKey, MissingRegion}
  {
  }

  /** `run` of this script: the configuration, its own option checks and settings, then the shared steps. */
  method Run(ws: Workspace, root: Path, args: RunArgs, agent: AgentArgs, file: ConfigFile, env: Env, urlparse: string -> Url,
             packages: Packages, jira: Result<Page, string>, confluence: Result<Page, string>,
             baNotes: Result<string, string>, pertSheet: Result<string, string>)
    returns (outcome: Result<Path, RunError>, created: seq<string>)
    requires ws.Valid()
    modifies ws
    ensures ws.Valid()
    ensures RunReport(outcome, created, ws.existing) ==
            UnifiedRunSpec(old(ws.existing), root, args, agent, file, env, urlparse, packages, jira, confluence, baNotes, pertSheet)
  {
    var loaded := LoadConfig(file, env);
    if loaded.Failure? {
      return Failure(loaded.error), [];
    }
    var config := loaded.value;
    outcome, created := ws.Execute(root, args, Preflight(args, agent, config, env, urlparse), jira, confluence,
                                   CreateProvider(config, packages), baNotes, pertSheet);
  }
}
