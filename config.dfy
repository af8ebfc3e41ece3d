/** src/lib/config.ts: the configuration read from the environment, and its
    validation. The environment is a parameter rather than the process's. */
module Config {
  import opened Common
  import opened Strings

  /** Environment variables by name; an unset variable is not a key. */
  type Environment = map<string, string>

  datatype AppConfig = AppConfig(
    geminiApiKey: string,
    searchApiKey: string,
    searchResultsCount: ParsedInt,
    isDev: bool)

  /** `process.env[name] || fallback`. */
  function EnvOr(env: Environment, name: string, fallback: string): (v: string)
    ensures v == fallback || (name in env && v == env[name])
  {
    if name in env && env[name] != "" then env[name] else fallback
  }

  /** The `config` object. */
  function LoadConfig(env: Environment): (c: AppConfig)
    ensures c.isDev <==> "NODE_ENV" in env && env["NODE_ENV"] == "development"
    ensures c.geminiApiKey == "" <==> "GEMINI_API_KEY" !in env || env["GEMINI_API_KEY"] == ""
    ensures c.searchApiKey == "" <==> "SEARCH_API_KEY" !in env || env["SEARCH_API_KEY"] == ""
    ensures c.geminiApiKey == (if "GEMINI_API_KEY" in env then env["GEMINI_API_KEY"] else "")
    ensures c.searchApiKey == (if "SEARCH_API_KEY" in env then env["SEARCH_API_KEY"] else "")
    ensures "SEARCH_RESULTS_COUNT" !in env || env["SEARCH_RESULTS_COUNT"] == "" ==> c.searchResultsCount == Num(5)
  {
    DefaultCount();
    AppConfig(
      EnvOr(env, "GEMINI_API_KEY", ""),
      EnvOr(env, "SEARCH_API_KEY", ""),
      ParseInt(EnvOr(env, "SEARCH_RESULTS_COUNT", "5")),
      "NODE_ENV" in env && env["NODE_ENV"] == "development")
  }

  /** The default count text reads as five. */
  lemma DefaultCount()
    ensures ParseInt("5") == Num(5)
  {
    assert Decimal(5) == "5";
    ParseIntDecimal(5, "");
    assert "5" + "" == "5";
  }

  /** With nothing set: empty keys, five results, not development. */
  lemma {:induction false} ConfigDefaults(env: Environment)
    requires "GEMINI_API_KEY" !in env && "SEARCH_API_KEY" !in env
    requires "SEARCH_RESULTS_COUNT" !in env && "NODE_ENV" !in env
    ensures LoadConfig(env) == AppConfig("", "", Num(5), false)
  {
  }

  /** A count written in decimal is read as that count. */
  lemma {:induction false} ConfigCountRoundTrip(env: Environment, n: nat)
    requires "SEARCH_RESULTS_COUNT" in env && env["SEARCH_RESULTS_COUNT"] == Decimal(n)
    ensures LoadConfig(env).searchResultsCount == Num(n)
  {
    ParseIntDecimal(n, "");
    assert Decimal(n) + "" == Decimal(n);
  }

  const MissingPrefix: string := "Missing environment variables: "

  /** `validateConfig`: collects the names of the empty keys, Gemini's
      first, and throws when there is any; `None` means it returned. */
  method ValidateConfig(config: AppConfig) returns (thrown: Option<Thrown>)
    ensures thrown.Some? <==> config.geminiApiKey == "" || config.searchApiKey == ""
    ensures config.geminiApiKey == "" && config.searchApiKey == "" ==>
              thrown == Some(ErrorObject(MissingPrefix + "GEMINI_API_KEY, SEARCH_API_KEY"))
    ensures config.geminiApiKey == "" && config.searchApiKey != "" ==>
              thrown == Some(ErrorObject(MissingPrefix + "GEMINI_API_KEY"))
    ensures config.geminiApiKey != "" && config.searchApiKey == "" ==>
              thrown == Some(ErrorObject(MissingPrefix + "SEARCH_API_KEY"))
  {
    var missing: seq<string> := [];
    if config.geminiApiKey == "" {
      missing := missing + ["GEMINI_API_KEY"];
    }
    if config.searchApiKey == "" {
      missing := missing + ["SEARCH_API_KEY"];
    }
    if |missing| == 2 {
      JoinTwo("GEMINI_API_KEY", "SEARCH_API_KEY", ", ");
      assert missing == ["GEMINI_API_KEY", "SEARCH_API_KEY"];
      assert "GEMINI_API_KEY" + ", " + "SEARCH_API_KEY" == "GEMINI_API_KEY, SEARCH_API_KEY";
    }
    if |missing| > 0 {
      thrown := Some(ErrorObject(MissingPrefix + Join(missing, ", ")));
    } else {
      thrown := None;
    }
  }
}
