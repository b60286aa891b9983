/** The key check of the API test script: reading `.env`, classifying the six
    required keys, and the overall verdict. The network probes are inputs. */
module ApiKeys {

  import opened Common
  import opened Text
  import opened EnvLines
  import AutoFixDeploy

  /** `line.includes('=') && !line.startsWith('#')`. */
  predicate IsVarLine(line: string) {
    Contains(line, "=") && !StartsWith(line, "#")
  }

  /** The module-level read loop: `file` is the content of `.env`, `None`
      when it cannot be read (the variables then stay `{}`). */
  method ReadEnvVars(file: Option<string>) returns (envVars: map<string, string>)
    ensures file.None? ==> envVars == map[]
    ensures file.Some? ==> envVars == EnvOf(Split(file.value, '\n'), IsVarLine)
  {
    envVars := map[];
    if file.None? {
      return;
    }
    var lines := Split(file.value, '\n');
    var i := 0;
    while i < |lines|
      invariant 0 <= i <= |lines|
      invariant envVars == EnvOf(lines[..i], IsVarLine)
    {
      var line := lines[i];
      assert lines[..i + 1][..i] == lines[..i];
      if IsVarLine(line) {
        var parts := Split(line, '=');
        var value := Trim(Join(parts[1..], "="));
        envVars := envVars[Trim(parts[0]) := value];
      }
      i := i + 1;
    }
    assert lines[..|lines|] == lines;
  }

  /** This script and the deployment script accept the same lines (an empty
      line holds no `=`), so they read the same variables from any file. */
  lemma SameVariablesAsDeployScript(file: string)
    ensures EnvOf(Split(file, '\n'), IsVarLine) == AutoFixDeploy.EnvOfFile(Some(file))
  {
    var lines := Split(file, '\n');
    forall i | 0 <= i < |lines|
      ensures IsVarLine(lines[i]) == AutoFixDeploy.IsSetting(lines[i])
    {
      if lines[i] == "" {
        assert !Contains(lines[i], "=");
      }
    }
    AssignedSameTest(lines, IsVarLine, AutoFixDeploy.IsSetting, LineKey, LineValue);
  }

  const RequiredKeys: seq<string> := [
    "OPENAI_API_KEY",
    "NEXT_PUBLIC_SUPABASE_URL",
    "NEXT_PUBLIC_SUPABASE_ANON_KEY",
    "SUPABASE_SERVICE_ROLE_KEY",
    "PINECONE_API_KEY",
    "PINECONE_INDEX_NAME"
  ]

  /** `value && value.length > 0`. */
  predicate IsPresent(env: map<string, string>, k: string) {
    k in env && |env[k]| > 0
  }

  /** `value && !value.includes('your_') && !value.includes('replace_')`. */
  predicate IsSecure(env: map<string, string>, k: string) {
    k in env && env[k] != "" && !Contains(env[k], "your_") && !Contains(env[k], "replace_")
  }

  /** What the script reports for one key: missing, or present with its
      length, whether it is free of placeholders, and its first characters. */
  datatype KeyReport =
    | Missing(key: string)
    | Present(key: string, length: nat, secure: bool, preview: string)

  /** Only the underscore spellings count as placeholders: a non-empty value
      without `_` is accepted as secure. */
  lemma NoUnderscoreIsSecure(env: map<string, string>, k: string)
    requires k in env && env[k] != "" && '_' !in env[k]
    ensures IsSecure(env, k)
  {
    if Contains(env[k], "your_") {
      ContainsChars(env[k], "your_", '_');
    }
    if Contains(env[k], "replace_") {
      ContainsChars(env[k], "replace_", '_');
    }
  }

  /** The hyphenated placeholder value is not flagged. */
  lemma HyphenatedPlaceholderPasses(env: map<string, string>, k: string)
    requires k in env && env[k] == "your-pinecone-api-key"
    ensures IsSecure(env, k)
  {
    NoUnderscoreIsSecure(env, k);
  }

  /** The report for `k`: the preview is `value.substring(0, 10)`. */
  function ReportFor(env: map<string, string>, k: string): (r: KeyReport)
    ensures r.key == k
    ensures r.Missing? <==> !IsPresent(env, k)
    ensures r.Present? ==>
      && r.length == |env[k]| && r.secure == IsSecure(env, k)
      && r.preview == env[k][..if |env[k]| < 10 then |env[k]| else 10]
  {
    if IsPresent(env, k) then Present(k, |env[k]|, IsSecure(env, k), Take(env[k], 10)) else Missing(k)
  }

  /** A value free of placeholders is present. */
  lemma SecureIsPresent(env: map<string, string>, k: string)
    requires IsSecure(env, k)
    ensures IsPresent(env, k)
  {
  }

  /** The `requiredKeys.forEach` loop: one report per required key, in order,
      and `allKeysPresent` cleared by any key that is missing or holds a
      placeholder. */
  method CheckKeys(env: map<string, string>) returns (reports: seq<KeyReport>, allKeysPresent: bool)
    ensures |reports| == |RequiredKeys|
    ensures forall i :: 0 <= i < |RequiredKeys| ==> reports[i] == ReportFor(env, RequiredKeys[i])
    ensures allKeysPresent <==>
      forall i :: 0 <= i < |RequiredKeys| ==> IsPresent(env, RequiredKeys[i]) && IsSecure(env, RequiredKeys[i])
  {
    reports := [];
    allKeysPresent := true;
    var i := 0;
    while i < |RequiredKeys|
      invariant 0 <= i <= |RequiredKeys|
      invariant |reports| == i
      invariant forall j :: 0 <= j < i ==> reports[j] == ReportFor(env, RequiredKeys[j])
      invariant allKeysPresent <==> forall j :: 0 <= j < i ==> IsPresent(env, RequiredKeys[j]) && IsSecure(env, RequiredKeys[j])
    {
      var key := RequiredKeys[i];
      var present := IsPresent(env, key);
      var secure := IsSecure(env, key);
      reports := reports + [ReportFor(env, key)];
      if !present || !secure {
        allKeysPresent := false;
      }
      i := i + 1;
    }
  }

  /** The verdict printed under "Overall Status". */
  datatype OverallStatus = AllWorking | ApisFailing | KeysMissing

  /** The three exclusive outcomes: every key present and every API working;
      every key present but some API failing; some key missing or holding a
      placeholder, whatever the APIs did. */
  function Overall(allKeysPresent: bool, openai: bool, supabase: bool, pinecone: bool): (s: OverallStatus)
    ensures s == AllWorking <==> allKeysPresent && openai && supabase && pinecone
    ensures s == ApisFailing <==> allKeysPresent && !(openai && supabase && pinecone)
    ensures s == KeysMissing <==> !allKeysPresent
  {
    var allApisWorking := openai && supabase && pinecone;
    if allKeysPresent && allApisWorking then AllWorking
    else if allKeysPresent && !allApisWorking then ApisFailing
    else KeysMissing
  }

  /** The probes' own guards: a probe whose key (for Supabase, the URL or
      the anon key) is missing or empty reports a failure without a request,
      so a probe that worked had its keys. */
  predicate ProbesGuarded(env: map<string, string>, openai: bool, supabase: bool, pinecone: bool) {
    && (openai ==> IsPresent(env, RequiredKeys[0]))
    && (supabase ==> IsPresent(env, RequiredKeys[1]) && IsPresent(env, RequiredKeys[2]))
    && (pinecone ==> IsPresent(env, RequiredKeys[4]))
  }

  /** Without the OpenAI key, a Supabase credential or the Pinecone key some
      API fails: the verdict is never "all working" and the API advice is
      always printed, whatever `allKeysPresent` says. */
  lemma MissingProbeKeyFailsApis(env: map<string, string>, allKeysPresent: bool, openai: bool, supabase: bool, pinecone: bool)
    requires ProbesGuarded(env, openai, supabase, pinecone)
    requires !IsPresent(env, RequiredKeys[0]) || !IsPresent(env, RequiredKeys[1])
          || !IsPresent(env, RequiredKeys[2]) || !IsPresent(env, RequiredKeys[4])
    ensures Overall(allKeysPresent, openai, supabase, pinecone) != AllWorking
    ensures CheckPermissions in Recommendations(allKeysPresent, openai && supabase && pinecone)
  {
  }

  /** The numbered advice printed under "Recommendations". */
  datatype Advice =
    | FixKeysInEnvFile | SetKeysInVercel | CheckPermissions | VerifyEndpoints
    | CheckDeployLogs | ManualRedeploy | ClearCache

  /** The position of the advice in the script's output: keys first, then
      the APIs, then deployment. */
  function PrintOrder(a: Advice): nat {
    match a
    case FixKeysInEnvFile => 0
    case SetKeysInVercel => 1
    case CheckPermissions => 2
    case VerifyEndpoints => 3
    case CheckDeployLogs => 4
    case ManualRedeploy => 5
    case ClearCache => 6
  }

  /** Advice about keys appears iff a key is missing, advice about the APIs
      iff one failed, and the deployment advice iff nothing failed; each at
      most once, in print order, and the list is never empty. */
  function Recommendations(allKeysPresent: bool, allApisWorking: bool): (r: seq<Advice>)
    ensures FixKeysInEnvFile in r <==> !allKeysPresent
    ensures SetKeysInVercel in r <==> !allKeysPresent
    ensures CheckPermissions in r <==> !allApisWorking
    ensures VerifyEndpoints in r <==> !allApisWorking
    ensures CheckDeployLogs in r <==> allKeysPresent && allApisWorking
    ensures ManualRedeploy in r <==> allKeysPresent && allApisWorking
    ensures ClearCache in r <==> allKeysPresent && allApisWorking
    ensures forall i, j :: 0 <= i < j < |r| ==> PrintOrder(r[i]) < PrintOrder(r[j])
    ensures r != []
  {
    (if !allKeysPresent then [FixKeysInEnvFile, SetKeysInVercel] else [])
    + (if !allApisWorking then [CheckPermissions, VerifyEndpoints] else [])
    + (if allKeysPresent && allApisWorking then [CheckDeployLogs, ManualRedeploy, ClearCache] else [])
  }
}
