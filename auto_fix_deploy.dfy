/** The `.env` repair step of the deployment script: reading the settings,
    deciding whether the Pinecone settings need a fix, and rewriting the file. */
module AutoFixDeploy {

  import opened Common
  import opened Text
  import opened EnvLines

  /** `line && !line.startsWith('#') && line.includes('=')`. */
  predicate IsSetting(line: string) {
    line != "" && !StartsWith(line, "#") && Contains(line, "=")
  }

  /** `readEnvFile()`: `file` is the content of `.env`, `None` when it cannot
      be read (then the result is `{}`). */
  method ReadEnvFile(file: Option<string>) returns (env: map<string, string>)
    ensures file.None? ==> env == map[]
    ensures file.Some? ==> env == EnvOf(Split(file.value, '\n'), IsSetting)
  {
    if file.None? {
      return map[];
    }
    var lines := Split(file.value, '\n');
    env := map[];
    var i := 0;
    while i < |lines|
      invariant 0 <= i <= |lines|
      invariant env == EnvOf(lines[..i], IsSetting)
    {
      var line := lines[i];
      assert lines[..i + 1][..i] == lines[..i];
      if IsSetting(line) {
        var parts := Split(line, '=');
        env := env[Trim(parts[0]) := Trim(Join(parts[1..], "="))];
      }
      i := i + 1;
    }
    assert lines[..|lines|] == lines;
  }

  /** The settings a readable `.env` defines. */
  function EnvOfFile(file: Option<string>): map<string, string> {
    if file.None? then map[] else EnvOf(Split(file.value, '\n'), IsSetting)
  }

  const ApiKeyName: string := "PINECONE_API_KEY"
  const EnvironmentName: string := "PINECONE_ENVIRONMENT"
  const IndexName: string := "PINECONE_INDEX_NAME"

  /** `env.X` is truthy: defined and not empty. */
  predicate IsSet(env: map<string, string>, k: string) {
    k in env && env[k] != ""
  }

  /** The three checks of `fixEnvFile`: a placeholder API key, a missing or
      placeholder environment, a missing index name. */
  predicate NeedsFix(env: map<string, string>) {
    || (IsSet(env, ApiKeyName) && Contains(env[ApiKeyName], "your-pinecone"))
    || !IsSet(env, EnvironmentName) || Contains(env[EnvironmentName], "your-pinecone")
    || !IsSet(env, IndexName)
  }

  /** A missing API key alone triggers no fix. */
  lemma MissingApiKeyAloneIsFine(env: map<string, string>)
    requires ApiKeyName !in env
    requires IsSet(env, EnvironmentName) && !Contains(env[EnvironmentName], "your-pinecone")
    requires IsSet(env, IndexName)
    ensures !NeedsFix(env)
  {
  }

  /** ECMAScript's line terminators, where `^` and `$` match in multiline mode. */
  predicate IsLineTerminator(c: char) {
    c == '\n' || c == '\r' || c == '\U{2028}' || c == '\U{2029}'
  }

  /** `/^pat$/m` matches at `i`: `pat` occurs there and fills a whole line. */
  predicate WholeLineAt(s: string, pat: string, i: int) {
    && OccursAt(s, pat, i)
    && (i == 0 || IsLineTerminator(s[i - 1]))
    && (i + |pat| == |s| || IsLineTerminator(s[i + |pat|]))
  }

  /** The leftmost position at or after `from` where `pat` fills a whole line. */
  function FirstWholeLine(s: string, pat: string, from: nat): (r: Option<nat>)
    ensures r.Some? ==> from <= r.value && WholeLineAt(s, pat, r.value)
    ensures r.Some? ==> forall j :: from <= j < r.value ==> !WholeLineAt(s, pat, j)
    ensures r.None? ==> forall j :: from <= j ==> !WholeLineAt(s, pat, j)
    decreases |s| - from
  {
    if from + |pat| > |s| then None
    else if WholeLineAt(s, pat, from) then Some(from)
    else FirstWholeLine(s, pat, from + 1)
  }

  /** `s.replace(/^pat$/m, rep)`: the leftmost line equal to `pat` becomes
      `rep`; everything before and after it is kept; no match, no change. */
  function ReplaceFirstLine(s: string, pat: string, rep: string): (r: string)
    ensures FirstWholeLine(s, pat, 0).None? ==> r == s
    ensures FirstWholeLine(s, pat, 0).Some? ==>
      var i := FirstWholeLine(s, pat, 0).value;
      && |r| == |s| - |pat| + |rep|
      && (forall j :: 0 <= j < i ==> !WholeLineAt(s, pat, j))
      && r[..i] == s[..i] && r[i..i + |rep|] == rep && r[i + |rep|..] == s[i + |pat|..]
  {
    match FirstWholeLine(s, pat, 0)
    case None => s
    case Some(i) =>
      var r := s[..i] + rep + s[i + |pat|..];
      assert r[..i] == s[..i] && r[i..i + |rep|] == rep && r[i + |rep|..] == s[i + |pat|..];
      r
  }

  const ApiKeyPlaceholder: string := "PINECONE_API_KEY=your-pinecone-api-key"
  const EnvironmentPlaceholder: string := "PINECONE_ENVIRONMENT=your-pinecone-environment"
  const IndexDefaultValue: string := "ai-cofounder-ideas"
  const IndexNameDefault: string := IndexName + "=" + IndexDefaultValue

  /** What `fixEnvFile` did: nothing, a rewrite with the new content of
      `.env`, or a crash when the file it must rewrite cannot be read. */
  datatype FixOutcome = Unchanged | Rewritten(content: string) | Crashed

  /** The content a rewrite produces: both placeholder lines commented out,
      and the default index name appended when none is set. */
  function FixedContent(content: string, env: map<string, string>): string {
    var once := ReplaceFirstLine(content, ApiKeyPlaceholder, "# " + ApiKeyPlaceholder);
    var twice := ReplaceFirstLine(once, EnvironmentPlaceholder, "# " + EnvironmentPlaceholder);
    if IsSet(env, IndexName) then twice else twice + "\n" + IndexNameDefault + "\n"
  }

  /** `fixEnvFile()`: `file` is the content of `.env`. */
  method FixEnvFile(file: Option<string>) returns (r: FixOutcome)
    ensures r.Unchanged? <==> !NeedsFix(EnvOfFile(file))
    ensures r.Crashed? <==> file.None?
    ensures r.Rewritten? ==> r.content == FixedContent(file.value, EnvOfFile(file))
  {
    var env := ReadEnvFile(file);
    var needsFix := false;
    if IsSet(env, ApiKeyName) && Contains(env[ApiKeyName], "your-pinecone") {
      needsFix := true;
    }
    if !IsSet(env, EnvironmentName) || Contains(env[EnvironmentName], "your-pinecone") {
      needsFix := true;
    }
    if !IsSet(env, IndexName) {
      needsFix := true;
    }
    if !needsFix {
      return Unchanged;
    }
    if file.None? {
      return Crashed;
    }
    var content := file.value;
    content := ReplaceFirstLine(content, ApiKeyPlaceholder, "# " + ApiKeyPlaceholder);
    content := ReplaceFirstLine(content, EnvironmentPlaceholder, "# " + EnvironmentPlaceholder);
    if !IsSet(env, IndexName) {
      content := content + "\n" + IndexNameDefault + "\n";
    }
    return Rewritten(content);
  }

  /** A line `k=v` whose key is not empty, does not open with `#` and holds
      no `=` is a setting of `k` to `v`, both trimmed. */
  lemma SettingLine(k: string, v: string)
    requires k != [] && k[0] != '#' && '=' !in k
    ensures IsSetting(k + "=" + v)
    ensures LineKey(k + "=" + v) == Trim(k) && LineValue(k + "=" + v) == Trim(v)
  {
    var line := k + "=" + v;
    KeyValueOf(k, v);
    assert OccursAt(line, "=", |k|);
    ContainsAt(line, "=");
    assert line[..1] == [k[0]];
  }

  /** The appended line is a setting of the default index name. */
  lemma IndexNameDefaultIsSetting()
    ensures IsSetting(IndexNameDefault)
    ensures LineKey(IndexNameDefault) == IndexName && LineValue(IndexNameDefault) == IndexDefaultValue
    ensures '\n' !in IndexNameDefault
  {
    assert '\n' !in IndexName && '\n' !in IndexDefaultValue;
    TrimNoSpaceEdges(IndexName);
    TrimNoSpaceEdges(IndexDefaultValue);
    SettingLine(IndexName, IndexDefaultValue);
  }

  /** Appending `"\n" + line + "\n"` adds that line and an empty one. */
  lemma SplitAppendedLine(content: string, line: string)
    requires '\n' !in line
    ensures Split(content + "\n" + line + "\n", '\n') == Split(content, '\n') + [line, ""]
  {
    assert content + "\n" + line + "\n" == content + ['\n'] + (line + ['\n'] + []);
    SplitConcat(content, '\n', line + ['\n'] + []);
    SplitAtFirst(line, '\n', []);
  }

  /** When the index name was missing, reading the rewritten file back finds
      the default one, so the rewrite is not needed a second time for it. */
  lemma RewriteSetsIndexName(content: string)
    requires !IsSet(EnvOfFile(Some(content)), IndexName)
    ensures var fixed := EnvOfFile(Some(FixedContent(content, EnvOfFile(Some(content)))));
      IndexName in fixed && fixed[IndexName] == IndexDefaultValue
  {
    var env := EnvOfFile(Some(content));
    var once := ReplaceFirstLine(content, ApiKeyPlaceholder, "# " + ApiKeyPlaceholder);
    var twice := ReplaceFirstLine(once, EnvironmentPlaceholder, "# " + EnvironmentPlaceholder);
    assert FixedContent(content, env) == twice + "\n" + IndexNameDefault + "\n";
    IndexNameDefaultIsSetting();
    SplitAppendedLine(twice, IndexNameDefault);
    assert !IsSetting("");
    AssignedAppend(Split(twice, '\n'), IndexNameDefault, "", IsSetting, LineKey, LineValue);
  }
}
