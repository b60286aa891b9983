/** The credential reader of the Supabase connection script: it takes the
    URL and the anonymous key from the lines that open with their exact
    `NAME=` prefix, and stops when either is empty. */
module SupabaseEnv {

  import opened Common
  import opened Text
  import opened EnvLines

  const UrlKey: string := "NEXT_PUBLIC_SUPABASE_URL"
  const AnonKeyKey: string := "NEXT_PUBLIC_SUPABASE_ANON_KEY"
  const UrlPrefix: string := UrlKey + "="
  const AnonKeyPrefix: string := AnonKeyKey + "="

  /** `s` up to its first `c`, or all of `s`. */
  function UpTo(s: string, c: char): (r: string)
    ensures c !in r
    ensures |r| <= |s| && r == s[..|r|]
    ensures |r| < |s| ==> s[|r|] == c
  {
    match IndexOf(s, c)
    case None => s
    case Some(i) => s[..i]
  }

  /** A line that opens with a prefix holds every character of the prefix. */
  lemma StartsWithHolds(s: string, p: string, c: char)
    requires StartsWith(s, p) && c in p
    ensures c in s
  {
    var j :| 0 <= j < |p| && p[j] == c;
    assert s[j] == p[j];
  }

  /** The first part of a split is the text up to the first separator. */
  lemma SplitFirstPart(s: string, c: char)
    ensures Split(s, c)[0] == UpTo(s, c)
  {
    match IndexOf(s, c)
    case None =>
      SplitNoSep(s, c);
    case Some(j) =>
      assert s == s[..j] + [c] + s[j + 1..];
      SplitAtFirst(s[..j], c, s[j + 1..]);
  }

  /** A line holding `c` splits into at least two parts, the second running
      from the first `c` to the next one. */
  lemma SplitSecondPart(line: string, c: char)
    requires c in line
    ensures |Split(line, c)| >= 2
    ensures Split(line, c)[1] == UpTo(line[IndexOf(line, c).value + 1..], c)
  {
    var i := IndexOf(line, c).value;
    var rest := line[i + 1..];
    assert line == line[..i] + [c] + rest;
    SplitAtFirst(line[..i], c, rest);
    var parts := Split(line, c);
    assert parts == [line[..i]] + Split(rest, c);
    SplitFirstPart(rest, c);
    assert parts[1] == Split(rest, c)[0];
  }

  /** `line.split('=')[1].trim()`: the text between the first and the second
      `=`, trimmed; whatever follows a second `=` is dropped. */
  function SecondSegment(line: string): (r: string)
    requires '=' in line
    ensures r == Trim(UpTo(line[IndexOf(line, '=').value + 1..], '='))
  {
    SplitSecondPart(line, '=');
    Trim(Split(line, '=')[1])
  }

  /** What the loop leaves in the variable read with `prefix`: the second
      segment of the last line that opens with `prefix`, or `''`. */
  function LastValue(lines: seq<string>, prefix: string): string
    requires '=' in prefix
  {
    if lines == [] then ""
    else
      var line := lines[|lines| - 1];
      if StartsWith(line, prefix) then
        StartsWithHolds(line, prefix, '=');
        SecondSegment(line)
      else LastValue(lines[..|lines| - 1], prefix)
  }

  /** The last line that opens with `prefix` decides; with no such line the
      value stays empty. */
  lemma {:induction false} LastValueOfLastLine(lines: seq<string>, prefix: string, i: nat)
    requires '=' in prefix
    requires i < |lines| && StartsWith(lines[i], prefix)
    requires forall j :: i < j < |lines| ==> !StartsWith(lines[j], prefix)
    ensures '=' in lines[i]
    ensures LastValue(lines, prefix) == SecondSegment(lines[i])
    decreases |lines|
  {
    StartsWithHolds(lines[i], prefix, '=');
    if i < |lines| - 1 {
      var init := lines[..|lines| - 1];
      assert init[i] == lines[i];
      LastValueOfLastLine(init, prefix, i);
    }
  }

  /** Without a line opening with `prefix` the value is empty. */
  lemma {:induction false} LastValueNone(lines: seq<string>, prefix: string)
    requires '=' in prefix
    requires forall j :: 0 <= j < |lines| ==> !StartsWith(lines[j], prefix)
    ensures LastValue(lines, prefix) == ""
    decreases |lines|
  {
    if lines != [] {
      LastValueNone(lines[..|lines| - 1], prefix);
    }
  }

  /** One more line: it decides if it opens with `prefix`. */
  lemma LastValueStep(lines: seq<string>, i: nat, prefix: string)
    requires '=' in prefix && i < |lines|
    ensures StartsWith(lines[i], prefix) ==> '=' in lines[i] && |Split(lines[i], '=')| >= 2
    ensures LastValue(lines[..i + 1], prefix) ==
      if StartsWith(lines[i], prefix) then SecondSegment(lines[i]) else LastValue(lines[..i], prefix)
  {
    var pre := lines[..i + 1];
    assert pre[..i] == lines[..i] && pre[i] == lines[i];
    if StartsWith(lines[i], prefix) {
      StartsWithHolds(lines[i], prefix, '=');
      SplitSecondPart(lines[i], '=');
    }
  }

  lemma PrefixesHoldEquals()
    ensures '=' in UrlPrefix && '=' in AnonKeyPrefix
  {
    assert UrlPrefix[|UrlKey|] == '=';
    assert AnonKeyPrefix[|AnonKeyKey|] == '=';
  }

  /** The module-level read loop: `file` is the content of `.env`, `None`
      when it cannot be read (both values then stay `''`). */
  method ReadCredentials(file: Option<string>) returns (url: string, anonKey: string)
    ensures '=' in UrlPrefix && '=' in AnonKeyPrefix
    ensures file.None? ==> url == "" && anonKey == ""
    ensures file.Some? ==>
      && url == LastValue(Split(file.value, '\n'), UrlPrefix)
      && anonKey == LastValue(Split(file.value, '\n'), AnonKeyPrefix)
  {
    PrefixesHoldEquals();
    url, anonKey := "", "";
    if file.None? {
      return;
    }
    var lines := Split(file.value, '\n');
    var urlPrefix, anonKeyPrefix := UrlPrefix, AnonKeyPrefix;
    var i := 0;
    while i < |lines|
      invariant 0 <= i <= |lines|
      invariant url == LastValue(lines[..i], urlPrefix)
      invariant anonKey == LastValue(lines[..i], anonKeyPrefix)
    {
      var line := lines[i];
      LastValueStep(lines, i, urlPrefix);
      LastValueStep(lines, i, anonKeyPrefix);
      if StartsWith(line, urlPrefix) {
        url := SecondSegment(line);
      }
      if StartsWith(line, anonKeyPrefix) {
        anonKey := SecondSegment(line);
      }
      assert anonKey == LastValue(lines[..i + 1], anonKeyPrefix);
      assert url == LastValue(lines[..i + 1], urlPrefix);
      i := i + 1;
    }
    assert lines[..|lines|] == lines;
  }

  /** How the script goes on after reading: `process.exit(1)`, or a client
      created with the two values. */
  datatype Outcome = Exit(code: int) | Connect(url: string, anonKey: string)

  /** The script exits with code 1, before any client is created, iff either
      value is empty; otherwise it connects with exactly the values read. */
  method Start(file: Option<string>) returns (o: Outcome)
    ensures '=' in UrlPrefix && '=' in AnonKeyPrefix
    ensures file.None? ==> o == Exit(1)
    ensures file.Some? ==>
      var url := LastValue(Split(file.value, '\n'), UrlPrefix);
      var anonKey := LastValue(Split(file.value, '\n'), AnonKeyPrefix);
      && (o == Exit(1) <==> url == "" || anonKey == "")
      && (o.Connect? ==> o == Connect(url, anonKey))
  {
    var url, anonKey := ReadCredentials(file);
    if url == "" || anonKey == "" {
      return Exit(1);
    }
    o := Connect(url, anonKey);
  }

  /** A trimmed slice of `s` holds only characters of `s`. */
  lemma TrimHoldsNoNew(s: string, c: char)
    requires c !in s
    ensures c !in Trim(s)
  {
  }

  /** Trimming keeps a non-space character of `s`. */
  lemma TrimKeeps(s: string, k: nat)
    requires k < |s| && !IsSpace(s[k])
    ensures s[k] in Trim(s)
  {
    var r := Trim(s);
    var l := LeadingSpaces(s);
    assert l <= k;
    assert k < l + |r|;
    assert r[k - l] == s[k];
  }

  /** On `KEY=a=b` this reader keeps only `a`, where the general `.env`
      parser keeps `a=b`: the two disagree on every value holding `=`. */
  lemma SecondEqualsDropped(k: string, a: string, b: string)
    requires '=' !in k && '=' !in a
    ensures '=' in k + "=" + a + "=" + b
    ensures SecondSegment(k + "=" + a + "=" + b) == Trim(a)
    ensures LineValue(k + "=" + a + "=" + b) == Trim(a + "=" + b)
    ensures SecondSegment(k + "=" + a + "=" + b) != LineValue(k + "=" + a + "=" + b)
  {
    var rest := a + "=" + b;
    var line := k + "=" + rest;
    assert k + "=" + a + "=" + b == line;
    assert line[|k|] == '=';
    SplitAtFirst(k, '=', rest);
    assert line == k + ['='] + rest;
    SplitAtFirst(a, '=', b);
    assert rest == a + ['='] + b;
    KeyValueOf(k, rest);
    TrimHoldsNoNew(a, '=');
    assert rest[|a|] == '=';
    TrimKeeps(rest, |a|);
  }

  /** `" " + k` trims to a key `k` with no whitespace at its ends. */
  lemma TrimOneLeadingSpace(k: string)
    requires k != [] && !IsSpace(k[0]) && !IsSpace(k[|k| - 1])
    ensures Trim(" " + k) == k
  {
    var s := " " + k;
    assert s[1..] == k;
    assert LeadingSpaces(s) == 1;
  }

  /** An indented `KEY=v` line is ignored by this reader, while the general
      `.env` parser reads it as `KEY` set to `v`. */
  lemma IndentedLineIgnored(k: string, v: string)
    requires k != [] && !IsSpace(k[0]) && !IsSpace(k[|k| - 1]) && '=' !in k
    ensures !StartsWith(" " + k + "=" + v, k + "=")
    ensures LineKey(" " + k + "=" + v) == k && LineValue(" " + k + "=" + v) == Trim(v)
  {
    var line := " " + k + "=" + v;
    assert line[0] == ' ';
    assert (k + "=")[0] == k[0];
    assert '=' !in " " + k;
    KeyValueOf(" " + k, v);
    TrimOneLeadingSpace(k);
  }

  /** Both credential keys satisfy the conditions of the two lemmas above. */
  lemma CredentialKeysArePlain(k: string)
    requires k == UrlKey || k == AnonKeyKey
    ensures k != [] && !IsSpace(k[0]) && !IsSpace(k[|k| - 1]) && '=' !in k
  {
  }
}
