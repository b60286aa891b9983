/** The `KEY=value` line grammar the project's `.env` scripts share:
    `const [key, ...valueParts] = line.split('=')`, the key and the re-joined
    value both trimmed, later lines overwriting earlier ones. */
module EnvLines {

  import opened Common
  import opened Text

  /** `key.trim()`: the trimmed text before the first `=`. */
  function LineKey(line: string): string {
    Trim(Split(line, '=')[0])
  }

  /** `valueParts.join('=').trim()`: everything after the first `=`, trimmed,
      later `=` characters included. */
  function LineValue(line: string): string {
    Trim(Join(Split(line, '=')[1..], "="))
  }

  /** The key is what precedes the first `=`, the value all that follows it. */
  lemma KeyValueAroundFirstEquals(line: string)
    requires '=' in line
    ensures var i := IndexOf(line, '=').value;
      LineKey(line) == Trim(line[..i]) && LineValue(line) == Trim(line[i + 1..])
  {
    SplitHeadTail(line, '=');
  }

  /** A line `a=b` whose key part has no `=`: key `a`, value `b`, trimmed. */
  lemma KeyValueOf(a: string, b: string)
    requires '=' !in a
    ensures LineKey(a + "=" + b) == Trim(a) && LineValue(a + "=" + b) == Trim(b)
  {
    SplitAtFirst(a, '=', b);
    JoinSplit(b, '=');
    assert a + "=" + b == a + ['='] + b;
  }

  /** The variables a script reads from `lines`: each line `parsed` accepts
      assigns its value to its key, in file order. */
  function EnvOf(lines: seq<string>, parsed: string -> bool): map<string, string> {
    Assigned(lines, parsed, LineKey, LineValue)
  }

  /** Every `line` that `parsed` accepts performs `env[key(line)] = value(line)`,
      in order. */
  function Assigned<L>(lines: seq<L>, parsed: L -> bool, key: L -> string, value: L -> string): map<string, string>
    decreases |lines|
  {
    if lines == [] then map[]
    else
      var env := Assigned(lines[..|lines| - 1], parsed, key, value);
      var line := lines[|lines| - 1];
      if parsed(line) then env[key(line) := value(line)] else env
  }

  /** A key is defined exactly when an accepted line names it. */
  lemma {:induction false} AssignedDefined<L>(lines: seq<L>, parsed: L -> bool, key: L -> string, value: L -> string, k: string)
    ensures k in Assigned(lines, parsed, key, value) <==> exists i :: 0 <= i < |lines| && parsed(lines[i]) && key(lines[i]) == k
    decreases |lines|
  {
    if lines != [] {
      var n := |lines| - 1;
      var init := lines[..n];
      AssignedDefined(init, parsed, key, value, k);
      assert forall i :: 0 <= i < n ==> init[i] == lines[i];
      if k in Assigned(init, parsed, key, value) {
        var i :| 0 <= i < n && parsed(init[i]) && key(init[i]) == k;
        assert parsed(lines[i]) && key(lines[i]) == k;
      }
    }
  }

  /** The last accepted line that names a key gives its value. */
  lemma {:induction false} AssignedLastWins<L>(lines: seq<L>, parsed: L -> bool, key: L -> string, value: L -> string, i: nat)
    requires i < |lines| && parsed(lines[i])
    requires forall j :: i < j < |lines| && parsed(lines[j]) ==> key(lines[j]) != key(lines[i])
    ensures key(lines[i]) in Assigned(lines, parsed, key, value)
    ensures Assigned(lines, parsed, key, value)[key(lines[i])] == value(lines[i])
    decreases |lines|
  {
    var n := |lines| - 1;
    if i < n {
      var init := lines[..n];
      assert init[i] == lines[i];
      assert forall j :: i < j < n ==> init[j] == lines[j];
      AssignedLastWins(init, parsed, key, value, i);
    }
  }

  /** A key is defined exactly when an accepted line names it. */
  lemma EnvOfDefined(lines: seq<string>, parsed: string -> bool, k: string)
    ensures k in EnvOf(lines, parsed) <==> exists i :: 0 <= i < |lines| && parsed(lines[i]) && LineKey(lines[i]) == k
  {
    AssignedDefined(lines, parsed, LineKey, LineValue, k);
  }

  /** The last accepted line that names a key gives its value: later lines win. */
  lemma EnvOfLastWins(lines: seq<string>, parsed: string -> bool, i: nat)
    requires i < |lines| && parsed(lines[i])
    requires forall j :: i < j < |lines| && parsed(lines[j]) ==> LineKey(lines[j]) != LineKey(lines[i])
    ensures LineKey(lines[i]) in EnvOf(lines, parsed)
    ensures EnvOf(lines, parsed)[LineKey(lines[i])] == LineValue(lines[i])
  {
    AssignedLastWins(lines, parsed, LineKey, LineValue, i);
  }

  /** Two scripts whose line tests agree on every line read the same variables. */
  lemma {:induction false} AssignedSameTest<L>(lines: seq<L>, p: L -> bool, q: L -> bool, key: L -> string, value: L -> string)
    requires forall i :: 0 <= i < |lines| ==> p(lines[i]) == q(lines[i])
    ensures Assigned(lines, p, key, value) == Assigned(lines, q, key, value)
    decreases |lines|
  {
    if lines != [] {
      var n := |lines| - 1;
      assert forall i :: 0 <= i < n ==> lines[..n][i] == lines[i];
      AssignedSameTest(lines[..n], p, q, key, value);
    }
  }

  /** A setting followed by an ignored line, appended to a file, is read
      last: its assignment wins. */
  lemma AssignedAppend<L>(lines: seq<L>, x: L, y: L, parsed: L -> bool, key: L -> string, value: L -> string)
    requires parsed(x) && !parsed(y)
    ensures Assigned(lines + [x, y], parsed, key, value) == Assigned(lines, parsed, key, value)[key(x) := value(x)]
  {
    var all := lines + [x, y];
    assert all[..|all| - 1] == lines + [x];
    assert (lines + [x])[..|lines|] == lines;
    assert Assigned(all, parsed, key, value) == Assigned(lines + [x], parsed, key, value);
  }
}
