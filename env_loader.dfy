/**
 * The `.env.local` reader at the top of scripts/test-db-connection.ts: the
 * file is cut into lines, each line into a key and a value at its first `=`,
 * and every well-formed line is written, trimmed, into the process
 * environment, later lines overwriting earlier ones. Reading the file is an
 * input: `None` when it cannot be read.
 */
module EnvLoader {
  import opened Wrappers
  import opened JsStrings

  /**
   * `const [key, ...valueParts] = line.split('=')`, kept when `key` is
   * non-empty and there is at least one value part; the entry is stored as
   * `key.trim()` and `valueParts.join('=').trim()`.
   */
  function LineEntry(line: string): (e: Option<(string, string)>)
    ensures e.Some? ==> Unpadded(e.value.0) && Unpadded(e.value.1)
  {
    var parts := Split(line, '=');
    var key := parts[0];
    var valueParts := parts[1..];
    if key != [] && |valueParts| > 0 then Some((Trim(key), Trim(Join(valueParts, '='))))
    else None
  }

  /** Split at `=`, the first piece is the text before the first `=` and the others join back into the rest. */
  lemma {:induction false} KeyAndValueParts(line: string)
    requires '=' in line
    ensures var i := FirstIndexOf(line, '=');
      var parts := Split(line, '=');
      |parts| >= 2 && parts[0] == line[..i] && Join(parts[1..], '=') == line[i + 1..]
  {
    var i := FirstIndexOf(line, '=');
    SplitAtFirst(line, '=');
    JoinSplit(line[i + 1..], '=');
    assert Split(line, '=')[1..] == Split(line[i + 1..], '=');
  }

  /**
   * A line counts iff it has an `=` that is not its first character; the key
   * is what precedes the first `=` and the value everything after it, `=`
   * included, both trimmed.
   */
  lemma {:induction false} LineEntrySpec(line: string)
    ensures LineEntry(line).Some? <==> '=' in line && FirstIndexOf(line, '=') > 0
    ensures LineEntry(line).Some? ==>
      var i := FirstIndexOf(line, '=');
      LineEntry(line).value == (Trim(line[..i]), Trim(line[i + 1..]))
  {
    if '=' !in line {
      SplitWithoutSeparator(line, '=');
    } else {
      KeyAndValueParts(line);
    }
  }

  /**
   * A key written with spaces only passes the untrimmed check, and its entry
   * has the empty key, which the environment does not store.
   */
  lemma {:induction false} BlankKeyNotStored(env: map<string, string>, line: string, i: nat)
    requires i < |line| && line[i] == '=' && i > 0
    requires forall k :: 0 <= k < i ==> line[k] == ' '
    ensures LineEntry(line) == Some(("", Trim(line[i + 1..])))
    ensures ApplyEntry(env, LineEntry(line)) == env
  {
    LineEntrySpec(line);
    assert FirstIndexOf(line, '=') == i;
    assert Trim(line[..i]) == "";
  }

  /**
   * `KEY=VALUE` followed by the `\r` of a Windows line ending is read as
   * `KEY` and `VALUE`, even when `VALUE` itself holds `=`.
   */
  lemma {:induction false} CarriageReturnDropped(key: string, value: string, line: string)
    requires |key| >= 1 && '=' !in key && Unpadded(key)
    requires |value| >= 1 && Unpadded(value)
    requires line == key + "=" + value + "\r"
    ensures LineEntry(line) == Some((key, value))
  {
    FirstIndexAfterPrefix(key, value + "\r", line);
    KeyAndValueParts(line);
    assert line[..|key|] == key;
    assert line[|key| + 1..] == value + "\r";
    TrimUnpadded(key);
    TrimDropsTrailingSpace(value, '\r');
  }

  lemma {:induction false} FirstIndexAfterPrefix(key: string, rest: string, line: string)
    requires '=' !in key && line == key + "=" + rest
    ensures '=' in line && FirstIndexOf(line, '=') == |key|
  {
    assert line[|key|] == '=';
    assert forall k :: 0 <= k < |key| ==> line[k] == key[k];
  }

  /** The environment stores no variable with an empty name. */
  predicate Storable(key: string) {
    key != ""
  }

  /**
   * A line's entry, written into the environment when there is one.
   * `process.env[name] = value` hands the name to `setenv`, which refuses an
   * empty name, and the refusal is ignored: an entry with the empty key
   * changes nothing.
   */
  function ApplyEntry(env: map<string, string>, entry: Option<(string, string)>): (r: map<string, string>)
    ensures entry.Some? && Storable(entry.value.0) ==> r == env[entry.value.0 := entry.value.1]
    ensures entry.None? || !Storable(entry.value.0) ==> r == env
  {
    match entry
    case Some((key, value)) => if Storable(key) then env[key := value] else env
    case None => env
  }

  /** The entries applied in order: existing keys are never removed, and every new key comes from an entry. */
  function ApplyEntries(env: map<string, string>, entries: seq<Option<(string, string)>>): (r: map<string, string>)
    ensures env.Keys <= r.Keys
    ensures forall key :: key in r && key !in env ==> !Unmentioned(entries, key)
    decreases |entries|
  {
    if |entries| == 0 then env
    else
      var r := ApplyEntries(ApplyEntry(env, entries[0]), entries[1..]);
      assert forall key :: key in r && key !in env ==> !Unmentioned(entries, key) by {
        forall key | key in r && key !in env ensures !Unmentioned(entries, key) {
          if key !in ApplyEntry(env, entries[0]) {
            var i :| 0 <= i < |entries[1..]| && Writes(entries[1..][i], key);
            assert entries[1..][i] == entries[i + 1];
          } else {
            assert Writes(entries[0], key);
          }
        }
      }
      r
  }

  /** The entry of each line, in order. */
  function LineEntries(lines: seq<string>): (entries: seq<Option<(string, string)>>)
    ensures |entries| == |lines|
    ensures forall i :: 0 <= i < |lines| ==> entries[i] == LineEntry(lines[i])
  {
    seq(|lines|, i requires 0 <= i < |lines| => LineEntry(lines[i]))
  }

  /** `entry` sets `key`: it is an entry for `key`, and the key can be stored. */
  predicate Writes(entry: Option<(string, string)>, key: string) {
    entry.Some? && entry.value.0 == key && Storable(key)
  }

  /** No entry sets `key`. */
  predicate Unmentioned(entries: seq<Option<(string, string)>>, key: string) {
    forall i :: 0 <= i < |entries| ==> !Writes(entries[i], key)
  }

  /** A key no line mentions keeps its previous value, or stays absent. */
  lemma {:induction false} UnmentionedKeyKept(env: map<string, string>, entries: seq<Option<(string, string)>>, key: string)
    requires Unmentioned(entries, key)
    ensures key in ApplyEntries(env, entries) <==> key in env
    ensures key in env ==> ApplyEntries(env, entries)[key] == env[key]
    decreases |entries|
  {
    if |entries| > 0 {
      assert Unmentioned(entries[1..], key) by {
        forall i | 0 <= i < |entries[1..]|
          ensures !Writes(entries[1..][i], key)
        {
          assert entries[1..][i] == entries[i + 1];
        }
      }
      UnmentionedKeyKept(ApplyEntry(env, entries[0]), entries[1..], key);
    }
  }

  /** The last line with an entry for `key` decides its value. */
  lemma {:induction false} LastLineWins(env: map<string, string>, entries: seq<Option<(string, string)>>, i: nat,
                                        key: string, value: string)
    requires i < |entries| && entries[i] == Some((key, value)) && Storable(key)
    requires Unmentioned(entries[i + 1..], key)
    ensures key in ApplyEntries(env, entries) && ApplyEntries(env, entries)[key] == value
    decreases |entries|
  {
    var next := ApplyEntry(env, entries[0]);
    if i == 0 {
      UnmentionedKeyKept(next, entries[1..], key);
    } else {
      assert entries[1..][i - 1] == entries[i];
      assert entries[1..][i - 1 + 1..] == entries[i + 1..];
      LastLineWins(next, entries[1..], i - 1, key, value);
    }
  }

  /** The process environment that `loadEnv` writes into. */
  class ProcessEnv {
    var vars: map<string, string>

    constructor (initial: map<string, string>)
      ensures vars == initial
    {
      vars := initial;
    }

    /**
     * `loadEnv()`, given the file's contents or `None` when reading it
     * throws: the lines are applied one by one, in order.
     */
    method LoadEnv(content: Option<string>)
      modifies this
      ensures content.None? ==> vars == old(vars)
      ensures content.Some? ==> vars == ApplyEntries(old(vars), LineEntries(Split(content.value, '\n')))
    {
      if content.Some? {
        var lines := Split(content.value, '\n');
        ghost var entries := LineEntries(lines);
        var i := 0;
        while i < |lines|
          invariant 0 <= i <= |lines|
          invariant ApplyEntries(vars, entries[i..]) == ApplyEntries(old(vars), entries)
        {
          var entry := LineEntry(lines[i]);
          assert entry == entries[i];
          if entry.Some? && Storable(entry.value.0) {
            vars := vars[entry.value.0 := entry.value.1];
          }
          assert entries[i..][1..] == entries[i + 1..];
          i := i + 1;
        }
      }
    }
  }
}
