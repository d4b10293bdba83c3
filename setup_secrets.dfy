/**
 * The secrets set-up script: it reads a `.env` text into a key/value
 * dictionary, line by line, and refuses to go on unless both client
 * credentials are set. Reading the file and handing the values to the
 * deployment tool are outside the model; the file's text is an input.
 */
module SetupSecrets {
  import opened Wrappers
  import opened JsStrings

  /**
   * The entry one line adds, `None` when it adds none: a line blank after
   * trimming, a `#` comment, a line without `=` or with an empty key.
   * The key is the text before the first `=`, the value all the rest.
   */
  function ParseLine(line: string): (entry: Option<(string, string)>)
    ensures entry.Some? ==> '=' in Trim(line)
    ensures entry.Some? ==> entry.value.0 != "" && '=' !in entry.value.0 && entry.value.0[0] != '#'
  {
    var trimmed := Trim(line);
    if trimmed == "" || trimmed[0] == '#' then None
    else
      var parts := Split(trimmed, '=');
      SplitHead(trimmed, '=');
      IndexOfFirst(trimmed, '=');
      if parts[0] != "" && |parts| > 1 then Some((parts[0], Join(parts[1..], '='))) else None
  }

  /** An entry comes from a trimmed line `key=value` whose key is not empty, holds no `=` and is no comment. */
  lemma ParseLineEntry(line: string)
    requires ParseLine(line).Some?
    ensures var (key, value) := ParseLine(line).value;
            Trim(line) == key + "=" + value && key != "" && '=' !in key && key[0] != '#'
  {
    var t := Trim(line);
    var i := IndexOf(t, '=');
    assert i < |t| by {
      IndexOfFirst(t, '=');
    }
    SplitHead(t, '=');
    SplitTail(t, '=');
    assert t == t[..i] + "=" + t[i + 1..];
  }

  /** Conversely every trimmed `key=value` line with such a key gives exactly that entry; `value` may hold `=`. */
  lemma ParseLineOfEntry(line: string, key: string, value: string)
    requires Trim(line) == key + "=" + value
    requires key != "" && '=' !in key && key[0] != '#'
    ensures ParseLine(line) == Some((key, value))
  {
    var t := Trim(line);
    assert t == key + ['='] + value;
    FirstSeparator(key, '=', value);
    SplitHead(t, '=');
    assert t[..|key|] == key;
    SplitTail(t, '=');
    assert t[|key| + 1..] == value;
  }

  /** Blank lines, comments, lines without `=` and lines starting with `=` add nothing. */
  lemma SkippedLines(line: string)
    requires var t := Trim(line); t == "" || t[0] == '#' || '=' !in t || t[0] == '='
    ensures ParseLine(line) == None
  {
    var t := Trim(line);
    if t != "" && t[0] != '#' {
      var i := IndexOf(t, '=');
      SplitHead(t, '=');
      if i == |t| {
        assert Split(t, '=') == [t];
      } else {
        assert t[0] == '=';
        assert i == 0;
      }
    }
  }

  /** `KEY=` stores the empty string. */
  lemma EmptyValueStored(key: string)
    requires key != "" && '=' !in key && key[0] != '#' && !IsWhitespace(key[0])
    ensures ParseLine(key + "=") == Some((key, ""))
  {
    var line := key + "=";
    TrimUntouched(line);
    assert line == key + "=" + "";
    ParseLineOfEntry(line, key, "");
  }

  /**
   * The value the dictionary holds for `key` after `lines`: that of the
   * last line whose entry has this key (`None` when no line has one).
   */
  function LastValue(lines: seq<string>, key: string): (value: Option<string>)
    ensures value.Some? ==> exists i :: 0 <= i < |lines| && ParseLine(lines[i]) == Some((key, value.value))
  {
    if |lines| == 0 then None
    else
      match ParseLine(lines[|lines| - 1])
      case Some((k, v)) => if k == key then Some(v) else LastValue(lines[..|lines| - 1], key)
      case None => LastValue(lines[..|lines| - 1], key)
  }

  /** Last writer wins: the entry of line `i` survives when no later line has its key. */
  lemma {:induction false} LastLineWins(lines: seq<string>, i: nat, key: string, value: string)
    requires i < |lines| && ParseLine(lines[i]) == Some((key, value))
    requires forall j :: i < j < |lines| ==> ParseLine(lines[j]).None? || ParseLine(lines[j]).value.0 != key
    ensures LastValue(lines, key) == Some(value)
    decreases |lines|
  {
    if i < |lines| - 1 {
      var init := lines[..|lines| - 1];
      assert forall j :: i < j < |init| ==> init[j] == lines[j];
      LastLineWins(init, i, key, value);
    }
  }

  /** A key no line defines is absent. */
  lemma {:induction false} UndefinedKeyAbsent(lines: seq<string>, key: string)
    requires forall j :: 0 <= j < |lines| ==> ParseLine(lines[j]).None? || ParseLine(lines[j]).value.0 != key
    ensures LastValue(lines, key) == None
    decreases |lines|
  {
    if |lines| > 0 {
      var init := lines[..|lines| - 1];
      assert forall j :: 0 <= j < |init| ==> init[j] == lines[j];
      UndefinedKeyAbsent(init, key);
    }
  }

  /** One line appended: its entry, if any, decides the key's value; otherwise the earlier lines do. */
  lemma LastValueSnoc(lines: seq<string>, line: string, key: string)
    ensures LastValue(lines + [line], key) ==
              match ParseLine(line)
              case Some((k, v)) => if k == key then Some(v) else LastValue(lines, key)
              case None => LastValue(lines, key)
  {
    assert (lines + [line])[..|lines|] == lines;
    assert (lines + [line])[|lines|] == line;
  }

  /** A line that adds no entry can be dropped without changing any value. */
  lemma {:induction false} SkippedLineInvisible(before: seq<string>, line: string, after: seq<string>, key: string)
    requires ParseLine(line) == None
    ensures LastValue(before + [line] + after, key) == LastValue(before + after, key)
    decreases |after|
  {
    if |after| == 0 {
      assert before + [line] + after == before + [line];
      assert before + after == before;
      LastValueSnoc(before, line, key);
    } else {
      var last := after[|after| - 1];
      var init := after[..|after| - 1];
      assert before + [line] + after == (before + [line] + init) + [last];
      assert before + after == (before + init) + [last];
      LastValueSnoc(before + [line] + init, last, key);
      LastValueSnoc(before + init, last, key);
      SkippedLineInvisible(before, line, init, key);
    }
  }

  /** One more line: its entry, if any, overrides the value of its key. */
  lemma LastValueStep(lines: seq<string>, i: nat, key: string)
    requires i < |lines|
    ensures LastValue(lines[..i + 1], key) ==
              match ParseLine(lines[i])
              case Some((k, v)) => if k == key then Some(v) else LastValue(lines[..i], key)
              case None => LastValue(lines[..i], key)
  {
    assert lines[..i + 1][..i] == lines[..i];
    assert lines[..i + 1][i] == lines[i];
  }

  /** After line `i` is added, the dictionary still holds the last value of every key. */
  lemma AddLineTracksLastValue(lines: seq<string>, i: nat, envVars: map<string, string>, updated: map<string, string>)
    requires i < |lines|
    requires forall key :: Get(envVars, key) == LastValue(lines[..i], key)
    requires ParseLine(lines[i]).None? ==> updated == envVars
    requires ParseLine(lines[i]).Some? ==> updated == envVars[ParseLine(lines[i]).value.0 := ParseLine(lines[i]).value.1]
    ensures forall key :: Get(updated, key) == LastValue(lines[..i + 1], key)
  {
    forall key
      ensures Get(updated, key) == LastValue(lines[..i + 1], key)
    {
      LastValueStep(lines, i, key);
    }
  }

  /** The `forEach` callback: adds the entry of one line, if it has one, overwriting the key's old value. */
  method AddLine(envVars: map<string, string>, line: string) returns (updated: map<string, string>)
    ensures ParseLine(line).None? ==> updated == envVars
    ensures ParseLine(line).Some? ==> updated == envVars[ParseLine(line).value.0 := ParseLine(line).value.1]
  {
    updated := envVars;
    var trimmed := Trim(line);
    if trimmed != "" && trimmed[0] != '#' {
      var parts := Split(trimmed, '=');
      var key, valueParts := parts[0], parts[1..];
      if key != "" && |valueParts| > 0 {
        updated := updated[key := Join(valueParts, '=')];
      }
    }
  }

  /** The `forEach` over the lines: a later line overwrites an earlier one with the same key. */
  method ParseLines(lines: seq<string>) returns (envVars: map<string, string>)
    ensures forall key :: Get(envVars, key) == LastValue(lines, key)
  {
    envVars := map[];
    var i := 0;
    while i < |lines|
      invariant i <= |lines|
      invariant forall key :: Get(envVars, key) == LastValue(lines[..i], key)
    {
      var updated := AddLine(envVars, lines[i]);
      AddLineTracksLastValue(lines, i, envVars, updated);
      envVars, i := updated, i + 1;
    }
    assert lines[..|lines|] == lines;
  }

  /** The `.env` text read into a dictionary, one line per `\n`. */
  method ParseEnv(content: string) returns (envVars: map<string, string>)
    ensures forall key :: Get(envVars, key) == LastValue(Split(content, '\n'), key)
  {
    envVars := ParseLines(Split(content, '\n'));
  }

  /** The two credentials the script hands on. */
  datatype Secrets = Secrets(clientId: string, clientSecret: string)

  /** Either the credentials, or the message the script exits with. */
  datatype SetupResult = Ready(secrets: Secrets) | Refused(message: string)

  const MissingFile := "Error: .env file not found"
  const MissingCredentials := "Error: CLIENT_ID and CLIENT_SECRET must be set in .env file"

  /** The required-variable check: both credentials must be present and not empty. */
  function CheckRequired(envVars: map<string, string>): (r: SetupResult)
    ensures r.Ready? <==> Truthy(Get(envVars, "CLIENT_ID")) && Truthy(Get(envVars, "CLIENT_SECRET"))
    ensures r.Ready? ==> r.secrets == Secrets(envVars["CLIENT_ID"], envVars["CLIENT_SECRET"])
    ensures r.Refused? ==> r.message == MissingCredentials
  {
    if !Truthy(Get(envVars, "CLIENT_ID")) || !Truthy(Get(envVars, "CLIENT_SECRET")) then Refused(MissingCredentials)
    else Ready(Secrets(envVars["CLIENT_ID"], envVars["CLIENT_SECRET"]))
  }

  /**
   * The script up to the deployment step: the `.env` text (`None` when the
   * file does not exist), parsed and checked.
   */
  method Setup(envFile: Option<string>) returns (r: SetupResult)
    ensures envFile.None? ==> r == Refused(MissingFile)
    ensures envFile.Some? ==>
              var lines := Split(envFile.value, '\n');
              && (r.Ready? <==> Truthy(LastValue(lines, "CLIENT_ID")) && Truthy(LastValue(lines, "CLIENT_SECRET")))
              && (r.Ready? ==> r.secrets == Secrets(LastValue(lines, "CLIENT_ID").value, LastValue(lines, "CLIENT_SECRET").value))
              && (r.Refused? ==> r.message == MissingCredentials)
  {
    if envFile.None? {
      return Refused(MissingFile);
    }
    var envVars := ParseEnv(envFile.value);
    assert Get(envVars, "CLIENT_ID") == LastValue(Split(envFile.value, '\n'), "CLIENT_ID");
    assert Get(envVars, "CLIENT_SECRET") == LastValue(Split(envFile.value, '\n'), "CLIENT_SECRET");
    r := CheckRequired(envVars);
  }
}
