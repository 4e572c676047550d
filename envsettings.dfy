/**
 * `load_env_settings` in turbidity_sensor_gui.py: the Telegram credentials read
 * from `KEY=value` lines of the `.env` file, the last occurrence of a key winning,
 * with the process environment as the fallback for a value that is missing or
 * empty.
 */
module EnvSettings {
  import opened Wrappers

  const TOKEN_KEY: string := "TELEGRAM_BOT_TOKEN"
  const CHAT_KEY: string := "TELEGRAM_CHAT_ID"

  /** The characters for which Python's `str.isspace` holds: what `str.strip()`
      removes. */
  predicate IsPySpace(c: char) {
    || '\t' <= c <= '\r' || '\U{1C}' <= c <= ' '
    || c == '\U{85}' || c == '\U{A0}' || c == '\U{1680}'
    || '\U{2000}' <= c <= '\U{200A}'
    || c == '\U{2028}' || c == '\U{2029}' || c == '\U{202F}' || c == '\U{205F}' || c == '\U{3000}'
  }

  /** What one strip removes: whitespace, or every copy of one character. */
  datatype Strippable = Whitespace | Only(c: char)

  predicate Strips(cs: Strippable, c: char) {
    match cs
    case Whitespace => IsPySpace(c)
    case Only(d) => c == d
  }

  /** Python truthiness of an optional string: present and not empty. */
  predicate Truthy(s: Option<string>) {
    s.Some? && s.value != ""
  }

  /** `a or b` on optional strings. */
  function Or(a: Option<string>, b: Option<string>): (r: Option<string>)
    ensures Truthy(a) ==> r == a
    ensures !Truthy(a) ==> r == b
  {
    if Truthy(a) then a else b
  }

  // ---------------------------------------------------------------------------
  // Stripping.

  /** `s.lstrip(cs)`: the suffix left after the leading characters from `cs`. */
  function LStrip(s: string, cs: Strippable): (r: string)
    ensures |r| <= |s|
  {
    if s != [] && Strips(cs, s[0]) then LStrip(s[1..], cs) else s
  }

  /** `s.rstrip(cs)`: the prefix left before the trailing characters from `cs`. */
  function RStrip(s: string, cs: Strippable): (r: string)
    ensures |r| <= |s|
  {
    if s != [] && Strips(cs, s[|s| - 1]) then RStrip(s[..|s| - 1], cs) else s
  }

  /** Left stripping removes a run of leading characters to strip, exactly. */
  lemma {:induction false} LStripRemovesLeadingRun(s: string, cs: Strippable)
    ensures var r := LStrip(s, cs);
      && r == s[|s| - |r|..]
      && (forall k | 0 <= k < |s| - |r| :: Strips(cs, s[k]))
      && (r == [] || !Strips(cs, r[0]))
  {
    if s != [] && Strips(cs, s[0]) {
      LStripRemovesLeadingRun(s[1..], cs);
    }
  }

  /** Right stripping removes a run of trailing characters to strip, exactly. */
  lemma {:induction false} RStripRemovesTrailingRun(s: string, cs: Strippable)
    ensures var r := RStrip(s, cs);
      && r == s[..|r|]
      && (forall k | |r| <= k < |s| :: Strips(cs, s[k]))
      && (r == [] || !Strips(cs, r[|r| - 1]))
  {
    if s != [] && Strips(cs, s[|s| - 1]) {
      RStripRemovesTrailingRun(s[..|s| - 1], cs);
    }
  }

  /** `s.strip(cs)`. */
  function StripChars(s: string, cs: Strippable): string {
    RStrip(LStrip(s, cs), cs)
  }

  /** `s.strip()`. */
  function Strip(s: string): string {
    StripChars(s, Whitespace)
  }

  /** Stripping leaves a string alone that neither starts nor ends with a character
      to strip. */
  lemma StripCharsClean(s: string, cs: Strippable)
    requires s == [] || (!Strips(cs, s[0]) && !Strips(cs, s[|s| - 1]))
    ensures StripChars(s, cs) == s
  {
  }

  /** What stripping leaves neither starts nor ends with a character to strip. */
  lemma StripCharsTrimmed(s: string, cs: Strippable)
    ensures var r := StripChars(s, cs);
      r == [] || (!Strips(cs, r[0]) && !Strips(cs, r[|r| - 1]))
  {
    var l := LStrip(s, cs);
    var r := RStrip(l, cs);
    LStripRemovesLeadingRun(s, cs);
    RStripRemovesTrailingRun(l, cs);
    if r != [] {
      assert r[0] == l[0];
    }
  }

  // ---------------------------------------------------------------------------
  // One line.

  /** The index of the first `c` in `s`. */
  function FirstIndex(s: string, c: char): (i: nat)
    requires c in s
    ensures i < |s| && s[i] == c && c !in s[..i]
  {
    if s[0] == c then 0
    else
      assert c in s[1..];
      var j := FirstIndex(s[1..], c);
      assert s[..j + 1] == [s[0]] + s[1..][..j];
      j + 1
  }

  /** The first `=` after a key without one is the one that follows the key. */
  lemma {:induction false} FirstIndexAfterKey(key: string, rest: string)
    requires '=' !in key
    ensures FirstIndex(key + "=" + rest, '=') == |key|
  {
    var s := key + "=" + rest;
    if key != [] {
      assert s[0] == key[0];
      assert s[1..] == key[1..] + "=" + rest;
      FirstIndexAfterKey(key[1..], rest);
    }
  }

  /** One line of the file: stripped, skipped when blank, a `#` comment or without
      `=`, otherwise split at its first `=` into a stripped key and a value stripped
      of whitespace, then of double quotes, then of single quotes. */
  function ParseSettingLine(raw: string): Option<(string, string)> {
    var line := Strip(raw);
    if line == [] || line[0] == '#' || '=' !in line then None
    else
      var i := FirstIndex(line, '=');
      var key := Strip(line[..i]);
      var value := StripChars(StripChars(Strip(line[i + 1..]), Only('"')), Only('\''));
      Some((key, value))
  }

  /** Blank lines, comments and lines without `=` set nothing. */
  lemma SkippedLines(raw: string)
    ensures var line := Strip(raw);
      (line == [] || line[0] == '#' || '=' !in line) <==> ParseSettingLine(raw).None?
  {
  }

  /** A key and a value that need no stripping, neither holding `=` in the key nor
      starting the key with `#`. */
  predicate CleanKey(key: string) {
    key != [] && key[0] != '#' && '=' !in key
    && !IsPySpace(key[0]) && !IsPySpace(key[|key| - 1])
  }

  predicate CleanValue(value: string) {
    value == [] ||
    (&& !IsPySpace(value[0]) && !IsPySpace(value[|value| - 1])
     && value[0] != '"' && value[|value| - 1] != '"'
     && value[0] != '\'' && value[|value| - 1] != '\'')
  }

  /** A line `KEY=rest` with a clean key splits at the `=` after the key. */
  lemma SplitAfterKey(key: string, rest: string)
    requires CleanKey(key)
    requires rest == [] || !IsPySpace(rest[|rest| - 1])
    ensures ParseSettingLine(key + "=" + rest)
         == Some((key, StripChars(StripChars(Strip(rest), Only('"')), Only('\''))))
  {
    var line := key + "=" + rest;
    StripCharsClean(line, Whitespace);
    assert line[..|key|] == key;
    assert line[|key| + 1..] == rest;
    assert '=' in line by { assert line[|key|] == '='; }
    FirstIndexAfterKey(key, rest);
    StripCharsClean(key, Whitespace);
  }

  /** Stripping `c` from a value wrapped in `c` gives back the value, when the value
      neither starts nor ends with `c`. */
  lemma StripWrapped(value: string, c: char)
    requires value == [] || (value[0] != c && value[|value| - 1] != c)
    ensures StripChars([c] + value + [c], Only(c)) == value
  {
    var w := [c] + value + [c];
    assert w[1..] == value + [c];
    assert LStrip(w, Only(c)) == LStrip(value + [c], Only(c));
    if value == [] {
      assert LStrip([c], Only(c)) == LStrip([], Only(c));
    } else {
      assert (value + [c])[0] == value[0];
      assert (value + [c])[..|value|] == value;
      assert RStrip(value + [c], Only(c)) == RStrip(value, Only(c));
      StripCharsClean(value, Only(c));
    }
  }

  /** A line written as `KEY=value` reads back as that key and that value. */
  lemma SettingLineRoundTrip(key: string, value: string)
    requires CleanKey(key) && CleanValue(value)
    ensures ParseSettingLine(key + "=" + value) == Some((key, value))
  {
    SplitAfterKey(key, value);
    StripCharsClean(value, Whitespace);
    StripCharsClean(value, Only('"'));
    StripCharsClean(value, Only('\''));
  }

  /** The quotes around a value are removed: `KEY="value"` reads as `value`. */
  lemma QuotedSettingLineRoundTrip(key: string, value: string)
    requires CleanKey(key) && CleanValue(value)
    ensures ParseSettingLine(key + "=\"" + value + "\"") == Some((key, value))
  {
    var quoted := "\"" + value + "\"";
    assert key + "=\"" + value + "\"" == key + "=" + quoted;
    SplitAfterKey(key, quoted);
    StripCharsClean(quoted, Whitespace);
    StripWrapped(value, '"');
    StripCharsClean(value, Only('\''));
  }

  // ---------------------------------------------------------------------------
  // The whole file.

  /** What one line sets, if anything: a key and its value. */
  type Entry = Option<(string, string)>

  /** The line-by-line reading of a file. */
  function Entries(lines: seq<string>): (es: seq<Entry>)
    ensures |es| == |lines|
    ensures forall i | 0 <= i < |lines| :: es[i] == ParseSettingLine(lines[i])
  {
    seq(|lines|, i requires 0 <= i < |lines| => ParseSettingLine(lines[i]))
  }

  predicate SetsKey(e: Entry, key: string) {
    e.Some? && e.value.0 == key
  }

  /** The value the last entry setting `key` gives it, if any does. */
  function LastIn(es: seq<Entry>, key: string): Option<string> {
    if es == [] then None
    else if SetsKey(es[|es| - 1], key) then Some(es[|es| - 1].value.1)
    else LastIn(es[..|es| - 1], key)
  }

  /** The value of `key` in the file: the one its last line setting `key` gives. */
  function LastValue(lines: seq<string>, key: string): Option<string> {
    LastIn(Entries(lines), key)
  }

  lemma {:induction false} LastInIsLastOccurrence(es: seq<Entry>, key: string)
    ensures LastIn(es, key).None? <==> forall i | 0 <= i < |es| :: !SetsKey(es[i], key)
    ensures LastIn(es, key).Some? ==>
      exists i | 0 <= i < |es| ::
        && es[i] == Some((key, LastIn(es, key).value))
        && forall j | i < j < |es| :: !SetsKey(es[j], key)
  {
    if es != [] {
      var init := es[..|es| - 1];
      LastInIsLastOccurrence(init, key);
      var n := |es| - 1;
      if !SetsKey(es[n], key) {
        assert forall i | 0 <= i < n :: init[i] == es[i];
        if LastIn(es, key).Some? {
          var i :| 0 <= i < n && init[i] == Some((key, LastIn(init, key).value))
                   && forall j | i < j < n :: !SetsKey(init[j], key);
          assert es[i] == Some((key, LastIn(es, key).value));
        }
      } else {
        assert es[n] == Some((key, LastIn(es, key).value));
      }
    }
  }

  /** The last occurrence of a key wins: the value comes from a line setting that key
      with no later line setting it, and there is none exactly when no line sets it. */
  lemma LastValueIsLastOccurrence(lines: seq<string>, key: string)
    ensures LastValue(lines, key).None? <==>
      forall i | 0 <= i < |lines| :: !SetsKey(ParseSettingLine(lines[i]), key)
    ensures LastValue(lines, key).Some? ==>
      exists i | 0 <= i < |lines| ::
        && ParseSettingLine(lines[i]) == Some((key, LastValue(lines, key).value))
        && forall j | i < j < |lines| :: !SetsKey(ParseSettingLine(lines[j]), key)
  {
    var es := Entries(lines);
    LastInIsLastOccurrence(es, key);
    if LastIn(es, key).Some? {
      var i :| 0 <= i < |es| && es[i] == Some((key, LastIn(es, key).value))
               && forall j | i < j < |es| :: !SetsKey(es[j], key);
      assert ParseSettingLine(lines[i]) == Some((key, LastValue(lines, key).value));
    }
  }

  datatype Settings = Settings(token: Option<string>, chat: Option<string>)

  /** What the loop does with one line: a credential it sets replaces the one read
      so far. */
  function ApplySetting(acc: Settings, e: Entry): Settings {
    if SetsKey(e, TOKEN_KEY) then acc.(token := Some(e.value.1))
    else if SetsKey(e, CHAT_KEY) then acc.(chat := Some(e.value.1))
    else acc
  }

  function ApplyAll(es: seq<Entry>): Settings {
    if es == [] then Settings(None, None)
    else ApplySetting(ApplyAll(es[..|es| - 1]), es[|es| - 1])
  }

  /** Reading the lines in order gives each credential its last value. */
  lemma {:induction false} ApplyAllGivesLastValues(es: seq<Entry>)
    ensures ApplyAll(es) == Settings(LastIn(es, TOKEN_KEY), LastIn(es, CHAT_KEY))
  {
    if es != [] {
      ApplyAllGivesLastValues(es[..|es| - 1]);
    }
  }

  /** `load_env_settings`: the loop over the file's lines (none when there is no
      file), then the fallback to the environment. */
  method LoadEnvSettings(file: Option<seq<string>>, envToken: Option<string>, envChat: Option<string>)
    returns (token: Option<string>, chat: Option<string>)
    ensures var lines := if file.Some? then file.value else [];
      && token == Or(LastValue(lines, TOKEN_KEY), envToken)
      && chat == Or(LastValue(lines, CHAT_KEY), envChat)
  {
    token, chat := None, None;
    var lines := if file.Some? then file.value else [];
    ghost var es := Entries(lines);
    var i := 0;
    while i < |lines|
      invariant 0 <= i <= |lines|
      invariant Settings(token, chat) == ApplyAll(es[..i])
    {
      var p := ParseSettingLine(lines[i]);
      if p.Some? && p.value.0 == TOKEN_KEY {
        token := Some(p.value.1);
      } else if p.Some? && p.value.0 == CHAT_KEY {
        chat := Some(p.value.1);
      }
      assert es[..i + 1][..i] == es[..i];
      i := i + 1;
    }
    assert es[..i] == es;
    ApplyAllGivesLastValues(es);
    token := Or(token, envToken);
    chat := Or(chat, envChat);
  }

  /** A line setting the key overrides every earlier one. */
  lemma LaterLineWins(lines: seq<string>, raw: string, key: string, value: string)
    requires ParseSettingLine(raw) == Some((key, value))
    ensures LastValue(lines + [raw], key) == Some(value)
  {
    assert Entries(lines + [raw])[|lines|] == Some((key, value));
  }

  /** A line that does not set the key leaves its value as it was. */
  lemma OtherLineKeeps(lines: seq<string>, raw: string, key: string)
    requires !SetsKey(ParseSettingLine(raw), key)
    ensures LastValue(lines + [raw], key) == LastValue(lines, key)
  {
    var es := Entries(lines + [raw]);
    assert es[|lines|] == ParseSettingLine(raw);
    assert es[..|lines|] == Entries(lines);
  }

  /** An empty value in the file, or none at all, leaves the environment's value. */
  lemma FallbackToEnvironment(lines: seq<string>, envToken: Option<string>)
    ensures LastValue(lines, TOKEN_KEY) == Some("") ==> Or(LastValue(lines, TOKEN_KEY), envToken) == envToken
    ensures (forall i | 0 <= i < |lines| :: !SetsKey(ParseSettingLine(lines[i]), TOKEN_KEY)) ==>
      Or(LastValue(lines, TOKEN_KEY), envToken) == envToken
  {
    LastValueIsLastOccurrence(lines, TOKEN_KEY);
  }
}
