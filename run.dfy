/** The settings layer of the launcher: the dependency-free `key: value`
    parser, the coercion of command-line values and the settings table with
    its defaults. Reading the file itself is left to the caller: the parser
    receives its text, the settings builder the parsed map. */
module Run {
  import opened Wrappers
  import opened Strings
  import opened Values

  // ---------------------------------------------------------------------
  // parse_simple_yaml
  // ---------------------------------------------------------------------

  /** A line the parser ignores: blank after stripping, a comment, or
      without any `:`. */
  predicate Skipped(line: string) {
    var l := Strip(line);
    l == [] || l[0] == '#' || ':' !in l
  }

  /** The entry one line contributes: the stripped text before the first
      `:` as key and the stripped rest as value; `None` for a skipped line. */
  function ParseLine(line: string): (r: Option<(string, string)>)
    ensures r.None? <==> Skipped(line)
  {
    var l := Strip(line);
    if l == [] || l[0] == '#' || ':' !in l then None
    else
      var i := IndexOf(l, ':');
      Some((Strip(l[..i]), Strip(l[i + 1..])))
  }

  /** The line is split at its first `:`, so the key holds no `:` while
      the value may; both come out stripped. */
  lemma ParseLineShape(line: string)
    requires ParseLine(line).Some?
    ensures var (key, value) := ParseLine(line).value;
            ':' !in key && Trimmed(key) && Trimmed(value)
  {
    var l := Strip(line);
    var i := IndexOf(l, ':');
    StripKeepsOut(l[..i], ':');
  }

  /** The entries of the accepted lines, in file order. */
  function Entries(lines: seq<string>): (entries: seq<(string, string)>)
    ensures |entries| <= |lines|
  {
    if lines == [] then []
    else
      var front := Entries(lines[..|lines| - 1]);
      match ParseLine(lines[|lines| - 1])
      case None => front
      case Some(entry) => front + [entry]
  }

  /** The map a list of entries denotes, a later entry overwriting an earlier one. */
  function EntriesMap(entries: seq<(string, string)>): map<string, string>
  {
    if entries == [] then map[]
    else EntriesMap(entries[..|entries| - 1])[entries[|entries| - 1].0 := entries[|entries| - 1].1]
  }

  /** The map `parse_simple_yaml` builds from the lines of a file. */
  function ParseLines(lines: seq<string>): map<string, string>
  {
    EntriesMap(Entries(lines))
  }

  /** `parse_simple_yaml`: one pass over the lines of `text`, updating the map in place. */
  method ParseSimpleYaml(text: string) returns (out: map<string, string>)
    ensures out == ParseLines(SplitLines(text))
  {
    out := map[];
    var lines := SplitLines(text);
    ghost var entries: seq<(string, string)> := [];
    for n := 0 to |lines|
      invariant entries == Entries(lines[..n])
      invariant out == EntriesMap(entries)
    {
      ghost var upTo := lines[..n + 1];
      assert upTo[..n] == lines[..n] && upTo[n] == lines[n];
      var line := Strip(lines[n]);
      if line == [] || line[0] == '#' {
        assert ParseLine(upTo[n]) == None;
        continue;
      }
      if ':' !in line {
        assert ParseLine(upTo[n]) == None;
        continue;
      }
      var i := IndexOf(line, ':');
      var key, value := Strip(line[..i]), Strip(line[i + 1..]);
      assert ParseLine(upTo[n]) == Some((key, value));
      out := out[key := value];
      entries := entries + [(key, value)];
    }
    assert lines[..|lines|] == lines;
  }

  /** Every accepted line gives an entry. */
  lemma {:induction false} EntriesOfLines(lines: seq<string>, n: nat)
    requires n < |lines| && ParseLine(lines[n]).Some?
    ensures ParseLine(lines[n]).value in Entries(lines)
  {
    var front := lines[..|lines| - 1];
    if n < |lines| - 1 {
      assert front[n] == lines[n];
      EntriesOfLines(front, n);
    }
  }

  /** Every entry comes from an accepted line. */
  lemma {:induction false} EntriesFromLines(lines: seq<string>, e: (string, string))
    requires e in Entries(lines)
    ensures exists n :: 0 <= n < |lines| && ParseLine(lines[n]) == Some(e)
  {
    var front := lines[..|lines| - 1];
    if e in Entries(front) {
      EntriesFromLines(front, e);
      var n :| 0 <= n < |front| && ParseLine(front[n]) == Some(e);
      assert lines[n] == front[n];
    } else {
      assert ParseLine(lines[|lines| - 1]) == Some(e);
    }
  }

  /** The keys `parse_simple_yaml` returns are exactly the keys of the accepted lines. */
  lemma ParseLinesKeys(lines: seq<string>)
    ensures ParseLines(lines).Keys
            == set n | 0 <= n < |lines| && ParseLine(lines[n]).Some? :: ParseLine(lines[n]).value.0
  {
    var entries := Entries(lines);
    EntriesMapKeys(entries);
    forall k | k in ParseLines(lines).Keys
      ensures exists n :: 0 <= n < |lines| && ParseLine(lines[n]).Some? && ParseLine(lines[n]).value.0 == k
    {
      var m :| 0 <= m < |entries| && entries[m].0 == k;
      EntriesFromLines(lines, entries[m]);
    }
    forall n | 0 <= n < |lines| && ParseLine(lines[n]).Some?
      ensures ParseLine(lines[n]).value.0 in ParseLines(lines).Keys
    {
      EntriesOfLines(lines, n);
      var m :| 0 <= m < |entries| && entries[m] == ParseLine(lines[n]).value;
    }
  }

  /** The keys of a map of entries are exactly the entries' keys. */
  lemma {:induction false} EntriesMapKeys(entries: seq<(string, string)>)
    ensures EntriesMap(entries).Keys == set n | 0 <= n < |entries| :: entries[n].0
  {
    if entries != [] {
      var front := entries[..|entries| - 1];
      EntriesMapKeys(front);
      assert forall n :: 0 <= n < |front| ==> front[n] == entries[n];
    }
  }

  /** The value stored for a key is the value of the last entry with that key. */
  lemma {:induction false} EntriesMapLastWins(entries: seq<(string, string)>, n: nat)
    requires n < |entries|
    requires forall m :: n < m < |entries| ==> entries[m].0 != entries[n].0
    ensures entries[n].0 in EntriesMap(entries)
    ensures EntriesMap(entries)[entries[n].0] == entries[n].1
  {
    if n < |entries| - 1 {
      var front := entries[..|entries| - 1];
      assert front[n] == entries[n];
      EntriesMapLastWins(front, n);
    }
  }

  /** A key's value is the one on the last accepted line with that key:
      a later line overwrites an earlier one, and skipped lines in between
      play no part. */
  lemma {:induction false} ParseLinesLastWins(lines: seq<string>, n: nat)
    requires n < |lines| && ParseLine(lines[n]).Some?
    requires forall m :: n < m < |lines| && ParseLine(lines[m]).Some? ==>
               ParseLine(lines[m]).value.0 != ParseLine(lines[n]).value.0
    ensures ParseLine(lines[n]).value.0 in ParseLines(lines)
    ensures ParseLines(lines)[ParseLine(lines[n]).value.0] == ParseLine(lines[n]).value.1
  {
    var front := lines[..|lines| - 1];
    var last := ParseLine(lines[|lines| - 1]);
    if n < |lines| - 1 {
      LaterKeysFront(lines, n);
      ParseLinesLastWins(front, n);
    }
    if last.Some? {
      EntriesLast(lines, last.value);
      EntriesMapSnoc(Entries(front), last.value);
    } else {
      assert Entries(lines) == Entries(front);
    }
  }

  /** No later line repeats the key of line `n`: still so without the last line. */
  lemma LaterKeysFront(lines: seq<string>, n: nat)
    requires n < |lines| - 1 && ParseLine(lines[n]).Some?
    requires forall m :: n < m < |lines| && ParseLine(lines[m]).Some? ==>
               ParseLine(lines[m]).value.0 != ParseLine(lines[n]).value.0
    ensures var front := lines[..|lines| - 1];
            && front[n] == lines[n]
            && forall m :: n < m < |front| && ParseLine(front[m]).Some? ==>
                 ParseLine(front[m]).value.0 != ParseLine(front[n]).value.0
  {
    var front := lines[..|lines| - 1];
    forall m | n < m < |front| && ParseLine(front[m]).Some?
      ensures ParseLine(front[m]).value.0 != ParseLine(front[n]).value.0
    {
      assert front[m] == lines[m];
    }
  }

  /** Appending an entry writes its key. */
  lemma EntriesMapSnoc(entries: seq<(string, string)>, e: (string, string))
    ensures EntriesMap(entries + [e]) == EntriesMap(entries)[e.0 := e.1]
  {
    assert (entries + [e])[..|entries|] == entries;
  }

  /** A line `key:value` written from a stripped key free of `:` that is not
      a comment, and a stripped value, parses back to that entry; the key may
      be empty and the value may itself contain `:`. */
  lemma ParseLineEntry(key: string, value: string)
    requires (key == [] || key[0] != '#') && ':' !in key
    requires Trimmed(key) && Trimmed(value)
    ensures ParseLine(key + ":" + value) == Some((key, value))
  {
    var line := key + ":" + value;
    ColonLineTrimmed(key, value);
    StripStripped(line);
    assert line[|key|] == ':' && line[..|key|] == key && line[|key| + 1..] == value;
    IndexOfFirst(line, ':', |key|);
    StripStripped(key);
    StripStripped(value);
  }

  /** Joining a stripped key and a stripped value with `:` gives a stripped line. */
  lemma ColonLineTrimmed(key: string, value: string)
    requires Trimmed(key) && Trimmed(value)
    ensures Trimmed(key + ":" + value)
  {
    var line := key + ":" + value;
    assert line[0] == if key == [] then ':' else key[0];
    assert line[|line| - 1] == if value == [] then ':' else value[|value| - 1];
  }

  /** An entry the parser can read back from its own line. */
  predicate Writable(entry: (string, string)) {
    && (entry.0 == [] || entry.0[0] != '#') && ':' !in entry.0
    && Trimmed(entry.0) && Trimmed(entry.1)
    && OneLine(entry.0) && OneLine(entry.1)
  }

  /** One `key:value` line per entry. */
  function Render(entries: seq<(string, string)>): (lines: seq<string>)
    ensures |lines| == |entries|
    ensures forall n :: 0 <= n < |entries| ==> lines[n] == entries[n].0 + ":" + entries[n].1
  {
    seq(|entries|, n requires 0 <= n < |entries| => entries[n].0 + ":" + entries[n].1)
  }

  /** Writing entries one per line, separated by `"\n"` or `"\r\n"`, and
      parsing the text gives back their map. */
  lemma RenderParse(entries: seq<(string, string)>, sep: string)
    requires forall n :: 0 <= n < |entries| ==> Writable(entries[n])
    requires LineSep(sep)
    ensures ParseLines(SplitLines(Join(Render(entries), sep))) == EntriesMap(entries)
  {
    var lines := Render(entries);
    forall n | 0 <= n < |lines|
      ensures lines[n] != [] && OneLine(lines[n])
    {
      RenderOneLine(entries[n]);
    }
    SplitLinesJoin(lines, sep);
    RenderEntries(entries);
  }

  /** The same for a file whose every line, the last one included, ends with
      the separator, as a file written line by line does. */
  lemma RenderParseEnd(entries: seq<(string, string)>, sep: string)
    requires forall n :: 0 <= n < |entries| ==> Writable(entries[n])
    requires LineSep(sep)
    ensures ParseLines(SplitLines(Join(Render(entries), sep) + sep)) == EntriesMap(entries)
  {
    var lines := Render(entries);
    if entries == [] {
      SplitLinesFinalBreak("", sep);
      assert Join(lines, sep) + sep == "" + sep;
      StripNoSpace("");
      assert ParseLine("") == None;
    } else {
      forall n | 0 <= n < |lines|
        ensures OneLine(lines[n])
      {
        RenderOneLine(entries[n]);
      }
      SplitLinesJoinEnd(lines, sep);
      RenderEntries(entries);
    }
  }

  lemma RenderOneLine(e: (string, string))
    requires Writable(e)
    ensures OneLine(e.0 + ":" + e.1)
  {
    var line := e.0 + ":" + e.1;
    forall j | 0 <= j < |line|
      ensures !IsLineBreak(line[j])
    {
      if j < |e.0| {
        assert line[j] == e.0[j];
      } else if j > |e.0| {
        assert line[j] == e.1[j - |e.0| - 1];
      }
    }
  }

  lemma {:induction false} RenderEntries(entries: seq<(string, string)>)
    requires forall n :: 0 <= n < |entries| ==> Writable(entries[n])
    ensures Entries(Render(entries)) == entries
  {
    if entries != [] {
      var front := entries[..|entries| - 1];
      var last := entries[|entries| - 1];
      var lines := Render(entries);
      RenderFront(entries);
      RenderEntries(front);
      ParseWritable(last);
      EntriesLast(lines, last);
      LastSplit(entries);
    }
  }

  /** A non-empty sequence is its front followed by its last element. */
  lemma LastSplit<T>(s: seq<T>)
    requires s != []
    ensures s == s[..|s| - 1] + [s[|s| - 1]]
  {
  }

  /** The lines of all but the last entry are the rendering of those entries. */
  lemma RenderFront(entries: seq<(string, string)>)
    requires entries != []
    ensures Render(entries)[..|entries| - 1] == Render(entries[..|entries| - 1])
  {
  }

  /** A writable entry's own line parses back to it. */
  lemma ParseWritable(e: (string, string))
    requires Writable(e)
    ensures ParseLine(e.0 + ":" + e.1) == Some(e)
  {
    ParseLineEntry(e.0, e.1);
  }

  /** An accepted last line adds its entry after those of the lines before it. */
  lemma EntriesLast(lines: seq<string>, e: (string, string))
    requires lines != [] && ParseLine(lines[|lines| - 1]) == Some(e)
    ensures Entries(lines) == Entries(lines[..|lines| - 1]) + [e]
  {
  }

  // ---------------------------------------------------------------------
  // coerce_value
  // ---------------------------------------------------------------------

  /** The texts `int(v)` is applied to: a digit run, optionally after one `-`. */
  predicate IsIntLiteral(v: string) {
    AllDigits(v) || (|v| >= 1 && v[0] == '-' && AllDigits(v[1..]))
  }

  /** Python's `int(v)` on an integer literal. */
  function IntValueOf(v: string): int
    requires IsIntLiteral(v)
  {
    if v[0] == '-' then 0 - DigitsValue(v[1..]) as int else DigitsValue(v)
  }

  /** `coerce_value`: the stripped text as a boolean when it spells
      `true`/`false` in any letter case, as an integer when it is an integer
      literal, and as the stripped string otherwise. */
  function CoerceValue(val: string): (r: Value)
    ensures r.BoolValue? <==> Lower(Strip(val)) == "true" || Lower(Strip(val)) == "false"
    ensures r.BoolValue? ==> (r.b <==> Lower(Strip(val)) == "true")
    ensures r.IntValue? <==> !r.BoolValue? && IsIntLiteral(Strip(val))
    ensures r.IntValue? ==> r.i == IntValueOf(Strip(val))
    ensures r.StrValue? <==> !r.BoolValue? && !r.IntValue?
    ensures r.StrValue? ==> r.s == Strip(val)
  {
    var v := Strip(val);
    var low := Lower(v);
    if low == "true" || low == "false" then BoolValue(low == "true")
    else if IsIntLiteral(v) then IntValue(IntValueOf(v))
    else StrValue(v)
  }

  /** The rendering of any integer, with surrounding whitespace or not, coerces back to it. */
  lemma CoerceIntRoundTrip(pre: string, n: int, post: string)
    requires AllSpace(pre) && AllSpace(post)
    ensures CoerceValue(pre + IntToString(n) + post) == IntValue(n)
  {
    var s := IntToString(n);
    StripPadded(pre, s, post);
    var digits := NatToString(if n < 0 then -n else n);
    NatToStringValue(if n < 0 then -n else n);
    if n < 0 {
      assert s[1..] == digits;
    }
    assert IsIntLiteral(s);
    var low := Lower(s);
    assert low != "true" && low != "false" by {
      if s[0] == '-' {
        assert low[0] == '-';
      } else {
        assert IsDigit(s[0]) && low[0] == s[0];
      }
    }
  }

  /** `true` and `false` in any letter case, with any whitespace around them, become booleans. */
  lemma CoerceBoolWord(pre: string, w: string, post: string)
    requires AllSpace(pre) && AllSpace(post)
    requires Lower(w) == "true" || Lower(w) == "false"
    ensures CoerceValue(pre + w + post) == BoolValue(Lower(w) == "true")
  {
    var low := Lower(w);
    assert low[0] == LowerChar(w[0]) && low[|w| - 1] == LowerChar(w[|w| - 1]);
    assert low[0] in {'t', 'f'} && low[|w| - 1] == 'e';
    StripPadded(pre, w, post);
  }

  /** A lone minus sign and the empty text are not integer literals; they stay strings. */
  lemma CoerceNoDigits()
    ensures CoerceValue("-") == StrValue("-")
    ensures CoerceValue("") == StrValue("")
  {
    StripNoSpace("-");
    StripNoSpace("");
    assert !AllDigits("-"[1..]);
  }

  /** Text that is neither a boolean word nor an integer literal is kept, stripped. */
  lemma CoerceKeepsText(val: string)
    requires Lower(Strip(val)) != "true" && Lower(Strip(val)) != "false"
    requires !IsIntLiteral(Strip(val))
    ensures CoerceValue(val) == StrValue(Strip(val))
  {
  }

  // ---------------------------------------------------------------------
  // load_settings
  // ---------------------------------------------------------------------

  /** `to_bool`: the recognised words, in any letter case and with
      surrounding whitespace, and the default for anything else. */
  function ToBool(s: string, default: bool): (r: bool)
    ensures Lower(Strip(s)) in TrueWords ==> r
    ensures Lower(Strip(s)) in FalseWords ==> !r
    ensures Lower(Strip(s)) !in TrueWords && Lower(Strip(s)) !in FalseWords ==> r == default
  {
    WordsDisjoint();
    var w := Lower(Strip(s));
    if w in TrueWords then true
    else if w in FalseWords then false
    else default
  }

  const TrueWords: seq<string> := ["true", "yes", "1", "on"]
  const FalseWords: seq<string> := ["false", "no", "0", "off"]

  /** No word is both true and false, so `to_bool` never depends on the order of its tests. */
  lemma WordsDisjoint()
    ensures forall w :: w in TrueWords ==> w !in FalseWords
  {
    forall w | w in TrueWords
      ensures w !in FalseWords
    {
      assert w == "true" || w == "yes" || w == "1" || w == "on";
      assert w[0] in {'t', 'y', '1', 'o'} && (w[0] == 'o' ==> w == "on");
    }
  }

  /** A recognised word in any letter case, with any whitespace around it,
      reads as its own truth value whatever the default. */
  lemma ToBoolWord(pre: string, w: string, post: string, default: bool)
    requires AllSpace(pre) && AllSpace(post)
    requires Lower(w) in TrueWords || Lower(w) in FalseWords
    ensures ToBool(pre + w + post, default) == (Lower(w) in TrueWords)
  {
    var low := Lower(w);
    KnownWordEnds(low);
    assert low[0] == LowerChar(w[0]) && low[|w| - 1] == LowerChar(w[|w| - 1]);
    StripPadded(pre, w, post);
  }

  /** Every recognised word is non-empty and starts and ends with a non-space. */
  lemma KnownWordEnds(w: string)
    requires w in TrueWords || w in FalseWords
    ensures w != [] && !IsSpace(w[0]) && !IsSpace(w[|w| - 1])
  {
    assert w in ["true", "yes", "1", "on", "false", "no", "0", "off"];
  }

  /** Lower-case letters and digits only. */
  predicate Plain(w: string) {
    forall i :: 0 <= i < |w| ==> 'a' <= w[i] <= 'z' || IsDigit(w[i])
  }

  /** A plain word is its own `strip().lower()`. */
  lemma PlainWord(w: string)
    requires Plain(w)
    ensures Lower(Strip(w)) == w
  {
    StripNoSpace(w);
  }

  /** Lowering changes no whitespace, so a stripped text stays stripped. */
  lemma LowerTrimmed(s: string)
    requires Trimmed(s)
    ensures Trimmed(Lower(s))
  {
  }

  /** `to_bool` only looks at the stripped, lower-cased text: normalising
      the input first changes nothing. */
  lemma ToBoolNormal(s: string, default: bool)
    ensures ToBool(Lower(Strip(s)), default) == ToBool(s, default)
  {
    var t := Strip(s);
    LowerTrimmed(t);
    StripStripped(Lower(t));
    LowerIdempotent(t);
  }

  /** `raw.get(key, default)`. */
  function Get(raw: map<string, string>, key: string, default: string): string {
    if key in raw then raw[key] else default
  }

  /** The five settings `load_settings` returns. */
  datatype Settings = Settings(
    appName: string,
    defaultLanguage: string,
    dataDir: string,
    safeModeDefault: bool,
    adminEnabledDefault: bool)
  {
    /** The settings as the dict the launcher hands on. */
    function AsDict(): (d: map<string, Value>)
      ensures d.Keys == {"app_name", "default_language", "data_dir", "safe_mode_default", "admin_enabled_default"}
    {
      map[
        "app_name" := StrValue(appName),
        "default_language" := StrValue(defaultLanguage),
        "data_dir" := StrValue(dataDir),
        "safe_mode_default" := BoolValue(safeModeDefault),
        "admin_enabled_default" := BoolValue(adminEnabledDefault)
      ]
    }

    /** The text settings appear in the dict as strings. */
    lemma AsDictText()
      ensures AsDict()["app_name"] == StrValue(appName)
      ensures AsDict()["default_language"] == StrValue(defaultLanguage)
      ensures AsDict()["data_dir"] == StrValue(dataDir)
    {
    }
  }

  /** `load_settings`: each setting from the parsed file, or its default. */
  function LoadSettings(raw: map<string, string>): (settings: Settings)
    ensures "app_name" in raw ==> settings.appName == raw["app_name"]
    ensures "default_language" in raw ==> settings.defaultLanguage == raw["default_language"]
    ensures "data_dir" in raw ==> settings.dataDir == raw["data_dir"]
    ensures "safe_mode_default" in raw ==> settings.safeModeDefault == ToBool(raw["safe_mode_default"], true)
    ensures "admin_enabled_default" in raw ==> settings.adminEnabledDefault == ToBool(raw["admin_enabled_default"], false)
  {
    Settings(
      Get(raw, "app_name", "k1"),
      Get(raw, "default_language", "EN"),
      Get(raw, "data_dir", ".k1"),
      ToBool(Get(raw, "safe_mode_default", "true"), true),
      ToBool(Get(raw, "admin_enabled_default", "false"), false))
  }

  /** An absent setting takes its default: `k1`, `EN`, `.k1`, safe mode on, admin off. */
  lemma LoadSettingsDefaults(raw: map<string, string>)
    ensures "app_name" !in raw ==> LoadSettings(raw).appName == "k1"
    ensures "default_language" !in raw ==> LoadSettings(raw).defaultLanguage == "EN"
    ensures "data_dir" !in raw ==> LoadSettings(raw).dataDir == ".k1"
    ensures "safe_mode_default" !in raw ==> LoadSettings(raw).safeModeDefault
    ensures "admin_enabled_default" !in raw ==> !LoadSettings(raw).adminEnabledDefault
  {
    DefaultWords(true);
    DefaultWords(false);
  }

  /** The default texts of the two flags read as `true` and `false`. */
  lemma DefaultWords(default: bool)
    ensures ToBool("true", default)
    ensures !ToBool("false", default)
  {
    assert Plain("true") && Plain("false");
    PlainWord("true");
    PlainWord("false");
    assert "true" == TrueWords[0];
    assert "false" == FalseWords[0];
    WordsDisjoint();
  }
}
