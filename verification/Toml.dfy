/** Reading a configuration file, and what the graph-builder's one says. */
module Toml {
  import opened Text
  import opened Resources

  // ---- A reader ----------------------------------------------------------

  /** The key of a line "key = value". */
  function KeyOf(line: string): Option<string> {
    var i := IndexOf(line, '=');
    if i < 0 then None else Some(TrimSpace(line[..i]))
  }

  function ValueOf(line: string): string {
    TrimSpace(line[IndexOf(line, '=') + 1..])
  }

  /** The text between quotes. */
  function Unquoted(value: string): Option<string> {
    if |value| >= 2 && value[0] == '"' && value[|value| - 1] == '"' && '"' !in value[1..|value| - 1]
    then Some(value[1..|value| - 1]) else None
  }

  /** The value on the first line that sets the key. */
  function ReadLines(lines: seq<string>, key: string): Option<string> {
    if lines == [] then None
    else if KeyOf(lines[0]) == Some(key) then Some(ValueOf(lines[0]))
    else ReadLines(lines[1..], key)
  }

  /** The lines after the first one that is the given heading. */
  function Below(lines: seq<string>, heading: string): seq<string> {
    if lines == [] then [] else if lines[0] == heading then lines[1..] else Below(lines[1..], heading)
  }

  /** What a file sets a key to below a heading. */
  function Read(text: string, heading: string, key: string): Option<string> {
    ReadLines(Below(Split(text, '\n'), heading), key)
  }

  /** The same for a value between quotes. */
  function ReadQuoted(text: string, heading: string, key: string): Option<string> {
    match Read(text, heading, key)
    case Some(value) => Unquoted(value)
    case None => None
  }

  // ---- Its lines ---------------------------------------------------------

  predicate Clean(s: string) { '"' !in s && '\n' !in s }

  lemma {:induction false} LinesSplit(ls: seq<string>, rest: string)
    requires forall l <- ls :: '\n' !in l
    ensures Split(Lines(ls) + rest, '\n') == ls + Split(rest, '\n')
  {
    hide Split;
    if ls == [] {
      assert Lines(ls) + rest == rest;
    } else {
      LinesSplit(ls[1..], rest);
      assert Lines(ls) + rest == ls[0] + ['\n'] + (Lines(ls[1..]) + rest);
      SplitConcat(ls[0], Lines(ls[1..]) + rest, '\n');
      SplitWhole(ls[0], '\n');
      assert ls == [ls[0]] + ls[1..];
    }
  }

  function Setting(key: string, value: string): string { key + " = " + value }

  function Quoted(s: string): string { "\"" + s + "\"" }

  predicate Word(s: string) {
    s != "" && forall c <- s :: c != '=' && !IsSpace(c)
  }

  /** A setting is read as such. */
  lemma SettingRead(key: string, value: string)
    requires Word(key) && value != "" && !IsSpace(value[0]) && !IsSpace(value[|value| - 1])
    ensures KeyOf(Setting(key, value)) == Some(key) && ValueOf(Setting(key, value)) == value
  {
    var line := key + " = " + value;
    assert line == (key + " ") + ['='] + (" " + value);
    IndexAt(key + " ", " " + value, '=');
    assert line[..|key| + 1] == "" + key + " " && line[|key| + 2..] == " " + value + "";
    TrimBetween("", key, " ");
    TrimBetween(" ", value, "");
  }

  lemma QuotedRead(s: string)
    requires '"' !in s
    ensures Unquoted(Quoted(s)) == Some(s)
  {
    var q := Quoted(s);
    assert q[1..|q| - 1] == s && q[|q| - 1] == '"';
  }

  lemma {:induction false} LinesConcat(a: seq<string>, b: seq<string>)
    ensures Lines(a + b) == Lines(a) + Lines(b)
  {
    if a == [] {
      assert a + b == b;
    } else {
      assert (a + b)[1..] == a[1..] + b;
      LinesConcat(a[1..], b);
    }
  }

  // ---- The graph-builder's file ------------------------------------------

  const LAST := "name = \"edge-add-remove\""

  function ConfigLines(registry: string, repository: string): seq<string> {
    TOML_HEAD + [Setting("registry", Quoted(registry)), Setting("repository", Quoted(repository))] + TOML_TAIL[1..]
  }

  lemma ConfigIsLines(registry: string, repository: string)
    ensures RenderTOML(registry, repository) == Lines(ConfigLines(registry, repository)) + LAST
  {
    hide Lines, Setting, Quoted;
    var a, b := Setting("registry", Quoted(registry)), Setting("repository", Quoted(repository));
    LinesConcat(TOML_HEAD, [a, b]);
    LinesConcat(TOML_HEAD + [a, b], TOML_TAIL[1..]);
    TwoLines(a, b);
    TailLine();
    TwoSettings(registry, repository);
    Rearranged(Lines(TOML_HEAD), "registry = \"" + registry + "\"\nrepository = \"" + repository, "\"", "\n",
               Lines(TOML_TAIL[1..]), a + "\n" + b);
  }

  lemma Rearranged(head: string, middle: string, q: string, n: string, tail: string, two: string)
    requires two == middle + q
    ensures head + middle + ((q + n) + tail) + LAST == head + (two + n) + tail + LAST
  {}

  lemma TwoSettings(registry: string, repository: string)
    ensures Setting("registry", Quoted(registry)) + "\n" + Setting("repository", Quoted(repository))
            == "registry = \"" + registry + "\"\nrepository = \"" + repository + "\""
  {
    assert "registry = \"" == "registry" + " = " + "\"";
    assert "\"\nrepository = \"" == "\"" + "\n" + ("repository" + " = " + "\"");
    QuotesApart("registry" + " = ", "\"", registry, "\n", "repository" + " = ", repository);
  }

  lemma QuotesApart(a: string, q: string, x: string, n: string, b: string, y: string)
    ensures (a + (q + x + q)) + n + (b + (q + y + q)) == (a + q) + x + (q + n + (b + q)) + y + q
  {}

  lemma TwoLines(a: string, b: string)
    ensures Lines([a, b]) == a + "\n" + b + "\n"
  {
    assert [a, b][1..] == [b] && [b][1..] == [];
    assert Lines([b]) == b + "\n" + Lines([]);
  }

  lemma TailLine()
    ensures Lines(TOML_TAIL) == "\"" + "\n" + Lines(TOML_TAIL[1..])
  {}

  lemma ConfigSplit(registry: string, repository: string)
    requires Clean(registry) && Clean(repository)
    ensures Split(RenderTOML(registry, repository), '\n') == ConfigLines(registry, repository) + [LAST]
  {
    hide Split, Lines, RenderTOML;
    ConfigIsLines(registry, repository);
    var ls := ConfigLines(registry, repository);
    NoBreaks();
    forall l | l in ls ensures '\n' !in l {
      assert l in TOML_HEAD || l == ls[13] || l == ls[14] || l in TOML_TAIL;
    }
    LinesSplit(ls, LAST);
    SplitWhole(LAST, '\n');
  }

  lemma NoBreaks()
    ensures forall l | l in TOML_HEAD || l in TOML_TAIL || l == LAST :: '\n' !in l
  {
    HeadBreaks();
    TailBreaks();
    assert '\n' !in LAST;
  }

  lemma HeadBreaks()
    ensures forall l | l in TOML_HEAD :: '\n' !in l
  {
    assert '\n' !in SCRAPE;
  }

  lemma TailBreaks()
    ensures forall l | l in TOML_TAIL :: '\n' !in l
  {
    PathBreaks();
    assert '\n' !in METADATA;
  }

  lemma PathBreaks()
    ensures '\n' !in TOML_CREDENTIALS && '\n' !in TOML_DATA
  {
    assert '\n' !in CINCINNATI;
  }

  lemma {:induction false} ReadAt(lines: seq<string>, key: string, i: nat)
    requires i < |lines| && KeyOf(lines[i]) == Some(key) && forall j | 0 <= j < i :: KeyOf(lines[j]) != Some(key)
    ensures ReadLines(lines, key) == Some(ValueOf(lines[i]))
  {
    hide KeyOf, ValueOf;
    if i > 0 { ReadAt(lines[1..], key, i - 1); }
  }

  lemma {:induction false} BelowAt(lines: seq<string>, heading: string, i: nat)
    requires i < |lines| && lines[i] == heading && forall j | 0 <= j < i :: lines[j] != heading
    ensures Below(lines, heading) == lines[i + 1..]
  {
    if i > 0 { BelowAt(lines[1..], heading, i - 1); }
  }

  lemma HeadIs(registry: string, repository: string)
    ensures var ls := ConfigLines(registry, repository) + [LAST];
            && |ls| == 24 && ls[0] == "verbosity = \"vvv\"" && ls[1] == "" && ls[2] == "[service]"
            && ls[3] == "pause_secs = 300" && ls[4] == "address = \"::\"" && ls[5] == "port = 8080" && ls[6] == ""
            && ls[7] == "[status]" && ls[8] == "address = \"::\"" && ls[9] == "port = 9080" && ls[10] == ""
            && ls[11] == "[[plugin_settings]]" && ls[12] == "name = \"" + SCRAPE + "\""
  {}

  lemma TailIs(registry: string, repository: string)
    ensures var ls := ConfigLines(registry, repository) + [LAST];
            && |ls| == 24 && ls[13] == Setting("registry", Quoted(registry))
            && ls[14] == Setting("repository", Quoted(repository)) && ls[15] == "fetch_concurrency = 16"
            && ls[16] == TOML_CREDENTIALS && ls[17] == "" && ls[18] == "[[plugin_settings]]"
            && ls[19] == "name = \"" + METADATA + "\"" && ls[20] == TOML_DATA
  {}

  /** A line known to be a setting. */
  lemma LineRead(line: string, key: string, value: string)
    requires line == Setting(key, value)
    requires Word(key) && value != "" && !IsSpace(value[0]) && !IsSpace(value[|value| - 1])
    ensures KeyOf(line) == Some(key) && ValueOf(line) == value
  {
    SettingRead(key, value);
  }

  lemma PauseKey()
    ensures KeyOf("pause_secs = 300") == Some("pause_secs")
  {
    hide KeyOf, ValueOf;
    LineRead("pause_secs = 300", "pause_secs", "300");
  }

  lemma AddressKey()
    ensures KeyOf("address = \"::\"") == Some("address")
  {
    hide KeyOf, ValueOf;
    LineRead("address = \"::\"", "address", "\"::\"");
  }

  lemma PortKey()
    ensures KeyOf("port = 8080") == Some("port") && ValueOf("port = 8080") == "8080"
  {
    hide KeyOf, ValueOf;
    LineRead("port = 8080", "port", "8080");
  }

  lemma StatusPortKey()
    ensures KeyOf("port = 9080") == Some("port") && ValueOf("port = 9080") == "9080"
  {
    hide KeyOf, ValueOf;
    LineRead("port = 9080", "port", "9080");
  }

  lemma NameLine(value: string)
    ensures KeyOf("name = \"" + value + "\"") == Some("name")
  {
    hide KeyOf, ValueOf;
    var q := "\"" + value + "\"";
    assert "name = \"" + value + "\"" == Setting("name", q);
    LineRead(Setting("name", q), "name", q);
  }

  lemma ConcurrencyKey()
    ensures KeyOf("fetch_concurrency = 16") == Some("fetch_concurrency")
  {
    hide KeyOf, ValueOf;
    LineRead("fetch_concurrency = 16", "fetch_concurrency", "16");
  }

  /** Lines without a setting. */
  lemma NoKeys()
    ensures KeyOf("") == None && KeyOf("[[plugin_settings]]") == None
  {
    hide TrimSpace;
    assert '=' !in "[[plugin_settings]]";
  }

  lemma CredentialsKey()
    ensures KeyOf(TOML_CREDENTIALS) == Some("credentials_path")
    ensures ValueOf(TOML_CREDENTIALS) == Quoted(CREDENTIALS_DIR + "/.dockerconfigjson")
  {
    hide KeyOf, ValueOf;
    assert "credentials_path = \"" == "credentials_path" + " = " + "\"";
    PathLine("credentials_path", CREDENTIALS_DIR, "/.dockerconfigjson");
  }

  lemma DataKey()
    ensures KeyOf(TOML_DATA) == Some("data_directory") && ValueOf(TOML_DATA) == Quoted(GRAPH_DATA_DIR)
  {
    hide KeyOf, ValueOf;
    assert "data_directory = \"" == "data_directory" + " = " + "\"";
    PathLine("data_directory", GRAPH_DATA_DIR, "");
    var first := "data_directory" + " = " + "\"";
    assert first + GRAPH_DATA_DIR + "" == first + GRAPH_DATA_DIR && GRAPH_DATA_DIR + "" == GRAPH_DATA_DIR;
  }

  lemma PathLine(key: string, dir: string, file: string)
    requires Word(key)
    ensures var line := (key + " = " + "\"") + dir + file + "\"";
            KeyOf(line) == Some(key) && ValueOf(line) == Quoted(dir + file)
  {
    hide KeyOf, ValueOf;
    assert (key + " = " + "\"") + dir + file + "\"" == Setting(key, Quoted(dir + file));
    LineRead(Setting(key, Quoted(dir + file)), key, Quoted(dir + file));
  }

  /** No line before a heading is that heading. */
  lemma HeadingsDiffer(ls: seq<string>)
    requires |ls| == 24 && ls[0] == "verbosity = \"vvv\"" && ls[1] == "" && ls[2] == "[service]"
    requires ls[3] == "pause_secs = 300" && ls[4] == "address = \"::\"" && ls[5] == "port = 8080" && ls[6] == ""
    requires ls[7] == "[status]" && ls[8] == "address = \"::\"" && ls[9] == "port = 9080" && ls[10] == ""
    ensures forall j | 0 <= j < 11 :: |ls[j]| != |"[[plugin_settings]]"|
    ensures forall j | 0 <= j < 7 :: |ls[j]| != |"[status]"|
    ensures forall j | 0 <= j < 2 :: |ls[j]| != |"[service]"|
  {}

  lemma ServiceSays(text: string, ls: seq<string>, registry: string, repository: string)
    requires Split(text, '\n') == ls == ConfigLines(registry, repository) + [LAST]
    ensures Read(text, "[service]", "port") == Some("8080") && Read(text, "[status]", "port") == Some("9080")
  {
    hide KeyOf, ValueOf, Split, ReadLines, Below, ConfigLines;
    HeadIs(registry, repository);
    PauseKey(); AddressKey(); PortKey(); StatusPortKey();
    HeadingsDiffer(ls);
    BelowAt(ls, "[service]", 2);
    ReadAt(ls[3..], "port", 2);
    BelowAt(ls, "[status]", 7);
    ReadAt(ls[8..], "port", 1);
  }

  lemma PluginKeys(registry: string, repository: string)
    ensures KeyOf(Setting("registry", Quoted(registry))) == Some("registry")
    ensures KeyOf(Setting("repository", Quoted(repository))) == Some("repository")
    ensures ValueOf(Setting("registry", Quoted(registry))) == Quoted(registry)
    ensures ValueOf(Setting("repository", Quoted(repository))) == Quoted(repository)
  {
    hide KeyOf, ValueOf;
    SettingRead("registry", Quoted(registry));
    SettingRead("repository", Quoted(repository));
  }

  /** The first of the plugins has its settings on the lines 13 to 16. */
  lemma PluginLines(ls: seq<string>, registry: string, repository: string)
    requires ls == ConfigLines(registry, repository) + [LAST]
    ensures |ls| == 24 && Below(ls, "[[plugin_settings]]") == ls[12..]
    ensures KeyOf(ls[12]) == Some("name") && KeyOf(ls[13]) == Some("registry") && KeyOf(ls[14]) == Some("repository")
    ensures ValueOf(ls[13]) == Quoted(registry) && ValueOf(ls[14]) == Quoted(repository)
  {
    hide KeyOf, ValueOf, Below, ConfigLines, Quoted, Setting;
    HeadIs(registry, repository);
    TailIs(registry, repository);
    NameLine(SCRAPE);
    HeadingsDiffer(ls);
    PluginKeys(registry, repository);
    BelowAt(ls, "[[plugin_settings]]", 11);
  }

  lemma PluginSays(text: string, ls: seq<string>, registry: string, repository: string)
    requires Split(text, '\n') == ls == ConfigLines(registry, repository) + [LAST]
    ensures Read(text, "[[plugin_settings]]", "registry") == Some(Quoted(registry))
    ensures Read(text, "[[plugin_settings]]", "repository") == Some(Quoted(repository))
    ensures Read(text, "[[plugin_settings]]", "credentials_path") == Some(Quoted(CREDENTIALS_DIR + "/.dockerconfigjson"))
    ensures Read(text, "[[plugin_settings]]", "data_directory") == Some(Quoted(GRAPH_DATA_DIR))
  {
    hide KeyOf, ValueOf, Split, ReadLines, Below, ConfigLines;
    PluginLines(ls, registry, repository);
    TailIs(registry, repository);
    ConcurrencyKey(); NoKeys(); NameLine(METADATA);
    CredentialsKey();
    DataKey();
    ReadAt(ls[12..], "registry", 1);
    ReadAt(ls[12..], "repository", 2);
    ReadAt(ls[12..], "credentials_path", 4);
    ReadAt(ls[12..], "data_directory", 8);
  }

  /** What the rendered file says, as a reader of "key = value" lines sees it. */
  lemma ConfigSays(registry: string, repository: string)
    requires Clean(registry) && Clean(repository)
    ensures var text := RenderTOML(registry, repository);
            && Read(text, "[service]", "port") == Some("8080") && Read(text, "[status]", "port") == Some("9080")
            && Read(text, "[[plugin_settings]]", "registry") == Some(Quoted(registry))
            && Read(text, "[[plugin_settings]]", "repository") == Some(Quoted(repository))
            && Read(text, "[[plugin_settings]]", "credentials_path")
               == Some(Quoted(CREDENTIALS_DIR + "/.dockerconfigjson"))
            && Read(text, "[[plugin_settings]]", "data_directory") == Some(Quoted(GRAPH_DATA_DIR))
  {
    hide Split, RenderTOML, Read, ConfigLines, Quoted;
    ConfigSplit(registry, repository);
    var text := RenderTOML(registry, repository);
    ServiceSays(text, ConfigLines(registry, repository) + [LAST], registry, repository);
    PluginSays(text, ConfigLines(registry, repository) + [LAST], registry, repository);
  }

  /** The same as a reader of quoted values sees it. */
  lemma ConfigQuotes(registry: string, repository: string)
    requires Clean(registry) && Clean(repository)
    ensures var text := RenderTOML(registry, repository);
            && ReadQuoted(text, "[[plugin_settings]]", "registry") == Some(registry)
            && ReadQuoted(text, "[[plugin_settings]]", "repository") == Some(repository)
            && ReadQuoted(text, "[[plugin_settings]]", "credentials_path")
               == Some(CREDENTIALS_DIR + "/.dockerconfigjson")
            && ReadQuoted(text, "[[plugin_settings]]", "data_directory") == Some(GRAPH_DATA_DIR)
  {
    hide Read, RenderTOML, Quoted, Unquoted;
    ConfigSays(registry, repository);
    QuotedRead(registry);
    QuotedRead(repository);
    DirsUnquoted();
    QuotedRead(CREDENTIALS_DIR + "/.dockerconfigjson");
    QuotedRead(GRAPH_DATA_DIR);
  }

  lemma DirsUnquoted()
    ensures '"' !in CREDENTIALS_DIR + "/.dockerconfigjson" && '"' !in GRAPH_DATA_DIR
  {
    assert '"' !in CINCINNATI;
  }
}
