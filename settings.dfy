/** The settings dialog: it reads the flat KEY="value" configuration file
    into a map, shows five of its settings, and writes them back through a
    fixed template. The file itself is its text (None when it cannot be
    opened); the line edits and radio buttons are fields of the dialog. */
module Settings {
  import opened Wrappers
  import opened Text

  /** One setting read from a line. */
  datatype Entry = Entry(key: string, value: string)

  /** A trimmed line that loading skips: a comment, a blank line, or a line
      without '='. */
  predicate Ignored(line: string) {
    (|line| > 0 && line[0] == '#') || line == [] || '=' !in line
  }

  /** parseValue: everything after the first '=', trimmed, with every double
      quote removed. */
  function ParseValue(line: string): (v: string)
    ensures '"' !in v
    ensures '=' !in line ==> v == []
  {
    Remove(Trim(SectionAfter(line, '=')), '"')
  }

  /** The setting one raw line of the file contributes, if any: the key is
      the trimmed text before the first '=' and the value comes from
      parseValue. */
  function ParseLine(raw: string): Option<Entry> {
    var line := Trim(raw);
    if Ignored(line) then None
    else Some(Entry(Trim(SectionBefore(line, '=')), ParseValue(line)))
  }

  /** A line yields a setting exactly when its trimmed text is not ignored;
      the key then holds no '=' and no outer white space, and the value no
      double quote. */
  lemma ParseLineShape(raw: string)
    ensures ParseLine(raw).None? <==> Ignored(Trim(raw))
    ensures ParseLine(raw).Some? ==>
      var e := ParseLine(raw).value;
      '=' !in e.key && '"' !in e.value && Trim(e.key) == e.key
  {
    var line := Trim(raw);
    if !Ignored(line) {
      TrimIdempotent(SectionBefore(line, '='));
      var key := Trim(SectionBefore(line, '='));
      assert key == SectionBefore(line, '=')[TrimStart(SectionBefore(line, '='))..TrimEnd(SectionBefore(line, '='))];
      assert '=' !in key;
    }
  }

  /** The setting each line contributes, in file order. */
  function ParseLines(lines: seq<string>): (es: seq<Option<Entry>>)
    ensures |es| == |lines|
  {
    if lines == [] then []
    else ParseLines(lines[..|lines| - 1]) + [ParseLine(lines[|lines| - 1])]
  }

  /** Entry i of the parsed lines is what line i contributes. */
  lemma {:induction false} ParseLinesAt(lines: seq<string>, i: nat)
    requires i < |lines|
    ensures ParseLines(lines)[i] == ParseLine(lines[i])
    decreases |lines|
  {
    if i < |lines| - 1 {
      var init := lines[..|lines| - 1];
      ParseLinesAt(init, i);
      assert init[i] == lines[i];
    }
  }

  /** The map built from entries in order: each setting stores its value
      under its key, replacing what was there. */
  function Collect(es: seq<Option<Entry>>): map<string, string> {
    if es == [] then map[]
    else
      var config := Collect(es[..|es| - 1]);
      match es[|es| - 1]
      case None => config
      case Some(e) => config[e.key := e.value]
  }

  /** The map loading builds from the lines of the file. */
  function ParseConfig(lines: seq<string>): map<string, string> {
    Collect(ParseLines(lines))
  }

  /** The value stored under key, or the empty string when there is none. */
  function Lookup(config: map<string, string>, key: string): string {
    if key in config then config[key] else ""
  }

  /** True when the entry is a setting of key. */
  predicate Sets(e: Option<Entry>, key: string) {
    e.Some? && e.value.key == key
  }

  /** True when the line sets key. */
  predicate Assigns(line: string, key: string) {
    Sets(ParseLine(line), key)
  }

  /** A line of the form key=rest (after trimming) sets the trimmed key to
      the trimmed rest without its quotes; rest may hold further '='. */
  lemma KeyValueSplit(raw: string, key: string, rest: string)
    requires Trim(raw) == key + "=" + rest
    requires '=' !in key
    requires key == [] || key[0] != '#'
    ensures ParseLine(raw) == Some(Entry(Trim(key), Remove(Trim(rest), '"')))
  {
    var line := key + "=" + rest;
    assert line[|key|] == '=';
    assert forall j :: 0 <= j < |key| ==> line[j] == key[j];
    IndexOfFirst(line, '=', |key|);
    assert line[..|key|] == key;
    assert line[|key| + 1..] == rest;
    assert !Ignored(line);
  }

  /** One more entry: the map is unchanged by an entry that sets nothing,
      and gains the entry's setting otherwise. */
  lemma CollectSnoc(es: seq<Option<Entry>>, e: Option<Entry>)
    ensures Collect(es + [e]) ==
      match e
      case None => Collect(es)
      case Some(x) => Collect(es)[x.key := x.value]
  {
    assert (es + [e])[..|es|] == es;
  }

  lemma UnionUpdate(m: map<string, string>, n: map<string, string>, k: string, v: string)
    ensures (m + n)[k := v] == m + n[k := v]
  {
  }

  /** Collecting a + b is collecting a, then overriding with what b sets. */
  lemma {:induction false} CollectAppend(a: seq<Option<Entry>>, b: seq<Option<Entry>>)
    ensures Collect(a + b) == Collect(a) + Collect(b)
    decreases |b|
  {
    if b == [] {
      assert a + b == a;
    } else {
      var init, last := b[..|b| - 1], b[|b| - 1];
      assert a + b == (a + init) + [last];
      CollectAppend(a, init);
      CollectSnoc(a + init, last);
      match last
      case None =>
      case Some(e) =>
        UnionUpdate(Collect(a), Collect(init), e.key, e.value);
    }
  }

  /** A key is collected exactly when some entry sets it. */
  lemma {:induction false} CollectKeys(es: seq<Option<Entry>>, key: string)
    ensures key in Collect(es) <==> exists i :: 0 <= i < |es| && Sets(es[i], key)
    decreases |es|
  {
    if es != [] {
      var init, last := es[..|es| - 1], es[|es| - 1];
      CollectKeys(init, key);
      if !Sets(last, key) {
        if key in Collect(init) {
          var i :| 0 <= i < |init| && Sets(init[i], key);
          assert es[i] == init[i];
        }
        if exists i :: 0 <= i < |es| && Sets(es[i], key) {
          var i :| 0 <= i < |es| && Sets(es[i], key);
          assert init[i] == es[i];
        }
      }
    }
  }

  /** The last entry that sets key decides its value. */
  lemma {:induction false} CollectLast(es: seq<Option<Entry>>, i: nat, key: string, value: string)
    requires i < |es| && es[i] == Some(Entry(key, value))
    requires forall j :: i < j < |es| ==> !Sets(es[j], key)
    ensures key in Collect(es) && Collect(es)[key] == value
    decreases |es|
  {
    if i < |es| - 1 {
      var init := es[..|es| - 1];
      assert forall j :: i < j < |init| ==> init[j] == es[j];
      CollectLast(init, i, key, value);
    }
  }

  /** Parsing a + b is parsing a, then parsing b. */
  lemma {:induction false} ParseLinesAppend(a: seq<string>, b: seq<string>)
    ensures ParseLines(a + b) == ParseLines(a) + ParseLines(b)
    decreases |b|
  {
    if b == [] {
      assert a + b == a;
    } else {
      var init := b[..|b| - 1];
      assert a + b == (a + init) + [b[|b| - 1]];
      assert (a + b)[..|a + b| - 1] == a + init;
      ParseLinesAppend(a, init);
    }
  }

  /** Loading the lines a + b is loading a, then overriding with what b
      sets: the last write wins. */
  lemma ParseConfigAppend(a: seq<string>, b: seq<string>)
    ensures ParseConfig(a + b) == ParseConfig(a) + ParseConfig(b)
  {
    ParseLinesAppend(a, b);
    CollectAppend(ParseLines(a), ParseLines(b));
  }

  /** A key is loaded exactly when some line sets it. */
  lemma ParseConfigKeys(lines: seq<string>, key: string)
    ensures key in ParseConfig(lines) <==> exists i :: 0 <= i < |lines| && Assigns(lines[i], key)
  {
    var es := ParseLines(lines);
    CollectKeys(es, key);
    forall i | 0 <= i < |lines| ensures es[i] == ParseLine(lines[i]) {
      ParseLinesAt(lines, i);
    }
  }

  /** If line i sets key to value and no later line sets key, the loaded
      value of key is value. */
  lemma LastAssignmentWins(lines: seq<string>, i: nat, key: string, value: string)
    requires i < |lines| && ParseLine(lines[i]) == Some(Entry(key, value))
    requires forall j :: i < j < |lines| ==> !Assigns(lines[j], key)
    ensures key in ParseConfig(lines) && ParseConfig(lines)[key] == value
  {
    var es := ParseLines(lines);
    forall j | 0 <= j < |lines| ensures es[j] == ParseLine(lines[j]) {
      ParseLinesAt(lines, j);
    }
    CollectLast(es, i, key, value);
  }

  /** A key that no line sets loads as the empty string. */
  lemma MissingKeyLoadsEmpty(lines: seq<string>, key: string)
    requires forall i :: 0 <= i < |lines| ==> !Assigns(lines[i], key)
    ensures Lookup(ParseConfig(lines), key) == ""
  {
    ParseConfigKeys(lines, key);
  }

  /** Loading one more line adds what that line sets. */
  lemma ParseConfigStep(lines: seq<string>, i: nat)
    requires i < |lines|
    ensures ParseConfig(lines[..i + 1]) ==
      match ParseLine(lines[i])
      case None => ParseConfig(lines[..i])
      case Some(e) => ParseConfig(lines[..i])[e.key := e.value]
  {
    assert lines[..i + 1][..i] == lines[..i];
    CollectSnoc(ParseLines(lines[..i]), ParseLine(lines[i]));
  }

  /** The loop of loadConfig: read each line, skip the ignored ones, store
      the others in the map. */
  method ReadConfig(lines: seq<string>) returns (config: map<string, string>)
    ensures config == ParseConfig(lines)
  {
    config := map[];
    var i := 0;
    while i < |lines|
      invariant 0 <= i <= |lines|
      invariant config == ParseConfig(lines[..i])
    {
      ParseConfigStep(lines, i);
      var line := Trim(lines[i]);
      if (line != [] && line[0] == '#') || line == [] || '=' !in line {
        i := i + 1;
        continue;
      }
      var key := Trim(SectionBefore(line, '='));
      var value := ParseValue(line);
      config := config[key := value];
      i := i + 1;
    }
    assert lines[..|lines|] == lines;
  }

  /** The encryption radio buttons: neither checked until a file is loaded. */
  datatype EncryptRadio = Unchecked | GpgChecked | NoneChecked

  /** The values the dialog edits and saves. */
  datatype ConfigFields = ConfigFields(
    snapRoot: string,
    includePaths: string,
    excludePaths: string,
    gpgRecipient: string,
    encryptGpg: bool)

  /** The fields a loaded map gives: the four texts (empty when missing)
      and gpg exactly when ENCRYPT_MODE is "gpg". */
  function FieldsOf(config: map<string, string>): ConfigFields {
    ConfigFields(
      Lookup(config, "SNAP_ROOT"),
      Lookup(config, "INCLUDE_PATHS"),
      Lookup(config, "EXCLUDE_PATHS"),
      Lookup(config, "GPG_RECIPIENT"),
      Lookup(config, "ENCRYPT_MODE") == "gpg")
  }

  /** A line edit's default maxLength: setText keeps at most this many
      characters of a text. */
  const MaxLength: nat := 32767

  /** The part of a text that a line edit keeps: its first MaxLength
      characters. */
  function Clip(text: string): (r: string)
    ensures |r| <= MaxLength && r <= text
    ensures |text| <= MaxLength ==> r == text
    ensures |text| > MaxLength ==> |r| == MaxLength
  {
    if |text| <= MaxLength then text else text[..MaxLength]
  }

  /** The fields that the line edits show when set to the texts of f. */
  function Shown(f: ConfigFields): ConfigFields {
    ConfigFields(Clip(f.snapRoot), Clip(f.includePaths), Clip(f.excludePaths), Clip(f.gpgRecipient), f.encryptGpg)
  }

  /** What loading a file's text yields. */
  function Load(text: string): map<string, string> {
    ParseConfig(ReadLines(text))
  }

  function EncryptModeText(gpg: bool): string {
    if gpg then "gpg" else "none"
  }

  /** A template line KEY="value". */
  function Assignment(key: string, value: string): string {
    key + "=\"" + value + "\""
  }

  /** One line of the saved template: a comment, a blank line, a setting
      written as KEY="value" from a user value, or one whose value the
      template fixes. */
  datatype TemplateLine =
    | Comment(text: string)
    | Blank
    | Setting(key: string, value: string)
    | Fixed(key: string, value: string)

  function Render(t: TemplateLine): string {
    match t
    case Comment(text) => text
    case Blank => ""
    case Setting(key, value) => Assignment(key, value)
    case Fixed(key, value) => Assignment(key, value)
  }

  /** The template saveConfig writes, the dialog's values filled in: the
      lines up to the log file, then the rest. */
  function Template(f: ConfigFields): seq<TemplateLine> {
    TemplateHead(f) + TemplateTail(f)
  }

  function TemplateHead(f: ConfigFields): seq<TemplateLine> {
    [ Comment("# alpsnap configuration"), Blank,
      Setting("SNAP_ROOT", f.snapRoot),
      Fixed("SNAP_BACKEND", "rsync"), Blank,
      Setting("INCLUDE_PATHS", f.includePaths), Blank,
      Setting("EXCLUDE_PATHS", f.excludePaths), Blank,
      Fixed("LOG_FILE", "/var/log/alpsnap.log"), Blank ]
  }

  function TemplateTail(f: ConfigFields): seq<TemplateLine> {
    [ Comment("# Snapshot ID format"),
      Fixed("TIME_FMT", "%Y%m%d-%H%M%S"), Blank,
      Comment("# Compression: zstd | tar | none"),
      Fixed("COMPRESS_MODE", "zstd"), Blank,
      Comment("# Encryption: gpg | none"),
      Fixed("ENCRYPT_MODE", EncryptModeText(f.encryptGpg)),
      Setting("GPG_RECIPIENT", f.gpgRecipient) ]
  }

  /** The written lines of a template, in order. */
  function RenderAll(ts: seq<TemplateLine>): (ls: seq<string>)
    ensures |ls| == |ts|
    ensures forall i :: 0 <= i < |ls| ==> ls[i] == Render(ts[i])
  {
    seq(|ts|, i requires 0 <= i < |ts| => Render(ts[i]))
  }

  /** The lines saveConfig writes, in order. */
  function ConfigLines(f: ConfigFields): seq<string> {
    RenderAll(Template(f))
  }

  /** The map that loading the saved lines gives: the nine template keys,
      each user value with its double quotes removed. */
  function SavedMap(f: ConfigFields): map<string, string> {
    map[ "SNAP_ROOT" := Remove(f.snapRoot, '"'),
         "SNAP_BACKEND" := "rsync",
         "INCLUDE_PATHS" := Remove(f.includePaths, '"'),
         "EXCLUDE_PATHS" := Remove(f.excludePaths, '"'),
         "LOG_FILE" := "/var/log/alpsnap.log",
         "TIME_FMT" := "%Y%m%d-%H%M%S",
         "COMPRESS_MODE" := "zstd",
         "ENCRYPT_MODE" := EncryptModeText(f.encryptGpg),
         "GPG_RECIPIENT" := Remove(f.gpgRecipient, '"') ]
  }

  /** A key the template can write and read back unchanged. */
  predicate PlainKey(key: string) {
    key != [] && key[0] != '#' && '=' !in key && !IsSpace(key[0]) && !IsSpace(key[|key| - 1])
  }

  /** A template line whose text loading can recognise: a comment starts
      with '#' and ends in a visible character, a setting has a plain key. */
  predicate WellFormed(t: TemplateLine) {
    match t
    case Comment(text) => text != [] && text[0] == '#' && !IsSpace(text[|text| - 1])
    case Blank => true
    case Setting(key, _) => PlainKey(key)
    case Fixed(key, value) => PlainKey(key) && '"' !in value
  }

  /** What loading makes of a template line. */
  function Expected(t: TemplateLine): Option<Entry> {
    match t
    case Setting(key, value) => Some(Entry(key, Remove(value, '"')))
    case Fixed(key, value) => Some(Entry(key, value))
    case _ => None
  }

  /** A string with no white space at either end is its own trimming. */
  lemma TrimUnpadded(s: string)
    requires s == [] || (!IsSpace(s[0]) && !IsSpace(s[|s| - 1]))
    ensures Trim(s) == s
  {
    assert s == [] + s + [];
    TrimUnique([], s, []);
  }

  /** Removing the quotes of "value" leaves value without its own quotes. */
  lemma RemoveQuotes(value: string)
    ensures Remove("\"" + value + "\"", '"') == Remove(value, '"')
  {
    RemoveAppend("\"" + value, "\"", '"');
    RemoveAppend("\"", value, '"');
  }

  /** A template line KEY="value" loads as KEY with the value's quotes
      removed. */
  lemma ParseAssignment(key: string, value: string)
    requires PlainKey(key)
    ensures ParseLine(Assignment(key, value)) == Some(Entry(key, Remove(value, '"')))
  {
    var quoted := "\"" + value + "\"";
    var line := Assignment(key, value);
    assert line == key + "=" + quoted;
    TrimUnpadded(line);
    TrimUnpadded(quoted);
    TrimUnpadded(key);
    RemoveQuotes(value);
    KeyValueSplit(line, key, quoted);
  }

  /** Every well-formed template line loads as expected: comments and blank
      lines are skipped, settings give their key and unquoted value. */
  lemma ParseRendered(t: TemplateLine)
    requires WellFormed(t)
    ensures ParseLine(Render(t)) == Expected(t)
  {
    match t
    case Comment(text) =>
      TrimUnpadded(text);
    case Blank =>
    case Setting(key, value) =>
      ParseAssignment(key, value);
    case Fixed(key, value) =>
      ParseAssignment(key, value);
  }

  /** What loading makes of each template line, in order. */
  function ExpectedAll(ts: seq<TemplateLine>): (es: seq<Option<Entry>>)
    ensures |es| == |ts|
    ensures forall i :: 0 <= i < |es| ==> es[i] == Expected(ts[i])
  {
    seq(|ts|, i requires 0 <= i < |ts| => Expected(ts[i]))
  }

  /** A template of well-formed lines loads line by line as expected. */
  lemma ParseRenderedAll(ts: seq<TemplateLine>)
    requires forall i :: 0 <= i < |ts| ==> WellFormed(ts[i])
    ensures ParseLines(RenderAll(ts)) == ExpectedAll(ts)
  {
    var ls := RenderAll(ts);
    forall i | 0 <= i < |ls| ensures ParseLines(ls)[i] == ExpectedAll(ts)[i] {
      ParseLinesAt(ls, i);
      ParseRendered(ts[i]);
    }
  }

  /** Every line of the saveConfig template is well formed. */
  lemma TemplateWellFormed(f: ConfigFields)
    ensures forall i :: 0 <= i < |Template(f)| ==> WellFormed(Template(f)[i])
  {
    PathKeysPlain();
    OtherKeysPlain();
    FixedValuesUnquoted(f.encryptGpg);
  }

  lemma PathKeysPlain()
    ensures PlainKey("SNAP_ROOT") && PlainKey("INCLUDE_PATHS") && PlainKey("EXCLUDE_PATHS")
    ensures PlainKey("GPG_RECIPIENT") && PlainKey("LOG_FILE")
  {
    assert '=' !in "SNAP_ROOT";
    assert '=' !in "INCLUDE_PATHS";
    assert '=' !in "EXCLUDE_PATHS";
    assert '=' !in "GPG_RECIPIENT";
    assert '=' !in "LOG_FILE";
  }

  lemma OtherKeysPlain()
    ensures PlainKey("SNAP_BACKEND") && PlainKey("TIME_FMT") && PlainKey("COMPRESS_MODE")
    ensures PlainKey("ENCRYPT_MODE")
  {
    assert '=' !in "SNAP_BACKEND";
    assert '=' !in "TIME_FMT";
    assert '=' !in "COMPRESS_MODE";
    assert '=' !in "ENCRYPT_MODE";
  }

  lemma FixedValuesUnquoted(gpg: bool)
    ensures '"' !in "rsync" && '"' !in "/var/log/alpsnap.log" && '"' !in "%Y%m%d-%H%M%S"
    ensures '"' !in "zstd" && '"' !in EncryptModeText(gpg)
  {
  }

  /** The entries the template yields, in order, given the nine loaded
      values. */
  function SavedEntries(root: string, backend: string, included: string, excluded: string, log: string, time: string, compress: string, encrypt: string, recipient: string): seq<Option<Entry>> {
    SavedHead(root, backend, included, excluded, log) + SavedTail(time, compress, encrypt, recipient)
  }

  function SavedHead(root: string, backend: string, included: string, excluded: string, log: string): seq<Option<Entry>> {
    [ None,
      None,
      Some(Entry("SNAP_ROOT", root)),
      Some(Entry("SNAP_BACKEND", backend)),
      None,
      Some(Entry("INCLUDE_PATHS", included)),
      None,
      Some(Entry("EXCLUDE_PATHS", excluded)),
      None,
      Some(Entry("LOG_FILE", log)),
      None ]
  }

  function SavedTail(time: string, compress: string, encrypt: string, recipient: string): seq<Option<Entry>> {
    [ None,
      Some(Entry("TIME_FMT", time)),
      None,
      None,
      Some(Entry("COMPRESS_MODE", compress)),
      None,
      None,
      Some(Entry("ENCRYPT_MODE", encrypt)),
      Some(Entry("GPG_RECIPIENT", recipient)) ]
  }

  /** The head of the template sets the first five keys in order. */
  lemma CollectHead(root: string, backend: string, included: string, excluded: string, log: string)
    ensures Collect(SavedHead(root, backend, included, excluded, log)) == map[ "SNAP_ROOT" := root,
      "SNAP_BACKEND" := backend, "INCLUDE_PATHS" := included, "EXCLUDE_PATHS" := excluded, "LOG_FILE" := log ]
  {
    var s0: seq<Option<Entry>> := [];
    var s1 := s0 + [None];
    CollectSnoc(s0, None);
    var s2 := s1 + [None];
    CollectSnoc(s1, None);
    var s3 := s2 + [Some(Entry("SNAP_ROOT", root))];
    CollectSnoc(s2, Some(Entry("SNAP_ROOT", root)));
    var s4 := s3 + [Some(Entry("SNAP_BACKEND", backend))];
    CollectSnoc(s3, Some(Entry("SNAP_BACKEND", backend)));
    var s5 := s4 + [None];
    CollectSnoc(s4, None);
    var s6 := s5 + [Some(Entry("INCLUDE_PATHS", included))];
    CollectSnoc(s5, Some(Entry("INCLUDE_PATHS", included)));
    var s7 := s6 + [None];
    CollectSnoc(s6, None);
    var s8 := s7 + [Some(Entry("EXCLUDE_PATHS", excluded))];
    CollectSnoc(s7, Some(Entry("EXCLUDE_PATHS", excluded)));
    var s9 := s8 + [None];
    CollectSnoc(s8, None);
    var s10 := s9 + [Some(Entry("LOG_FILE", log))];
    CollectSnoc(s9, Some(Entry("LOG_FILE", log)));
    var s11 := s10 + [None];
    CollectSnoc(s10, None);
    assert s11 == SavedHead(root, backend, included, excluded, log);
  }

  /** The tail of the template sets the last four keys in order. */
  lemma CollectTailAlone(time: string, compress: string, encrypt: string, recipient: string)
    ensures Collect(SavedTail(time, compress, encrypt, recipient)) == map[ "TIME_FMT" := time,
      "COMPRESS_MODE" := compress, "ENCRYPT_MODE" := encrypt, "GPG_RECIPIENT" := recipient ]
  {
    var s0: seq<Option<Entry>> := [];
    var s1 := s0 + [None];
    CollectSnoc(s0, None);
    var s2 := s1 + [Some(Entry("TIME_FMT", time))];
    CollectSnoc(s1, Some(Entry("TIME_FMT", time)));
    var s3 := s2 + [None];
    CollectSnoc(s2, None);
    var s4 := s3 + [None];
    CollectSnoc(s3, None);
    var s5 := s4 + [Some(Entry("COMPRESS_MODE", compress))];
    CollectSnoc(s4, Some(Entry("COMPRESS_MODE", compress)));
    var s6 := s5 + [None];
    CollectSnoc(s5, None);
    var s7 := s6 + [None];
    CollectSnoc(s6, None);
    var s8 := s7 + [Some(Entry("ENCRYPT_MODE", encrypt))];
    CollectSnoc(s7, Some(Entry("ENCRYPT_MODE", encrypt)));
    var s9 := s8 + [Some(Entry("GPG_RECIPIENT", recipient))];
    CollectSnoc(s8, Some(Entry("GPG_RECIPIENT", recipient)));
    assert s9 == SavedTail(time, compress, encrypt, recipient);
  }

  /** After any head, the tail of the template sets the last four keys in
      order. */
  lemma CollectTail(h: seq<Option<Entry>>, time: string, compress: string, encrypt: string, recipient: string)
    ensures Collect(h + SavedTail(time, compress, encrypt, recipient)) == Collect(h)[
      "TIME_FMT" := time][ "COMPRESS_MODE" := compress][ "ENCRYPT_MODE" := encrypt][ "GPG_RECIPIENT" := recipient]
  {
    var m := Collect(h);
    CollectAppend(h, SavedTail(time, compress, encrypt, recipient));
    CollectTailAlone(time, compress, encrypt, recipient);
    assert m + map[] == m;
    UnionUpdate(m, map[], "TIME_FMT", time);
    UnionUpdate(m, map["TIME_FMT" := time], "COMPRESS_MODE", compress);
    UnionUpdate(m, map["TIME_FMT" := time, "COMPRESS_MODE" := compress], "ENCRYPT_MODE", encrypt);
    UnionUpdate(m, map["TIME_FMT" := time, "COMPRESS_MODE" := compress, "ENCRYPT_MODE" := encrypt], "GPG_RECIPIENT", recipient);
  }

  /** Collecting the template's entries gives each of the nine keys its
      value. */
  lemma CollectSettings(root: string, backend: string, included: string, excluded: string, log: string, time: string, compress: string, encrypt: string, recipient: string)
    ensures Collect(SavedEntries(root, backend, included, excluded, log, time, compress, encrypt, recipient)) == map[ "SNAP_ROOT" := root,
         "SNAP_BACKEND" := backend,
         "INCLUDE_PATHS" := included,
         "EXCLUDE_PATHS" := excluded,
         "LOG_FILE" := log,
         "TIME_FMT" := time,
         "COMPRESS_MODE" := compress,
         "ENCRYPT_MODE" := encrypt,
         "GPG_RECIPIENT" := recipient ]
  {
    CollectHead(root, backend, included, excluded, log);
    CollectTail(SavedHead(root, backend, included, excluded, log), time, compress, encrypt, recipient);
  }

  /** What loading makes of template lines a + b: that of a, then that of
      b. */
  lemma ExpectedAllAppend(a: seq<TemplateLine>, b: seq<TemplateLine>)
    ensures ExpectedAll(a + b) == ExpectedAll(a) + ExpectedAll(b)
  {
  }

  /** Line by line, the head of the template yields its saved entries. */
  lemma ExpectedHead(f: ConfigFields)
    ensures ExpectedAll(TemplateHead(f)) == SavedHead(
      Remove(f.snapRoot, '"'), "rsync", Remove(f.includePaths, '"'), Remove(f.excludePaths, '"'),
      "/var/log/alpsnap.log")
  {
  }

  /** Line by line, the tail of the template yields its saved entries. */
  lemma ExpectedTail(f: ConfigFields)
    ensures ExpectedAll(TemplateTail(f)) == SavedTail(
      "%Y%m%d-%H%M%S", "zstd", EncryptModeText(f.encryptGpg), Remove(f.gpgRecipient, '"'))
  {
  }

  /** Line by line, the template yields the saved entries. */
  lemma ExpectedTemplate(f: ConfigFields)
    ensures ExpectedAll(Template(f)) == SavedEntries(
      Remove(f.snapRoot, '"'), "rsync", Remove(f.includePaths, '"'), Remove(f.excludePaths, '"'),
      "/var/log/alpsnap.log", "%Y%m%d-%H%M%S", "zstd", EncryptModeText(f.encryptGpg),
      Remove(f.gpgRecipient, '"'))
  {
    ExpectedAllAppend(TemplateHead(f), TemplateTail(f));
    ExpectedHead(f);
    ExpectedTail(f);
  }

  /** Collecting the expected entries of the template gives the nine keys. */
  lemma CollectTemplate(f: ConfigFields)
    ensures Collect(ExpectedAll(Template(f))) == SavedMap(f)
  {
    ExpectedTemplate(f);
    CollectSettings(
      Remove(f.snapRoot, '"'), "rsync", Remove(f.includePaths, '"'), Remove(f.excludePaths, '"'),
      "/var/log/alpsnap.log", "%Y%m%d-%H%M%S", "zstd", EncryptModeText(f.encryptGpg),
      Remove(f.gpgRecipient, '"'));
  }

  /** Whatever the user values, the saved lines load as the nine template
      keys: the fixed SNAP_BACKEND, LOG_FILE, TIME_FMT and COMPRESS_MODE,
      ENCRYPT_MODE from the radio state, and the four user values without
      their double quotes. */
  lemma ParseSavedLines(f: ConfigFields)
    ensures ParseConfig(ConfigLines(f)) == SavedMap(f)
  {
    TemplateWellFormed(f);
    ParseRenderedAll(Template(f));
    CollectTemplate(f);
  }

  /** A value the file format carries unchanged: no double quote and no
      line break. */
  predicate Storable(v: string) {
    '"' !in v && OneLine(v)
  }

  /** A string without line breaks. */
  predicate OneLine(s: string) {
    '\n' !in s && '\r' !in s
  }

  /** A template line whose own texts hold no line break. */
  predicate Unbroken(t: TemplateLine) {
    match t
    case Comment(text) => OneLine(text)
    case Blank => true
    case Setting(key, value) => OneLine(key) && OneLine(value)
    case Fixed(key, value) => OneLine(key) && OneLine(value)
  }

  /** Such a line is written without line breaks. */
  lemma RenderOneLine(t: TemplateLine)
    requires Unbroken(t)
    ensures OneLine(Render(t))
  {
  }

  lemma CommentsOneLine()
    ensures OneLine("# alpsnap configuration") && OneLine("# Snapshot ID format")
    ensures OneLine("# Compression: zstd | tar | none") && OneLine("# Encryption: gpg | none")
  {
    assert OneLine("# alpsnap configuration");
    assert OneLine("# Snapshot ID format");
    assert OneLine("# Compression: zstd | tar | none");
    assert OneLine("# Encryption: gpg | none");
  }

  lemma KeysOneLine()
    ensures OneLine("SNAP_ROOT") && OneLine("SNAP_BACKEND") && OneLine("INCLUDE_PATHS")
    ensures OneLine("EXCLUDE_PATHS") && OneLine("LOG_FILE") && OneLine("TIME_FMT")
    ensures OneLine("COMPRESS_MODE") && OneLine("ENCRYPT_MODE") && OneLine("GPG_RECIPIENT")
  {
    assert OneLine("SNAP_ROOT");
    assert OneLine("SNAP_BACKEND");
    assert OneLine("INCLUDE_PATHS");
    assert OneLine("EXCLUDE_PATHS");
    assert OneLine("LOG_FILE");
    assert OneLine("TIME_FMT");
    assert OneLine("COMPRESS_MODE");
    assert OneLine("ENCRYPT_MODE");
    assert OneLine("GPG_RECIPIENT");
  }

  lemma FixedValuesOneLine(gpg: bool)
    ensures OneLine("rsync") && OneLine("/var/log/alpsnap.log") && OneLine("%Y%m%d-%H%M%S")
    ensures OneLine("zstd") && OneLine(EncryptModeText(gpg))
  {
    assert OneLine("/var/log/alpsnap.log");
    assert OneLine("%Y%m%d-%H%M%S");
  }

  /** With the four user values free of line breaks, so is every line of
      the template. */
  lemma TemplateUnbroken(f: ConfigFields)
    requires OneLine(f.snapRoot) && OneLine(f.includePaths) && OneLine(f.excludePaths) && OneLine(f.gpgRecipient)
    ensures forall i :: 0 <= i < |Template(f)| ==> Unbroken(Template(f)[i])
  {
    CommentsOneLine();
    KeysOneLine();
    FixedValuesOneLine(f.encryptGpg);
  }

  /** The saved text, read back, gives exactly the saved lines (no value
      holds a line break). */
  lemma ReadSavedText(f: ConfigFields)
    requires OneLine(f.snapRoot) && OneLine(f.includePaths) && OneLine(f.excludePaths) && OneLine(f.gpgRecipient)
    ensures ReadLines(JoinLines(ConfigLines(f))) == ConfigLines(f)
  {
    var t, ls := Template(f), ConfigLines(f);
    TemplateUnbroken(f);
    forall i | 0 <= i < |ls| ensures '\n' !in ls[i] && '\r' !in ls[i] {
      RenderOneLine(t[i]);
    }
    ReadWrittenLines(ls);
  }

  /** The fields the saved map gives: the four values without their
      double quotes, and the same encryption choice. */
  lemma SavedFields(f: ConfigFields)
    ensures FieldsOf(SavedMap(f)) == ConfigFields(
      Remove(f.snapRoot, '"'), Remove(f.includePaths, '"'), Remove(f.excludePaths, '"'),
      Remove(f.gpgRecipient, '"'), f.encryptGpg)
  {
    var m := SavedMap(f);
    assert Lookup(m, "SNAP_ROOT") == Remove(f.snapRoot, '"');
    assert Lookup(m, "INCLUDE_PATHS") == Remove(f.includePaths, '"');
    assert Lookup(m, "EXCLUDE_PATHS") == Remove(f.excludePaths, '"');
    assert Lookup(m, "GPG_RECIPIENT") == Remove(f.gpgRecipient, '"');
    assert Lookup(m, "ENCRYPT_MODE") == EncryptModeText(f.encryptGpg);
    assert EncryptModeText(false) != "gpg";
  }

  /** Saving and loading again gives back the four values and the
      encryption choice, when the values are storable. */
  lemma SaveLoadRoundTrip(f: ConfigFields)
    requires Storable(f.snapRoot) && Storable(f.includePaths)
    requires Storable(f.excludePaths) && Storable(f.gpgRecipient)
    ensures FieldsOf(Load(JoinLines(ConfigLines(f)))) == f
  {
    LoadSaved(f);
    SavedFields(f);
  }

  /** The saved file, when the four values hold no line break, loads as
      the nine template keys: the fixed backend, log file, time format and
      compression, the encryption mode from the radio state, and the four
      values without their double quotes. */
  lemma LoadSaved(f: ConfigFields)
    requires OneLine(f.snapRoot) && OneLine(f.includePaths) && OneLine(f.excludePaths) && OneLine(f.gpgRecipient)
    ensures Load(JoinLines(ConfigLines(f))) == SavedMap(f)
  {
    ReadSavedText(f);
    ParseSavedLines(f);
  }

  /** Saving and opening the dialog again shows the same values, when they
      are storable and fit in the line edits. */
  lemma ReopenShowsSaved(f: ConfigFields)
    requires Storable(f.snapRoot) && Storable(f.includePaths)
    requires Storable(f.excludePaths) && Storable(f.gpgRecipient)
    requires |f.snapRoot| <= MaxLength && |f.includePaths| <= MaxLength
    requires |f.excludePaths| <= MaxLength && |f.gpgRecipient| <= MaxLength
    ensures Shown(FieldsOf(Load(JoinLines(ConfigLines(f))))) == f
  {
    SaveLoadRoundTrip(f);
  }

  /** The template's lines, grouped as saveConfig writes them. */
  lemma ConfigLinesByWrite(f: ConfigFields)
    ensures ConfigLines(f) == []
      + [Render(Template(f)[0]), Render(Template(f)[1])]
      + [Render(Template(f)[2])]
      + [Render(Template(f)[3]), Render(Template(f)[4])]
      + [Render(Template(f)[5]), Render(Template(f)[6])]
      + [Render(Template(f)[7]), Render(Template(f)[8])]
      + [Render(Template(f)[9]), Render(Template(f)[10])]
      + [Render(Template(f)[11])]
      + [Render(Template(f)[12]), Render(Template(f)[13])]
      + [Render(Template(f)[14])]
      + [Render(Template(f)[15]), Render(Template(f)[16])]
      + [Render(Template(f)[17])]
      + [Render(Template(f)[18])]
      + [Render(Template(f)[19])]
  {
    var t := Template(f);
    assert |t| == 20;
    GroupedAsWritten(ConfigLines(f));
  }

  /** Twenty lines, grouped as saveConfig writes them. */
  lemma GroupedAsWritten(ls: seq<string>)
    requires |ls| == 20
    ensures ls == [] + [ls[0], ls[1]] + [ls[2]] + [ls[3], ls[4]] + [ls[5], ls[6]]
      + [ls[7], ls[8]] + [ls[9], ls[10]] + [ls[11]] + [ls[12], ls[13]] + [ls[14]]
      + [ls[15], ls[16]] + [ls[17]] + [ls[18]] + [ls[19]]
  {
  }

  /** KEY="value" is the text up to the opening quote, the value and the
      closing quote. */
  lemma AssignmentText(key: string, opening: string, value: string)
    requires opening == key + "=\""
    ensures Assignment(key, value) == opening + value + "\""
  {
  }

  /** Writing a line opening + value + '"' as one write statement. */
  lemma WriteValueLine(ls: seq<string>, text: string, opening: string, value: string, line: string)
    requires text == JoinLines(ls)
    requires line == opening + value + "\""
    ensures text + opening + value + "\"\n" == JoinLines(ls + [line])
  {
    WriteLine(ls, line);
  }

  /** Writing a line opening + value + '"' and a blank line as one write
      statement. */
  lemma WriteValueLineBlank(ls: seq<string>, text: string, opening: string, value: string, line: string)
    requires text == JoinLines(ls)
    requires line == opening + value + "\""
    ensures text + opening + value + "\"\n\n" == JoinLines(ls + [line, ""])
  {
    WriteTwoLines(ls, line, "");
  }

  /** Writing a line and a blank line as one write statement. */
  lemma WriteLineBlank(ls: seq<string>, text: string, written: string, line: string)
    requires text == JoinLines(ls)
    requires written == line + "\n\n"
    ensures text + written == JoinLines(ls + [line, ""])
  {
    WriteTwoLines(ls, line, "");
  }

  /* The write statements of the four fixed settings, each a KEY="value"
     line and a blank line. */

  lemma BackendWrite()
    ensures "SNAP_BACKEND=\"rsync\"\n\n" == Assignment("SNAP_BACKEND", "rsync") + "\n\n"
  {
    AssignmentText("SNAP_BACKEND", "SNAP_BACKEND=\"", "rsync");
  }

  lemma LogFileWrite()
    ensures "LOG_FILE=\"/var/log/alpsnap.log\"\n\n" == Assignment("LOG_FILE", "/var/log/alpsnap.log") + "\n\n"
  {
    AssignmentText("LOG_FILE", "LOG_FILE=\"", "/var/log/alpsnap.log");
  }

  lemma TimeFormatWrite()
    ensures "TIME_FMT=\"%Y%m%d-%H%M%S\"\n\n" == Assignment("TIME_FMT", "%Y%m%d-%H%M%S") + "\n\n"
  {
    AssignmentText("TIME_FMT", "TIME_FMT=\"", "%Y%m%d-%H%M%S");
  }

  lemma CompressWrite()
    ensures "COMPRESS_MODE=\"zstd\"\n\n" == Assignment("COMPRESS_MODE", "zstd") + "\n\n"
  {
    AssignmentText("COMPRESS_MODE", "COMPRESS_MODE=\"", "zstd");
  }

  /* What each write statement of saveConfig adds to text that holds the
     lines so far: the text of its one or two template lines, each followed
     by a line break. */

  lemma HeaderChunk(f: ConfigFields, text: string, ls: seq<string>)
    requires text == JoinLines(ls)
    ensures text + "# alpsnap configuration\n\n" == JoinLines(ls + [Render(Template(f)[0]), Render(Template(f)[1])])
  {
    var line := Render(Template(f)[0]);
    assert line == "# alpsnap configuration";
    assert Render(Template(f)[1]) == "";
    WriteTwoLines(ls, line, "");
  }

  lemma SnapRootChunk(f: ConfigFields, text: string, ls: seq<string>)
    requires text == JoinLines(ls)
    ensures text + "SNAP_ROOT=\"" + f.snapRoot + "\"\n" == JoinLines(ls + [Render(Template(f)[2])])
  {
    var line := Render(Template(f)[2]);
    AssignmentText("SNAP_ROOT", "SNAP_ROOT=\"", f.snapRoot);
    WriteValueLine(ls, text, "SNAP_ROOT=\"", f.snapRoot, line);
  }

  lemma BackendChunk(f: ConfigFields, text: string, ls: seq<string>)
    requires text == JoinLines(ls)
    ensures text + "SNAP_BACKEND=\"rsync\"\n\n" == JoinLines(ls + [Render(Template(f)[3]), Render(Template(f)[4])])
  {
    var line := Render(Template(f)[3]);
    assert line == Assignment("SNAP_BACKEND", "rsync");
    assert Render(Template(f)[4]) == "";
    BackendWrite();
    WriteLineBlank(ls, text, "SNAP_BACKEND=\"rsync\"\n\n", line);
  }

  lemma IncludeChunk(f: ConfigFields, text: string, ls: seq<string>)
    requires text == JoinLines(ls)
    ensures text + "INCLUDE_PATHS=\"" + f.includePaths + "\"\n\n" == JoinLines(ls + [Render(Template(f)[5]), Render(Template(f)[6])])
  {
    var line := Render(Template(f)[5]);
    AssignmentText("INCLUDE_PATHS", "INCLUDE_PATHS=\"", f.includePaths);
    assert Render(Template(f)[6]) == "";
    WriteValueLineBlank(ls, text, "INCLUDE_PATHS=\"", f.includePaths, line);
  }

  lemma ExcludeChunk(f: ConfigFields, text: string, ls: seq<string>)
    requires text == JoinLines(ls)
    ensures text + "EXCLUDE_PATHS=\"" + f.excludePaths + "\"\n\n" == JoinLines(ls + [Render(Template(f)[7]), Render(Template(f)[8])])
  {
    var line := Render(Template(f)[7]);
    AssignmentText("EXCLUDE_PATHS", "EXCLUDE_PATHS=\"", f.excludePaths);
    assert Render(Template(f)[8]) == "";
    WriteValueLineBlank(ls, text, "EXCLUDE_PATHS=\"", f.excludePaths, line);
  }

  lemma LogFileChunk(f: ConfigFields, text: string, ls: seq<string>)
    requires text == JoinLines(ls)
    ensures text + "LOG_FILE=\"/var/log/alpsnap.log\"\n\n" == JoinLines(ls + [Render(Template(f)[9]), Render(Template(f)[10])])
  {
    var line := Render(Template(f)[9]);
    assert line == Assignment("LOG_FILE", "/var/log/alpsnap.log");
    assert Render(Template(f)[10]) == "";
    LogFileWrite();
    WriteLineBlank(ls, text, "LOG_FILE=\"/var/log/alpsnap.log\"\n\n", line);
  }

  lemma IdFormatChunk(f: ConfigFields, text: string, ls: seq<string>)
    requires text == JoinLines(ls)
    ensures text + "# Snapshot ID format\n" == JoinLines(ls + [Render(Template(f)[11])])
  {
    var line := Render(Template(f)[11]);
    assert line == "# Snapshot ID format";
    WriteLine(ls, line);
  }

  lemma TimeFormatChunk(f: ConfigFields, text: string, ls: seq<string>)
    requires text == JoinLines(ls)
    ensures text + "TIME_FMT=\"%Y%m%d-%H%M%S\"\n\n" == JoinLines(ls + [Render(Template(f)[12]), Render(Template(f)[13])])
  {
    var line := Render(Template(f)[12]);
    assert line == Assignment("TIME_FMT", "%Y%m%d-%H%M%S");
    assert Render(Template(f)[13]) == "";
    TimeFormatWrite();
    WriteLineBlank(ls, text, "TIME_FMT=\"%Y%m%d-%H%M%S\"\n\n", line);
  }

  lemma CompressionCommentChunk(f: ConfigFields, text: string, ls: seq<string>)
    requires text == JoinLines(ls)
    ensures text + "# Compression: zstd | tar | none\n" == JoinLines(ls + [Render(Template(f)[14])])
  {
    var line := Render(Template(f)[14]);
    assert line == "# Compression: zstd | tar | none";
    WriteLine(ls, line);
  }

  lemma CompressChunk(f: ConfigFields, text: string, ls: seq<string>)
    requires text == JoinLines(ls)
    ensures text + "COMPRESS_MODE=\"zstd\"\n\n" == JoinLines(ls + [Render(Template(f)[15]), Render(Template(f)[16])])
  {
    var line := Render(Template(f)[15]);
    assert line == Assignment("COMPRESS_MODE", "zstd");
    assert Render(Template(f)[16]) == "";
    CompressWrite();
    WriteLineBlank(ls, text, "COMPRESS_MODE=\"zstd\"\n\n", line);
  }

  lemma EncryptionCommentChunk(f: ConfigFields, text: string, ls: seq<string>)
    requires text == JoinLines(ls)
    ensures text + "# Encryption: gpg | none\n" == JoinLines(ls + [Render(Template(f)[17])])
  {
    var line := Render(Template(f)[17]);
    assert line == "# Encryption: gpg | none";
    WriteLine(ls, line);
  }

  lemma EncryptModeChunk(f: ConfigFields, text: string, ls: seq<string>)
    requires text == JoinLines(ls)
    ensures text + "ENCRYPT_MODE=\"" + EncryptModeText(f.encryptGpg) + "\"\n" == JoinLines(ls + [Render(Template(f)[18])])
  {
    var line := Render(Template(f)[18]);
    AssignmentText("ENCRYPT_MODE", "ENCRYPT_MODE=\"", EncryptModeText(f.encryptGpg));
    WriteValueLine(ls, text, "ENCRYPT_MODE=\"", EncryptModeText(f.encryptGpg), line);
  }

  lemma RecipientChunk(f: ConfigFields, text: string, ls: seq<string>)
    requires text == JoinLines(ls)
    ensures text + "GPG_RECIPIENT=\"" + f.gpgRecipient + "\"\n" == JoinLines(ls + [Render(Template(f)[19])])
  {
    var line := Render(Template(f)[19]);
    AssignmentText("GPG_RECIPIENT", "GPG_RECIPIENT=\"", f.gpgRecipient);
    WriteValueLine(ls, text, "GPG_RECIPIENT=\"", f.gpgRecipient, line);
  }

  /** The dialog: four line edits, the two encryption radio buttons, the
      Apply button's enabled flag, and whether the dialog was accepted. */
  class SettingsDialog {
    var snapRoot: string
    var includePaths: string
    var excludePaths: string
    var gpgRecipient: string
    var encrypt: EncryptRadio
    var applyEnabled: bool
    var accepted: bool

    /** The values a save would write. */
    function Current(): ConfigFields
      reads this`snapRoot, this`includePaths, this`excludePaths, this`gpgRecipient, this`encrypt
    {
      ConfigFields(snapRoot, includePaths, excludePaths, gpgRecipient, encrypt == GpgChecked)
    }

    /** Building the dialog: empty fields, no radio checked, Apply disabled,
        then loadConfig on the file (None when it cannot be opened). */
    constructor (file: Option<string>)
      ensures file.None? ==> snapRoot == includePaths == excludePaths == gpgRecipient == ""
      ensures file.None? ==> encrypt == Unchecked
      ensures file.Some? ==> Current() == Shown(FieldsOf(Load(file.value))) && encrypt != Unchecked
      ensures !applyEnabled && !accepted
    {
      snapRoot, includePaths, excludePaths, gpgRecipient := "", "", "", "";
      encrypt := Unchecked;
      applyEnabled := false;
      accepted := false;
      new;
      LoadConfig(file);
    }

    /** loadConfig: nothing changes when the file cannot be opened;
        otherwise the line edits take the loaded values (as much of each as
        they keep), the gpg radio button is
        checked exactly when ENCRYPT_MODE is "gpg" (the none button
        otherwise), and Apply ends disabled. */
    method LoadConfig(file: Option<string>)
      modifies this
      ensures file.None? ==> unchanged(this)
      ensures file.Some? ==>
        var config := Load(file.value);
        && snapRoot == Clip(Lookup(config, "SNAP_ROOT"))
        && includePaths == Clip(Lookup(config, "INCLUDE_PATHS"))
        && excludePaths == Clip(Lookup(config, "EXCLUDE_PATHS"))
        && gpgRecipient == Clip(Lookup(config, "GPG_RECIPIENT"))
        && encrypt == (if Lookup(config, "ENCRYPT_MODE") == "gpg" then GpgChecked else NoneChecked)
        && !applyEnabled && accepted == old(accepted)
    {
      if file.None? {
        return;
      }
      var config := ReadConfig(ReadLines(file.value));
      SetText(SnapRootField, Lookup(config, "SNAP_ROOT"));
      SetText(IncludePathsField, Lookup(config, "INCLUDE_PATHS"));
      SetText(ExcludePathsField, Lookup(config, "EXCLUDE_PATHS"));
      SetText(GpgRecipientField, Lookup(config, "GPG_RECIPIENT"));
      ChooseEncryption(Lookup(config, "ENCRYPT_MODE") == "gpg");
      applyEnabled := false;
    }

    /** The text of one line edit. */
    function FieldText(field: TextField): string
      reads this
    {
      match field
      case SnapRootField => snapRoot
      case IncludePathsField => includePaths
      case ExcludePathsField => excludePaths
      case GpgRecipientField => gpgRecipient
    }

    /** onFieldChanged: Apply becomes enabled. */
    method OnFieldChanged()
      modifies this`applyEnabled
      ensures applyEnabled
    {
      applyEnabled := true;
    }

    /** Setting a line edit's text (by the user or by loading): the line
        edit keeps the text cut to its maximum length, the other fields
        keep their values, and a kept text that differs from the old one
        signals a change, which enables Apply. */
    method SetText(field: TextField, text: string)
      modifies this
      ensures FieldText(field) == Clip(text)
      ensures forall g :: g != field ==> FieldText(g) == old(FieldText(g))
      ensures encrypt == old(encrypt) && accepted == old(accepted)
      ensures applyEnabled == (old(applyEnabled) || Clip(text) != old(FieldText(field)))
    {
      var kept := Clip(text);
      var changed := kept != FieldText(field);
      match field {
        case SnapRootField => snapRoot := kept;
        case IncludePathsField => includePaths := kept;
        case ExcludePathsField => excludePaths := kept;
        case GpgRecipientField => gpgRecipient := kept;
      }
      if changed {
        OnFieldChanged();
      }
    }

    /** Checking one of the two radio buttons (by the user or by loading):
        the gpg button's toggle, when its state flips, enables Apply. */
    method ChooseEncryption(gpg: bool)
      modifies this
      ensures encrypt == (if gpg then GpgChecked else NoneChecked)
      ensures snapRoot == old(snapRoot) && includePaths == old(includePaths)
      ensures excludePaths == old(excludePaths) && gpgRecipient == old(gpgRecipient)
      ensures accepted == old(accepted)
      ensures applyEnabled == (old(applyEnabled) || (old(encrypt) == GpgChecked) != gpg)
    {
      var toggled := (encrypt == GpgChecked) != gpg;
      encrypt := if gpg then GpgChecked else NoneChecked;
      if toggled {
        OnFieldChanged();
      }
    }

    /** saveConfig: when the file can be opened for writing, write the
        template with the current values (the encryption mode "gpg" exactly
        when the gpg button is checked) and accept the dialog; otherwise
        write nothing. */
    method SaveConfig(canOpen: bool) returns (written: Option<string>)
      modifies this`accepted
      ensures canOpen ==> written == Some(JoinLines(ConfigLines(Current()))) && accepted
      ensures !canOpen ==> written == None && accepted == old(accepted)
    {
      if !canOpen {
        return None;
      }
      var encryptMode := if encrypt == GpgChecked then "gpg" else "none";
      ghost var f := Current();
      var out: string := "";
      ghost var lines: seq<string> := [];
      HeaderChunk(f, out, lines);
      out := out + "# alpsnap configuration\n\n";
      lines := lines + [Render(Template(f)[0]), Render(Template(f)[1])];
      SnapRootChunk(f, out, lines);
      out := out + "SNAP_ROOT=\"" + snapRoot + "\"\n";
      lines := lines + [Render(Template(f)[2])];
      BackendChunk(f, out, lines);
      out := out + "SNAP_BACKEND=\"rsync\"\n\n";
      lines := lines + [Render(Template(f)[3]), Render(Template(f)[4])];
      IncludeChunk(f, out, lines);
      out := out + "INCLUDE_PATHS=\"" + includePaths + "\"\n\n";
      lines := lines + [Render(Template(f)[5]), Render(Template(f)[6])];
      ExcludeChunk(f, out, lines);
      out := out + "EXCLUDE_PATHS=\"" + excludePaths + "\"\n\n";
      lines := lines + [Render(Template(f)[7]), Render(Template(f)[8])];
      LogFileChunk(f, out, lines);
      out := out + "LOG_FILE=\"/var/log/alpsnap.log\"\n\n";
      lines := lines + [Render(Template(f)[9]), Render(Template(f)[10])];
      IdFormatChunk(f, out, lines);
      out := out + "# Snapshot ID format\n";
      lines := lines + [Render(Template(f)[11])];
      TimeFormatChunk(f, out, lines);
      out := out + "TIME_FMT=\"%Y%m%d-%H%M%S\"\n\n";
      lines := lines + [Render(Template(f)[12]), Render(Template(f)[13])];
      CompressionCommentChunk(f, out, lines);
      out := out + "# Compression: zstd | tar | none\n";
      lines := lines + [Render(Template(f)[14])];
      CompressChunk(f, out, lines);
      out := out + "COMPRESS_MODE=\"zstd\"\n\n";
      lines := lines + [Render(Template(f)[15]), Render(Template(f)[16])];
      EncryptionCommentChunk(f, out, lines);
      out := out + "# Encryption: gpg | none\n";
      lines := lines + [Render(Template(f)[17])];
      EncryptModeChunk(f, out, lines);
      out := out + "ENCRYPT_MODE=\"" + encryptMode + "\"\n";
      lines := lines + [Render(Template(f)[18])];
      RecipientChunk(f, out, lines);
      out := out + "GPG_RECIPIENT=\"" + gpgRecipient + "\"\n";
      lines := lines + [Render(Template(f)[19])];
      ConfigLinesByWrite(f);
      written := Some(out);
      accepted := true;
    }

    /** A click on Apply, the only way saveConfig runs: a disabled button
        sends no click, so nothing is written and the dialog stays open;
        an enabled one saves. */
    method ClickApply(canOpen: bool) returns (written: Option<string>)
      modifies this`accepted
      ensures applyEnabled && canOpen ==> written == Some(JoinLines(ConfigLines(Current()))) && accepted
      ensures !(applyEnabled && canOpen) ==> written == None && accepted == old(accepted)
    {
      if !applyEnabled {
        return None;
      }
      written := SaveConfig(canOpen);
    }
  }

  /** The four line edits. */
  datatype TextField = SnapRootField | IncludePathsField | ExcludePathsField | GpgRecipientField

  /** Right after the dialog opens, Apply is disabled, so a click on it
      writes nothing and the dialog stays open. */
  method ApplyRightAfterOpen(file: Option<string>, canOpen: bool) returns (written: Option<string>)
    ensures written == None
  {
    var d := new SettingsDialog(file);
    written := d.ClickApply(canOpen);
  }

  /** When no file could be read, typing a snapshot root enables Apply, and
      the click then writes the template with that root. */
  method SaveAfterEdit(text: string) returns (written: Option<string>)
    requires text != []
    ensures written == Some(JoinLines(ConfigLines(ConfigFields(Clip(text), "", "", "", false))))
  {
    var d := new SettingsDialog(None);
    assert Clip(text) != [] by {
      assert |text| <= MaxLength ==> |Clip(text)| == |text|;
    }
    d.SetText(SnapRootField, text);
    assert d.FieldText(IncludePathsField) == d.FieldText(ExcludePathsField) == d.FieldText(GpgRecipientField) == "";
    assert d.applyEnabled;
    ghost var f := ConfigFields(Clip(text), "", "", "", false);
    assert d.Current() == f;
    written := d.ClickApply(true);
  }
}
