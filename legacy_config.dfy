/**
 * The module-level ConfigParser of emailworker/__init__.py, as far as the
 * legacy entry points use it: reading the configuration files one after
 * another, looking options up in the `emailworker` section (the [DEFAULT]
 * options standing in for missing ones), `getboolean` and storing an
 * option. A configuration file is given to the model already parsed, as an
 * `IniFile`; reading a file that cannot be opened yields nothing.
 */
module LegacyConfig {
  import opened Types

  /** The one section the legacy entry points read. */
  const AppSection := "emailworker"

  /** The files `setup()` reads, in order. */
  const ConfigFiles := ["default.cfg", "instance/config.cfg"]

  /** The options a file or a parser holds for section `s`, none when it
      has no such section. */
  function SectionOf(ini: IniFile, s: string): map<string, string>
  {
    if s in ini.sections then ini.sections[s] else map[]
  }

  /** Reading one more file into the parser: sections already there are
      extended, an option the file sets replaces the one already there, and
      a file that could not be opened (`None`) is skipped. */
  function ReadInto(ini: IniFile, file: Option<IniFile>): IniFile
  {
    match file
    case None => ini
    case Some(f) =>
      IniFile(ini.defaults + f.defaults,
              map s | s in ini.sections.Keys + f.sections.Keys :: SectionOf(ini, s) + SectionOf(f, s))
  }

  /** How reading a file changes one option of one section: it is there
      afterwards exactly when it was there before or the file sets it, and
      the file's value wins. */
  lemma ReadIntoOption(ini: IniFile, f: IniFile, s: string, k: string)
    ensures var r := ReadInto(ini, Some(f));
      && (s in r.sections <==> s in ini.sections || s in f.sections)
      && (k in SectionOf(r, s) <==> k in SectionOf(ini, s) || k in SectionOf(f, s))
      && (k in SectionOf(f, s) ==> SectionOf(r, s)[k] == SectionOf(f, s)[k])
      && (k !in SectionOf(f, s) && k in SectionOf(ini, s) ==> SectionOf(r, s)[k] == SectionOf(ini, s)[k])
  {
    var r := ReadInto(ini, Some(f));
    if s in ini.sections.Keys + f.sections.Keys {
      assert SectionOf(r, s) == SectionOf(ini, s) + SectionOf(f, s);
    } else {
      assert SectionOf(r, s) == map[];
    }
  }

  /** `config.read(files)`: each file in turn, those that cannot be opened skipped. */
  function ReadFiles(read: string -> Option<IniFile>, ini: IniFile, files: seq<string>): IniFile
  {
    if files == [] then ini
    else ReadInto(ReadFiles(read, ini, files[..|files| - 1]), read(files[|files| - 1]))
  }

  /** After `setup()` an option of a section is the one `instance/config.cfg`
      sets, else the one `default.cfg` sets, else the one already there. */
  lemma SetupPrecedence(read: string -> Option<IniFile>, ini: IniFile, s: string, k: string)
    ensures var r := ReadFiles(read, ini, ConfigFiles);
      var first := if read(ConfigFiles[0]).Some? then SectionOf(read(ConfigFiles[0]).value, s) else map[];
      var second := if read(ConfigFiles[1]).Some? then SectionOf(read(ConfigFiles[1]).value, s) else map[];
      && (k in SectionOf(r, s) <==> k in second || k in first || k in SectionOf(ini, s))
      && (k in SectionOf(r, s) ==>
            SectionOf(r, s)[k] == if k in second then second[k] else if k in first then first[k] else SectionOf(ini, s)[k])
  {
    var head := [ConfigFiles[0]];
    assert ConfigFiles[..|ConfigFiles| - 1] == head;
    assert head[..|head| - 1] == [];
    var once := ReadFiles(read, ini, head);
    assert once == ReadInto(ReadFiles(read, ini, []), read(ConfigFiles[0]));
    if read(ConfigFiles[0]).Some? {
      ReadIntoOption(ini, read(ConfigFiles[0]).value, s, k);
    }
    if read(ConfigFiles[1]).Some? {
      ReadIntoOption(once, read(ConfigFiles[1]).value, s, k);
    }
  }

  /** Files that cannot be opened leave the parser as it was. */
  lemma MissingFilesSkipped(read: string -> Option<IniFile>, ini: IniFile, files: seq<string>)
    requires forall i :: 0 <= i < |files| ==> read(files[i]).None?
    ensures ReadFiles(read, ini, files) == ini
    decreases |files|
  {
    if files != [] {
      var init := files[..|files| - 1];
      assert forall i :: 0 <= i < |init| ==> init[i] == files[i];
      MissingFilesSkipped(read, ini, init);
    }
  }

  /** `config['emailworker'][opt]`: the section's own option, else the
      [DEFAULT] one; KeyError for a missing section or option. */
  function Setting(ini: IniFile, opt: string): (r: Result<string, Exc>)
    ensures r.Ok? <==> AppSection in ini.sections && (opt in ini.sections[AppSection] || opt in ini.defaults)
    ensures r.Err? ==> r.error == Error(KeyError(if AppSection in ini.sections then opt else AppSection))
    ensures r.Ok? && opt in ini.sections[AppSection] ==> r.value == ini.sections[AppSection][opt]
    ensures r.Ok? && opt !in ini.sections[AppSection] ==> r.value == ini.defaults[opt]
  {
    if AppSection !in ini.sections then Err(Error(KeyError(AppSection)))
    else
      var options := ini.defaults + ini.sections[AppSection];
      if opt in options then Ok(options[opt]) else Err(Error(KeyError(opt)))
  }

  /** `config['emailworker'][opt] = value` */
  function SetOption(ini: IniFile, opt: string, value: string): (r: IniFile)
    requires AppSection in ini.sections
    ensures r.sections.Keys == ini.sections.Keys && r.defaults == ini.defaults
    ensures Setting(r, opt) == Ok(value)
    ensures forall o :: o != opt ==> Setting(r, o) == Setting(ini, o)
    ensures forall s :: s in ini.sections && s != AppSection ==> r.sections[s] == ini.sections[s]
  {
    IniFile(ini.defaults, ini.sections[AppSection := ini.sections[AppSection][opt := value]])
  }

  predicate IsUpperChar(c: char)
  {
    'A' <= c <= 'Z'
  }

  function LowerChar(c: char): char
  {
    if IsUpperChar(c) then (c as int + 32) as char else c
  }

  /** `str.lower()` on ASCII text. */
  function AsciiLower(s: string): (r: string)
    ensures |r| == |s|
    ensures forall i :: 0 <= i < |s| ==> r[i] == LowerChar(s[i])
  {
    seq(|s|, i requires 0 <= i < |s| => LowerChar(s[i]))
  }

  /** Text without upper-case letters is its own lower case. */
  lemma LowerUnchanged(s: string)
    requires forall i :: 0 <= i < |s| ==> !IsUpperChar(s[i])
    ensures AsciiLower(s) == s
  {
  }

  /** The spellings `getboolean` reads as true and as false (BOOLEAN_STATES). */
  const TrueStates: set<string> := {"1", "yes", "true", "on"}
  const FalseStates: set<string> := {"0", "no", "false", "off"}

  /** Converting an option value to a boolean: the lower-cased text must be
      one of the known spellings, else ValueError. */
  function ParseBoolean(v: string): (r: Result<bool, Exc>)
    ensures r.Ok? <==> AsciiLower(v) in TrueStates + FalseStates
    ensures r.Ok? ==> (r.value <==> AsciiLower(v) in TrueStates)
    ensures r.Err? ==> r.error == Error(ValueError("Not a boolean: " + v))
  {
    var l := AsciiLower(v);
    if l in TrueStates then Ok(true)
    else if l in FalseStates then Ok(false)
    else Err(Error(ValueError("Not a boolean: " + v)))
  }

  /** `config['emailworker'].getboolean('dryrun')`: KeyError without the
      section, None (the fallback) without the option, else the option read
      as a boolean. */
  function Dryrun(ini: IniFile): (r: Result<Option<bool>, Exc>)
    ensures AppSection !in ini.sections ==> r == Err(Error(KeyError(AppSection)))
    ensures AppSection in ini.sections ==>
      match Setting(ini, "dryrun")
      case Err(_) => r == Ok(None)
      case Ok(v) => (r.Ok? <==> ParseBoolean(v).Ok?) && (r.Ok? ==> r.value == Some(ParseBoolean(v).value))
  {
    if AppSection !in ini.sections then Err(Error(KeyError(AppSection)))
    else
      match Setting(ini, "dryrun")
      case Err(_) => Ok(None)
      case Ok(v) =>
        match ParseBoolean(v)
        case Ok(b) => Ok(Some(b))
        case Err(e) => Err(e)
  }

  /** The text `main` stores for the `--dryrun` flag. */
  function FlagText(flag: bool): string
  {
    if flag then "yes" else "no"
  }

  /** `getboolean` reads back the flag `main` stored as 'yes' or 'no'. */
  lemma DryrunRoundTrip(ini: IniFile, flag: bool)
    requires AppSection in ini.sections
    ensures Dryrun(SetOption(ini, "dryrun", FlagText(flag))) == Ok(Some(flag))
  {
    var r := SetOption(ini, "dryrun", FlagText(flag));
    assert Setting(r, "dryrun") == Ok(FlagText(flag));
    if flag {
      LowerUnchanged("yes");
      assert "yes" in TrueStates;
    } else {
      LowerUnchanged("no");
      assert "no" in FalseStates;
      assert "no" !in TrueStates;
    }
  }

  /** Upper-case spellings are accepted too. */
  lemma ParseBooleanIgnoresCase()
    ensures ParseBoolean("YES") == Ok(true) && ParseBoolean("Off") == Ok(false)
    ensures ParseBoolean("maybe").Err?
  {
    assert AsciiLower("YES") == "yes";
    assert AsciiLower("Off") == "off";
    assert "off" !in TrueStates;
    LowerUnchanged("maybe");
    assert "maybe" !in TrueStates + FalseStates;
  }
}
