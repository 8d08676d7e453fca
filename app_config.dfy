/** The project file `hostgo.yml` of `hostgo/apps.go`: it holds the app's name under
    the single key `app_name`. The YAML codec is a stand-in: the name is written as a
    double-quoted scalar, and the reader accepts that form, a plain scalar, or an empty
    file. */
module AppConfig {
  import opened Wrappers
  import opened Strings
  import opened Types
  import opened Errors
  import opened FileSystem

  const ConfigFileName := "hostgo.yml"
  const ConfigKey := "app_name: "

  function ConfigPath(wd: Path): Path { Join(wd, ConfigFileName) }

  // The scalar codec.

  function EscapeChar(c: char): string {
    if c == '\\' then "\\\\"
    else if c == '"' then "\\\""
    else if c == '\n' then "\\n"
    else [c]
  }

  function Escape(s: string): string {
    if s == [] then [] else EscapeChar(s[0]) + Escape(s[1..])
  }

  /** The character an escape `\c` stands for. */
  function Escaped(c: char): Option<char> {
    if c == '\\' then Some('\\')
    else if c == '"' then Some('"')
    else if c == 'n' then Some('\n')
    else None
  }

  /** The inside of a double-quoted scalar; a bare quote, a raw line break or an
      unknown escape makes it invalid. */
  function Unescape(s: string): Option<string>
    decreases |s|
  {
    if s == [] then Some([])
    else if s[0] == '"' || s[0] == '\n' then None
    else if s[0] == '\\' then
      if |s| < 2 || Escaped(s[1]).None? then None
      else
        match Unescape(s[2..])
        case None => None
        case Some(rest) => Some([Escaped(s[1]).value] + rest)
    else
      match Unescape(s[1..])
      case None => None
      case Some(rest) => Some([s[0]] + rest)
  }

  /** A scalar written without quotes. */
  predicate Plain(s: string) {
    s != [] && forall i :: 0 <= i < |s| ==> s[i] !in {'"', '\n', '#', ':', ' ', '\\'}
  }

  function Quote(s: string): string { "\"" + Escape(s) + "\"" }

  function ParseScalar(s: string): Option<string> {
    if |s| >= 2 && s[0] == '"' && s[|s| - 1] == '"' then Unescape(s[1..|s| - 1])
    else if Plain(s) then Some(s)
    else None
  }

  /** `yaml.Marshal(&types.Config{AppName: name})`. */
  function ConfigText(c: Config): string {
    ConfigKey + Quote(c.appName) + "\n"
  }

  /** `yaml.Unmarshal(data, &types.Config{})`. */
  function ParseConfig(text: string): Option<Config> {
    if text == "" then Some(Config(""))
    else if |text| > |ConfigKey| && text[..|ConfigKey|] == ConfigKey && text[|text| - 1] == '\n' then
      match ParseScalar(text[|ConfigKey|..|text| - 1])
      case None => None
      case Some(name) => Some(Config(name))
    else None
  }

  // The codec inverts.

  lemma UnescapeStep(c: char, rest: string)
    ensures Unescape(EscapeChar(c) + rest) ==
      match Unescape(rest)
      case None => None
      case Some(r) => Some([c] + r)
  {
    var s := EscapeChar(c) + rest;
    if c == '\\' || c == '"' || c == '\n' {
      assert s[2..] == rest;
    } else {
      assert s[1..] == rest;
    }
  }

  lemma {:induction false} UnescapeEscape(s: string)
    ensures Unescape(Escape(s)) == Some(s)
  {
    if s != [] {
      UnescapeEscape(s[1..]);
      UnescapeStep(s[0], Escape(s[1..]));
      assert [s[0]] + s[1..] == s;
    }
  }

  /** Reading a written config gives the same app name back. */
  lemma ParseConfigText(c: Config)
    ensures ParseConfig(ConfigText(c)) == Some(c)
  {
    var text := ConfigText(c);
    assert text[..|ConfigKey|] == ConfigKey;
    assert text[|ConfigKey|..|text| - 1] == Quote(c.appName);
    var q := Quote(c.appName);
    assert q[1..|q| - 1] == Escape(c.appName);
    UnescapeEscape(c.appName);
  }

  /** An empty file is a config with an empty app name, and a file that does not
      start with the key is refused. */
  lemma ParseConfigEdges(text: string)
    ensures ParseConfig("") == Some(Config(""))
    ensures text != "" && !HasPrefix(text, ConfigKey) ==> ParseConfig(text).None?
  {
  }

  // Reading and writing the file.

  /** `readAppConfig()` in the working directory `wd`. */
  function ReadConfigSpec(d: Disk, wd: Path): Result<Config, Error> {
    match ReadFileSpec(d, ConfigPath(wd))
    case Failure(e) => Failure(Os(e))
    case Success(data) =>
      match ParseConfig(data)
      case None => Failure(BadConfig)
      case Some(c) => Success(c)
  }

  /** `createAppConfigFile(name)` in the working directory `wd`. */
  function WriteConfigSpec(d: Disk, wd: Path, name: string): Step {
    WriteFileSpec(d, ConfigPath(wd), ConfigText(Config(name)))
  }

  /** Writing the config and reading it again gives the same app name. */
  lemma WriteThenReadConfig(d: Disk, wd: Path, name: string)
    requires WriteConfigSpec(d, wd, name).err.None?
    ensures ReadConfigSpec(WriteConfigSpec(d, wd, name).disk, wd) == Success(Config(name))
  {
    WriteThenRead(d, ConfigPath(wd), ConfigText(Config(name)), ConfigPath(wd));
    ParseConfigText(Config(name));
  }

  method ReadAppConfig(fs: FileSystem, wd: Path) returns (r: Result<Config, Error>)
    ensures r == ReadConfigSpec(fs.State(), wd)
  {
    var data := fs.ReadFile(ConfigPath(wd));
    if data.Failure? {
      return Failure(Os(data.error));
    }
    var c := ParseConfig(data.value);
    if c.None? {
      return Failure(BadConfig);
    }
    r := Success(c.value);
  }

  method CreateAppConfigFile(fs: FileSystem, wd: Path, name: string) returns (err: Option<OsError>)
    modifies fs
    ensures Step(fs.State(), err) == WriteConfigSpec(old(fs.State()), wd, name)
  {
    err := fs.WriteFile(ConfigPath(wd), ConfigText(Config(name)));
  }
}
