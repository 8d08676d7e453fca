/** What the commands of `hostgo/apps.go` and `hostgo/envs.go` share: how a command
    ends, and the two checks most of them start with, reading `hostgo.yml` and loading
    the signed-in account. Output is kept as the texts the command prints, one per
    print call, exactly as printed but without colours, so that the standard output
    is their `Concat`; spinners and timing are not kept. */
module Cli {
  import opened Wrappers
  import opened Strings
  import opened Types
  import opened Errors
  import opened FileSystem
  import opened AuthStore
  import opened AppConfig
  import opened HttpClient

  /** A command that returns normally, one that calls `os.Exit(1)`, and one that
      dereferences a nil pointer. */
  datatype Run =
    | Done(out: seq<string>)
    | Exit(out: seq<string>)
    | Panic(out: seq<string>)

  /** A command's end, the requests it sent, and the disk afterwards. */
  datatype Ran = Ran(run: Run, sent: seq<Request>, disk: Disk)

  /** What `color.Red(t)` or `color.Green(t)` prints for a text given alone: `t`,
      ended with a newline unless it already ends with one. Without arguments
      `color` prints with `Print`, so `t` is not read as a format. */
  function ColorLine(t: string): (s: string)
    ensures |s| > 0 && s[|s| - 1] == '\n'
    ensures s == t || s == t + "\n"
    ensures s == t <==> t != "" && t[|t| - 1] == '\n'
  {
    if t != "" && t[|t| - 1] == '\n' then t else t + "\n"
  }

  /** Printing a line that `color` has already ended changes nothing more. */
  lemma ColorLineIdempotent(t: string)
    ensures ColorLine(ColorLine(t)) == ColorLine(t)
  {
  }

  /** What a failed call prints in most commands: `fmt.Println()`, `color.Red` of the
      error's text, `fmt.Println()`. */
  function ErrorLines(t: string): seq<string> { ["\n", ColorLine(t), "\n"] }

  /** The sign-in refusals, as `color.Red` prints them. */
  const AccessAuthLine := "\n\nYou have to be authenticated before you can access an app. Run `hostgo login` to authenticate your account\n"
  const CreateAuthLine := "\n\nYou have to be authenticated before you can create an app. Run `hostgo login` to authenticate your account\n"
  const ConfigErrorPrefix := "failed to read app config: "

  /** `color.Red("failed to read app config: ", err.Error())` as written. `color`
      appends a newline to a format that lacks one and, given arguments, hands the
      format to `Printf`; the format has no verb, so `fmt` appends the argument as
      `%!(EXTRA string=...)` after that newline. */
  function ConfigErrorLineAsWritten(e: Error): string {
    ConfigErrorPrefix + "\n%!(EXTRA string=" + e.Text() + ")"
  }

  /** The line evidently meant, `color.Red("failed to read app config: %s", ...)`:
      the prefix, the error's text, and the newline `color` adds. */
  function ConfigErrorLine(e: Error): (s: string)
    ensures HasPrefix(s, ConfigErrorPrefix) && s[|ConfigErrorPrefix|..] == e.Text() + "\n"
  {
    ConfigErrorPrefix + e.Text() + "\n"
  }

  /** For every error the line as written differs from the intended one: it is 17
      characters longer, and after the prefix it holds a line break and
      `%!(EXTRA string=` where the error's own text should start (for a missing file,
      "failed to read app config: " and then, on a line of its own,
      "%!(EXTRA string=open /app/hostgo.yml: no such file or directory)"). */
  lemma ConfigErrorLineAsWrittenDiffers(e: Error)
    ensures |ConfigErrorLineAsWritten(e)| == |ConfigErrorLine(e)| + 17
    ensures ConfigErrorLineAsWritten(e) != ConfigErrorLine(e)
    ensures HasPrefix(ConfigErrorLineAsWritten(e), ConfigErrorPrefix)
    ensures ConfigErrorLineAsWritten(e)[|ConfigErrorPrefix|..|ConfigErrorPrefix| + 17] == "\n%!(EXTRA string="
    ensures ConfigErrorLineAsWritten(e)[|ConfigErrorPrefix| + 17..] == e.Text() + ")"
  {
    var w := ConfigErrorLineAsWritten(e);
    assert w[..|ConfigErrorPrefix|] == ConfigErrorPrefix;
    assert w[|ConfigErrorPrefix|..|ConfigErrorPrefix| + 17] == "\n%!(EXTRA string=";
    assert w[|ConfigErrorPrefix| + 17..] == e.Text() + ")";
  }

  /** `readAppConfig()`, with its failure turned into the line the command prints,
      as the source prints it. */
  function ConfigSpec(d: Disk, wd: Path): Result<Config, string> {
    match ReadConfigSpec(d, wd)
    case Failure(e) => Failure(ConfigErrorLineAsWritten(e))
    case Success(c) => Success(c)
  }

  /** `provider.CurrentAuth()` as a command checks it: any error, and for the env
      commands also an empty token, is refused with `line`. */
  function AccountSpec(d: Disk, env: HostEnv, line: string, needToken: bool): Result<Account, string> {
    match LoadAuth(d, env)
    case Failure(_) => Failure(line)
    case Success(a) => if needToken && a.token == "" then Failure(line) else Success(a)
  }

  /** An account is accepted exactly when the credentials load and, where a token is
      needed, carry one; a refusal prints the given line. */
  lemma AccountSpecAccepts(d: Disk, env: HostEnv, line: string, needToken: bool)
    ensures AccountSpec(d, env, line, needToken).Success? <==>
      LoadAuth(d, env).Success? && (needToken ==> LoadAuth(d, env).value.token != "")
    ensures AccountSpec(d, env, line, needToken).Success? ==> AccountSpec(d, env, line, needToken).value == LoadAuth(d, env).value
    ensures AccountSpec(d, env, line, needToken).Failure? ==> AccountSpec(d, env, line, needToken).error == line
  {
  }

  method LoadConfig(fs: FileSystem, wd: Path) returns (r: Result<Config, string>)
    ensures r == ConfigSpec(fs.State(), wd)
  {
    var c := ReadAppConfig(fs, wd);
    if c.Failure? {
      return Failure(ConfigErrorLineAsWritten(c.error));
    }
    r := Success(c.value);
  }

  method LoadAccount(provider: AuthProvider, line: string, needToken: bool) returns (r: Result<Account, string>)
    ensures r == AccountSpec(provider.fs.State(), provider.env, line, needToken)
  {
    var a := provider.CurrentAuth();
    if a.Failure? || (needToken && a.value.token == "") {
      return Failure(line);
    }
    r := Success(a.value);
  }
}
