/** The environment-variable commands of `hostgo/envs.go`: `env` lists the app's
    variables, `env set KEY=VALUE ...` sets them and `env unset KEY ...` removes them.
    They all need an account with a token, checked before the config. */
module CliEnvs {
  import opened Wrappers
  import opened Strings
  import opened GoJson
  import opened Types
  import opened Errors
  import opened FileSystem
  import opened AuthStore
  import opened HttpClient
  import opened OpsApps
  import opened Cli
  import opened CliApps

  function ConfigsEndpoint(app: string): string { "/apps/configs/" + app }

  function UnsetEndpoint(app: string): string { "/apps/configs/unset/" + app }

  /** `color.Green` of a text that already ends in a newline adds none. */
  const UnsetDoneLine := "\noperation successful\n"

  function BadEnvLine(arg: string): string {
    "invalid env format: " + arg + ", expected format is KEY=VALUE. run 'hostgo set env KEY1=VALUE1 KEY2=VALUE2 ...'\n"
  }

  // Reading `KEY=VALUE` arguments.

  /** An argument is accepted when it holds exactly one `=`, which is when
      `strings.Split(arg, "=")` gives two pieces (`GoodEnvArgIff`). */
  predicate GoodEnvArg(arg: string) {
    Count(arg, '=') == 1
  }

  function EnvOf(arg: string): Env
    requires GoodEnvArg(arg)
  {
    var parts := Split(arg, '=');
    Env(parts[0], parts[1])
  }

  /** The variables `env set` sends, or the line for the first argument refused. */
  function ParseEnvs(args: seq<string>): Result<seq<Env>, string>
    decreases |args|
  {
    if args == [] then Success([])
    else if !GoodEnvArg(args[0]) then Failure(BadEnvLine(args[0]))
    else
      match ParseEnvs(args[1..])
      case Failure(line) => Failure(line)
      case Success(rest) => Success([EnvOf(args[0])] + rest)
  }

  /** An argument is accepted exactly when it holds one `=`; it then reads as the
      text before it and the text after it. */
  lemma GoodEnvArgIff(arg: string)
    ensures GoodEnvArg(arg) <==> |Split(arg, '=')| == 2
    ensures GoodEnvArg(arg) ==>
      var e := EnvOf(arg);
      && e.key + "=" + e.value == arg
      && '=' !in e.key && '=' !in e.value
  {
    if GoodEnvArg(arg) {
      var parts := Split(arg, '=');
      assert parts[1..] == [parts[1]];
      assert JoinWith(parts, '=') == parts[0] + ['='] + parts[1];
    }
  }

  /** Any key and value without `=` are read back from `key=value`. */
  lemma EnvArgRoundTrip(key: string, value: string)
    requires '=' !in key && '=' !in value
    ensures GoodEnvArg(key + "=" + value) && EnvOf(key + "=" + value) == Env(key, value)
  {
    SplitAfterSeparator(key, value, '=');
    SplitNoSeparator(value, '=');
    assert key + "=" + value == key + ['='] + value;
  }

  /** What `strings.Split` makes of the edge cases: `A` and `A=B=C` are refused, while
      an empty key or an empty value is accepted. */
  lemma EnvArgEdges()
    ensures !GoodEnvArg("A") && !GoodEnvArg("A=B=C")
    ensures GoodEnvArg("=V") && EnvOf("=V") == Env("", "V")
    ensures GoodEnvArg("K=") && EnvOf("K=") == Env("K", "")
    ensures GoodEnvArg("=") && EnvOf("=") == Env("", "")
  {
    EnvArgsRefused();
    EnvArgRoundTrip("", "V");
    EnvArgRoundTrip("K", "");
    EnvArgRoundTrip("", "");
  }

  lemma EnvArgsRefused()
    ensures !GoodEnvArg("A") && !GoodEnvArg("A=B=C")
  {
    GoodEnvArgIff("A");
    GoodEnvArgIff("A=B=C");
    assert "A=B=C"[1..] == "=B=C" && "=B=C"[1..] == "B=C" && "B=C"[1..] == "=C" && "=C"[1..] == "C";
  }

  /** All arguments are accepted exactly when each is; then there is one variable per
      argument, in order; otherwise the line names the first argument refused. */
  lemma ParseEnvsCorrect(args: seq<string>)
    ensures ParseEnvs(args).Success? <==> forall i :: 0 <= i < |args| ==> GoodEnvArg(args[i])
    ensures ParseEnvs(args).Success? ==>
      && |ParseEnvs(args).value| == |args|
      && forall i :: 0 <= i < |args| ==> ParseEnvs(args).value[i] == EnvOf(args[i])
    ensures ParseEnvs(args).Failure? ==>
      exists j :: 0 <= j < |args| && !GoodEnvArg(args[j]) && ParseEnvs(args).error == BadEnvLine(args[j])
        && forall i :: 0 <= i < j ==> GoodEnvArg(args[i])
  {
    ParseEnvsAccepts(args);
    if ParseEnvs(args).Success? {
      ParseEnvsValues(args);
    }
    ParseEnvsRefuses(args);
  }

  lemma {:induction false} ParseEnvsAccepts(args: seq<string>)
    ensures ParseEnvs(args).Success? <==> forall i :: 0 <= i < |args| ==> GoodEnvArg(args[i])
    decreases |args|
  {
    if args != [] {
      ParseEnvsAccepts(args[1..]);
      assert forall i :: 0 < i < |args| ==> args[i] == args[1..][i - 1];
    }
  }

  lemma {:induction false} ParseEnvsValues(args: seq<string>)
    requires ParseEnvs(args).Success?
    ensures |ParseEnvs(args).value| == |args|
    ensures forall i :: 0 <= i < |args| ==> GoodEnvArg(args[i]) && ParseEnvs(args).value[i] == EnvOf(args[i])
    decreases |args|
  {
    if args != [] {
      ParseEnvsValues(args[1..]);
      assert forall i :: 0 < i < |args| ==> args[i] == args[1..][i - 1];
    }
  }

  lemma {:induction false} ParseEnvsRefuses(args: seq<string>)
    ensures ParseEnvs(args).Failure? ==>
      exists j :: 0 <= j < |args| && !GoodEnvArg(args[j]) && ParseEnvs(args).error == BadEnvLine(args[j])
        && forall i :: 0 <= i < j ==> GoodEnvArg(args[i])
    decreases |args|
  {
    if args != [] && ParseEnvs(args).Failure? {
      if !GoodEnvArg(args[0]) {
        assert !GoodEnvArg(args[0]) && ParseEnvs(args).error == BadEnvLine(args[0]);
      } else {
        ParseEnvsRefuses(args[1..]);
        var j :| 0 <= j < |args[1..]| && !GoodEnvArg(args[1..][j]) && ParseEnvs(args[1..]).error == BadEnvLine(args[1..][j])
          && forall i :: 0 <= i < j ==> GoodEnvArg(args[1..][i]);
        assert forall i :: 0 < i < |args| ==> args[i] == args[1..][i - 1];
        assert !GoodEnvArg(args[j + 1]) && forall i :: 0 <= i < j + 1 ==> GoodEnvArg(args[i]);
      }
    }
  }

  /** `ParseEnvs` on what is left, after the variables already read. */
  function Prepend(params: seq<Env>, r: Result<seq<Env>, string>): Result<seq<Env>, string> {
    match r
    case Failure(line) => Failure(line)
    case Success(rest) => Success(params + rest)
  }

  lemma PrependTwice(a: seq<Env>, b: seq<Env>, r: Result<seq<Env>, string>)
    ensures Prepend(a, Prepend(b, r)) == Prepend(a + b, r)
    ensures Prepend([], r) == r
  {
    if r.Success? {
      assert a + (b + r.value) == (a + b) + r.value;
      assert [] + r.value == r.value;
    }
  }

  lemma ParseStep(args: seq<string>, k: nat)
    requires k < |args|
    ensures !GoodEnvArg(args[k]) ==> ParseEnvs(args[k..]) == Failure(BadEnvLine(args[k]))
    ensures GoodEnvArg(args[k]) ==> ParseEnvs(args[k..]) == Prepend([EnvOf(args[k])], ParseEnvs(args[k + 1..]))
  {
    assert args[k..][0] == args[k] && args[k..][1..] == args[k + 1..];
  }

  /** The loop of `env set` over its arguments. */
  method ReadEnvArgs(args: seq<string>) returns (r: Result<seq<Env>, string>)
    ensures r == ParseEnvs(args)
  {
    var params: seq<Env> := [];
    var k := 0;
    assert args[k..] == args;
    PrependTwice([], [], ParseEnvs(args));
    while k < |args|
      invariant k <= |args|
      invariant ParseEnvs(args) == Prepend(params, ParseEnvs(args[k..]))
    {
      var arg := args[k];
      ParseStep(args, k);
      var envs := Split(arg, '=');
      if |envs| != 2 {
        return Failure(BadEnvLine(arg));
      }
      var e := Env(envs[0], envs[1]);
      PrependTwice(params, [e], ParseEnvs(args[k + 1..]));
      params := params + [e];
      k := k + 1;
    }
    assert args[k..] == [] && params + [] == params;
    r := Success(params);
  }

  // The payloads and replies.

  /** The `[]types.Env` that `env set` sends. */
  function EnvsPayload(params: seq<Env>): (p: Payload)
    ensures Typed(p)
  {
    JsonPayload(EnvsValue(params), SliceShape(EnvShape))
  }

  /** The `[]string` of keys that `env unset` sends. */
  function KeysPayload(keys: seq<string>): (p: Payload)
    ensures Typed(p) && p.JsonPayload? && p.v.SliceVal? && |p.v.elems| == |keys|
    ensures forall i :: 0 <= i < |keys| ==> p.v.elems[i] == StringVal(keys[i])
  {
    JsonPayload(SliceVal(seq(|keys|, i requires 0 <= i < |keys| => StringVal(keys[i]))), SliceShape(StringShape))
  }

  datatype EnvEntry = EnvEntry(envKey: string, envValue: string)

  const EntryFields: seq<Field> := [Field("env_key", StringShape), Field("env_value", StringShape)]
  const EntryShape: Shape := StructShape(EntryFields)

  /** `env`'s reply: `Data` carries no tag, so its key is the Go name. */
  const ListReplyFields: seq<Field> :=
    [Field("error", BoolShape), Field("message", StringShape), Field("Data", SliceShape(EntryShape))]
  const ListReplyShape: Shape := StructShape(ListReplyFields)

  function EntryValue(e: EnvEntry): (v: Value)
    ensures Conforms(v, EntryShape)
  {
    StructVal([StringVal(e.envKey), StringVal(e.envValue)])
  }

  function EntryValues(es: seq<EnvEntry>): (v: Value)
    ensures Conforms(v, SliceShape(EntryShape)) && v.SliceVal? && |v.elems| == |es|
    ensures forall k :: 0 <= k < |es| ==> v.elems[k] == EntryValue(es[k])
  {
    SliceVal(seq(|es|, k requires 0 <= k < |es| => EntryValue(es[k])))
  }

  function ListData(v: Value): (es: seq<Value>)
    requires Conforms(v, ListReplyShape)
    ensures ElemsConform(es, EntryShape)
  {
    assert FieldsConform(v.fields, ListReplyFields);
    assert Conforms(v.fields[2], ListReplyFields[2].shape);
    if v.fields[2].NilSlice? then [] else v.fields[2].elems
  }

  /** What `env` prints for one variable, but for the newline ending it. */
  function EntryLine(v: Value): string
    requires Conforms(v, EntryShape)
  {
    StringField(v, EntryFields, 0) + "=" + StringField(v, EntryFields, 1)
  }

  function EntryLines(es: seq<Value>): seq<string>
    requires ElemsConform(es, EntryShape)
    decreases |es|
  {
    if es == [] then [] else EntryLines(es[..|es| - 1]) + [EntryLine(es[|es| - 1]) + "\n"]
  }

  lemma {:induction false} EntryLinesInOrder(es: seq<Value>)
    requires ElemsConform(es, EntryShape)
    ensures |EntryLines(es)| == |es|
    ensures forall k :: 0 <= k < |es| ==> EntryLines(es)[k] == EntryLine(es[k]) + "\n"
    decreases |es|
  {
    if es != [] {
      EntryLinesInOrder(es[..|es| - 1]);
    }
  }

  lemma EntryLineOf(e: EnvEntry)
    ensures EntryLine(EntryValue(e)) == e.envKey + "=" + e.envValue
  {
  }

  function TotalLine(n: nat): string { "Total envs: " + NatText(n) + "\n" }

  function ListReplyRun(o: Outcome): Run {
    var rep := Interpret(o, ListReplyShape, Zero(ListReplyShape));
    if rep.err.Some? then Exit(ErrorLines(rep.err.value.Text()))
    else
      var es := ListData(rep.value);
      Done([TotalLine(|es|)] + EntryLines(es))
  }

  function SetReplyRun(o: Outcome): Run {
    var rep := Interpret(o, EnvelopeShape, Zero(EnvelopeShape));
    if rep.err.Some? then Exit(ErrorLines(rep.err.value.Text())) else Done([StringField(rep.value, EnvelopeFields, 1) + "\n\n"])
  }

  function UnsetReplyRun(o: Outcome): Run {
    var rep := Interpret(o, EnvelopeShape, Zero(EnvelopeShape));
    if rep.err.Some? then Exit(ErrorLines(rep.err.value.Text())) else Done([UnsetDoneLine])
  }

  /** The `env` reply as the server writes it. */
  function ListBody(failed: bool, message: string, es: seq<EnvEntry>): string {
    Encode(StructVal([BoolVal(failed), StringVal(message), EntryValues(es)]), DataReplyShape(SliceShape(EntryShape)))
  }

  /** The server's lower-case `data` selects the untagged `Data` field. */
  lemma ListReads()
    ensures var sfs := DataReplyFields(SliceShape(EntryShape));
      FieldsWellFormed(sfs) && Reads(sfs, EnvelopeFields) && Reads(sfs, ListReplyFields)
  {
    ListFieldsWellFormed();
    ListReadsEnvelope();
    ListReadsReply();
  }

  lemma ListFieldsWellFormed()
    ensures FieldsWellFormed(DataReplyFields(SliceShape(EntryShape)))
  {
    assert WellFormed(EntryShape);
  }

  lemma ListReadsEnvelope()
    ensures Reads(DataReplyFields(SliceShape(EntryShape)), EnvelopeFields)
  {
    assert FieldIndex(EnvelopeFields, "data").None?;
  }

  lemma ListReadsReply()
    ensures Reads(DataReplyFields(SliceShape(EntryShape)), ListReplyFields)
  {
    assert EqualFold("Data", "data") && "Data"[0] != "data"[0];
    FoldSelects(ListReplyFields, "data", 2);
    FieldIndexOwnKey(ListReplyFields, 0);
    FieldIndexOwnKey(ListReplyFields, 1);
  }

  lemma ListReplyDecodes(status: int, failed: bool, message: string, es: seq<EnvEntry>)
    ensures Interpret(Response(status, ListBody(failed, message, es)), ListReplyShape, Zero(ListReplyShape)) ==
      if status == StatusOK && !failed then Reply(None, StructVal([BoolVal(failed), StringVal(message), EntryValues(es)]))
      else Reply(Some(Server(message)), Zero(ListReplyShape))
  {
    var sfs := DataReplyFields(SliceShape(EntryShape));
    var vals := [BoolVal(failed), StringVal(message), EntryValues(es)];
    ListReads();
    ListConforms(failed, message, es);
    ServerReplyWhole(status, failed, message, vals, sfs, ListReplyFields);
  }

  lemma ListConforms(failed: bool, message: string, es: seq<EnvEntry>)
    ensures FieldsConform([BoolVal(failed), StringVal(message), EntryValues(es)], DataReplyFields(SliceShape(EntryShape)))
  {
  }

  /** `env` prints the number of variables the server listed, then one `KEY=VALUE`
      line for each, in order; a refusal prints the server's message. */
  lemma ListReply(status: int, failed: bool, message: string, es: seq<EnvEntry>)
    ensures var run := ListReplyRun(Response(status, ListBody(failed, message, es)));
      && (status != StatusOK || failed ==> run == Exit(ErrorLines(message)))
      && (status == StatusOK && !failed ==>
            && run.Done? && |run.out| == |es| + 1 && run.out[0] == TotalLine(|es|)
            && forall k :: 0 <= k < |es| ==> run.out[k + 1] == es[k].envKey + "=" + es[k].envValue + "\n")
  {
    ListReplyDecodes(status, failed, message, es);
    if status == StatusOK && !failed {
      var v := StructVal([BoolVal(failed), StringVal(message), EntryValues(es)]);
      assert ListData(v) == EntryValues(es).elems;
      EntryLinesInOrder(EntryValues(es).elems);
    }
  }

  // The commands.

  /** `provider.CurrentAuth()` with a token required, then `readAppConfig()`. */
  function EnvSessionSpec(d: Disk, env: HostEnv, wd: Path): Result<Session, string> {
    match AccountSpec(d, env, AccessAuthLine, true)
    case Failure(line) => Failure(line)
    case Success(a) =>
      match ConfigSpec(d, wd)
      case Failure(line) => Failure(line)
      case Success(c) => Success(Session(c, a))
  }

  /** `env`. */
  function ListSpec(d: Disk, env: HostEnv, wd: Path, respond: Request -> Answer): Ran {
    match EnvSessionSpec(d, env, wd)
    case Failure(line) => Ran(Exit([line]), [], d)
    case Success(s) =>
      var req := RequestFor(Some(s.account), ConfigsEndpoint(s.config.appName), "GET", NilPayload);
      Ran(ListReplyRun(Attempt(req, respond)), SentFor(req), d)
  }

  /** `env set`: with no arguments nothing is sent, and a bad argument stops the
      command before anything is. */
  function SetSpec(args: seq<string>, d: Disk, env: HostEnv, wd: Path, respond: Request -> Answer): Ran {
    match EnvSessionSpec(d, env, wd)
    case Failure(line) => Ran(Exit([line]), [], d)
    case Success(s) => SetArgsSpec(s, args, d, respond)
  }

  /** `env set` once the session is open: the arguments are read, then sent. */
  function SetArgsSpec(s: Session, args: seq<string>, d: Disk, respond: Request -> Answer): Ran {
    if |args| == 0 then Ran(Done([]), [], d)
    else
      match ParseEnvs(args)
      case Failure(line) => Ran(Exit([line]), [], d)
      case Success(params) => SetRequestSpec(s, params, d, respond)
  }

  /** `env set` once its arguments are read. */
  function SetRequestSpec(s: Session, params: seq<Env>, d: Disk, respond: Request -> Answer): Ran {
    var req := RequestFor(Some(s.account), ConfigsEndpoint(s.config.appName), "POST", EnvsPayload(params));
    Ran(SetReplyRun(Attempt(req, respond)), SentFor(req), d)
  }

  /** `env unset`: with no arguments it does nothing at all. */
  function UnsetSpec(args: seq<string>, d: Disk, env: HostEnv, wd: Path, respond: Request -> Answer): Ran {
    if |args| == 0 then Ran(Done([]), [], d)
    else
      match EnvSessionSpec(d, env, wd)
      case Failure(line) => Ran(Exit([line]), [], d)
      case Success(s) => UnsetRequestSpec(s, args, d, respond)
  }

  /** `env unset` once the account and the config are read. */
  function UnsetRequestSpec(s: Session, keys: seq<string>, d: Disk, respond: Request -> Answer): Ran {
    var req := RequestFor(Some(s.account), UnsetEndpoint(s.config.appName), "DELETE", KeysPayload(keys));
    Ran(UnsetReplyRun(Attempt(req, respond)), SentFor(req), d)
  }

  // Properties of the commands.

  /** An account without a token is refused like a missing one, before the config is
      read, and nothing is sent. */
  lemma TokenRequired(args: seq<string>, d: Disk, env: HostEnv, wd: Path, respond: Request -> Answer)
    requires LoadAuth(d, env).Success? && LoadAuth(d, env).value.token == ""
    ensures ListSpec(d, env, wd, respond) == Ran(Exit([AccessAuthLine]), [], d)
    ensures SetSpec(args, d, env, wd, respond) == Ran(Exit([AccessAuthLine]), [], d)
    ensures |args| > 0 ==> UnsetSpec(args, d, env, wd, respond) == Ran(Exit([AccessAuthLine]), [], d)
  {
  }

  /** A command that cannot load a token-bearing account or read the config stops
      with that line before sending anything. */
  lemma NoEnvSessionSendsNothing(args: seq<string>, d: Disk, env: HostEnv, wd: Path, respond: Request -> Answer)
    requires EnvSessionSpec(d, env, wd).Failure?
    ensures var line := EnvSessionSpec(d, env, wd).error;
      && ListSpec(d, env, wd, respond) == Ran(Exit([line]), [], d)
      && SetSpec(args, d, env, wd, respond) == Ran(Exit([line]), [], d)
      && (|args| > 0 ==> UnsetSpec(args, d, env, wd, respond) == Ran(Exit([line]), [], d))
  {
  }

  /** With no arguments `env set` and `env unset` send nothing and print nothing;
      `env set` still reads the account and the config first. */
  lemma NoArgsSendNothing(d: Disk, env: HostEnv, wd: Path, respond: Request -> Answer)
    ensures EnvSessionSpec(d, env, wd).Success? ==> SetSpec([], d, env, wd, respond) == Ran(Done([]), [], d)
    ensures UnsetSpec([], d, env, wd, respond) == Ran(Done([]), [], d)
  {
  }

  /** `env set` sends nothing when any argument is refused... */
  lemma SetStopsOnBadArg(args: seq<string>, d: Disk, env: HostEnv, wd: Path, respond: Request -> Answer)
    requires EnvSessionSpec(d, env, wd).Success? && |args| > 0
    requires exists i :: 0 <= i < |args| && !GoodEnvArg(args[i])
    ensures SetSpec(args, d, env, wd, respond).sent == [] && SetSpec(args, d, env, wd, respond).run.Exit?
  {
    ParseEnvsAccepts(args);
  }

  /** ...and otherwise it makes one request carrying every argument as a variable, in
      order, whose body reads back as those variables; the server receives it unless
      `http.NewRequest` refuses the URL. */
  lemma SetSendsAll(args: seq<string>, d: Disk, env: HostEnv, wd: Path, respond: Request -> Answer)
    requires EnvSessionSpec(d, env, wd).Success? && |args| > 0
    requires forall i :: 0 <= i < |args| ==> GoodEnvArg(args[i])
    ensures ParseEnvs(args).Success?
    ensures var s := EnvSessionSpec(d, env, wd).value;
      var req := RequestFor(Some(s.account), ConfigsEndpoint(s.config.appName), "POST", EnvsPayload(ParseEnvs(args).value));
      && SetSpec(args, d, env, wd, respond).sent == SentFor(req)
      && req.verb == "POST" && req.url == ServerUrl + ConfigsEndpoint(s.config.appName)
      && req.body.Bytes?
      && Decode(SliceShape(EnvShape), req.body.text, NilSlice) == Success(EnvsValue(ParseEnvs(args).value))
      && |ParseEnvs(args).value| == |args|
      && forall i :: 0 <= i < |args| ==> ParseEnvs(args).value[i] == EnvOf(args[i])
  {
    ParseEnvsAccepts(args);
    ParseEnvsValues(args);
    EnvsPayloadDecodes(ParseEnvs(args).value);
  }

  lemma EnvsPayloadDecodes(params: seq<Env>)
    ensures Decode(SliceShape(EnvShape), PayloadText(EnvsPayload(params)), NilSlice) == Success(EnvsValue(params))
  {
    ShapesWellFormed();
    PayloadTextDecodes(EnvsPayload(params), NilSlice);
  }

  /** `env unset` sends the keys as given, in order, unless `http.NewRequest`
      refuses the URL. */
  lemma UnsetSendsKeys(args: seq<string>, d: Disk, env: HostEnv, wd: Path, respond: Request -> Answer)
    requires EnvSessionSpec(d, env, wd).Success? && |args| > 0
    ensures var s := EnvSessionSpec(d, env, wd).value;
      var req := RequestFor(Some(s.account), UnsetEndpoint(s.config.appName), "DELETE", KeysPayload(args));
      && UnsetSpec(args, d, env, wd, respond).sent == SentFor(req)
      && req.verb == "DELETE" && req.url == ServerUrl + UnsetEndpoint(s.config.appName)
      && req.body.Bytes?
      && Decode(SliceShape(StringShape), req.body.text, NilSlice) == Success(KeysPayload(args).v)
  {
    assert WellFormed(SliceShape(StringShape));
    PayloadTextDecodes(KeysPayload(args), NilSlice);
  }

  /** The commands, run against the machine's file system and the server. */
  class EnvCommands {
    const wd: Path
    const provider: AuthProvider
    const net: Network

    constructor (wd: Path, provider: AuthProvider, net: Network)
      ensures this.wd == wd && this.provider == provider && this.net == net
    {
      this.wd := wd;
      this.provider := provider;
      this.net := net;
    }

    method OpenSession() returns (r: Result<Session, string>)
      ensures r == EnvSessionSpec(provider.fs.State(), provider.env, wd)
    {
      var a := LoadAccount(provider, AccessAuthLine, true);
      if a.Failure? {
        return Failure(a.error);
      }
      var c := LoadConfig(provider.fs, wd);
      if c.Failure? {
        return Failure(c.error);
      }
      r := Success(Session(c.value, a.value));
    }

    /** The loop that prints the variables. */
    method PrintEntries(es: seq<Value>) returns (out: seq<string>)
      requires ElemsConform(es, EntryShape)
      ensures out == EntryLines(es)
    {
      out := [];
      var k := 0;
      while k < |es|
        invariant k <= |es|
        invariant out == EntryLines(es[..k])
      {
        assert es[..k + 1][..k] == es[..k];
        out := out + [EntryLine(es[k]) + "\n"];
        k := k + 1;
      }
      assert es[..k] == es;
    }

    method List() returns (run: Run)
      modifies net
      ensures var spec := ListSpec(provider.fs.State(), provider.env, wd, net.respond);
        run == spec.run && net.sent == old(net.sent) + spec.sent
    {
      var s := OpenSession();
      if s.Failure? {
        return Exit([s.error]);
      }
      var client := new Client(Some(s.value.account), net);
      var response := new Target(ListReplyShape);
      var err := client.Do(ConfigsEndpoint(s.value.config.appName), "GET", NilPayload, response);
      if err.Some? {
        return Exit(ErrorLines(err.value.Text()));
      }
      var es := ListData(response.value);
      var lines := PrintEntries(es);
      run := Done([TotalLine(|es|)] + lines);
    }

    method Set(args: seq<string>) returns (run: Run)
      modifies net
      ensures var spec := SetSpec(args, provider.fs.State(), provider.env, wd, net.respond);
        run == spec.run && net.sent == old(net.sent) + spec.sent
    {
      var s := OpenSession();
      if s.Failure? {
        return Exit([s.error]);
      }
      run := SetArgs(s.value, args);
    }

    method SetArgs(s: Session, args: seq<string>) returns (run: Run)
      modifies net
      ensures var spec := SetArgsSpec(s, args, provider.fs.State(), net.respond);
        run == spec.run && net.sent == old(net.sent) + spec.sent
    {
      if |args| == 0 {
        return Done([]);
      }
      var params := ReadEnvArgs(args);
      if params.Failure? {
        return Exit([params.error]);
      }
      run := PostEnvs(s, params.value);
    }

    method PostEnvs(s: Session, params: seq<Env>) returns (run: Run)
      modifies net
      ensures var spec := SetRequestSpec(s, params, provider.fs.State(), net.respond);
        run == spec.run && net.sent == old(net.sent) + spec.sent
    {
      var client := new Client(Some(s.account), net);
      var response := new Target(EnvelopeShape);
      var err := client.Do(ConfigsEndpoint(s.config.appName), "POST", EnvsPayload(params), response);
      if err.Some? {
        return Exit(ErrorLines(err.value.Text()));
      }
      run := Done([StringField(response.value, EnvelopeFields, 1) + "\n\n"]);
    }

    method Unset(args: seq<string>) returns (run: Run)
      modifies net
      ensures var spec := UnsetSpec(args, provider.fs.State(), provider.env, wd, net.respond);
        run == spec.run && net.sent == old(net.sent) + spec.sent
    {
      if |args| == 0 {
        return Done([]);
      }
      var s := OpenSession();
      if s.Failure? {
        return Exit([s.error]);
      }
      run := DeleteKeys(s.value, args);
    }

    method DeleteKeys(s: Session, keys: seq<string>) returns (run: Run)
      modifies net
      ensures var spec := UnsetRequestSpec(s, keys, provider.fs.State(), net.respond);
        run == spec.run && net.sent == old(net.sent) + spec.sent
    {
      var client := new Client(Some(s.account), net);
      var response := new Target(EnvelopeShape);
      var err := client.Do(UnsetEndpoint(s.config.appName), "DELETE", KeysPayload(keys), response);
      if err.Some? {
        return Exit(ErrorLines(err.value.Text()));
      }
      run := Done([UnsetDoneLine]);
    }
  }
}
