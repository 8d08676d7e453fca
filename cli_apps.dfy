/** The app commands of `hostgo/apps.go`. Each command is specified by a function of
    the disk, the host environment, the working directory and the server, giving how
    it ends, what it printed, the requests it sent and the disk afterwards; the
    `AppCommands` object runs it step by step. */
module CliApps {
  import opened Wrappers
  import opened Strings
  import opened GoJson
  import opened Types
  import opened Errors
  import opened FileSystem
  import opened AuthStore
  import opened AppConfig
  import opened HttpClient
  import opened DeploymentClient
  import opened OpsApps
  import opened Cli

  /** The `int32` of the `--instances` flag. */
  type int32 = i: int | -0x8000_0000 <= i < 0x8000_0000

  // The fixed lines, as printed: `color.Red` and `fmt.Println` end each with a newline.
  const ScaleGuardLine := "invalid instance count. Instance should be at least 1\n"
  const NoImageLine := "please provide docker image tag\n"
  const NoDomainToAddLine := "domain to add is missing\n"
  const NoDomainToRemoveLine := "domain to remove is missing\n"
  const NoResourceLine := "resource name is missing\n"
  const WorkingDone := "working...done\n"
  const PackingDone := "packing app...done\n"
  const DeployingDone := "creating deployment...done\n"

  /** What `cmd.Run` reports when `go build` fails: the compiler's own messages go
      to the terminal, and the error is the exit status. */
  const BuildFailedText := "exit status 1"

  /** `fmt.Println(color.WhiteString(loading, "done"))`, as written: `loading` is
      taken as the format, it has no verb for `"done"`, and Go reports the extra
      argument after the text. */
  function LoadingDoneLine(loading: string): string {
    loading + "%!(EXTRA string=done)" + "\n"
  }

  /** The line evidently meant: the loading text completed by `done`. */
  function LoadingDoneLineIntended(loading: string): (s: string)
    ensures HasPrefix(s, loading) && s[|loading|..] == "done\n"
  {
    loading + "done\n"
  }

  /** The line as written is not the line meant: `done` follows the loading text
      only inside Go's report of an unused argument. */
  lemma LoadingDoneDiffers(loading: string)
    ensures HasPrefix(LoadingDoneLine(loading), loading)
    ensures LoadingDoneLine(loading)[|loading|..] == "%!(EXTRA string=done)\n"
    ensures LoadingDoneLine(loading) != LoadingDoneLineIntended(loading)
  {
    var w := LoadingDoneLine(loading);
    assert w[|loading|] == '%' != LoadingDoneLineIntended(loading)[|loading|];
  }

  function ScaleEndpoint(app: string, n: nat): string { "/apps/scale/" + app + "?replicas=" + NatText(n) }

  function PsEndpoint(app: string): string { "/apps/ps/" + app }

  function GitUrl(app: string): string { "https://git.hostgoapp.com/" + app + ".git" }

  /** `scale` and `ps` declare their envelope fields without tags. */
  const ScaleReplyFields: seq<Field> := [Field("Error", BoolShape), Field("Message", StringShape)]
  const ScaleReplyShape: Shape := StructShape(ScaleReplyFields)

  datatype Instance = Instance(id: string, name: string, status: string, started: string)

  const InstanceFields: seq<Field> :=
    [Field("id", StringShape), Field("name", StringShape), Field("status", StringShape), Field("started", StringShape)]
  const InstanceShape: Shape := StructShape(InstanceFields)
  const PsReplyFields: seq<Field> :=
    [Field("Error", BoolShape), Field("Message", StringShape), Field("data", SliceShape(InstanceShape))]
  const PsReplyShape: Shape := StructShape(PsReplyFields)

  function InstanceValue(i: Instance): (v: Value)
    ensures Conforms(v, InstanceShape)
  {
    StructVal([StringVal(i.id), StringVal(i.name), StringVal(i.status), StringVal(i.started)])
  }

  function InstanceValues(ins: seq<Instance>): (v: Value)
    ensures Conforms(v, SliceShape(InstanceShape)) && v.SliceVal? && |v.elems| == |ins|
    ensures forall k :: 0 <= k < |ins| ==> v.elems[k] == InstanceValue(ins[k])
  {
    SliceVal(seq(|ins|, k requires 0 <= k < |ins| => InstanceValue(ins[k])))
  }

  const PsHeader := "ID\t\tNAME\t\tSTATUS\t\tSTARTED\n"

  /** The row `ps` prints for one instance. */
  function RowLine(v: Value): string
    requires Conforms(v, InstanceShape)
  {
    var f := i => if 0 <= i < |v.fields| && v.fields[i].StringVal? then v.fields[i].s else "";
    f(0) + "\t\t" + f(1) + "\t\t" + f(2) + "\t\t" + f(3)
  }

  function PsRows(es: seq<Value>): seq<string>
    requires ElemsConform(es, InstanceShape)
    decreases |es|
  {
    if es == [] then [] else PsRows(es[..|es| - 1]) + [RowLine(es[|es| - 1]) + "\n"]
  }

  /** `ps` prints one line per instance, in the order the server sent them. */
  lemma {:induction false} PsRowsInOrder(es: seq<Value>)
    requires ElemsConform(es, InstanceShape)
    ensures |PsRows(es)| == |es|
    ensures forall k :: 0 <= k < |es| ==> PsRows(es)[k] == RowLine(es[k]) + "\n"
    decreases |es|
  {
    if es != [] {
      PsRowsInOrder(es[..|es| - 1]);
    }
  }

  lemma RowLineOf(i: Instance)
    ensures RowLine(InstanceValue(i)) == i.id + "\t\t" + i.name + "\t\t" + i.status + "\t\t" + i.started
  {
  }

  /** The instances of a filled `ps` reply; a nil slice has none. */
  function PsData(v: Value): (es: seq<Value>)
    requires Conforms(v, PsReplyShape)
    ensures ElemsConform(es, InstanceShape)
  {
    assert FieldsConform(v.fields, PsReplyFields);
    assert Conforms(v.fields[2], PsReplyFields[2].shape);
    if v.fields[2].NilSlice? then [] else v.fields[2].elems
  }

  // What a command makes of its reply.

  function ScaleReplyRun(o: Outcome): Run {
    var rep := Interpret(o, ScaleReplyShape, Zero(ScaleReplyShape));
    if rep.err.Some? then Exit([WorkingDone] + ErrorLines(rep.err.value.Text()))
    else Done([WorkingDone, ColorLine(StringField(rep.value, ScaleReplyFields, 1))])
  }

  function PsReplyRun(o: Outcome): Run {
    var rep := Interpret(o, PsReplyShape, Zero(PsReplyShape));
    if rep.err.Some? then Exit([WorkingDone] + ErrorLines(rep.err.value.Text()))
    else Done([WorkingDone, PsHeader] + PsRows(PsData(rep.value)) + ["\n"])
  }

  /** The server's lower-case `error` and `message` select the untagged `Error` and
      `Message` fields. */
  lemma UntaggedKeys()
    ensures FieldIndex(ScaleReplyFields, "error") == Some(0) && FieldIndex(ScaleReplyFields, "message") == Some(1)
    ensures FieldIndex(PsReplyFields, "error") == Some(0) && FieldIndex(PsReplyFields, "message") == Some(1)
  {
    assert EqualFold("Error", "error") && "Error"[0] != "error"[0];
    assert EqualFold("Message", "message") && "Message"[0] != "message"[0];
    FoldSelects(ScaleReplyFields, "error", 0);
    FoldSelects(ScaleReplyFields, "message", 1);
    FoldSelects(PsReplyFields, "error", 0);
    FoldSelects(PsReplyFields, "message", 1);
  }

  /** The reply the server sends with `data`, read through the untagged `Error` and
      `Message` fields: their keys match the server's `error` and `message` ignoring
      case. */
  lemma ScaleReads()
    ensures FieldsWellFormed(EnvelopeFields) && Reads(EnvelopeFields, EnvelopeFields) && Reads(EnvelopeFields, ScaleReplyFields)
  {
    ReadsSelf(EnvelopeFields);
    UntaggedKeys();
  }

  lemma ScaleReplyDecodes(status: int, failed: bool, message: string)
    ensures Interpret(Response(status, Encode(StructVal([BoolVal(failed), StringVal(message)]), EnvelopeShape)), ScaleReplyShape, Zero(ScaleReplyShape)) ==
      if status == StatusOK && !failed then Reply(None, StructVal([BoolVal(failed), StringVal(message)]))
      else Reply(Some(Server(message)), Zero(ScaleReplyShape))
  {
    var vals := [BoolVal(failed), StringVal(message)];
    ScaleReads();
    assert FieldsConform(vals, EnvelopeFields);
    ServerReplyWhole(status, failed, message, vals, EnvelopeFields, ScaleReplyFields);
  }

  /** `scale` prints the server's message, and exits when the server refused. */
  lemma ScaleReply(status: int, failed: bool, message: string)
    ensures ScaleReplyRun(Response(status, Encode(StructVal([BoolVal(failed), StringVal(message)]), EnvelopeShape))) ==
      if status != StatusOK || failed then Exit([WorkingDone] + ErrorLines(message)) else Done([WorkingDone, ColorLine(message)])
  {
    ScaleReplyDecodes(status, failed, message);
  }

  /** The `ps` reply as the server writes it: the envelope and the instances under
      `data`. */
  function PsBody(failed: bool, message: string, ins: seq<Instance>): string {
    Encode(StructVal([BoolVal(failed), StringVal(message), InstanceValues(ins)]), DataReplyShape(SliceShape(InstanceShape)))
  }

  lemma PsReplyDecodes(status: int, failed: bool, message: string, ins: seq<Instance>)
    ensures Interpret(Response(status, PsBody(failed, message, ins)), PsReplyShape, Zero(PsReplyShape)) ==
      if status == StatusOK && !failed then Reply(None, StructVal([BoolVal(failed), StringVal(message), InstanceValues(ins)]))
      else Reply(Some(Server(message)), Zero(PsReplyShape))
  {
    var sfs := DataReplyFields(SliceShape(InstanceShape));
    var vals := [BoolVal(failed), StringVal(message), InstanceValues(ins)];
    PsReads();
    PsConforms(failed, message, ins);
    ServerReplyWhole(status, failed, message, vals, sfs, PsReplyFields);
  }

  lemma PsConforms(failed: bool, message: string, ins: seq<Instance>)
    ensures FieldsConform([BoolVal(failed), StringVal(message), InstanceValues(ins)], DataReplyFields(SliceShape(InstanceShape)))
  {
  }

  /** The server's reply fields are read into the `ps` reply. */
  lemma PsReads()
    ensures var sfs := DataReplyFields(SliceShape(InstanceShape));
      FieldsWellFormed(sfs) && Reads(sfs, EnvelopeFields) && Reads(sfs, PsReplyFields)
  {
    PsFieldsWellFormed();
    PsReadsEnvelope();
    PsReadsReply();
  }

  lemma PsFieldsWellFormed()
    ensures FieldsWellFormed(DataReplyFields(SliceShape(InstanceShape)))
  {
    assert WellFormed(InstanceShape);
  }

  lemma PsReadsEnvelope()
    ensures Reads(DataReplyFields(SliceShape(InstanceShape)), EnvelopeFields)
  {
    assert FieldIndex(EnvelopeFields, "data").None?;
  }

  lemma PsReadsReply()
    ensures Reads(DataReplyFields(SliceShape(InstanceShape)), PsReplyFields)
  {
    UntaggedKeys();
    FieldIndexOwnKey(PsReplyFields, 2);
  }

  /** `ps` prints the header, then one row per instance the server listed, in order,
      and an empty line; a refusal prints the server's message. */
  lemma PsReply(status: int, failed: bool, message: string, ins: seq<Instance>)
    ensures var run := PsReplyRun(Response(status, PsBody(failed, message, ins)));
      && (status != StatusOK || failed ==> run == Exit([WorkingDone] + ErrorLines(message)))
      && (status == StatusOK && !failed ==>
            && run.Done? && |run.out| == |ins| + 3 && run.out[..2] == [WorkingDone, PsHeader]
            && (forall k :: 0 <= k < |ins| ==> run.out[k + 2] == RowLine(InstanceValue(ins[k])) + "\n")
            && run.out[|ins| + 2] == "\n")
  {
    PsReplyDecodes(status, failed, message, ins);
    if status == StatusOK && !failed {
      var v := StructVal([BoolVal(failed), StringVal(message), InstanceValues(ins)]);
      assert PsData(v) == InstanceValues(ins).elems;
      PsRowsInOrder(InstanceValues(ins).elems);
    }
  }

  // The commands.

  datatype Session = Session(config: Config, account: Account)

  /** `readAppConfig()`, then `provider.CurrentAuth()`: how most app commands start. */
  function SessionSpec(d: Disk, env: HostEnv, wd: Path): Result<Session, string> {
    match ConfigSpec(d, wd)
    case Failure(line) => Failure(line)
    case Success(c) =>
      match AccountSpec(d, env, AccessAuthLine, false)
      case Failure(line) => Failure(line)
      case Success(a) => Success(Session(c, a))
  }

  /** `scale -i n`. */
  function ScaleSpec(n: int32, d: Disk, env: HostEnv, wd: Path, respond: Request -> Answer): Ran {
    if n < 1 then Ran(Exit([ScaleGuardLine]), [], d)
    else
      match SessionSpec(d, env, wd)
      case Failure(line) => Ran(Exit([line]), [], d)
      case Success(s) =>
        var req := RequestFor(Some(s.account), ScaleEndpoint(s.config.appName, n), "GET", NilPayload);
        Ran(ScaleReplyRun(Attempt(req, respond)), SentFor(req), d)
  }

  /** `ps`. */
  function PsSpec(d: Disk, env: HostEnv, wd: Path, respond: Request -> Answer): Ran {
    match SessionSpec(d, env, wd)
    case Failure(line) => Ran(Exit([line]), [], d)
    case Success(s) =>
      var req := RequestFor(Some(s.account), PsEndpoint(s.config.appName), "GET", NilPayload);
      Ran(PsReplyRun(Attempt(req, respond)), SentFor(req), d)
  }

  /** `dockerDeploy(url)`: a failed call is printed and the command returns. */
  function DockerDeploySpec(url: string, d: Disk, env: HostEnv, wd: Path, respond: Request -> Answer): Ran {
    match SessionSpec(d, env, wd)
    case Failure(line) => Ran(Exit([line]), [], d)
    case Success(s) =>
      var req := RequestFor(Some(s.account), DockerDeployEndpoint, "POST", DockerPayload(s.config.appName, url));
      match DockerDeployResult(Attempt(req, respond))
      case Failure(e) => Ran(Done([ColorLine(e.Text())]), SentFor(req), d)
      case Success(r) => Ran(Done(["Deployment Updated:  " + r + "\n"]), SentFor(req), d)
  }

  /** `deploy <image>`. */
  function DeployCommandSpec(args: seq<string>, d: Disk, env: HostEnv, wd: Path, respond: Request -> Answer): Ran {
    if |args| < 1 then Ran(Done([NoImageLine]), [], d) else DockerDeploySpec(args[0], d, env, wd, respond)
  }

  /** `domain add <domain>` (`add`) and `domain remove <domain>`. */
  function DomainSpec(add: bool, args: seq<string>, d: Disk, env: HostEnv, wd: Path, respond: Request -> Answer): Ran {
    if |args| == 0 then Ran(Done([if add then NoDomainToAddLine else NoDomainToRemoveLine]), [], d)
    else
      match SessionSpec(d, env, wd)
      case Failure(line) => Ran(Exit([line]), [], d)
      case Success(s) =>
        var req := if add then RequestFor(Some(s.account), AddDomainEndpoint, "POST", DomainPayload(s.config.appName, args[0]))
                   else RequestFor(Some(s.account), RemoveDomainEndpoint, "DELETE", DomainPayload(s.config.appName, args[0]));
        var loading := (if add then "adding domain " else "removing domain ") + args[0] + "...";
        match DomainResult(Attempt(req, respond), if add then DomainAdded else DomainRemoved)
        case Failure(e) => Ran(Exit(ErrorLines(e.Text())), SentFor(req), d)
        case Success(r) => Ran(Done([LoadingDoneLine(loading), r + "\n"]), SentFor(req), d)
  }

  /** What `create` prints once the app exists, as written: the access URL's format
      has no newline, so the git URL is printed on the same line. */
  function CreatedLinesAsWritten(app: App): seq<string> {
    ["creating app...done\n", "\n===\n", "created app " + app.appName + "\n",
     "access url: " + app.accessUrl, "git url: " + GitUrl(app.appName) + "\n\n"]
  }

  /** What `create` evidently means to print: the name and the two URLs on lines of
      their own, between the banner and an empty line. */
  function CreatedLines(app: App): seq<string> {
    ["creating app...done\n", "\n===\n", "created app " + app.appName + "\n",
     "access url: " + app.accessUrl + "\n", "git url: " + GitUrl(app.appName) + "\n\n"]
  }

  /** `create -n name`: the new app's name is stored in `hostgo.yml` (a failure to
      store it is ignored), and a reply without an app dereferences nil. */
  function CreateSpec(name: string, d: Disk, env: HostEnv, wd: Path, respond: Request -> Answer): Ran {
    match AccountSpec(d, env, CreateAuthLine, false)
    case Failure(line) => Ran(Exit([line]), [], d)
    case Success(a) =>
      var req := RequestFor(Some(a), AppsEndpoint, "POST", NamePayload(name));
      match CreateNewAppResult(Attempt(req, respond))
      case Failure(e) => Ran(Exit(["\n\n" + e.Text() + "\n"]), SentFor(req), d)
      case Success(None) => Ran(Panic([]), SentFor(req), d)
      case Success(Some(app)) => Ran(Done(CreatedLinesAsWritten(app)), SentFor(req), WriteConfigSpec(d, wd, app.appName).disk)
  }

  /** `deployApp()`: build `<wd>/<app>`, upload it, and remove it once the upload has
      succeeded. `build` is what `go build` did: the binary it wrote, or the error
      `cmd.Run` returned. A binary the disk refuses to hold is a failed build. */
  function DeployAppSpec(build: Result<string, string>, boundary: string, d: Disk, env: HostEnv, wd: Path, respond: Request -> Answer): Ran {
    match SessionSpec(d, env, wd)
    case Failure(line) => Ran(Exit([line]), [], d)
    case Success(s) =>
      match build
      case Failure(e) => Ran(Exit([ColorLine(e)]), [], d)
      case Success(binary) =>
        var written := WriteFileSpec(d, Join(wd, s.config.appName), binary);
        if written.err.Some? then Ran(Exit([ColorLine(BuildFailedText)]), [], d)
        else UploadSpec(s, boundary, written.disk, wd, respond)
  }

  /** The part of `deploy` after the build: the binary is sent, then removed. */
  function UploadSpec(s: Session, boundary: string, d: Disk, wd: Path, respond: Request -> Answer): Ran {
    var app := s.config.appName;
    var binPath := Join(wd, app);
    match ReadFileSpec(d, binPath)
    case Failure(e) => Ran(Exit([PackingDone] + ErrorLines(Os(e).Text())), [], d)
    case Success(content) =>
      var req := UploadRequest(Some(s.account), app, binPath, content, boundary);
      var rep := InterpretDeploy(respond(req), Zero(DeploymentResultShape));
      if rep.err.Some? then Ran(Exit([PackingDone] + ErrorLines(rep.err.value.Text())), [req], d)
      else
        var version := DeploymentResultOf(rep.value).version;
        Ran(Done([PackingDone, DeployingDone, "====\n", DeployedLine(app, version), "\n"]),
            [req], RemoveSpec(d, binPath).disk)
  }

  function DeployedLine(app: string, version: string): string {
    "Deployment updated! | https://" + app + ".hostgoapp.com | " + app + ":" + version + "\n"
  }

  /** `rollback <version>`: the account is checked before the config here. */
  function RollbackSpec(args: seq<string>, d: Disk, env: HostEnv, wd: Path, respond: Request -> Answer): Ran {
    if |args| == 0 then Ran(Done([]), [], d)
    else
      match AccountSpec(d, env, CreateAuthLine, false)
      case Failure(line) => Ran(Exit([line]), [], d)
      case Success(a) =>
        match ConfigSpec(d, wd)
        case Failure(line) => Ran(Exit([line]), [], d)
        case Success(c) =>
          var req := RequestFor(Some(a), RollbackEndpoint(c.appName, args[0]), "PUT", NilPayload);
          match RollbackResult(Attempt(req, respond))
          case Failure(e) => Ran(Exit([ColorLine(e.Text()), "\n"]), SentFor(req), d)
          case Success(r) => Ran(Done([WorkingDone, ColorLine(r)]), SentFor(req), d)
  }

  /** `resource add <name>`. */
  function ResourceAddSpec(args: seq<string>, d: Disk, env: HostEnv, wd: Path, respond: Request -> Answer): Ran {
    if |args| == 0 then Ran(Done([]), [], d)
    else
      match SessionSpec(d, env, wd)
      case Failure(line) => Ran(Exit([line]), [], d)
      case Success(s) =>
        var req := RequestFor(Some(s.account), ProvisionEndpoint(s.config.appName, args[0]), "POST", NilPayload);
        match ProvisionResult(Attempt(req, respond))
        case Failure(e) => Ran(Exit(ErrorLines(e.Text())), SentFor(req), d)
        case Success(r) => Ran(Done([LoadingDoneLine("adding " + args[0] + "..."), r + "\n"]), SentFor(req), d)
  }

  /** `resource remove <name>`. */
  function ResourceRemoveSpec(args: seq<string>, d: Disk, env: HostEnv, wd: Path, respond: Request -> Answer): Ran {
    if |args| == 0 then Ran(Done([]), [], d)
    else
      match SessionSpec(d, env, wd)
      case Failure(line) => Ran(Exit([line]), [], d)
      case Success(s) =>
        var req := RequestFor(Some(s.account), DeleteResourceEndpoint(s.config.appName, args[0]), "DELETE", NilPayload);
        match DeleteResourceResult(Attempt(req, respond))
        case Failure(e) => Ran(Exit(ErrorLines(e.Text())), SentFor(req), d)
        case Success(r) => Ran(Done([LoadingDoneLine("removing " + args[0] + "..."), r + "\n"]), SentFor(req), d)
  }

  /** `resource dump <name>`. */
  function ResourceDumpSpec(args: seq<string>, d: Disk, env: HostEnv, wd: Path, respond: Request -> Answer): Ran {
    if |args| == 0 then Ran(Done([NoResourceLine]), [], d)
    else
      match SessionSpec(d, env, wd)
      case Failure(line) => Ran(Exit([line]), [], d)
      case Success(s) =>
        var req := RequestFor(Some(s.account), DumpEndpoint(s.config.appName, args[0]), "GET", NilPayload);
        var dumped := DumpSpec(Attempt(req, respond), d, s.config.appName, args[0]);
        match dumped.result
        case Failure(e) => Ran(Exit(ErrorLines(e.Text())), SentFor(req), dumped.disk)
        case Success(r) => Ran(Done([LoadingDoneLine("working..."), r + "\n"]), SentFor(req), dumped.disk)
  }

  /** `log`. */
  function LogsSpec(d: Disk, env: HostEnv, wd: Path, respond: Request -> Answer): Ran {
    match SessionSpec(d, env, wd)
    case Failure(line) => Ran(Exit([line]), [], d)
    case Success(s) =>
      var req := RequestFor(Some(s.account), LogsEndpoint(s.config.appName), "GET", NilPayload);
      match ReadLogsResult(Attempt(req, respond))
      case Failure(e) => Ran(Exit([ColorLine(e.Text()), "\n"]), SentFor(req), d)
      case Success(r) => Ran(Done(["====\n\n", r, "\n"]), SentFor(req), d)
  }

  // Properties of the commands.

  /** `scale` refuses a count below 1 before anything else. */
  lemma ScaleGuard(n: int32, d: Disk, env: HostEnv, wd: Path, respond: Request -> Answer)
    requires n < 1
    ensures ScaleSpec(n, d, env, wd, respond) == Ran(Exit([ScaleGuardLine]), [], d)
  {
  }

  /** Otherwise it asks for a GET of the scale endpoint, signed with the account's
      token; the server receives it unless `http.NewRequest` refuses its URL, in
      which case the refusal is printed after the spinner's line. */
  lemma ScaleAsks(n: int32, d: Disk, env: HostEnv, wd: Path, respond: Request -> Answer)
    requires n >= 1 && SessionSpec(d, env, wd).Success?
    ensures var s := SessionSpec(d, env, wd).value;
      var req := RequestFor(Some(s.account), ScaleEndpoint(s.config.appName, n), "GET", NilPayload);
      var r := ScaleSpec(n, d, env, wd, respond);
      && req.verb == "GET" && req.headers[TokenHeader] == s.account.token
      && req.url == ServerUrl + ScaleEndpoint(s.config.appName, n)
      && (Accepted(req) ==> r.sent == [req])
      && (!Accepted(req) ==> r.sent == [] && r.run == Exit([WorkingDone] + ErrorLines(UrlError(req.url).value.Text())))
  {
  }

  /** The endpoint asks for exactly `n` replicas: the number after `?replicas=` reads
      back as `n`. */
  lemma ScaleEndpointReadsBack(app: string, n: nat)
    ensures var prefix := "/apps/scale/" + app + "?replicas=";
      var e := ScaleEndpoint(app, n);
      && HasPrefix(e, prefix) && AllDigits(e[|prefix|..]) && DigitsValue(e[|prefix|..]) == n
  {
    var prefix := "/apps/scale/" + app + "?replicas=";
    assert ScaleEndpoint(app, n)[|prefix|..] == NatText(n);
    DigitsValueNatText(n);
  }

  /** A command that needs an argument and gets none sends nothing and changes
      nothing; `deploy`, `domain add`, `domain remove` and `resource dump` say what
      is missing. */
  lemma MissingArgument(d: Disk, env: HostEnv, wd: Path, respond: Request -> Answer)
    ensures DeployCommandSpec([], d, env, wd, respond) == Ran(Done([NoImageLine]), [], d)
    ensures DomainSpec(true, [], d, env, wd, respond) == Ran(Done([NoDomainToAddLine]), [], d)
    ensures DomainSpec(false, [], d, env, wd, respond) == Ran(Done([NoDomainToRemoveLine]), [], d)
    ensures ResourceDumpSpec([], d, env, wd, respond) == Ran(Done([NoResourceLine]), [], d)
    ensures RollbackSpec([], d, env, wd, respond) == Ran(Done([]), [], d)
    ensures ResourceAddSpec([], d, env, wd, respond) == Ran(Done([]), [], d)
    ensures ResourceRemoveSpec([], d, env, wd, respond) == Ran(Done([]), [], d)
  {
  }

  /** A command that cannot read the config or the account stops with that line
      before sending anything, and before `deploy` builds anything. */
  lemma NoSessionSendsNothing(n: int32, args: seq<string>, build: Result<string, string>, boundary: string,
                              d: Disk, env: HostEnv, wd: Path, respond: Request -> Answer)
    requires SessionSpec(d, env, wd).Failure?
    ensures var line := SessionSpec(d, env, wd).error;
      && (n >= 1 ==> ScaleSpec(n, d, env, wd, respond) == Ran(Exit([line]), [], d))
      && PsSpec(d, env, wd, respond) == Ran(Exit([line]), [], d)
      && LogsSpec(d, env, wd, respond) == Ran(Exit([line]), [], d)
      && DeployAppSpec(build, boundary, d, env, wd, respond) == Ran(Exit([line]), [], d)
      && (|args| > 0 ==> DeployCommandSpec(args, d, env, wd, respond) == Ran(Exit([line]), [], d))
      && (|args| > 0 ==> DomainSpec(true, args, d, env, wd, respond) == Ran(Exit([line]), [], d))
      && (|args| > 0 ==> ResourceDumpSpec(args, d, env, wd, respond) == Ran(Exit([line]), [], d))
      && (|args| > 0 ==> DomainSpec(false, args, d, env, wd, respond) == Ran(Exit([line]), [], d))
      && (|args| > 0 ==> ResourceAddSpec(args, d, env, wd, respond) == Ran(Exit([line]), [], d))
      && (|args| > 0 ==> ResourceRemoveSpec(args, d, env, wd, respond) == Ran(Exit([line]), [], d))
  {
  }

  /** `rollback` reads the account first, so it may print the account's line rather
      than the config's; either way it stops before sending anything. */
  lemma NoSessionRollbackSendsNothing(args: seq<string>, d: Disk, env: HostEnv, wd: Path, respond: Request -> Answer)
    requires SessionSpec(d, env, wd).Failure? && |args| > 0
    ensures var r := RollbackSpec(args, d, env, wd, respond);
      && r.run.Exit? && r.sent == [] && r.disk == d
      && (r.run.out == [CreateAuthLine] || r.run.out == [SessionSpec(d, env, wd).error])
  {
  }

  /** A rollback URL whose version holds a control character is refused. */
  lemma RollbackUrlRefused(app: string, v: string, c: char, rest: string)
    requires IsCtl(c) && '#' !in app && '#' !in v
    ensures var url := ServerUrl + RollbackEndpoint(app, v + [c] + rest);
      UrlError(url) == Some(BadUrl(Cut(url, '#').0, CtlProblem))
  {
    var before := ServerUrl + "/apps/rollback/" + app + "?version=" + v;
    assert ServerUrl + RollbackEndpoint(app, v + [c] + rest) == before + [c] + rest;
    assert '#' !in ServerUrl;
    assert '#' !in before;
    CtlRefused(before, c, rest);
  }

  /** A version holding a control character is refused by `http.NewRequest`: the
      server receives nothing, and the parser's error is printed. */
  lemma RollbackRefusesControl(v: string, c: char, rest: string, d: Disk, env: HostEnv, wd: Path, respond: Request -> Answer)
    requires IsCtl(c) && '#' !in v
    requires AccountSpec(d, env, CreateAuthLine, false).Success? && ConfigSpec(d, wd).Success?
    requires '#' !in ConfigSpec(d, wd).value.appName
    ensures var url := ServerUrl + RollbackEndpoint(ConfigSpec(d, wd).value.appName, v + [c] + rest);
      RollbackSpec([v + [c] + rest], d, env, wd, respond) ==
        Ran(Exit([ColorLine(BadUrl(Cut(url, '#').0, CtlProblem).Text()), "\n"]), [], d)
  {
    RollbackUrlRefused(ConfigSpec(d, wd).value.appName, v, c, rest);
  }

  /** The build's binary is written at `<wd>/<app>` and uploaded; it is removed only
      after the upload has succeeded, so a failed upload leaves it on disk. A build
      that fails, or whose binary cannot be written, changes nothing and sends
      nothing. */
  lemma DeployAppCleanup(build: Result<string, string>, boundary: string, d: Disk, env: HostEnv, wd: Path, respond: Request -> Answer)
    requires SessionSpec(d, env, wd).Success?
    ensures var s := SessionSpec(d, env, wd).value;
      var bin := Join(wd, s.config.appName);
      var r := DeployAppSpec(build, boundary, d, env, wd, respond);
      && (build.Failure? ==> r == Ran(Exit([ColorLine(build.error)]), [], d))
      && (build.Success? && WriteFileSpec(d, bin, build.value).err.Some? ==>
            r == Ran(Exit([ColorLine(BuildFailedText)]), [], d))
    ensures var s := SessionSpec(d, env, wd).value;
      var bin := Join(wd, s.config.appName);
      var r := DeployAppSpec(build, boundary, d, env, wd, respond);
      build.Success? && WriteFileSpec(d, bin, build.value).err.None? ==>
        var written := WriteFileSpec(d, bin, build.value).disk;
        && r.sent == [UploadRequest(Some(s.account), s.config.appName, bin, build.value, boundary)]
        && (r.run.Done? ==> r.disk == RemoveSpec(written, bin).disk && bin !in r.disk.files)
        && (!r.run.Done? ==> r.disk == written && r.disk.files[bin] == build.value)
  {
    var s := SessionSpec(d, env, wd).value;
    var bin := Join(wd, s.config.appName);
    if build.Success? && WriteFileSpec(d, bin, build.value).err.None? {
      WriteThenRead(d, bin, build.value, bin);
    }
  }

  /** The upload itself always passes `http.NewRequest`: its URL is fixed. */
  lemma UploadAlwaysSent(s: Session, boundary: string, d: Disk, wd: Path, respond: Request -> Answer)
    requires ReadFileSpec(d, Join(wd, s.config.appName)).Success?
    ensures var bin := Join(wd, s.config.appName);
      Accepted(UploadRequest(Some(s.account), s.config.appName, bin, ReadFileSpec(d, bin).value, boundary))
  {
    var bin := Join(wd, s.config.appName);
    UploadAccepted(Some(s.account), s.config.appName, bin, ReadFileSpec(d, bin).value, boundary);
  }

  /** After a successful `create` the project file names the new app, and the
      last print gives its git remote, `https://git.hostgoapp.com/<app>.git`. */
  lemma CreateStoresConfig(name: string, d: Disk, env: HostEnv, wd: Path, respond: Request -> Answer)
    requires CreateSpec(name, d, env, wd, respond).run.Done?
    ensures var a := AccountSpec(d, env, CreateAuthLine, false).value;
      var app := CreateNewAppResult(Attempt(RequestFor(Some(a), AppsEndpoint, "POST", NamePayload(name)), respond)).value.value;
      var r := CreateSpec(name, d, env, wd, respond);
      && r.run.out[4] == "git url: " + GitUrl(app.appName) + "\n\n"
      && (WriteConfigSpec(d, wd, app.appName).err.None? ==> ReadConfigSpec(r.disk, wd) == Success(Config(app.appName)))
  {
    var a := AccountSpec(d, env, CreateAuthLine, false).value;
    var app := CreateNewAppResult(Attempt(RequestFor(Some(a), AppsEndpoint, "POST", NamePayload(name)), respond)).value.value;
    if WriteConfigSpec(d, wd, app.appName).err.None? {
      WriteThenReadConfig(d, wd, app.appName);
    }
  }

  /** The prints of `create` as written, regrouped into the lines they make. */
  lemma AsWrittenRegrouped(n: string, u: string, g: string)
    ensures Concat(["creating app...done\n", "\n===\n", "created app " + n + "\n", "access url: " + u, "git url: " + g + "\n\n"])
         == Concat(["creating app...done\n", "\n", "===\n", "created app " + n + "\n", "access url: " + u + "git url: " + g + "\n", "\n"])
  {
    var out := ["creating app...done\n", "\n===\n", "created app " + n + "\n", "access url: " + u, "git url: " + g + "\n\n"];
    var ended := ["creating app...done\n", "\n", "===\n", "created app " + n + "\n", "access url: " + u + "git url: " + g + "\n", "\n"];
    // The two texts agree from each print on, the last first.
    assert Concat(out[4..]) == out[4];
    assert Concat(ended[5..]) == "\n";
    assert Concat(out[3..]) == Concat(ended[4..]);
    assert Concat(out[2..]) == Concat(ended[3..]);
    assert Concat(out[1..]) == Concat(ended[1..]);
  }

  /** The corrected prints of `create`, regrouped into the lines they make. */
  lemma CorrectedRegrouped(n: string, u: string, g: string)
    ensures Concat(["creating app...done\n", "\n===\n", "created app " + n + "\n", "access url: " + u + "\n", "git url: " + g + "\n\n"])
         == Concat(["creating app...done\n", "\n", "===\n", "created app " + n + "\n", "access url: " + u + "\n", "git url: " + g + "\n", "\n"])
  {
    var out := ["creating app...done\n", "\n===\n", "created app " + n + "\n", "access url: " + u + "\n", "git url: " + g + "\n\n"];
    var ended := ["creating app...done\n", "\n", "===\n", "created app " + n + "\n", "access url: " + u + "\n", "git url: " + g + "\n", "\n"];
    assert Concat(out[4..]) == out[4];
    assert Concat(ended[6..]) == "\n";
    assert Concat(out[4..]) == Concat(ended[5..]);
    assert Concat(out[3..]) == Concat(ended[4..]);
    assert Concat(out[2..]) == Concat(ended[3..]);
    assert Concat(out[1..]) == Concat(ended[1..]);
  }

  /** As written, `create` prints the access URL with no newline after it, so the
      git URL is printed on the same line. */
  lemma CreatedLinesRunTogether(app: App)
    requires '\n' !in app.appName && '\n' !in app.accessUrl
    ensures Split(Concat(CreatedLinesAsWritten(app)), '\n') ==
      ["creating app...done", "", "===", "created app " + app.appName,
       "access url: " + app.accessUrl + "git url: " + GitUrl(app.appName), "", ""]
  {
    var n, u, g := app.appName, app.accessUrl, GitUrl(app.appName);
    var lines := ["creating app...done", "", "===", "created app " + n, "access url: " + u + "git url: " + g, ""];
    var ended := ["creating app...done\n", "\n", "===\n", "created app " + n + "\n", "access url: " + u + "git url: " + g + "\n", "\n"];
    assert '\n' !in g;
    SplitLines(lines, ended, '\n');
    AsWrittenRegrouped(n, u, g);
  }

  /** The corrected `create` output keeps the name and each URL on a line of its own. */
  lemma CreatedLinesSeparate(app: App)
    requires '\n' !in app.appName && '\n' !in app.accessUrl
    ensures Split(Concat(CreatedLines(app)), '\n') ==
      ["creating app...done", "", "===", "created app " + app.appName, "access url: " + app.accessUrl,
       "git url: " + GitUrl(app.appName), "", ""]
  {
    var n, u, g := app.appName, app.accessUrl, GitUrl(app.appName);
    var lines := ["creating app...done", "", "===", "created app " + n, "access url: " + u, "git url: " + g, ""];
    var ended := ["creating app...done\n", "\n", "===\n", "created app " + n + "\n", "access url: " + u + "\n", "git url: " + g + "\n", "\n"];
    assert '\n' !in g;
    SplitLines(lines, ended, '\n');
    CorrectedRegrouped(n, u, g);
  }

  /** The commands, run against the machine's file system and the server. */
  class AppCommands {
    const wd: Path
    const provider: AuthProvider
    const net: Network

    constructor (wd: Path, provider: AuthProvider, net: Network)
      ensures this.wd == wd && this.provider == provider && this.net == net
    {
      this.wd := wd;
      this.provider := provider;
      this.net := net;
    }

    method OpenSession() returns (r: Result<Session, string>)
      ensures r == SessionSpec(provider.fs.State(), provider.env, wd)
    {
      var c := LoadConfig(provider.fs, wd);
      if c.Failure? {
        return Failure(c.error);
      }
      var a := LoadAccount(provider, AccessAuthLine, false);
      if a.Failure? {
        return Failure(a.error);
      }
      r := Success(Session(c.value, a.value));
    }

    method Scale(n: int32) returns (run: Run)
      modifies net
      ensures var spec := ScaleSpec(n, provider.fs.State(), provider.env, wd, net.respond);
        run == spec.run && net.sent == old(net.sent) + spec.sent
    {
      if n < 1 {
        return Exit([ScaleGuardLine]);
      }
      var s := OpenSession();
      if s.Failure? {
        return Exit([s.error]);
      }
      var client := new Client(Some(s.value.account), net);
      var response := new Target(ScaleReplyShape);
      var err := client.Do(ScaleEndpoint(s.value.config.appName, n), "GET", NilPayload, response);
      if err.Some? {
        return Exit([WorkingDone] + ErrorLines(err.value.Text()));
      }
      run := Done([WorkingDone, ColorLine(StringField(response.value, ScaleReplyFields, 1))]);
    }

    /** The loop that prints the rows of `ps`. */
    method InstanceRows(es: seq<Value>) returns (out: seq<string>)
      requires ElemsConform(es, InstanceShape)
      ensures out == PsRows(es)
    {
      out := [];
      var k := 0;
      while k < |es|
        invariant k <= |es|
        invariant out == PsRows(es[..k])
      {
        assert es[..k + 1][..k] == es[..k];
        out := out + [RowLine(es[k]) + "\n"];
        k := k + 1;
      }
      assert es[..k] == es;
    }

    method Ps() returns (run: Run)
      modifies net
      ensures var spec := PsSpec(provider.fs.State(), provider.env, wd, net.respond);
        run == spec.run && net.sent == old(net.sent) + spec.sent
    {
      var s := OpenSession();
      if s.Failure? {
        return Exit([s.error]);
      }
      var client := new Client(Some(s.value.account), net);
      var response := new Target(PsReplyShape);
      var err := client.Do(PsEndpoint(s.value.config.appName), "GET", NilPayload, response);
      if err.Some? {
        return Exit([WorkingDone] + ErrorLines(err.value.Text()));
      }
      var rows := InstanceRows(PsData(response.value));
      run := Done([WorkingDone, PsHeader] + rows + ["\n"]);
    }

    method DockerDeploy(url: string) returns (run: Run)
      modifies net
      ensures var spec := DockerDeploySpec(url, provider.fs.State(), provider.env, wd, net.respond);
        run == spec.run && net.sent == old(net.sent) + spec.sent
    {
      var s := OpenSession();
      if s.Failure? {
        return Exit([s.error]);
      }
      var client := new Client(Some(s.value.account), net);
      var op := new AppsOp(client, provider.fs);
      var r := op.DockerDeploy(s.value.config.appName, url);
      if r.Failure? {
        return Done([ColorLine(r.error.Text())]);
      }
      run := Done(["Deployment Updated:  " + r.value + "\n"]);
    }

    method Deploy(args: seq<string>) returns (run: Run)
      modifies net
      ensures var spec := DeployCommandSpec(args, provider.fs.State(), provider.env, wd, net.respond);
        run == spec.run && net.sent == old(net.sent) + spec.sent
    {
      if |args| < 1 {
        return Done([NoImageLine]);
      }
      run := DockerDeploy(args[0]);
    }

    method Domain(add: bool, args: seq<string>) returns (run: Run)
      modifies net
      ensures var spec := DomainSpec(add, args, provider.fs.State(), provider.env, wd, net.respond);
        run == spec.run && net.sent == old(net.sent) + spec.sent
    {
      if |args| == 0 {
        return Done([if add then NoDomainToAddLine else NoDomainToRemoveLine]);
      }
      var s := OpenSession();
      if s.Failure? {
        return Exit([s.error]);
      }
      var client := new Client(Some(s.value.account), net);
      var op := new AppsOp(client, provider.fs);
      var r, loading;
      if add {
        r := op.AddDomain(s.value.config.appName, args[0]);
        loading := "adding domain " + args[0] + "...";
      } else {
        r := op.RemoveDomain(s.value.config.appName, args[0]);
        loading := "removing domain " + args[0] + "...";
      }
      if r.Failure? {
        return Exit(ErrorLines(r.error.Text()));
      }
      run := Done([LoadingDoneLine(loading), r.value + "\n"]);
    }

    method Create(name: string) returns (run: Run)
      modifies net, provider.fs
      ensures var spec := CreateSpec(name, old(provider.fs.State()), provider.env, wd, net.respond);
        run == spec.run && net.sent == old(net.sent) + spec.sent && provider.fs.State() == spec.disk
    {
      var a := LoadAccount(provider, CreateAuthLine, false);
      if a.Failure? {
        return Exit([a.error]);
      }
      var client := new Client(Some(a.value), net);
      var op := new AppsOp(client, provider.fs);
      var app := op.CreateNewApp(name);
      if app.Failure? {
        return Exit(["\n\n" + app.error.Text() + "\n"]);
      }
      if app.value.None? {
        return Panic([]);
      }
      var _ := CreateAppConfigFile(provider.fs, wd, app.value.value.appName);
      run := Done(CreatedLinesAsWritten(app.value.value));
    }

    method DeployApp(build: Result<string, string>, boundary: string) returns (run: Run)
      modifies net, provider.fs
      ensures var spec := DeployAppSpec(build, boundary, old(provider.fs.State()), provider.env, wd, net.respond);
        run == spec.run && net.sent == old(net.sent) + spec.sent && provider.fs.State() == spec.disk
    {
      var s := OpenSession();
      if s.Failure? {
        return Exit([s.error]);
      }
      if build.Failure? {
        return Exit([ColorLine(build.error)]);
      }
      var err := provider.fs.WriteFile(Join(wd, s.value.config.appName), build.value);
      if err.Some? {
        return Exit([ColorLine(BuildFailedText)]);
      }
      run := Upload(s.value, boundary);
    }

    method Upload(s: Session, boundary: string) returns (run: Run)
      modifies net, provider.fs
      ensures var spec := UploadSpec(s, boundary, old(provider.fs.State()), wd, net.respond);
        run == spec.run && net.sent == old(net.sent) + spec.sent && provider.fs.State() == spec.disk
    {
      var app := s.config.appName;
      var binPath := Join(wd, app);
      var client := new DeploymentClient(app, Some(s.account), net, provider.fs);
      var result := new Target(DeploymentResultShape);
      var err := client.DeployApp(binPath, boundary, result);
      if err.Some? {
        return Exit([PackingDone] + ErrorLines(err.value.Text()));
      }
      var version := DeploymentResultOf(result.value).version;
      run := Done([PackingDone, DeployingDone, "====\n", DeployedLine(app, version), "\n"]);
      var _ := provider.fs.Remove(binPath);
    }

    method Rollback(args: seq<string>) returns (run: Run)
      modifies net
      ensures var spec := RollbackSpec(args, provider.fs.State(), provider.env, wd, net.respond);
        run == spec.run && net.sent == old(net.sent) + spec.sent
    {
      if |args| == 0 {
        return Done([]);
      }
      var a := LoadAccount(provider, CreateAuthLine, false);
      if a.Failure? {
        return Exit([a.error]);
      }
      var c := LoadConfig(provider.fs, wd);
      if c.Failure? {
        return Exit([c.error]);
      }
      var client := new Client(Some(a.value), net);
      var op := new AppsOp(client, provider.fs);
      var r := op.RollbackDeployment(c.value.appName, args[0]);
      if r.Failure? {
        return Exit([ColorLine(r.error.Text()), "\n"]);
      }
      run := Done([WorkingDone, ColorLine(r.value)]);
    }

    method ResourceAdd(args: seq<string>) returns (run: Run)
      modifies net
      ensures var spec := ResourceAddSpec(args, provider.fs.State(), provider.env, wd, net.respond);
        run == spec.run && net.sent == old(net.sent) + spec.sent
    {
      if |args| == 0 {
        return Done([]);
      }
      var s := OpenSession();
      if s.Failure? {
        return Exit([s.error]);
      }
      var client := new Client(Some(s.value.account), net);
      var op := new AppsOp(client, provider.fs);
      var r := op.ProvisionResource(s.value.config.appName, args[0]);
      if r.Failure? {
        return Exit(ErrorLines(r.error.Text()));
      }
      run := Done([LoadingDoneLine("adding " + args[0] + "..."), r.value + "\n"]);
    }

    method ResourceRemove(args: seq<string>) returns (run: Run)
      modifies net
      ensures var spec := ResourceRemoveSpec(args, provider.fs.State(), provider.env, wd, net.respond);
        run == spec.run && net.sent == old(net.sent) + spec.sent
    {
      if |args| == 0 {
        return Done([]);
      }
      var s := OpenSession();
      if s.Failure? {
        return Exit([s.error]);
      }
      var client := new Client(Some(s.value.account), net);
      var op := new AppsOp(client, provider.fs);
      var r := op.DeleteResource(s.value.config.appName, args[0]);
      if r.Failure? {
        return Exit(ErrorLines(r.error.Text()));
      }
      run := Done([LoadingDoneLine("removing " + args[0] + "..."), r.value + "\n"]);
    }

    method ResourceDump(args: seq<string>) returns (run: Run)
      modifies net, provider.fs
      ensures var spec := ResourceDumpSpec(args, old(provider.fs.State()), provider.env, wd, net.respond);
        run == spec.run && net.sent == old(net.sent) + spec.sent && provider.fs.State() == spec.disk
    {
      if |args| == 0 {
        return Done([NoResourceLine]);
      }
      var s := OpenSession();
      if s.Failure? {
        return Exit([s.error]);
      }
      var client := new Client(Some(s.value.account), net);
      var op := new AppsOp(client, provider.fs);
      var r := op.DumpDatabase(s.value.config.appName, args[0]);
      if r.Failure? {
        return Exit(ErrorLines(r.error.Text()));
      }
      run := Done([LoadingDoneLine("working..."), r.value + "\n"]);
    }

    method Logs() returns (run: Run)
      modifies net
      ensures var spec := LogsSpec(provider.fs.State(), provider.env, wd, net.respond);
        run == spec.run && net.sent == old(net.sent) + spec.sent
    {
      var s := OpenSession();
      if s.Failure? {
        return Exit([s.error]);
      }
      var client := new Client(Some(s.value.account), net);
      var op := new AppsOp(client, provider.fs);
      var r := op.ReadLogs(s.value.config.appName);
      if r.Failure? {
        return Exit([ColorLine(r.error.Text()), "\n"]);
      }
      run := Done(["====\n\n", r.value, "\n"]);
    }
  }
}
