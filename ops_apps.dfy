/** The app operations of `pkg/ops/apps.go`. Each one sends a single request through
    the client and turns the filled reply into the caller's result; a client error is
    passed on unchanged. */
module OpsApps {
  import opened Wrappers
  import opened GoJson
  import opened Types
  import opened Errors
  import opened FileSystem
  import opened HttpClient

  /** A reply that carries the envelope and `data` of the given type. */
  function DataReplyFields(data: Shape): seq<Field> {
    [Field("error", BoolShape), Field("message", StringShape), Field("data", data)]
  }

  function DataReplyShape(data: Shape): Shape {
    StructShape(DataReplyFields(data))
  }

  const LogsShape: Shape := StructShape([Field("logs", StringShape)])
  const ReleaseShape: Shape := StructShape([Field("address", StringShape), Field("version", StringShape)])
  const ResourceShape: Shape := StructShape([Field("id", StringShape)])

  /** The message of a filled reply. */
  function ReplyMessage(v: Value, data: Shape): string
    requires Conforms(v, DataReplyShape(data))
  {
    assert FieldsConform(v.fields, DataReplyFields(data));
    assert Conforms(v.fields[1], StringShape);
    v.fields[1].s
  }

  /** The `data` of a filled reply. */
  function ReplyData(v: Value, data: Shape): (r: Value)
    requires Conforms(v, DataReplyShape(data))
    ensures Conforms(r, data)
  {
    assert FieldsConform(v.fields, DataReplyFields(data));
    assert Conforms(v.fields[2], DataReplyFields(data)[2].shape);
    v.fields[2]
  }

  /** String field `i` of a struct. */
  function StringField(v: Value, fs: seq<Field>, i: nat): string
    requires Conforms(v, StructShape(fs)) && i < |fs| && fs[i].shape == StringShape
  {
    assert FieldsConform(v.fields, fs);
    assert Conforms(v.fields[i], fs[i].shape);
    v.fields[i].s
  }

  /** The call once the server has answered: the client's error, or the filled reply. */
  function Call(o: Outcome, shape: Shape): (r: Result<Value, Error>)
    ensures r.Success? ==> Conforms(r.value, shape)
  {
    var rep := Interpret(o, shape, Zero(shape));
    if rep.err.Some? then Failure(rep.err.value) else Success(rep.value)
  }

  // Endpoints and payloads.

  const AppsEndpoint := "/me/apps"
  const DockerDeployEndpoint := "/apps/docker/deploy"
  const AddDomainEndpoint := "/apps/domain/new"
  const RemoveDomainEndpoint := "/apps/domain/remove"

  function LogsEndpoint(app: string): string { "/apps/logs/" + app }

  function RollbackEndpoint(app: string, version: string): string { "/apps/rollback/" + app + "?version=" + version }

  function ProvisionEndpoint(app: string, res: string): string { "/apps/resource/new/" + app + "?name=" + res }

  function DeleteResourceEndpoint(app: string, res: string): string { "/apps/resource/remove/" + app + "?name=" + res }

  function DumpEndpoint(app: string, res: string): string { "/apps/resource/dump/" + app + "?res=" + res }

  const NamePayloadShape: Shape := StructShape([Field("name", StringShape)])
  const DockerPayloadShape: Shape := StructShape([Field("app_name", StringShape), Field("docker_url", StringShape)])
  const DomainPayloadShape: Shape := StructShape([Field("app_name", StringShape), Field("domain", StringShape)])

  function NamePayload(name: string): (p: Payload)
    ensures Typed(p)
  {
    JsonPayload(StructVal([StringVal(name)]), NamePayloadShape)
  }

  function DockerPayload(app: string, dockerUrl: string): (p: Payload)
    ensures Typed(p)
  {
    JsonPayload(StructVal([StringVal(app), StringVal(dockerUrl)]), DockerPayloadShape)
  }

  function DomainPayload(app: string, domain: string): (p: Payload)
    ensures Typed(p)
  {
    JsonPayload(StructVal([StringVal(app), StringVal(domain)]), DomainPayloadShape)
  }

  // Results.

  function CreateNewAppResult(o: Outcome): Result<Option<App>, Error> {
    match Call(o, DataReplyShape(PtrShape(AppShape)))
    case Failure(e) => Failure(e)
    case Success(v) =>
      var data := ReplyData(v, PtrShape(AppShape));
      if data.NilPtr? then Success(None) else Success(Some(AppOf(data.target)))
  }

  function ReadLogsResult(o: Outcome): Result<string, Error> {
    match Call(o, DataReplyShape(LogsShape))
    case Failure(e) => Failure(e)
    case Success(v) => Success(StringField(ReplyData(v, LogsShape), LogsShape.fields, 0))
  }

  function RollbackResult(o: Outcome): Result<string, Error> {
    match Call(o, DataReplyShape(ReleaseShape))
    case Failure(e) => Failure(e)
    case Success(v) =>
      Success(ReplyMessage(v, ReleaseShape) + " | " + StringField(ReplyData(v, ReleaseShape), ReleaseShape.fields, 1))
  }

  function ProvisionResult(o: Outcome): Result<string, Error> {
    match Call(o, DataReplyShape(ResourceShape))
    case Failure(e) => Failure(e)
    case Success(v) =>
      Success(ReplyMessage(v, ResourceShape) + " | " + StringField(ReplyData(v, ResourceShape), ResourceShape.fields, 0))
  }

  function DeleteResourceResult(o: Outcome): Result<string, Error> {
    match Call(o, EnvelopeShape)
    case Failure(e) => Failure(e)
    case Success(v) => Success(StringField(v, EnvelopeFields, 1))
  }

  function DockerDeployResult(o: Outcome): Result<string, Error> {
    match Call(o, DataReplyShape(ReleaseShape))
    case Failure(e) => Failure(e)
    case Success(v) =>
      var data := ReplyData(v, ReleaseShape);
      Success(StringField(data, ReleaseShape.fields, 0) + " | " + StringField(data, ReleaseShape.fields, 1))
  }

  const DomainAdded := "domain added successfully"
  const DomainRemoved := "domain removed successfully"

  function DomainResult(o: Outcome, done: string): Result<string, Error> {
    match Call(o, EnvelopeShape)
    case Failure(e) => Failure(e)
    case Success(_) => Success(done)
  }

  /** Where `DumpDatabase` writes the dump, relative to the working directory. */
  function DumpDestination(app: string, res: string): Path { app + "-" + res + ".sql" }

  function DumpedMessage(dest: Path): string { "database successfully dumped to " + dest + "." }

  /** What `DumpDatabase` returned, and the disk afterwards. */
  datatype Dumped = Dumped(result: Result<string, Error>, disk: Disk)

  function DumpSpec(o: Outcome, d: Disk, app: string, res: string): Dumped {
    match InterpretRaw(o)
    case Failure(e) => Dumped(Failure(e), d)
    case Success(data) =>
      var dest := DumpDestination(app, res);
      var written := WriteFileSpec(d, dest, data);
      if written.err.Some? then Dumped(Failure(Os(written.err.value)), written.disk)
      else Dumped(Success(DumpedMessage(dest)), written.disk)
  }

  // Properties of the operations.

  /** A client error is every operation's result, unchanged. */
  lemma ClientErrorsPropagate(o: Outcome, e: Error)
    requires Interpret(o, EnvelopeShape, Zero(EnvelopeShape)).err == Some(e)
    ensures DeleteResourceResult(o) == Failure(e)
    ensures DomainResult(o, DomainAdded) == Failure(e) && DomainResult(o, DomainRemoved) == Failure(e)
    ensures forall data: Shape :: Interpret(o, DataReplyShape(data), Zero(DataReplyShape(data))).err == Some(e)
  {
    forall data: Shape ensures Interpret(o, DataReplyShape(data), Zero(DataReplyShape(data))).err == Some(e) {
      assert Zero(EnvelopeShape) == StructVal([BoolVal(false), StringVal("")]);
    }
  }

  /** The envelope is read the same whatever the reply type, so a client error of one
      is the client error of all, and then every operation returns it. */
  lemma CallErrors(o: Outcome, e: Error)
    requires Interpret(o, EnvelopeShape, Zero(EnvelopeShape)).err == Some(e)
    ensures CreateNewAppResult(o) == Failure(e)
    ensures ReadLogsResult(o) == Failure(e)
    ensures RollbackResult(o) == Failure(e)
    ensures ProvisionResult(o) == Failure(e)
    ensures DockerDeployResult(o) == Failure(e)
  {
    ClientErrorsPropagate(o, e);
    assert Interpret(o, DataReplyShape(PtrShape(AppShape)), Zero(DataReplyShape(PtrShape(AppShape)))).err == Some(e);
    assert Interpret(o, DataReplyShape(LogsShape), Zero(DataReplyShape(LogsShape))).err == Some(e);
    assert Interpret(o, DataReplyShape(ReleaseShape), Zero(DataReplyShape(ReleaseShape))).err == Some(e);
    assert Interpret(o, DataReplyShape(ResourceShape), Zero(DataReplyShape(ResourceShape))).err == Some(e);
  }

  /** A 200 reply whose envelope reads and says no error, but whose body does not
      decode into the full reply type, fails with that decoding error. */
  lemma DataDecodeFailure(status: int, body: string, dshape: Shape)
    requires status == StatusOK
    requires Decode(EnvelopeShape, body, Zero(EnvelopeShape)).Success?
    requires !Decode(EnvelopeShape, body, Zero(EnvelopeShape)).value.fields[0].b
    requires Decode(DataReplyShape(dshape), body, Zero(DataReplyShape(dshape))).Failure?
    ensures Call(Response(status, body), DataReplyShape(dshape)) ==
      Failure(Malformed(Decode(DataReplyShape(dshape), body, Zero(DataReplyShape(dshape))).error))
  {
  }

  /** Every error of the whole call, including one met while decoding `data` after a
      sound envelope (a value of the wrong type, an integer out of range), is the
      operation's result unchanged; and an operation fails only when its call does. */
  lemma CallFailuresAreResults(o: Outcome)
    ensures var c := Call(o, DataReplyShape(PtrShape(AppShape)));
      CreateNewAppResult(o).Failure? <==> c.Failure? && (c.Failure? ==> CreateNewAppResult(o).error == c.error)
    ensures var c := Call(o, DataReplyShape(LogsShape));
      ReadLogsResult(o).Failure? <==> c.Failure? && (c.Failure? ==> ReadLogsResult(o).error == c.error)
    ensures var c := Call(o, DataReplyShape(ReleaseShape));
      RollbackResult(o).Failure? <==> c.Failure? && (c.Failure? ==> RollbackResult(o).error == c.error)
    ensures var c := Call(o, DataReplyShape(ResourceShape));
      ProvisionResult(o).Failure? <==> c.Failure? && (c.Failure? ==> ProvisionResult(o).error == c.error)
    ensures var c := Call(o, DataReplyShape(ReleaseShape));
      DockerDeployResult(o).Failure? <==> c.Failure? && (c.Failure? ==> DockerDeployResult(o).error == c.error)
    ensures var c := Call(o, EnvelopeShape);
      DeleteResourceResult(o).Failure? <==> c.Failure? && (c.Failure? ==> DeleteResourceResult(o).error == c.error)
    ensures var c := Call(o, EnvelopeShape);
      && (DomainResult(o, DomainAdded).Failure? <==> c.Failure? && (c.Failure? ==> DomainResult(o, DomainAdded).error == c.error))
      && (DomainResult(o, DomainRemoved).Failure? <==> c.Failure? && (c.Failure? ==> DomainResult(o, DomainRemoved).error == c.error))
  {
  }

  /** A server reply with `data` of type `data`: the envelope's verdict, or the reply. */
  lemma DataReply(status: int, failed: bool, message: string, data: Value, dshape: Shape)
    requires WellFormed(dshape) && Conforms(data, dshape)
    ensures var v := StructVal([BoolVal(failed), StringVal(message), data]);
      Call(Response(status, Encode(v, DataReplyShape(dshape))), DataReplyShape(dshape)) ==
        if status != StatusOK || failed then Failure(Server(message)) else Success(v)
  {
    var fs := DataReplyFields(dshape);
    var vals := [BoolVal(failed), StringVal(message), data];
    DataReads(dshape);
    DataConforms(failed, message, data, dshape);
    CallReplyAll(status, failed, message, vals, fs);
  }

  lemma DataConforms(failed: bool, message: string, data: Value, dshape: Shape)
    requires Conforms(data, dshape)
    ensures FieldsConform([BoolVal(failed), StringVal(message), data], DataReplyFields(dshape))
  {
  }

  /** `Call` with the server's own fields: the reply comes back whole. */
  lemma CallReplyAll(status: int, failed: bool, message: string, vals: seq<Value>, fs: seq<Field>)
    requires Reads(fs, EnvelopeFields) && Reads(fs, fs) && FieldsWellFormed(fs)
    requires FieldsConform(vals, fs) && |vals| >= 2 && vals[0] == BoolVal(failed) && vals[1] == StringVal(message)
    ensures Call(Response(status, Encode(StructVal(vals), StructShape(fs))), StructShape(fs)) ==
      if status != StatusOK || failed then Failure(Server(message)) else Success(StructVal(vals))
  {
    CallReply(status, failed, message, vals, fs, fs);
    assert vals[..|fs|] == vals;
  }

  /** `Call` on a reply whose first fields are the envelope. */
  lemma CallReply(status: int, failed: bool, message: string, vals: seq<Value>, sfs: seq<Field>, cfs: seq<Field>)
    requires Reads(sfs, EnvelopeFields) && Reads(sfs, cfs) && FieldsWellFormed(sfs)
    requires FieldsConform(vals, sfs) && |vals| >= 2 && vals[0] == BoolVal(failed) && vals[1] == StringVal(message)
    ensures |cfs| <= |vals|
    ensures Call(Response(status, Encode(StructVal(vals), StructShape(sfs))), StructShape(cfs)) ==
      if status != StatusOK || failed then Failure(Server(message)) else Success(StructVal(vals[..|cfs|]))
  {
    ServerReply(status, vals, sfs, cfs, Zero(StructShape(cfs)));
  }

  /** A reply with `data` is read into its own fields and into the envelope. */
  lemma DataReads(dshape: Shape)
    requires WellFormed(dshape)
    ensures var fs := DataReplyFields(dshape);
      FieldsWellFormed(fs) && Reads(fs, fs) && Reads(fs, EnvelopeFields)
  {
    DataReadsSelf(dshape);
    DataReadsEnvelope(dshape);
  }

  lemma DataReadsSelf(dshape: Shape)
    requires WellFormed(dshape)
    ensures FieldsWellFormed(DataReplyFields(dshape)) && Reads(DataReplyFields(dshape), DataReplyFields(dshape))
  {
    ReadsSelf(DataReplyFields(dshape));
  }

  lemma DataReadsEnvelope(dshape: Shape)
    ensures Reads(DataReplyFields(dshape), EnvelopeFields)
  {
    assert FieldIndex(EnvelopeFields, "data").None?;
  }

  /** The envelope read out of a reply that also carries `data`. */
  lemma EnvelopeReply(status: int, failed: bool, message: string, data: Value, dshape: Shape)
    requires WellFormed(dshape) && Conforms(data, dshape)
    ensures var v := StructVal([BoolVal(failed), StringVal(message), data]);
      Call(Response(status, Encode(v, DataReplyShape(dshape))), EnvelopeShape) ==
        if status != StatusOK || failed then Failure(Server(message)) else Success(StructVal([BoolVal(failed), StringVal(message)]))
  {
    var fs := DataReplyFields(dshape);
    var vals := [BoolVal(failed), StringVal(message), data];
    DataReads(dshape);
    DataConforms(failed, message, data, dshape);
    CallReply(status, failed, message, vals, fs, EnvelopeFields);
    assert vals[..|EnvelopeFields|] == [vals[0], vals[1]];
  }

  /** `CreateNewApp` returns the app under `data` unchanged. */
  lemma CreateNewAppReply(status: int, failed: bool, message: string, app: Option<App>)
    ensures var data := if app.Some? then PtrTo(AppValue(app.value)) else NilPtr;
      var body := Encode(StructVal([BoolVal(failed), StringVal(message), data]), DataReplyShape(PtrShape(AppShape)));
      CreateNewAppResult(Response(status, body)) == if status != StatusOK || failed then Failure(Server(message)) else Success(app)
  {
    var data := if app.Some? then PtrTo(AppValue(app.value)) else NilPtr;
    ShapesWellFormed();
    DataReply(status, failed, message, data, PtrShape(AppShape));
    if app.Some? {
      AppValueOf(app.value, AppValue(app.value));
    }
  }

  /** `ReadLogs` returns the logs under `data`. */
  lemma ReadLogsReply(status: int, failed: bool, message: string, logs: string)
    ensures var body := Encode(StructVal([BoolVal(failed), StringVal(message), StructVal([StringVal(logs)])]), DataReplyShape(LogsShape));
      ReadLogsResult(Response(status, body)) == if status != StatusOK || failed then Failure(Server(message)) else Success(logs)
  {
    DataReply(status, failed, message, StructVal([StringVal(logs)]), LogsShape);
  }

  /** `RollbackDeployment` returns "<message> | <version>". */
  lemma RollbackReply(status: int, failed: bool, message: string, address: string, version: string)
    ensures var body := Encode(StructVal([BoolVal(failed), StringVal(message), StructVal([StringVal(address), StringVal(version)])]), DataReplyShape(ReleaseShape));
      RollbackResult(Response(status, body)) ==
        if status != StatusOK || failed then Failure(Server(message)) else Success(message + " | " + version)
  {
    DataReply(status, failed, message, StructVal([StringVal(address), StringVal(version)]), ReleaseShape);
  }

  /** `ProvisionResource` returns "<message> | <id>". */
  lemma ProvisionReply(status: int, failed: bool, message: string, id: string)
    ensures var body := Encode(StructVal([BoolVal(failed), StringVal(message), StructVal([StringVal(id)])]), DataReplyShape(ResourceShape));
      ProvisionResult(Response(status, body)) ==
        if status != StatusOK || failed then Failure(Server(message)) else Success(message + " | " + id)
  {
    DataReply(status, failed, message, StructVal([StringVal(id)]), ResourceShape);
  }

  /** `DockerDeploy` returns "<address> | <version>". */
  lemma DockerDeployReply(status: int, failed: bool, message: string, address: string, version: string)
    ensures var body := Encode(StructVal([BoolVal(failed), StringVal(message), StructVal([StringVal(address), StringVal(version)])]), DataReplyShape(ReleaseShape));
      DockerDeployResult(Response(status, body)) ==
        if status != StatusOK || failed then Failure(Server(message)) else Success(address + " | " + version)
  {
    DataReply(status, failed, message, StructVal([StringVal(address), StringVal(version)]), ReleaseShape);
  }

  /** `DeleteResource` returns the server's message verbatim, and the domain operations
      their fixed texts whatever the server said, even when the reply carries `data`. */
  lemma EnvelopeOnlyReplies(status: int, failed: bool, message: string, data: Value, dshape: Shape)
    requires WellFormed(dshape) && Conforms(data, dshape)
    ensures var body := Encode(StructVal([BoolVal(failed), StringVal(message), data]), DataReplyShape(dshape));
      var o := Response(status, body);
      && DeleteResourceResult(o) == (if status != StatusOK || failed then Failure(Server(message)) else Success(message))
      && DomainResult(o, DomainAdded) == (if status != StatusOK || failed then Failure(Server(message)) else Success(DomainAdded))
      && DomainResult(o, DomainRemoved) == (if status != StatusOK || failed then Failure(Server(message)) else Success(DomainRemoved))
  {
    EnvelopeReply(status, failed, message, data, dshape);
  }

  /** A dump that downloads writes the body to `<app>-<res>.sql` and reports that
      path; a failed download writes nothing. */
  lemma DumpWrites(o: Outcome, d: Disk, app: string, res: string)
    ensures var r := DumpSpec(o, d, app, res); var dest := DumpDestination(app, res);
      && (InterpretRaw(o).Failure? ==> r == Dumped(Failure(InterpretRaw(o).error), d))
      && (r.result.Success? ==>
            && r.result.value == DumpedMessage(dest)
            && ReadFileSpec(r.disk, dest) == Success(o.body)
            && forall q :: q != dest ==> ReadFileSpec(r.disk, q) == ReadFileSpec(d, q))
  {
    var r := DumpSpec(o, d, app, res);
    if r.result.Success? {
      forall q ensures ReadFileSpec(r.disk, DumpDestination(app, res)) == Success(o.body)
        && (q != DumpDestination(app, res) ==> ReadFileSpec(r.disk, q) == ReadFileSpec(d, q))
      {
        WriteThenRead(d, DumpDestination(app, res), o.body, q);
      }
    }
  }

  /** `NewAppsOp(httpClient)`; dumps are written to `fs`. */
  class AppsOp {
    const client: Client
    const fs: FileSystem

    constructor (client: Client, fs: FileSystem)
      ensures this.client == client && this.fs == fs
    {
      this.client := client;
      this.fs := fs;
    }

    method CreateNewApp(name: string) returns (r: Result<Option<App>, Error>)
      modifies client.net
      ensures client.net.sent == old(client.net.sent) + SentFor(RequestFor(client.account, AppsEndpoint, "POST", NamePayload(name)))
      ensures r == CreateNewAppResult(Attempt(RequestFor(client.account, AppsEndpoint, "POST", NamePayload(name)), client.net.respond))
    {
      var s := new Target(DataReplyShape(PtrShape(AppShape)));
      var err := client.Do(AppsEndpoint, "POST", NamePayload(name), s);
      if err.Some? {
        return Failure(err.value);
      }
      var data := ReplyData(s.value, PtrShape(AppShape));
      r := if data.NilPtr? then Success(None) else Success(Some(AppOf(data.target)));
    }

    method ReadLogs(app: string) returns (r: Result<string, Error>)
      modifies client.net
      ensures client.net.sent == old(client.net.sent) + SentFor(RequestFor(client.account, LogsEndpoint(app), "GET", NilPayload))
      ensures r == ReadLogsResult(Attempt(RequestFor(client.account, LogsEndpoint(app), "GET", NilPayload), client.net.respond))
    {
      var s := new Target(DataReplyShape(LogsShape));
      var err := client.Do(LogsEndpoint(app), "GET", NilPayload, s);
      if err.Some? {
        return Failure(err.value);
      }
      r := Success(StringField(ReplyData(s.value, LogsShape), LogsShape.fields, 0));
    }

    method RollbackDeployment(app: string, version: string) returns (r: Result<string, Error>)
      modifies client.net
      ensures client.net.sent == old(client.net.sent) + SentFor(RequestFor(client.account, RollbackEndpoint(app, version), "PUT", NilPayload))
      ensures r == RollbackResult(Attempt(RequestFor(client.account, RollbackEndpoint(app, version), "PUT", NilPayload), client.net.respond))
    {
      var s := new Target(DataReplyShape(ReleaseShape));
      var err := client.Do(RollbackEndpoint(app, version), "PUT", NilPayload, s);
      if err.Some? {
        return Failure(err.value);
      }
      var data := ReplyData(s.value, ReleaseShape);
      r := Success(ReplyMessage(s.value, ReleaseShape) + " | " + StringField(data, ReleaseShape.fields, 1));
    }

    method ProvisionResource(app: string, res: string) returns (r: Result<string, Error>)
      modifies client.net
      ensures client.net.sent == old(client.net.sent) + SentFor(RequestFor(client.account, ProvisionEndpoint(app, res), "POST", NilPayload))
      ensures r == ProvisionResult(Attempt(RequestFor(client.account, ProvisionEndpoint(app, res), "POST", NilPayload), client.net.respond))
    {
      var s := new Target(DataReplyShape(ResourceShape));
      var err := client.Do(ProvisionEndpoint(app, res), "POST", NilPayload, s);
      if err.Some? {
        return Failure(err.value);
      }
      var data := ReplyData(s.value, ResourceShape);
      r := Success(ReplyMessage(s.value, ResourceShape) + " | " + StringField(data, ResourceShape.fields, 0));
    }

    method DeleteResource(app: string, res: string) returns (r: Result<string, Error>)
      modifies client.net
      ensures client.net.sent == old(client.net.sent) + SentFor(RequestFor(client.account, DeleteResourceEndpoint(app, res), "DELETE", NilPayload))
      ensures r == DeleteResourceResult(Attempt(RequestFor(client.account, DeleteResourceEndpoint(app, res), "DELETE", NilPayload), client.net.respond))
    {
      var s := new Target(EnvelopeShape);
      var err := client.Do(DeleteResourceEndpoint(app, res), "DELETE", NilPayload, s);
      if err.Some? {
        return Failure(err.value);
      }
      r := Success(StringField(s.value, EnvelopeFields, 1));
    }

    method DockerDeploy(app: string, dockerUrl: string) returns (r: Result<string, Error>)
      modifies client.net
      ensures client.net.sent == old(client.net.sent) + SentFor(RequestFor(client.account, DockerDeployEndpoint, "POST", DockerPayload(app, dockerUrl)))
      ensures r == DockerDeployResult(Attempt(RequestFor(client.account, DockerDeployEndpoint, "POST", DockerPayload(app, dockerUrl)), client.net.respond))
    {
      var s := new Target(DataReplyShape(ReleaseShape));
      var err := client.Do(DockerDeployEndpoint, "POST", DockerPayload(app, dockerUrl), s);
      if err.Some? {
        return Failure(err.value);
      }
      var data := ReplyData(s.value, ReleaseShape);
      r := Success(StringField(data, ReleaseShape.fields, 0) + " | " + StringField(data, ReleaseShape.fields, 1));
    }

    method AddDomain(app: string, domain: string) returns (r: Result<string, Error>)
      modifies client.net
      ensures client.net.sent == old(client.net.sent) + SentFor(RequestFor(client.account, AddDomainEndpoint, "POST", DomainPayload(app, domain)))
      ensures r == DomainResult(Attempt(RequestFor(client.account, AddDomainEndpoint, "POST", DomainPayload(app, domain)), client.net.respond), DomainAdded)
    {
      var s := new Target(EnvelopeShape);
      var err := client.Do(AddDomainEndpoint, "POST", DomainPayload(app, domain), s);
      if err.Some? {
        return Failure(err.value);
      }
      r := Success(DomainAdded);
    }

    method RemoveDomain(app: string, domain: string) returns (r: Result<string, Error>)
      modifies client.net
      ensures client.net.sent == old(client.net.sent) + SentFor(RequestFor(client.account, RemoveDomainEndpoint, "DELETE", DomainPayload(app, domain)))
      ensures r == DomainResult(Attempt(RequestFor(client.account, RemoveDomainEndpoint, "DELETE", DomainPayload(app, domain)), client.net.respond), DomainRemoved)
    {
      var s := new Target(EnvelopeShape);
      var err := client.Do(RemoveDomainEndpoint, "DELETE", DomainPayload(app, domain), s);
      if err.Some? {
        return Failure(err.value);
      }
      r := Success(DomainRemoved);
    }

    method DumpDatabase(app: string, res: string) returns (r: Result<string, Error>)
      modifies client.net, fs
      ensures client.net.sent == old(client.net.sent) + SentFor(RequestFor(client.account, DumpEndpoint(app, res), "GET", NilPayload))
      ensures Dumped(r, fs.State()) ==
        DumpSpec(Attempt(RequestFor(client.account, DumpEndpoint(app, res), "GET", NilPayload), client.net.respond), old(fs.State()), app, res)
    {
      var data := client.DoRaw(DumpEndpoint(app, res), "GET");
      if data.Failure? {
        return Failure(data.error);
      }
      var destination := DumpDestination(app, res);
      var err := fs.WriteFile(destination, data.value);
      if err.Some? {
        return Failure(Os(err.value));
      }
      r := Success(DumpedMessage(destination));
    }
  }
}
