/** The upload client of `pkg/http/deployment_client.go`: the built binary is sent as
    a multipart form to `/apps/deploy`, and the reply is judged by its status alone. */
module DeploymentClient {
  import opened Wrappers
  import opened GoJson
  import opened Types
  import opened Errors
  import opened FileSystem
  import opened HttpClient

  const ContentTypeHeader := "Content-Type"
  const DeployEndpoint := "/apps/deploy"

  /** `writer.FormDataContentType()` for a writer with the given boundary. */
  function FormContentType(boundary: string): string {
    "multipart/form-data; boundary=" + boundary
  }

  /** The upload of the binary at `binPath`, whose bytes are `content`. */
  function UploadRequest(account: Option<Account>, appName: string, binPath: Path, content: string, boundary: string): (r: Request)
    ensures r.verb == "POST" && r.url == ServerUrl + DeployEndpoint
    ensures TokenHeader in r.headers <==> account.Some?
    ensures account.Some? ==> r.headers[TokenHeader] == account.value.token
    ensures ContentTypeHeader in r.headers && r.headers[ContentTypeHeader] == FormContentType(boundary)
    ensures r.body.Form? && r.body.boundary == boundary && |r.body.parts| == 2
    ensures r.body.parts[0] == FormField("app_name", appName)
    ensures r.body.parts[1] == FormFile("bin", binPath, content)
  {
    var headers := AuthHeaders(account)[ContentTypeHeader := FormContentType(boundary)];
    Request("POST", ServerUrl + DeployEndpoint, headers,
      Form(boundary, [FormField("app_name", appName), FormFile("bin", binPath, content)]))
  }

  /** What `DeployApp` makes of the outcome: the body is read into the result whatever
      the status, and only the status decides; the `error` flag is never looked at. */
  function InterpretDeploy(o: Outcome, cur: Value): (r: Reply)
    requires Conforms(cur, DeploymentResultShape)
    ensures Conforms(r.value, DeploymentResultShape)
  {
    match o
    case NotSent(e) => Reply(Some(e), cur)
    case NoResponse(reason) => Reply(Some(Transport(reason)), cur)
    case Unreadable(reason) => Reply(Some(Transport(reason)), cur)
    case Response(status, body) =>
      match Decode(DeploymentResultShape, body, cur)
      case Failure(e) => Reply(Some(Malformed(e)), cur)
      case Success(v) =>
        if status != StatusOK then Reply(Some(Server(DeploymentResultOf(v).message)), v)
        else Reply(None, v)
  }

  /** A body that is not a deployment result is an error, and a transport failure
      comes before it; a readable body is stored in the result, and the upload
      succeeds exactly when the status is 200. */
  lemma DeployOutcome(o: Outcome, cur: Value)
    requires Conforms(cur, DeploymentResultShape)
    ensures o.NoResponse? || o.Unreadable? ==> InterpretDeploy(o, cur) == Reply(Some(Transport(o.reason)), cur)
    ensures o.Response? && Decode(DeploymentResultShape, o.body, cur).Failure? ==>
      InterpretDeploy(o, cur) == Reply(Some(Malformed(Decode(DeploymentResultShape, o.body, cur).error)), cur)
    ensures o.Response? && Decode(DeploymentResultShape, o.body, cur).Success? ==>
      && InterpretDeploy(o, cur).value == Decode(DeploymentResultShape, o.body, cur).value
      && (InterpretDeploy(o, cur).err.None? <==> o.status == StatusOK)
  {
  }

  /** The upload goes to a constant URL that `http.NewRequest` accepts, so it is
      always sent. */
  lemma UploadAccepted(account: Option<Account>, appName: string, binPath: Path, content: string, boundary: string)
    ensures Accepted(UploadRequest(account, appName, binPath, content, boundary))
  {
    PlainEndpointAccepted(DeployEndpoint);
  }

  /** A server that answers with a deployment result: a status other than 200 is an
      error with the result's message, 200 is success, and the caller's result holds
      what the server sent either way. */
  lemma DeployReply(status: int, r: DeploymentResult, cur: Value)
    requires Conforms(cur, DeploymentResultShape)
    ensures var v := DeploymentResultValue(r);
      InterpretDeploy(Response(status, Encode(v, DeploymentResultShape)), cur) ==
        if status == StatusOK then Reply(None, v) else Reply(Some(Server(r.message)), v)
  {
    var v := DeploymentResultValue(r);
    ShapesWellFormed();
    DecodeEncode(v, DeploymentResultShape, cur);
    DeploymentResultValueOf(r, v);
  }

  /** Unlike `Do`, the upload accepts a 200 reply whose `error` flag is set. */
  lemma DeployIgnoresErrorFlag(r: DeploymentResult, cur: Value)
    requires r.error && Conforms(cur, DeploymentResultShape)
    ensures var body := Encode(DeploymentResultValue(r), DeploymentResultShape);
      && InterpretDeploy(Response(StatusOK, body), cur) == Reply(None, DeploymentResultValue(r))
      && Interpret(Response(StatusOK, body), DeploymentResultShape, cur) == Reply(Some(Server(r.message)), cur)
  {
    var fs := DeploymentResultShape.fields;
    var vals := DeploymentResultValue(r).fields;
    DeployReply(StatusOK, r, cur);
    DeploymentReads();
    ServerReply(StatusOK, vals, fs, fs, cur);
  }

  /** The upload's reply fields are read into themselves and into the envelope. */
  lemma DeploymentReads()
    ensures var fs := DeploymentResultShape.fields;
      FieldsWellFormed(fs) && Reads(fs, fs) && Reads(fs, EnvelopeFields)
  {
    var fs := DeploymentResultShape.fields;
    DeploymentResultShapeWellFormed();
    ReadsSelf(fs);
    assert FieldIndex(EnvelopeFields, fs[2].name).None?;
  }

  /** `NewDeploymentClient(appName, account)`; the binary is read from `fs`. */
  class DeploymentClient {
    const appName: string
    const account: Option<Account>
    const net: Network
    const fs: FileSystem

    constructor (appName: string, account: Option<Account>, net: Network, fs: FileSystem)
      ensures this.appName == appName && this.account == account && this.net == net && this.fs == fs
    {
      this.appName := appName;
      this.account := account;
      this.net := net;
      this.fs := fs;
    }

    /** `DeployApp(binPath, result)`; `boundary` is the one the multipart writer picks. */
    method DeployApp(binPath: Path, boundary: string, result: Target) returns (err: Option<Error>)
      requires result.shape == DeploymentResultShape && result.Valid()
      modifies net, result
      ensures result.Valid()
      ensures ReadFileSpec(fs.State(), binPath).Failure? ==>
        && err == Some(Os(ReadFileSpec(fs.State(), binPath).error))
        && net.sent == old(net.sent) && result.value == old(result.value)
      ensures ReadFileSpec(fs.State(), binPath).Success? ==>
        var req := UploadRequest(account, appName, binPath, ReadFileSpec(fs.State(), binPath).value, boundary);
        && net.sent == old(net.sent) + [req]
        && Reply(err, result.value) == InterpretDeploy(net.respond(req), old(result.value))
    {
      var parts := [FormField("app_name", appName)];
      var content := fs.ReadFile(binPath);
      if content.Failure? {
        return Some(Os(content.error));
      }
      parts := parts + [FormFile("bin", binPath, content.value)];
      var headers := map[];
      if account.Some? {
        headers := headers[TokenHeader := account.value.token];
      }
      headers := headers[ContentTypeHeader := FormContentType(boundary)];
      var req := Request("POST", ServerUrl + DeployEndpoint, headers, Form(boundary, parts));
      assert req == UploadRequest(account, appName, binPath, content.value, boundary);
      var resp := net.Send(req);
      if !resp.Response? {
        return Some(Transport(resp.reason));
      }
      var filled := Decode(DeploymentResultShape, resp.body, result.value);
      if filled.Failure? {
        return Some(Malformed(filled.error));
      }
      result.value := filled.value;
      if resp.status != StatusOK {
        return Some(Server(DeploymentResultOf(result.value).message));
      }
      err := None;
    }
  }
}
