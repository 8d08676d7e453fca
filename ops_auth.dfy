/** Signing in, as `pkg/ops/auth.go` does it: ask the server, then store what it
    returned, then hand it to the caller. */
module OpsAuth {
  import opened Wrappers
  import opened GoJson
  import opened Types
  import opened Errors
  import opened FileSystem
  import opened AuthStore
  import opened HttpClient

  const LoginEndpoint := "/account/authenticate"

  const LoginPayloadShape: Shape := StructShape([Field("email", StringShape), Field("password", StringShape)])

  /** The reply: the envelope and the account under `data`, a `*types.Account`. */
  const LoginReplyFields: seq<Field> :=
    [Field("error", BoolShape), Field("message", StringShape), Field("data", PtrShape(AccountShape))]
  const LoginReplyShape: Shape := StructShape(LoginReplyFields)

  function LoginPayload(email: string, password: string): (p: Payload)
    ensures Typed(p)
  {
    JsonPayload(StructVal([StringVal(email), StringVal(password)]), LoginPayloadShape)
  }

  function LoginRequest(account: Option<Account>, email: string, password: string): Request {
    RequestFor(account, LoginEndpoint, "POST", LoginPayload(email, password))
  }

  /** `r.Data` of a filled reply: nil, or the account it points to. */
  function DataAccount(v: Value): Option<Account>
    requires Conforms(v, LoginReplyShape)
  {
    assert FieldsConform(v.fields, LoginReplyFields);
    assert Conforms(v.fields[2], LoginReplyFields[2].shape);
    if v.fields[2].NilPtr? then None else Some(AccountOf(v.fields[2].target))
  }

  /** What signing in returned, and the disk afterwards. */
  datatype Login = Login(result: Result<Option<Account>, Error>, disk: Disk)

  /** `AuthenticateAccount` once the server has answered with `o`. */
  function LoginSpec(o: Outcome, d: Disk, env: HostEnv): Login {
    var rep := Interpret(o, LoginReplyShape, Zero(LoginReplyShape));
    if rep.err.Some? then Login(Failure(rep.err.value), d)
    else
      var data := DataAccount(rep.value);
      var saved := SaveAuth(d, env, data);
      if saved.err.Some? then Login(Failure(saved.err.value), saved.disk)
      else Login(Success(data), saved.disk)
  }

  // Properties of signing in.

  /** The request is a POST of `{email, password}` to `/account/authenticate`, and
      it is always sent: its URL is constant and `http.NewRequest` accepts it. */
  lemma LoginRequestSent(account: Option<Account>, email: string, password: string)
    ensures var r := LoginRequest(account, email, password);
      && r.verb == "POST" && r.url == ServerUrl + LoginEndpoint && Accepted(r)
      && r.body.Bytes? && Decode(LoginPayloadShape, r.body.text, Zero(LoginPayloadShape)) ==
           Success(StructVal([StringVal(email), StringVal(password)]))
  {
    var p := LoginPayload(email, password);
    PlainEndpointAccepted(LoginEndpoint);
    assert WellFormed(LoginPayloadShape);
    PayloadTextDecodes(p, Zero(LoginPayloadShape));
  }

  /** When the client call fails, its error is returned and nothing is stored. */
  lemma ClientErrorStoresNothing(o: Outcome, d: Disk, env: HostEnv)
    requires Interpret(o, LoginReplyShape, Zero(LoginReplyShape)).err.Some?
    ensures LoginSpec(o, d, env) == Login(Failure(Interpret(o, LoginReplyShape, Zero(LoginReplyShape)).err.value), d)
  {
  }

  /** When storing fails, that error is returned and no account is. */
  lemma StoreErrorReturnsNoAccount(o: Outcome, d: Disk, env: HostEnv)
    requires Interpret(o, LoginReplyShape, Zero(LoginReplyShape)).err.None?
    ensures var data := DataAccount(Interpret(o, LoginReplyShape, Zero(LoginReplyShape)).value);
      SaveAuth(d, env, data).err.Some? ==> LoginSpec(o, d, env) == Login(Failure(SaveAuth(d, env, data).err.value), SaveAuth(d, env, data).disk)
  {
  }

  /** A successful sign-in returns exactly the account it stored, and loading the
      credentials afterwards gives that account (the zero account when the server
      sent none). */
  lemma LoginStoresReturned(o: Outcome, d: Disk, env: HostEnv)
    requires LoginSpec(o, d, env).result.Success?
    ensures var data := LoginSpec(o, d, env).result.value;
      && LoginSpec(o, d, env).disk == SaveAuth(d, env, data).disk
      && LoadAuth(LoginSpec(o, d, env).disk, env) == Success(if data.Some? then data.value else ZeroAccount)
  {
    var data := LoginSpec(o, d, env).result.value;
    SaveThenLoad(d, env, data);
  }

  /** The server's reply carrying `data`: with status 200 and the flag clear, the
      account sent is stored and returned; otherwise the message is the error and
      nothing is stored. */
  lemma LoginReply(status: int, failed: bool, message: string, data: Option<Account>, d: Disk, env: HostEnv)
    ensures var body := Encode(StructVal([BoolVal(failed), StringVal(message), AccountPtr(data)]), LoginReplyShape);
      LoginSpec(Response(status, body), d, env) ==
        if status != StatusOK || failed then Login(Failure(Server(message)), d)
        else if SaveAuth(d, env, data).err.Some? then Login(Failure(SaveAuth(d, env, data).err.value), SaveAuth(d, env, data).disk)
        else Login(Success(data), SaveAuth(d, env, data).disk)
  {
    LoginReplyDecodes(status, failed, message, data);
    if status == StatusOK && !failed {
      DataAccountOf(failed, message, data);
    }
  }

  lemma DataAccountOf(failed: bool, message: string, data: Option<Account>)
    ensures DataAccount(StructVal([BoolVal(failed), StringVal(message), AccountPtr(data)])) == data
  {
    if data.Some? {
      AccountValueOf(data.value, AccountValue(data.value));
    }
  }

  lemma LoginReads()
    ensures FieldsWellFormed(LoginReplyFields) && Reads(LoginReplyFields, LoginReplyFields)
    ensures Reads(LoginReplyFields, EnvelopeFields)
  {
    ShapesWellFormed();
    assert WellFormed(LoginReplyShape);
    ReadsSelf(LoginReplyFields);
    assert FieldIndex(EnvelopeFields, "data").None?;
  }

  lemma LoginReplyDecodes(status: int, failed: bool, message: string, data: Option<Account>)
    ensures var vals := [BoolVal(failed), StringVal(message), AccountPtr(data)];
      Interpret(Response(status, Encode(StructVal(vals), LoginReplyShape)), LoginReplyShape, Zero(LoginReplyShape)) ==
        if status == StatusOK && !failed then Reply(None, StructVal(vals)) else Reply(Some(Server(message)), Zero(LoginReplyShape))
  {
    var vals := [BoolVal(failed), StringVal(message), AccountPtr(data)];
    LoginReads();
    assert FieldsConform(vals, LoginReplyFields);
    ServerReply(status, vals, LoginReplyFields, LoginReplyFields, Zero(LoginReplyShape));
    assert vals[..|LoginReplyFields|] == vals;
  }

  /** `NewAuthenticateAccountOp(client, provider)`. */
  class AuthenticateAccountOp {
    const client: Client
    const provider: AuthProvider

    constructor (client: Client, provider: AuthProvider)
      ensures this.client == client && this.provider == provider
    {
      this.client := client;
      this.provider := provider;
    }

    method AuthenticateAccount(email: string, password: string) returns (r: Result<Option<Account>, Error>)
      modifies client.net, provider.fs
      ensures client.net.sent == old(client.net.sent) + SentFor(LoginRequest(client.account, email, password))
      ensures Login(r, provider.fs.State()) ==
        LoginSpec(Attempt(LoginRequest(client.account, email, password), client.net.respond), old(provider.fs.State()), provider.env)
    {
      var p := LoginPayload(email, password);
      var response := new Target(LoginReplyShape);
      var err := client.Do(LoginEndpoint, "POST", p, response);
      if err.Some? {
        return Failure(err.value);
      }
      var data := DataAccount(response.value);
      err := provider.CreateAuth(data);
      if err.Some? {
        return Failure(err.value);
      }
      r := Success(data);
    }
  }
}
