/** The credential store of `pkg/auth/auth.go`: the signed-in account is kept as JSON
    in `<home>/.hostgo/.auth.json`. `LoadAuth` and `SaveAuth` specify reading and
    writing it on a `Disk`; `AuthProvider` does the same step by step on a
    `FileSystem`. */
module AuthStore {
  import opened Wrappers
  import opened Strings
  import opened JsonText
  import opened GoJson
  import opened Types
  import opened Errors
  import opened FileSystem

  const AuthDirName := ".hostgo"
  const AuthFileName := ".auth.json"

  /** What the process can learn about its home directory: the answer of
      `homedir.Dir()` (`None` when it fails) and the value of `HOME_DIR`. */
  datatype HostEnv = HostEnv(homedir: Option<Path>, homeDirVar: string)

  /** `homedir.Dir()`, falling back to `HOME_DIR` when that fails. */
  function HomeDir(env: HostEnv): Option<Path> {
    if env.homedir.Some? then env.homedir
    else if env.homeDirVar == "" then None
    else Some(env.homeDirVar)
  }

  function AuthFolder(home: Path): Path { Join(home, AuthDirName) }

  function AuthFile(home: Path): Path { Join(AuthFolder(home), AuthFileName) }

  /** The `*types.Account` handed to `CreateAuth`, which may be nil. */
  function AccountPtr(a: Option<Account>): (v: Value)
    ensures Conforms(v, PtrShape(AccountShape))
  {
    if a.None? then NilPtr else PtrTo(AccountValue(a.value))
  }

  /** `json.Marshal(account)`: the account's JSON object, or `null` for nil. */
  function AuthText(a: Option<Account>): string {
    Encode(AccountPtr(a), PtrShape(AccountShape))
  }

  /** What `&types.Account{}` holds. */
  const ZeroAccount := Account(0, "", "", "", "")

  /** `CurrentAuth()`: a missing, unreadable or malformed credential file is reported
      as the same `ErrNoAuth`. */
  function LoadAuth(d: Disk, env: HostEnv): Result<Account, Error> {
    match HomeDir(env)
    case None => Failure(NoHomeDir)
    case Some(h) =>
      match ReadFileSpec(d, AuthFile(h))
      case Failure(_) => Failure(NoAuth)
      case Success(text) =>
        match Decode(AccountShape, text, Zero(AccountShape))
        case Failure(_) => Failure(NoAuth)
        case Success(v) => Success(AccountOf(v))
  }

  /** A disk after storing credentials, and the error `CreateAuth` returned. */
  datatype Saved = Saved(disk: Disk, err: Option<Error>)

  /** `CreateAuth(account)`: remove an existing `.hostgo`, create it afresh, and write
      the account into it; a failing step ends the sequence. */
  function SaveAuth(d: Disk, env: HostEnv, a: Option<Account>): Saved {
    match HomeDir(env)
    case None => Saved(d, Some(NoHomeDir))
    case Some(h) =>
      var folder := AuthFolder(h);
      var wiped := if d.Exists(folder) then RemoveAllSpec(d, folder) else Step(d, None);
      if wiped.err.Some? then Saved(wiped.disk, Some(AuthFailed(wiped.err.value)))
      else
        var made := MkdirSpec(wiped.disk, folder);
        if made.err.Some? then Saved(made.disk, Some(AuthFailed(made.err.value)))
        else
          var written := WriteFileSpec(made.disk, AuthFile(h), AuthText(a));
          if written.err.Some? then Saved(written.disk, Some(AuthFailed(written.err.value)))
          else Saved(written.disk, None)
  }

  // Properties of the store.

  /** No home directory is found exactly when `homedir.Dir()` fails and `HOME_DIR`
      is empty, and then both operations report `ErrNoHomeDir` and touch nothing. */
  lemma NoHomeDirCases(d: Disk, env: HostEnv, a: Option<Account>)
    ensures HomeDir(env).None? <==> env.homedir.None? && env.homeDirVar == ""
    ensures HomeDir(env).None? ==> LoadAuth(d, env) == Failure(NoHomeDir)
    ensures HomeDir(env).None? ==> SaveAuth(d, env, a) == Saved(d, Some(NoHomeDir))
    ensures env.homedir.Some? ==> HomeDir(env) == env.homedir
  {
  }

  /** Loading fails only with `ErrNoHomeDir` or `ErrNoAuth`, and with `ErrNoAuth`
      exactly when the file is missing or cannot be read as an account. */
  lemma LoadAuthErrors(d: Disk, env: HostEnv, h: Path)
    requires HomeDir(env) == Some(h)
    ensures LoadAuth(d, env).Failure? ==> LoadAuth(d, env).error == NoAuth
    ensures LoadAuth(d, env) == Failure(NoAuth) <==>
      AuthFile(h) !in d.files || Decode(AccountShape, d.files[AuthFile(h)], Zero(AccountShape)).Failure?
  {
  }

  /** A store that fails reports `ErrNoHomeDir` or an error text that starts with
      "failed to authenticate account: ". */
  lemma SaveAuthErrors(d: Disk, env: HostEnv, a: Option<Account>)
    ensures var e := SaveAuth(d, env, a).err;
      e.Some? ==> e.value == NoHomeDir || (e.value.AuthFailed? && HasPrefix(e.value.Text(), AuthFailedPrefix))
  {
    var e := SaveAuth(d, env, a).err;
    if e.Some? && e.value.AuthFailed? {
      var t := e.value.Text();
      assert t == AuthFailedPrefix + e.value.cause.Text();
      assert t[..|AuthFailedPrefix|] == AuthFailedPrefix;
    }
  }

  /** With a home directory that is not on the disk, creating `.hostgo` in it fails
      with "no such file or directory" and nothing is changed. */
  lemma SaveAuthMissingHome(d: Disk, env: HostEnv, a: Option<Account>, h: Path)
    requires HomeDir(env) == Some(h) && h != ""
    requires TrimSlashes(h) != "/" && TrimSlashes(h) !in d.dirs && TrimSlashes(h) !in d.files
    requires !d.Exists(AuthFolder(h))
    ensures SaveAuth(d, env, a) ==
      Saved(d, Some(AuthFailed(PathError("mkdir", AuthFolder(h), "no such file or directory"))))
  {
    JoinParent(h, AuthDirName);
  }

  /** Nothing lies below `dir` when `dir` itself does not exist. */
  ghost predicate NoOrphansBelow(d: Disk, dir: Path) {
    d.Exists(dir) || forall q :: Under(q, dir) ==> !d.Exists(q)
  }

  /** After a successful store `.hostgo` holds the credential file and nothing else,
      the file holds the encoded account, and paths outside `.hostgo` are as before. */
  lemma SaveAuthLayout(d: Disk, env: HostEnv, a: Option<Account>, h: Path)
    requires HomeDir(env) == Some(h) && NoOrphansBelow(d, AuthFolder(h))
    requires SaveAuth(d, env, a).err.None?
    ensures var d' := SaveAuth(d, env, a).disk;
      && AuthFolder(h) in d'.dirs
      && AuthFile(h) in d'.files && d'.files[AuthFile(h)] == AuthText(a)
      && (forall q :: Under(q, AuthFolder(h)) && d'.Exists(q) ==> q == AuthFolder(h) || q == AuthFile(h))
      && (forall q :: !Under(q, AuthFolder(h)) ==> (d'.Exists(q) <==> d.Exists(q)))
      && (forall q :: !Under(q, AuthFolder(h)) && q in d.files ==> q in d'.files && d'.files[q] == d.files[q])
  {
    var folder := AuthFolder(h);
    var file := AuthFile(h);
    assert Under(file, folder) by {
      assert file == folder + "/" + AuthFileName;
      assert file[..|folder + "/"|] == folder + "/";
    }
    if d.Exists(folder) {
      RemoveAllClears(d, folder);
    }
  }

  /** A successful store leaves the encoded account in the credential file. */
  lemma SaveAuthWrites(d: Disk, env: HostEnv, a: Option<Account>)
    requires SaveAuth(d, env, a).err.None?
    ensures var h := HomeDir(env).value; var d' := SaveAuth(d, env, a).disk;
      AuthFile(h) in d'.files && d'.files[AuthFile(h)] == AuthText(a)
  {
  }

  /** The credential text reads back as the account, or for nil as the zero value. */
  lemma AuthTextDecodes(a: Option<Account>)
    ensures Decode(AccountShape, AuthText(a), Zero(AccountShape)) ==
      Success(if a.Some? then AccountValue(a.value) else Zero(AccountShape))
  {
    if a.Some? {
      AccountTextDecodes(a.value);
    } else {
      NilTextDecodes();
    }
  }

  lemma AccountTextDecodes(acc: Account)
    ensures Decode(AccountShape, AuthText(Some(acc)), Zero(AccountShape)) == Success(AccountValue(acc))
  {
    ShapesWellFormed();
    DecodeEncode(AccountValue(acc), AccountShape, Zero(AccountShape));
    assert AuthText(Some(acc)) == Encode(AccountValue(acc), AccountShape);
  }

  lemma NilTextDecodes()
    ensures Decode(AccountShape, AuthText(None), Zero(AccountShape)) == Success(Zero(AccountShape))
  {
    assert AuthText(None) == Serialize(Null) == "null";
    ParseSerialize(Null);
  }

  lemma ZeroAccountOf()
    ensures AccountOf(Zero(AccountShape)) == ZeroAccount
  {
    assert Zero(AccountShape) == StructVal([UintVal(0), StringVal(""), StringVal(""), StringVal(""), StringVal("")]);
  }

  /** Storing an account and loading it again gives the account back; storing nil
      writes `null`, which loads as the zero account. */
  lemma SaveThenLoad(d: Disk, env: HostEnv, a: Option<Account>)
    requires SaveAuth(d, env, a).err.None?
    ensures LoadAuth(SaveAuth(d, env, a).disk, env) == Success(if a.Some? then a.value else ZeroAccount)
  {
    SaveAuthWrites(d, env, a);
    AuthTextDecodes(a);
    if a.Some? {
      AccountValueOf(a.value, Zero(AccountShape));
    } else {
      ZeroAccountOf();
    }
  }

  /** The store as the program uses it: the host environment is fixed when the
      provider is made, and the file system is shared with the rest of the program. */
  class AuthProvider {
    const env: HostEnv
    const fs: FileSystem

    constructor (env: HostEnv, fs: FileSystem)
      ensures this.env == env && this.fs == fs
    {
      this.env := env;
      this.fs := fs;
    }

    method CurrentAuth() returns (r: Result<Account, Error>)
      ensures r == LoadAuth(fs.State(), env)
    {
      var home := HomeDir(env);
      if home.None? {
        return Failure(NoHomeDir);
      }
      var data := fs.ReadFile(AuthFile(home.value));
      if data.Failure? {
        return Failure(NoAuth);
      }
      var account := Decode(AccountShape, data.value, Zero(AccountShape));
      if account.Failure? {
        return Failure(NoAuth);
      }
      r := Success(AccountOf(account.value));
    }

    method CreateAuth(a: Option<Account>) returns (err: Option<Error>)
      modifies fs
      ensures Saved(fs.State(), err) == SaveAuth(old(fs.State()), env, a)
    {
      var home := HomeDir(env);
      if home.None? {
        return Some(NoHomeDir);
      }
      var folder := AuthFolder(home.value);
      var found := fs.Stat(folder);
      if found {
        var e := fs.RemoveAll(folder);
        if e.Some? {
          return Some(AuthFailed(e.value));
        }
      }
      var e := fs.Mkdir(folder);
      if e.Some? {
        return Some(AuthFailed(e.value));
      }
      var data := AuthText(a);
      e := fs.WriteFile(AuthFile(home.value), data);
      if e.Some? {
        return Some(AuthFailed(e.value));
      }
      err := None;
    }
  }
}
