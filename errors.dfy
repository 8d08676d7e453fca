/** The error values the client produces and the text `err.Error()` gives for each. */
module Errors {
  import opened Strings
  import opened JsonText
  import opened GoJson

  /** An `*os.PathError`: the failed operation, the path and the system's reason. */
  datatype OsError = PathError(op: string, path: string, reason: string)
  {
    function Text(): string { op + " " + path + ": " + reason }
  }

  /** How `strconv.Quote` writes one character: `"` and `\` escaped, the control
      characters with a one-letter escape where Go has one and as `\xHH` otherwise. */
  function GoQuoteChar(c: char): string {
    if c == '"' then "\\\""
    else if c == '\\' then "\\\\"
    else if c == '\U{0007}' then "\\a"
    else if c == '\U{0008}' then "\\b"
    else if c == '\U{000C}' then "\\f"
    else if c == '\n' then "\\n"
    else if c == '\r' then "\\r"
    else if c == '\t' then "\\t"
    else if c == '\U{000B}' then "\\v"
    else if c < ' ' || c == '\U{007F}' then "\\x" + [HexDigit(c as int / 16), HexDigit(c as int % 16)]
    else [c]
  }

  function GoQuoteBody(s: string): string
    decreases |s|
  {
    if s == [] then "" else GoQuoteChar(s[0]) + GoQuoteBody(s[1..])
  }

  /** `strconv.Quote(s)`, the `%q` of an error text. */
  function GoQuote(s: string): string { "\"" + GoQuoteBody(s) + "\"" }

  const NoHomeDirText := "failed to determine home directory. Please set HOME_DIR env variable to your home directory"
  const NoAuthText := "hostGo authentication required. Please run `hostgo login` to authenticate your account"
  const AuthFailedPrefix := "failed to authenticate account: "

  datatype Error =
    | BadUrl(url: string, refusal: string) // `url.Parse` refused the request's URL
    | Transport(reason: string)      // the request could not be made or its body not read
    | Malformed(problem: DecodeError) // the body is not the JSON the caller expects
    | Server(message: string)        // `errors.New` of the envelope's message
    | RawStatus(status: int)         // a raw download answered with another status than 200
    | Os(cause: OsError)             // a file operation failed
    | BadConfig                      // `hostgo.yml` is not valid YAML for `Config`
    | NoHomeDir                      // `auth.ErrNoHomeDir`
    | NoAuth                         // `auth.ErrNoAuth`
    | AuthFailed(cause: OsError)     // storing credentials failed
  {
    function Text(): string {
      match this
      case BadUrl(url, refusal) => "parse " + GoQuote(url) + ": " + refusal
      case Transport(reason) => reason
      case Malformed(problem) => DecodeErrorText(problem)
      case Server(message) => message
      case RawStatus(status) => "unexpected status " + IntText(status)
      case Os(cause) => cause.Text()
      case BadConfig => "yaml: cannot unmarshal into types.Config"
      case NoHomeDir => NoHomeDirText
      case NoAuth => NoAuthText
      case AuthFailed(cause) => AuthFailedPrefix + cause.Text()
    }
  }

  function DecodeErrorText(e: DecodeError): string {
    match e
    case SyntaxError => "invalid character in JSON input"
    case TypeMismatch(found) => "json: cannot unmarshal " + found + " into Go value"
    case OutOfRange(n) => "json: cannot unmarshal number " + IntText(n) + " into Go value of type uint"
  }
}
