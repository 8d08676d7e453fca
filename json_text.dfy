/** JSON documents as text. This is the stand-in for the byte-level half of Go's
    `encoding/json`: `Serialize` writes a document the way `json.Marshal` lays it out
    (no white space, `"` `\` and control characters escaped, `<` `>` `&` written as
    `\u00XX`), and `Parse` is the partial inverse that accepts what `json.Unmarshal`
    accepts as syntax, with the exceptions listed in README. The round trip
    `Parse(Serialize(j)) == Some(j)` is proved at the end. */
module JsonText {
  import opened Wrappers
  import opened Strings

  datatype Json =
    | Null
    | Bool(b: bool)
    | Num(n: int)
    | Str(s: string)
    | Arr(items: seq<Json>)
    | Obj(members: seq<Member>)

  datatype Member = Member(key: string, value: Json)

  predicate IsWs(c: char) { c == ' ' || c == '\t' || c == '\n' || c == '\r' }

  // ---------------------------------------------------------------------------
  // Writing
  // ---------------------------------------------------------------------------

  function HexDigit(d: nat): char
    requires d < 16
  {
    if d < 10 then DigitChar(d) else (('a' as int) + d - 10) as char
  }

  /** Characters the encoder writes with a one-letter escape. */
  predicate ShortEscaped(c: char) {
    c == '"' || c == '\\' || c == '\n' || c == '\r' || c == '\t' || c == '\U{0008}' || c == '\U{000C}'
  }

  /** Characters the encoder writes as `\u00XX`: control characters other than
      those with a one-letter escape, and the HTML-sensitive `<`, `>` and `&`. */
  predicate HexEscaped(c: char) {
    (c < ' ' && !ShortEscaped(c)) || c == '<' || c == '>' || c == '&'
  }

  /** How `json.Marshal` writes one character of a string. */
  function EscapeChar(c: char): string {
    if c == '"' then "\\\""
    else if c == '\\' then "\\\\"
    else if c == '\n' then "\\n"
    else if c == '\r' then "\\r"
    else if c == '\t' then "\\t"
    else if c == '\U{0008}' then "\\b"
    else if c == '\U{000C}' then "\\f"
    else if HexEscaped(c) then "\\u00" + [HexDigit(c as int / 16), HexDigit(c as int % 16)]
    else if c == '\U{2028}' then "\\u2028"
    else if c == '\U{2029}' then "\\u2029"
    else [c]
  }

  function Escape(s: string): string
    decreases |s|
  {
    if s == [] then "" else EscapeChar(s[0]) + Escape(s[1..])
  }

  /** A JSON string literal holding `s`. */
  function Quote(s: string): string {
    "\"" + Escape(s) + "\""
  }

  function Serialize(j: Json): string
    decreases j
  {
    match j
    case Null => "null"
    case Bool(b) => if b then "true" else "false"
    case Num(n) => IntText(n)
    case Str(s) => Quote(s)
    case Arr(items) => "[" + SerializeItems(items) + "]"
    case Obj(members) => "{" + SerializeMembers(members) + "}"
  }

  function SerializeItems(items: seq<Json>): string
    decreases items
  {
    if items == [] then ""
    else if |items| == 1 then Serialize(items[0])
    else Serialize(items[0]) + "," + SerializeItems(items[1..])
  }

  function SerializeMember(m: Member): string
    decreases m
  {
    Quote(m.key) + ":" + Serialize(m.value)
  }

  function SerializeMembers(members: seq<Member>): string
    decreases members
  {
    if members == [] then ""
    else if |members| == 1 then SerializeMember(members[0])
    else SerializeMember(members[0]) + "," + SerializeMembers(members[1..])
  }

  // ---------------------------------------------------------------------------
  // Reading. Every parser returns what it read and the text after it.
  // ---------------------------------------------------------------------------

  function SkipWs(s: string): (r: string)
    ensures |r| <= |s|
    decreases |s|
  {
    if s != [] && IsWs(s[0]) then SkipWs(s[1..]) else s
  }

  function HexValue(c: char): Option<nat> {
    if IsDigit(c) then Some(DigitOf(c))
    else if 'a' <= c <= 'f' then Some((c as int) - ('a' as int) + 10)
    else if 'A' <= c <= 'F' then Some((c as int) - ('A' as int) + 10)
    else None
  }

  function Hex4(s: string): (r: Option<nat>)
    requires |s| == 4
    ensures r.Some? ==> r.value < 0x10000
  {
    match (HexValue(s[0]), HexValue(s[1]), HexValue(s[2]), HexValue(s[3]))
    case (Some(a), Some(b), Some(c), Some(d)) =>
      if a < 16 && b < 16 && c < 16 && d < 16 then Some(((a * 16 + b) * 16 + c) * 16 + d) else None
    case _ => None
  }

  /** The character a `\uXXXX` escape stands for; a lone surrogate half becomes the
      replacement character, as Go's decoder does. */
  function CodeChar(v: nat): char
    requires v < 0x10000
  {
    if 0xD800 <= v < 0xE000 then '\U{FFFD}' else v as char
  }

  /** The escape sequence at the start of `s`, the text just after a backslash. */
  function Unescape(s: string): (r: Option<(char, string)>)
    ensures r.Some? ==> |r.value.1| < |s|
  {
    if s == [] then None
    else if s[0] == '"' then Some(('"', s[1..]))
    else if s[0] == '\\' then Some(('\\', s[1..]))
    else if s[0] == '/' then Some(('/', s[1..]))
    else if s[0] == 'b' then Some(('\U{0008}', s[1..]))
    else if s[0] == 'f' then Some(('\U{000C}', s[1..]))
    else if s[0] == 'n' then Some(('\n', s[1..]))
    else if s[0] == 'r' then Some(('\r', s[1..]))
    else if s[0] == 't' then Some(('\t', s[1..]))
    else if s[0] == 'u' && |s| >= 5 then
      match Hex4(s[1..5])
      case None => None
      case Some(v) => Some((CodeChar(v), s[5..]))
    else None
  }

  /** The contents of a string literal whose opening quote has been read. */
  function ParseStringBody(s: string): (r: Option<(string, string)>)
    ensures r.Some? ==> |r.value.1| < |s|
    decreases |s|
  {
    if s == [] then None
    else if s[0] == '"' then Some(("", s[1..]))
    else if s[0] == '\\' then
      match Unescape(s[1..])
      case None => None
      case Some((c, t)) =>
        match ParseStringBody(t)
        case None => None
        case Some((u, r)) => Some(([c] + u, r))
    else if s[0] < ' ' then None
    else
      match ParseStringBody(s[1..])
      case None => None
      case Some((u, r)) => Some(([s[0]] + u, r))
  }

  /** Length of the run of digits at the start of `s`. */
  function DigitRun(s: string): (k: nat)
    ensures k <= |s| && AllDigits(s[..k])
    ensures k < |s| ==> !IsDigit(s[k])
    ensures s != [] && IsDigit(s[0]) ==> k >= 1
    decreases |s|
  {
    if s != [] && IsDigit(s[0]) then
      var k := 1 + DigitRun(s[1..]);
      assert s[..k] == [s[0]] + s[1..][..k - 1];
      k
    else 0
  }

  function ParseNat(s: string): (r: Option<(nat, string)>)
    ensures r.Some? ==> |r.value.1| < |s|
  {
    if s == [] || !IsDigit(s[0]) then None
    else if s[0] == '0' then Some((0, s[1..]))
    else
      var k := DigitRun(s);
      Some((DigitsValue(s[..k]), s[k..]))
  }

  /** An integer literal: an optional minus sign and digits without a leading zero. */
  function ParseInt(s: string): (r: Option<(int, string)>)
    ensures r.Some? ==> |r.value.1| < |s|
  {
    if s != [] && s[0] == '-' then
      var r := ParseNat(s[1..]);
      if r.None? then None else Some((-(r.value.0 as int), r.value.1))
    else
      match ParseNat(s)
      case None => None
      case Some((n, t)) => Some((n as int, t))
  }

  function ParseWord(s: string, word: string, j: Json): (r: Option<(Json, string)>)
    requires |word| >= 1
    ensures r.Some? ==> |r.value.1| < |s|
  {
    if HasPrefix(s, word) then Some((j, s[|word|..])) else None
  }

  /** One value, after optional white space. */
  function ParseValue(s: string): (r: Option<(Json, string)>)
    ensures r.Some? ==> |r.value.1| < |s|
    decreases |s|, 0
  {
    var t := SkipWs(s);
    if t == [] then None
    else if t[0] == 'n' then ParseWord(t, "null", Null)
    else if t[0] == 't' then ParseWord(t, "true", Bool(true))
    else if t[0] == 'f' then ParseWord(t, "false", Bool(false))
    else if t[0] == '"' then
      match ParseStringBody(t[1..])
      case None => None
      case Some((str, r)) => Some((Str(str), r))
    else if t[0] == '-' || IsDigit(t[0]) then
      match ParseInt(t)
      case None => None
      case Some((n, r)) => Some((Num(n), r))
    else if t[0] == '[' then
      match ParseArray(t[1..])
      case None => None
      case Some((items, r)) => Some((Arr(items), r))
    else if t[0] == '{' then
      match ParseObject(t[1..])
      case None => None
      case Some((members, r)) => Some((Obj(members), r))
    else None
  }

  /** The elements of an array whose `[` has been read, up to and including `]`. */
  function ParseArray(s: string): (r: Option<(seq<Json>, string)>)
    ensures r.Some? ==> |r.value.1| < |s|
    decreases |s|, 2
  {
    var t := SkipWs(s);
    if t != [] && t[0] == ']' then Some(([], t[1..])) else ParseElements(t)
  }

  function ParseElements(s: string): (r: Option<(seq<Json>, string)>)
    ensures r.Some? ==> |r.value.1| < |s|
    decreases |s|, 1
  {
    match ParseValue(s)
    case None => None
    case Some((v, rest)) =>
      var t := SkipWs(rest);
      if t == [] then None
      else if t[0] == ']' then Some(([v], t[1..]))
      else if t[0] == ',' then
        match ParseElements(t[1..])
        case None => None
        case Some((vs, r)) => Some(([v] + vs, r))
      else None
  }

  /** The members of an object whose `{` has been read, up to and including `}`. */
  function ParseObject(s: string): (r: Option<(seq<Member>, string)>)
    ensures r.Some? ==> |r.value.1| < |s|
    decreases |s|, 2
  {
    var t := SkipWs(s);
    if t != [] && t[0] == '}' then Some(([], t[1..])) else ParseMembers(t)
  }

  function ParseMembers(s: string): (r: Option<(seq<Member>, string)>)
    ensures r.Some? ==> |r.value.1| < |s|
    decreases |s|, 1
  {
    var t := SkipWs(s);
    if t == [] || t[0] != '"' then None
    else
      match ParseStringBody(t[1..])
      case None => None
      case Some((key, r1)) =>
        var u := SkipWs(r1);
        if u == [] || u[0] != ':' then None
        else
          match ParseValue(u[1..])
          case None => None
          case Some((v, r2)) =>
            var w := SkipWs(r2);
            if w == [] then None
            else if w[0] == '}' then Some(([Member(key, v)], w[1..]))
            else if w[0] == ',' then
              match ParseMembers(w[1..])
              case None => None
              case Some((ms, r)) => Some(([Member(key, v)] + ms, r))
            else None
  }

  /** A whole document: one value with nothing but white space around it. */
  function Parse(text: string): Option<Json> {
    match ParseValue(text)
    case None => None
    case Some((j, rest)) => if SkipWs(rest) == [] then Some(j) else None
  }

  // ---------------------------------------------------------------------------
  // The round trip
  // ---------------------------------------------------------------------------

  /** Text that may follow a serialized value without changing how it is read. */
  predicate Boundary(rest: string) { rest == [] || !IsDigit(rest[0]) }

  lemma HexDigitValue(d: nat)
    requires d < 16
    ensures HexValue(HexDigit(d)) == Some(d)
  {
  }

  lemma {:induction false} UnescapeHex(c: char, rest: string)
    requires HexEscaped(c)
    ensures var e := EscapeChar(c);
      |e| == 6 && e[0] == '\\' && Unescape(e[1..] + rest) == Some((c, rest))
  {
    var e := EscapeChar(c);
    var hi, lo := c as int / 16, c as int % 16;
    HexDigitValue(0);
    HexDigitValue(hi);
    HexDigitValue(lo);
    var s := e[1..] + rest;
    assert s[0] == 'u';
    assert s[1..5] == ['0', '0', HexDigit(hi), HexDigit(lo)];
    assert Hex4(s[1..5]) == Some(((0 * 16 + 0) * 16 + hi) * 16 + lo);
    assert s[5..] == rest;
  }

  /** The line and paragraph separators, which the encoder writes as `\u2028` and
      `\u2029`, read back as themselves. */
  lemma {:induction false} UnescapeSeparator(c: char, rest: string)
    requires c == '\U{2028}' || c == '\U{2029}'
    ensures var e := EscapeChar(c);
      |e| == 6 && e[0] == '\\' && Unescape(e[1..] + rest) == Some((c, rest))
  {
    var e := EscapeChar(c);
    var last := if c == '\U{2028}' then 8 else 9;
    HexDigitValue(2);
    HexDigitValue(0);
    HexDigitValue(last);
    var s := e[1..] + rest;
    assert s[0] == 'u';
    assert s[1..5] == [HexDigit(2), HexDigit(0), HexDigit(2), HexDigit(last)];
    assert Hex4(s[1..5]) == Some(((2 * 16 + 0) * 16 + 2) * 16 + last);
    assert s[5..] == rest;
  }

  /** Reading back one escaped character. */
  lemma {:induction false} ParseEscapedChar(c: char, tail: string)
    ensures ParseStringBody(EscapeChar(c) + tail) ==
      match ParseStringBody(tail)
      case None => None
      case Some((u, r)) => Some(([c] + u, r))
  {
    var e := EscapeChar(c);
    var s := e + tail;
    if ShortEscaped(c) {
      assert s[1..] == [e[1]] + tail;
      assert s[1..][1..] == tail;
    } else if HexEscaped(c) {
      UnescapeHex(c, tail);
      assert s[1..] == e[1..] + tail;
    } else if c == '\U{2028}' || c == '\U{2029}' {
      UnescapeSeparator(c, tail);
      assert s[1..] == e[1..] + tail;
    } else {
      assert s[1..] == tail;
    }
  }

  lemma {:induction false} ParseStringQuoted(str: string, rest: string)
    ensures ParseStringBody(Escape(str) + "\"" + rest) == Some((str, rest))
    decreases |str|
  {
    if str == [] {
      assert Escape(str) + "\"" + rest == "\"" + rest;
    } else {
      var tail := Escape(str[1..]) + "\"" + rest;
      assert Escape(str) + "\"" + rest == EscapeChar(str[0]) + tail;
      ParseStringQuoted(str[1..], rest);
      ParseEscapedChar(str[0], tail);
      assert [str[0]] + str[1..] == str;
    }
  }

  lemma {:induction false} DigitRunOf(t: string, rest: string)
    requires AllDigits(t) && Boundary(rest)
    ensures DigitRun(t + rest) == |t|
    decreases |t|
  {
    if t != [] {
      assert (t + rest)[1..] == t[1..] + rest;
      DigitRunOf(t[1..], rest);
    }
  }

  lemma {:induction false} ParseNatText(n: nat, rest: string)
    requires Boundary(rest)
    ensures ParseNat(NatText(n) + rest) == Some((n, rest))
  {
    var t := NatText(n);
    var s := t + rest;
    if n == 0 {
      assert t == "0";
      assert s[1..] == rest;
    } else {
      DigitRunOf(t, rest);
      assert s[..|t|] == t && s[|t|..] == rest;
      DigitsValueNatText(n);
    }
  }

  lemma NegativeIntOf(u: string, m: nat, rest: string)
    requires ParseNat(u) == Some((m, rest))
    ensures ParseInt("-" + u) == Some((-(m as int), rest))
  {
    var s := "-" + u;
    assert s[1..] == u;
  }

  lemma NonNegativeIntOf(u: string, m: nat, rest: string)
    requires ParseNat(u) == Some((m, rest))
    ensures ParseInt(u) == Some((m as int, rest))
  {
  }

  lemma ParseIntText(n: int, rest: string)
    requires Boundary(rest)
    ensures ParseInt(IntText(n) + rest) == Some((n, rest))
  {
    if n < 0 {
      ParseNegativeText(-n, rest);
    } else {
      ParseNatText(n, rest);
      NonNegativeIntOf(NatText(n) + rest, n, rest);
    }
  }

  lemma ParseNegativeText(m: nat, rest: string)
    requires m > 0 && Boundary(rest)
    ensures ParseInt("-" + NatText(m) + rest) == Some((-(m as int), rest))
  {
    ParseNatText(m, rest);
    SignFirst(NatText(m), rest);
    NegativeIntOf(NatText(m) + rest, m, rest);
  }

  lemma SignFirst(t: string, rest: string)
    ensures "-" + t + rest == "-" + (t + rest)
  {
  }

  /** Serialized text never starts with white space, so leading `SkipWs` is a no-op. */
  lemma SerializeStart(j: Json)
    ensures Serialize(j) != [] && !IsWs(Serialize(j)[0])
  {
  }

  lemma SkipWsNoop(s: string)
    requires s == [] || !IsWs(s[0])
    ensures SkipWs(s) == s
  {
  }

  lemma {:induction false} ParseLiteralSerialize(j: Json, rest: string)
    requires j.Null? || j.Bool?
    ensures ParseValue(Serialize(j) + rest) == Some((j, rest))
  {
    var s := Serialize(j) + rest;
    SkipWsNoop(s);
    if j.Null? {
      assert s[..4] == "null" && s[4..] == rest;
    } else if j.b {
      assert s[..4] == "true" && s[4..] == rest;
    } else {
      assert s[..5] == "false" && s[5..] == rest;
    }
  }

  lemma {:induction false} ParseNumSerialize(n: int, rest: string)
    requires Boundary(rest)
    ensures ParseValue(Serialize(Num(n)) + rest) == Some((Num(n), rest))
  {
    var s := Serialize(Num(n)) + rest;
    SerializeStart(Num(n));
    SkipWsNoop(s);
    ParseIntText(n, rest);
  }

  lemma {:induction false} ParseStrSerialize(str: string, rest: string)
    ensures ParseValue(Serialize(Str(str)) + rest) == Some((Str(str), rest))
  {
    var s := Serialize(Str(str)) + rest;
    SkipWsNoop(s);
    assert s[1..] == Escape(str) + "\"" + rest;
    ParseStringQuoted(str, rest);
  }

  lemma {:induction false} ParseArrSerialize(items: seq<Json>, rest: string)
    ensures ParseValue(Serialize(Arr(items)) + rest) == Some((Arr(items), rest))
    decreases Arr(items), 1
  {
    ParseArraySerialize(items, rest);
    Bracketed('[', SerializeItems(items), ']', rest);
    ArrayValueOf(SerializeItems(items) + "]" + rest, items, rest);
  }

  lemma {:induction false} ParseObjSerialize(members: seq<Member>, rest: string)
    ensures ParseValue(Serialize(Obj(members)) + rest) == Some((Obj(members), rest))
    decreases Obj(members), 1
  {
    ParseObjectSerialize(members, rest);
    Bracketed('{', SerializeMembers(members), '}', rest);
    ObjectValueOf(SerializeMembers(members) + "}" + rest, members, rest);
  }

  lemma Bracketed(open: char, t: string, close: char, rest: string)
    ensures [open] + t + [close] + rest == [open] + (t + [close] + rest)
  {
  }

  lemma ArrayValueOf(t: string, items: seq<Json>, rest: string)
    requires ParseArray(t) == Some((items, rest))
    ensures ParseValue("[" + t) == Some((Arr(items), rest))
  {
    var s := "[" + t;
    SkipWsNoop(s);
    assert s[1..] == t;
  }

  lemma ObjectValueOf(t: string, members: seq<Member>, rest: string)
    requires ParseObject(t) == Some((members, rest))
    ensures ParseValue("{" + t) == Some((Obj(members), rest))
  {
    var s := "{" + t;
    SkipWsNoop(s);
    assert s[1..] == t;
  }

  /** Reading a serialized value gives the value back and stops right after it. */
  lemma {:induction false} ParseValueSerialize(j: Json, rest: string)
    requires Boundary(rest)
    ensures ParseValue(Serialize(j) + rest) == Some((j, rest))
    decreases j, 2
  {
    match j
    case Null => ParseLiteralSerialize(j, rest);
    case Bool(_) => ParseLiteralSerialize(j, rest);
    case Num(n) => ParseNumSerialize(n, rest);
    case Str(str) => ParseStrSerialize(str, rest);
    case Arr(items) => ParseArrSerialize(items, rest);
    case Obj(members) => ParseObjSerialize(members, rest);
  }

  lemma {:induction false} ParseArraySerialize(items: seq<Json>, rest: string)
    ensures ParseArray(SerializeItems(items) + "]" + rest) == Some((items, rest))
    decreases items, 3
  {
    var s := SerializeItems(items) + "]" + rest;
    if items == [] {
      assert s == "]" + rest;
      assert s[1..] == rest;
    } else {
      SerializeStart(items[0]);
      SkipWsNoop(s);
      ParseElementsSerialize(items, rest);
    }
  }

  /** `ParseElements` on a value followed by the closing bracket. */
  lemma ElementsLast(s: string, v: Json, after: string)
    requires ParseValue(s) == Some((v, after))
    requires after != [] && after[0] == ']'
    ensures ParseElements(s) == Some(([v], after[1..]))
  {
    SkipWsNoop(after);
  }

  /** `ParseElements` on a value followed by a comma and further elements. */
  lemma ElementsNext(s: string, v: Json, after: string, vs: seq<Json>, r: string)
    requires ParseValue(s) == Some((v, after))
    requires after != [] && after[0] == ','
    requires ParseElements(after[1..]) == Some((vs, r))
    ensures ParseElements(s) == Some(([v] + vs, r))
  {
    SkipWsNoop(after);
  }

  lemma {:induction false} ParseElementsSerialize(items: seq<Json>, rest: string)
    requires items != []
    ensures ParseElements(SerializeItems(items) + "]" + rest) == Some((items, rest))
    decreases items, 2
  {
    var s := SerializeItems(items) + "]" + rest;
    if |items| == 1 {
      var after := "]" + rest;
      assert s == Serialize(items[0]) + after;
      ParseValueSerialize(items[0], after);
      ElementsLast(s, items[0], after);
      assert after[1..] == rest;
      assert [items[0]] == items;
    } else {
      var tail := SerializeItems(items[1..]) + "]" + rest;
      var after := "," + tail;
      assert s == Serialize(items[0]) + after;
      ParseValueSerialize(items[0], after);
      assert after[1..] == tail;
      ParseElementsSerialize(items[1..], rest);
      ElementsNext(s, items[0], after, items[1..], rest);
      assert [items[0]] + items[1..] == items;
    }
  }

  lemma {:induction false} ParseObjectSerialize(members: seq<Member>, rest: string)
    ensures ParseObject(SerializeMembers(members) + "}" + rest) == Some((members, rest))
    decreases members, 3
  {
    var s := SerializeMembers(members) + "}" + rest;
    if members == [] {
      assert s == "}" + rest;
      assert s[1..] == rest;
    } else {
      ParseMembersSerialize(members, rest);
    }
  }

  /** The front of `ParseMembers`: a key, a colon and a value are read from `s`. */
  predicate MemberAt(s: string, key: string, v: Json, after: string) {
    && s != [] && s[0] == '"'
    && ParseStringBody(s[1..]).Some?
    && ParseStringBody(s[1..]).value.0 == key
    && var colon := ParseStringBody(s[1..]).value.1;
       colon != [] && colon[0] == ':'
       && ParseValue(colon[1..]) == Some((v, after))
  }

  /** `ParseMembers` on a member followed by the closing brace. */
  lemma MembersLast(s: string, key: string, v: Json, after: string)
    requires MemberAt(s, key, v, after)
    requires after != [] && after[0] == '}'
    ensures ParseMembers(s) == Some(([Member(key, v)], after[1..]))
  {
    SkipWsNoop(s);
    SkipWsNoop(ParseStringBody(s[1..]).value.1);
    SkipWsNoop(after);
  }

  /** `ParseMembers` on a member followed by a comma and further members. */
  lemma MembersNext(s: string, key: string, v: Json, after: string, ms: seq<Member>, r: string)
    requires MemberAt(s, key, v, after)
    requires after != [] && after[0] == ','
    requires ParseMembers(after[1..]) == Some((ms, r))
    ensures ParseMembers(s) == Some(([Member(key, v)] + ms, r))
  {
    SkipWsNoop(s);
    SkipWsNoop(ParseStringBody(s[1..]).value.1);
    SkipWsNoop(after);
  }

  /** Reading the key and the value of one serialized member. */
  lemma {:induction false} ParseMemberHead(m: Member, after: string)
    requires Boundary(after)
    ensures MemberAt(SerializeMember(m) + after, m.key, m.value, after)
    decreases m, 0
  {
    var colon := ":" + (Serialize(m.value) + after);
    MemberShape(m, after);
    DropFirst('"', Escape(m.key) + "\"" + colon);
    DropFirst(':', Serialize(m.value) + after);
    ParseStringQuoted(m.key, colon);
    ParseValueSerialize(m.value, after);
  }

  lemma MemberShape(m: Member, after: string)
    ensures SerializeMember(m) + after == "\"" + (Escape(m.key) + "\"" + (":" + (Serialize(m.value) + after)))
  {
  }

  lemma DropFirst(c: char, t: string)
    ensures ([c] + t)[0] == c && ([c] + t)[1..] == t
  {
  }

  lemma {:induction false} ParseMembersSerialize(members: seq<Member>, rest: string)
    requires members != []
    ensures ParseMembers(SerializeMembers(members) + "}" + rest) == Some((members, rest))
    decreases members, 2
  {
    if |members| == 1 {
      ParseLastMember(members[0], rest);
      assert [members[0]] == members;
    } else {
      ParseMembersSerialize(members[1..], rest);
      ParseNextMember(members[0], members[1..], rest);
      assert [members[0]] + members[1..] == members;
    }
  }

  /** One member and the closing brace. */
  lemma {:induction false} ParseLastMember(m: Member, rest: string)
    ensures ParseMembers(SerializeMember(m) + "}" + rest) == Some(([m], rest))
    decreases m, 1
  {
    var after := "}" + rest;
    var s := SerializeMember(m) + after;
    assert SerializeMember(m) + "}" + rest == s;
    ParseMemberHead(m, after);
    MembersLast(s, m.key, m.value, after);
    assert after[1..] == rest;
  }

  /** One member, a comma, and members that read back. */
  lemma {:induction false} ParseNextMember(m: Member, tail: seq<Member>, rest: string)
    requires tail != [] && ParseMembers(SerializeMembers(tail) + "}" + rest) == Some((tail, rest))
    ensures ParseMembers(SerializeMembers([m] + tail) + "}" + rest) == Some(([m] + tail, rest))
    decreases m, 1
  {
    var tailText := SerializeMembers(tail) + "}" + rest;
    var after := "," + tailText;
    SerializeMembersCons(m, tail, rest);
    DropFirst(',', tailText);
    ParseMemberHead(m, after);
    MembersNext(SerializeMember(m) + after, m.key, m.value, after, tail, rest);
  }

  lemma SerializeMembersCons(m: Member, tail: seq<Member>, rest: string)
    requires tail != []
    ensures SerializeMembers([m] + tail) + "}" + rest == SerializeMember(m) + ("," + (SerializeMembers(tail) + "}" + rest))
  {
    assert ([m] + tail)[1..] == tail;
  }

  /** `Parse` inverts `Serialize`. */
  lemma ParseSerialize(j: Json)
    ensures Parse(Serialize(j)) == Some(j)
  {
    ParseValueSerialize(j, "");
    assert Serialize(j) + "" == Serialize(j);
  }
}
