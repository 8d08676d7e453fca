/** The part of Go's `encoding/json` the client depends on: how a Go value of a given
    static type (a `Shape`) is written as a JSON document, and how a document is read
    into an existing Go value.

    Reading follows Go's rules: a JSON `null` sets a pointer or slice to nil and leaves
    a bool, string, number or struct untouched; an object is read into a struct field
    by field, matching each key to the field with exactly that name or else to the
    first field whose name equals it up to case (`EqualFold`); keys that match no field are
    skipped; a later duplicate key overwrites (or, for a nested struct, merges into)
    what an earlier one set; a `uint` takes only integers in [0, 2^64); anything else
    of the wrong kind is a type error. */
module GoJson {
  import opened Wrappers
  import opened JsonText

  const UintLimit: nat := 0x1_0000_0000_0000_0000

  /** The static type of a Go value, as far as the JSON codec is concerned. */
  datatype Shape =
    | BoolShape
    | StringShape
    | UintShape
    | StructShape(fields: seq<Field>)
    | PtrShape(elem: Shape)
    | SliceShape(elem: Shape)

  /** A struct field and the JSON key it is written under (its tag, or its name). */
  datatype Field = Field(name: string, shape: Shape)

  /** A Go value. Pointers and slices may be nil; a struct holds its fields in order. */
  datatype Value =
    | BoolVal(b: bool)
    | StringVal(s: string)
    | UintVal(n: nat)
    | StructVal(fields: seq<Value>)
    | NilPtr
    | PtrTo(target: Value)
    | NilSlice
    | SliceVal(elems: seq<Value>)

  /** `v` is a value of Go type `shape`. */
  predicate Conforms(v: Value, shape: Shape)
    decreases shape, 0
  {
    match shape
    case BoolShape => v.BoolVal?
    case StringShape => v.StringVal?
    case UintShape => v.UintVal? && v.n < UintLimit
    case StructShape(fs) => v.StructVal? && FieldsConform(v.fields, fs)
    case PtrShape(e) => v.NilPtr? || (v.PtrTo? && Conforms(v.target, e))
    case SliceShape(e) => v.NilSlice? || (v.SliceVal? && ElemsConform(v.elems, e))
  }

  /** Each of `vals` is a value of the corresponding field's type. */
  predicate FieldsConform(vals: seq<Value>, fs: seq<Field>)
    decreases fs, 1
  {
    |vals| == |fs| && forall i :: 0 <= i < |fs| ==> Conforms(vals[i], fs[i].shape)
  }

  /** Each of `es` is a value of type `e`. */
  predicate ElemsConform(es: seq<Value>, e: Shape)
    decreases e, 1
  {
    forall i :: 0 <= i < |es| ==> Conforms(es[i], e)
  }

  /** What a struct literal `&T{}` holds: Go's zero value of the type. */
  function Zero(shape: Shape): (v: Value)
    ensures Conforms(v, shape)
    decreases shape
  {
    match shape
    case BoolShape => BoolVal(false)
    case StringShape => StringVal("")
    case UintShape => UintVal(0)
    case StructShape(fs) => StructVal(ZeroFields(fs))
    case PtrShape(_) => NilPtr
    case SliceShape(_) => NilSlice
  }

  function ZeroFields(fs: seq<Field>): (vs: seq<Value>)
    ensures FieldsConform(vs, fs)
    decreases fs
  {
    if fs == [] then [] else [Zero(fs[0].shape)] + ZeroFields(fs[1..])
  }

  // ---------------------------------------------------------------------------
  // Writing: json.Marshal
  // ---------------------------------------------------------------------------

  /** The document `json.Marshal` produces for `v`; struct fields come in declaration
      order under their keys, nil pointers and nil slices become `null`. */
  function Marshal(v: Value, shape: Shape): Json
    requires Conforms(v, shape)
    decreases v, 1
  {
    match shape
    case BoolShape => Bool(v.b)
    case StringShape => Str(v.s)
    case UintShape => Num(v.n)
    case StructShape(fs) => Obj(MarshalFields(fs, v.fields, 0))
    case PtrShape(e) => if v.NilPtr? then Null else Marshal(v.target, e)
    case SliceShape(e) => if v.NilSlice? then Null else Arr(MarshalElems(v.elems, e))
  }

  /** The members written for the fields from index `k` on. */
  function MarshalFields(fs: seq<Field>, vals: seq<Value>, k: nat): (ms: seq<Member>)
    requires k <= |fs| && FieldsConform(vals, fs)
    ensures |ms| == |fs| - k
    ensures forall i :: 0 <= i < |ms| ==> ms[i].key == fs[k + i].name
    decreases vals, |vals| - k
  {
    if k == |fs| then []
    else [Member(fs[k].name, Marshal(vals[k], fs[k].shape))] + MarshalFields(fs, vals, k + 1)
  }

  function MarshalElems(es: seq<Value>, e: Shape): (items: seq<Json>)
    requires ElemsConform(es, e)
    ensures |items| == |es|
    decreases es
  {
    if es == [] then [] else [Marshal(es[0], e)] + MarshalElems(es[1..], e)
  }

  // ---------------------------------------------------------------------------
  // Reading: json.Unmarshal
  // ---------------------------------------------------------------------------

  /** Why a document could not be read into a value. */
  datatype DecodeError =
    | SyntaxError
    | TypeMismatch(found: string)
    | OutOfRange(n: int)

  function KindName(j: Json): string {
    match j
    case Null => "null"
    case Bool(_) => "bool"
    case Num(_) => "number"
    case Str(_) => "string"
    case Arr(_) => "array"
    case Obj(_) => "object"
  }

  /** The representative of `c`'s case class among the characters a field name of
      ASCII letters can match: an upper-case ASCII letter stands for its lower-case
      form, and the two non-ASCII characters that Unicode simple case folding puts in
      the class of an ASCII letter, the Kelvin sign U+212A and the long s U+017F,
      stand for `k` and `s`. */
  function Lower(c: char): char {
    if 'A' <= c <= 'Z' then ((c as int) + 32) as char
    else if c == '\U{212A}' then 'k'
    else if c == '\U{017F}' then 's'
    else c
  }

  /** `a` and `b` are equal ignoring letter case, as far as `Lower` folds it. */
  predicate EqualFold(a: string, b: string) {
    |a| == |b| && forall i :: 0 <= i < |a| ==> Lower(a[i]) == Lower(b[i])
  }

  function FirstExact(fs: seq<Field>, key: string): (r: Option<nat>)
    ensures r.Some? ==>
      r.value < |fs| && fs[r.value].name == key && forall i :: 0 <= i < r.value ==> fs[i].name != key
    ensures r.None? ==> forall i :: 0 <= i < |fs| ==> fs[i].name != key
  {
    if fs == [] then None
    else if fs[0].name == key then Some(0)
    else match FirstExact(fs[1..], key)
      case None => None
      case Some(i) => Some(i + 1)
  }

  function FirstFold(fs: seq<Field>, key: string): (r: Option<nat>)
    ensures r.Some? ==>
      r.value < |fs| && EqualFold(fs[r.value].name, key) && forall i :: 0 <= i < r.value ==> !EqualFold(fs[i].name, key)
    ensures r.None? ==> forall i :: 0 <= i < |fs| ==> !EqualFold(fs[i].name, key)
  {
    if fs == [] then None
    else if EqualFold(fs[0].name, key) then Some(0)
    else match FirstFold(fs[1..], key)
      case None => None
      case Some(i) => Some(i + 1)
  }

  /** The field a JSON key is read into: the first field named exactly `key`, and
      failing that the first one whose name matches it ignoring case. */
  function FieldIndex(fs: seq<Field>, key: string): (r: Option<nat>)
    ensures r.Some? ==> r.value < |fs|
  {
    match FirstExact(fs, key)
    case Some(i) => Some(i)
    case None => FirstFold(fs, key)
  }

  /** The field a key selects has the key as its name up to case; an exact match
      wins over a case-insensitive one; and a key selects no field exactly when no
      field's name matches it up to case. */
  lemma FieldIndexSpec(fs: seq<Field>, key: string)
    ensures var r := FieldIndex(fs, key);
      && (r.Some? ==> EqualFold(fs[r.value].name, key))
      && (r.None? <==> forall i :: 0 <= i < |fs| ==> !EqualFold(fs[i].name, key))
      && ((exists i :: 0 <= i < |fs| && fs[i].name == key) ==> r.Some? && fs[r.value].name == key)
  {
    var r := FieldIndex(fs, key);
    if r.None? {
      assert FirstExact(fs, key).None?;
      forall i | 0 <= i < |fs| ensures !EqualFold(fs[i].name, key) {
      }
    } else if FirstExact(fs, key).Some? {
      EqualFoldRefl(key);
    }
  }

  lemma EqualFoldRefl(s: string)
    ensures EqualFold(s, s)
  {
  }

  /** The non-ASCII characters that fold onto ASCII letters: a key spelled with the
      Kelvin sign or the long s selects the field whose name has `K` or `S` there. */
  lemma FoldSpecialLetters()
    ensures EqualFold("Kind", "\U{212A}ind") && EqualFold("Kind", "kind")
    ensures EqualFold("Status", "\U{017F}tatus") && EqualFold("STATUS", "\U{017F}tatu\U{017F}")
    ensures !EqualFold("Kind", "Kin") && !EqualFold("Kind", "Kine")
  {
    assert "Kind"[3] == 'd' && "Kine"[3] == 'e';
    assert Lower("Kind"[3]) != Lower("Kine"[3]);
  }

  /** `json.Unmarshal` of the document `j` into a variable of type `shape` that holds
      `cur`. */
  function Unmarshal(shape: Shape, j: Json, cur: Value): (r: Result<Value, DecodeError>)
    requires Conforms(cur, shape)
    ensures r.Success? ==> Conforms(r.value, shape)
    decreases j, shape
  {
    match shape
    case PtrShape(e) =>
      if j.Null? then Success(NilPtr)
      else
        var target := if cur.PtrTo? then cur.target else Zero(e);
        (match Unmarshal(e, j, target)
         case Failure(err) => Failure(err)
         case Success(t) => Success(PtrTo(t)))
    case SliceShape(e) =>
      if j.Null? then Success(NilSlice)
      else if j.Arr? then
        var existing := if cur.SliceVal? then cur.elems else [];
        (match UnmarshalElems(e, j.items, existing)
         case Failure(err) => Failure(err)
         case Success(es) => Success(SliceVal(es)))
      else Failure(TypeMismatch(KindName(j)))
    case BoolShape =>
      if j.Null? then Success(cur)
      else if j.Bool? then Success(BoolVal(j.b))
      else Failure(TypeMismatch(KindName(j)))
    case StringShape =>
      if j.Null? then Success(cur)
      else if j.Str? then Success(StringVal(j.s))
      else Failure(TypeMismatch(KindName(j)))
    case UintShape =>
      if j.Null? then Success(cur)
      else if j.Num? then
        if 0 <= j.n < UintLimit then Success(UintVal(j.n)) else Failure(OutOfRange(j.n))
      else Failure(TypeMismatch(KindName(j)))
    case StructShape(fs) =>
      if j.Null? then Success(cur)
      else if j.Obj? then
        (match UnmarshalMembers(fs, j.members, cur.fields)
         case Failure(err) => Failure(err)
         case Success(vals) => Success(StructVal(vals)))
      else Failure(TypeMismatch(KindName(j)))
  }

  /** The members of an object read one after the other into the struct's fields. */
  function UnmarshalMembers(fs: seq<Field>, ms: seq<Member>, vals: seq<Value>): (r: Result<seq<Value>, DecodeError>)
    requires FieldsConform(vals, fs)
    ensures r.Success? ==> FieldsConform(r.value, fs)
    decreases ms, 0
  {
    if ms == [] then Success(vals)
    else
      match FieldIndex(fs, ms[0].key)
      case None => UnmarshalMembers(fs, ms[1..], vals)
      case Some(k) =>
        match Unmarshal(fs[k].shape, ms[0].value, vals[k])
        case Failure(err) => Failure(err)
        case Success(v) => UnmarshalMembers(fs, ms[1..], vals[k := v])
  }

  /** The items of an array read into a slice: item `i` is read into the slice's old
      element `i` while there is one, and into a zero element beyond that. */
  function UnmarshalElems(e: Shape, items: seq<Json>, existing: seq<Value>): (r: Result<seq<Value>, DecodeError>)
    requires ElemsConform(existing, e)
    ensures r.Success? ==> |r.value| == |items| && ElemsConform(r.value, e)
    decreases items, 0
  {
    if items == [] then Success([])
    else
      var c := if existing != [] then existing[0] else Zero(e);
      match Unmarshal(e, items[0], c)
      case Failure(err) => Failure(err)
      case Success(v) =>
        match UnmarshalElems(e, items[1..], if existing != [] then existing[1..] else [])
        case Failure(err) => Failure(err)
        case Success(vs) => Success([v] + vs)
  }

  // ---------------------------------------------------------------------------
  // Byte level
  // ---------------------------------------------------------------------------

  /** `json.Marshal(v)` as text. */
  function Encode(v: Value, shape: Shape): string
    requires Conforms(v, shape)
  {
    Serialize(Marshal(v, shape))
  }

  /** `json.Unmarshal(text, &x)` where `x` holds `cur`: a syntax error leaves nothing
      read; otherwise the document is read into `cur`. */
  function Decode(shape: Shape, text: string, cur: Value): (r: Result<Value, DecodeError>)
    requires Conforms(cur, shape)
    ensures r.Success? ==> Conforms(r.value, shape)
  {
    match Parse(text)
    case None => Failure(SyntaxError)
    case Some(j) => Unmarshal(shape, j, cur)
  }

  // ---------------------------------------------------------------------------
  // The round trip
  // ---------------------------------------------------------------------------

  /** Types whose values survive a round trip: struct field keys are distinct, and a
      pointer does not point at something that is itself written as `null` when nil. */
  predicate WellFormed(shape: Shape)
    decreases shape
  {
    match shape
    case StructShape(fs) => DistinctNames(fs) && FieldsWellFormed(fs)
    case PtrShape(e) => !e.PtrShape? && !e.SliceShape? && WellFormed(e)
    case SliceShape(e) => WellFormed(e)
    case _ => true
  }

  predicate DistinctNames(fs: seq<Field>) {
    forall i, k :: 0 <= i < k < |fs| ==> fs[i].name != fs[k].name
  }

  predicate FieldsWellFormed(fs: seq<Field>)
    decreases fs
  {
    forall i :: 0 <= i < |fs| ==> WellFormed(fs[i].shape)
  }

  /** With distinct keys, a field's own key selects that field. */
  lemma FieldIndexOwnKey(fs: seq<Field>, k: nat)
    requires k < |fs|
    requires DistinctNames(fs)
    ensures FieldIndex(fs, fs[k].name) == Some(k)
  {
    FieldIndexSpec(fs, fs[k].name);
  }

  /** A key no field carries exactly selects the first field whose name matches it
      ignoring case. */
  lemma FoldSelects(fs: seq<Field>, key: string, k: nat)
    requires k < |fs| && EqualFold(fs[k].name, key)
    requires forall i :: 0 <= i < k ==> !EqualFold(fs[i].name, key)
    requires forall i :: 0 <= i < |fs| ==> fs[i].name != key
    ensures FieldIndex(fs, key) == Some(k)
  {
  }

  /** Reading what `Marshal` wrote gives the value back, whatever the variable held. */
  lemma {:induction false} UnmarshalMarshal(v: Value, shape: Shape, cur: Value)
    requires WellFormed(shape) && Conforms(v, shape) && Conforms(cur, shape)
    ensures Unmarshal(shape, Marshal(v, shape), cur) == Success(v)
    decreases v, 2
  {
    match shape
    case BoolShape =>
    case StringShape =>
    case UintShape =>
    case StructShape(fs) => UnmarshalMarshalStruct(v, fs, cur);
    case PtrShape(e) => UnmarshalMarshalPtr(v, e, cur);
    case SliceShape(e) => UnmarshalMarshalSlice(v, e, cur);
  }

  lemma {:induction false} UnmarshalMarshalStruct(v: Value, fs: seq<Field>, cur: Value)
    requires WellFormed(StructShape(fs)) && Conforms(v, StructShape(fs)) && Conforms(cur, StructShape(fs))
    ensures Unmarshal(StructShape(fs), Marshal(v, StructShape(fs)), cur) == Success(v)
    decreases v, 1
  {
    ReadsSelf(fs);
    ReadFields(fs, fs, v.fields, 0, cur.fields);
    assert Progress(v.fields, cur.fields, 0) == cur.fields;
    assert v.fields[..|fs|] == v.fields;
  }

  lemma {:induction false} UnmarshalMarshalPtr(v: Value, e: Shape, cur: Value)
    requires WellFormed(PtrShape(e)) && Conforms(v, PtrShape(e)) && Conforms(cur, PtrShape(e))
    ensures Unmarshal(PtrShape(e), Marshal(v, PtrShape(e)), cur) == Success(v)
    decreases v, 1
  {
    if v.PtrTo? {
      var target := if cur.PtrTo? then cur.target else Zero(e);
      UnmarshalMarshal(v.target, e, target);
      NotNull(v.target, e);
    }
  }

  lemma {:induction false} UnmarshalMarshalSlice(v: Value, e: Shape, cur: Value)
    requires WellFormed(SliceShape(e)) && Conforms(v, SliceShape(e)) && Conforms(cur, SliceShape(e))
    ensures Unmarshal(SliceShape(e), Marshal(v, SliceShape(e)), cur) == Success(v)
    decreases v, 1
  {
    if v.SliceVal? {
      var existing := if cur.SliceVal? then cur.elems else [];
      UnmarshalMarshalElems(v.elems, e, existing);
    }
  }

  /** A value of a type that is not a pointer or a slice is never written as `null`. */
  lemma NotNull(v: Value, shape: Shape)
    requires Conforms(v, shape) && !shape.PtrShape? && !shape.SliceShape?
    ensures !Marshal(v, shape).Null?
  {
  }

  /** One member read into the field its key selects. */
  lemma MembersStep(fs: seq<Field>, ms: seq<Member>, vals: seq<Value>, k: nat, v: Value)
    requires FieldsConform(vals, fs)
    requires ms != [] && FieldIndex(fs, ms[0].key) == Some(k)
    requires Unmarshal(fs[k].shape, ms[0].value, vals[k]) == Success(v)
    ensures UnmarshalMembers(fs, ms, vals) == UnmarshalMembers(fs, ms[1..], vals[k := v])
  {
  }

  /** One member whose key selects no field. */
  lemma MembersSkip(fs: seq<Field>, ms: seq<Member>, vals: seq<Value>)
    requires FieldsConform(vals, fs)
    requires ms != [] && FieldIndex(fs, ms[0].key).None?
    ensures UnmarshalMembers(fs, ms, vals) == UnmarshalMembers(fs, ms[1..], vals)
  {
  }

  /** A struct written with fields `sfs` can be read into a struct with fields `cfs`:
      the first `|cfs|` keys written select the corresponding field (possibly through
      a case-insensitive match) of the same type, and the remaining keys select none. */
  predicate Reads(sfs: seq<Field>, cfs: seq<Field>) {
    && |cfs| <= |sfs|
    && (forall i :: 0 <= i < |cfs| ==> sfs[i].shape == cfs[i].shape)
    && (forall i :: 0 <= i < |cfs| ==> FieldIndex(cfs, sfs[i].name) == Some(i))
    && (forall i :: |cfs| <= i < |sfs| ==> FieldIndex(cfs, sfs[i].name).None?)
  }

  /** A struct type reads its own encoding. */
  lemma ReadsSelf(fs: seq<Field>)
    requires DistinctNames(fs)
    ensures Reads(fs, fs)
  {
    forall i | 0 <= i < |fs| ensures FieldIndex(fs, fs[i].name) == Some(i) {
      FieldIndexOwnKey(fs, i);
    }
  }

  /** The fields of the struct being read after the first `k` written members. */
  function Progress(vals: seq<Value>, cur: seq<Value>, k: nat): seq<Value>
    requires |cur| <= |vals|
  {
    if k >= |cur| then vals[..|cur|] else vals[..k] + cur[k..]
  }

  lemma Splice<T>(vals: seq<T>, cur: seq<T>, k: nat)
    requires k < |cur| <= |vals|
    ensures (vals[..k] + cur[k..])[k := vals[k]] == vals[..k + 1] + cur[k + 1..]
    ensures (vals[..k] + cur[k..])[k] == cur[k]
    ensures k + 1 == |cur| ==> vals[..k + 1] + cur[k + 1..] == vals[..|cur|]
  {
  }

  lemma ProgressConforms(sfs: seq<Field>, cfs: seq<Field>, vals: seq<Value>, k: nat, cur: seq<Value>)
    requires Reads(sfs, cfs) && |sfs| == |vals| && |cur| == |cfs|
    requires FieldsConform(vals, sfs) && FieldsConform(cur, cfs)
    ensures FieldsConform(Progress(vals, cur, k), cfs)
  {
  }

  /** Reading the members written for fields `k..` of `sfs` into a struct with fields
      `cfs` that has already read the first `k`. */
  lemma {:induction false} ReadFields(sfs: seq<Field>, cfs: seq<Field>, vals: seq<Value>, k: nat, cur: seq<Value>)
    requires Reads(sfs, cfs) && k <= |sfs| == |vals| && |cur| == |cfs|
    requires FieldsWellFormed(sfs) && FieldsConform(vals, sfs) && FieldsConform(cur, cfs)
    ensures FieldsConform(Progress(vals, cur, k), cfs)
    ensures UnmarshalMembers(cfs, MarshalFields(sfs, vals, k), Progress(vals, cur, k)) == Success(vals[..|cfs|])
    decreases vals, |vals| - k, 1
  {
    ProgressConforms(sfs, cfs, vals, k, cur);
    if k < |sfs| {
      var ms := MarshalFields(sfs, vals, k);
      assert ms[0] == Member(sfs[k].name, Marshal(vals[k], sfs[k].shape));
      assert ms[1..] == MarshalFields(sfs, vals, k + 1);
      ReadFields(sfs, cfs, vals, k + 1, cur);
      if k < |cfs| {
        ReadKnownField(sfs, cfs, vals, k, cur, ms);
      } else {
        ProgressConforms(sfs, cfs, vals, k + 1, cur);
        MembersSkip(cfs, ms, Progress(vals, cur, k));
      }
    }
  }

  lemma ReadKnownField(sfs: seq<Field>, cfs: seq<Field>, vals: seq<Value>, k: nat, cur: seq<Value>, ms: seq<Member>)
    requires Reads(sfs, cfs) && k < |cfs| && |sfs| == |vals| && |cur| == |cfs|
    requires FieldsWellFormed(sfs) && FieldsConform(vals, sfs) && FieldsConform(cur, cfs)
    requires ms != [] && ms[0] == Member(sfs[k].name, Marshal(vals[k], sfs[k].shape))
    ensures FieldsConform(Progress(vals, cur, k), cfs) && FieldsConform(Progress(vals, cur, k + 1), cfs)
    ensures UnmarshalMembers(cfs, ms, Progress(vals, cur, k)) == UnmarshalMembers(cfs, ms[1..], Progress(vals, cur, k + 1))
    decreases vals, |vals| - k, 0
  {
    ProgressConforms(sfs, cfs, vals, k, cur);
    ProgressConforms(sfs, cfs, vals, k + 1, cur);
    Splice(vals, cur, k);
    UnmarshalMarshal(vals[k], sfs[k].shape, cur[k]);
    MembersStep(cfs, ms, Progress(vals, cur, k), k, vals[k]);
  }

  /** Reading a struct that was written with fields `sfs` into one with fields `cfs`
      gives the values of the fields `cfs` declares. */
  lemma DecodeReads(vals: seq<Value>, sfs: seq<Field>, cfs: seq<Field>, cur: Value)
    requires Reads(sfs, cfs) && FieldsWellFormed(sfs)
    requires FieldsConform(vals, sfs) && Conforms(cur, StructShape(cfs))
    ensures Decode(StructShape(cfs), Encode(StructVal(vals), StructShape(sfs)), cur) == Success(StructVal(vals[..|cfs|]))
  {
    var j := Marshal(StructVal(vals), StructShape(sfs));
    ParseSerialize(j);
    ReadFields(sfs, cfs, vals, 0, cur.fields);
    assert Progress(vals, cur.fields, 0) == cur.fields;
  }

  lemma {:induction false} UnmarshalMarshalElems(es: seq<Value>, e: Shape, existing: seq<Value>)
    requires WellFormed(e)
    requires ElemsConform(es, e) && ElemsConform(existing, e)
    ensures UnmarshalElems(e, MarshalElems(es, e), existing) == Success(es)
    decreases es, 0
  {
    if es != [] {
      var items := MarshalElems(es, e);
      assert items[0] == Marshal(es[0], e) && items[1..] == MarshalElems(es[1..], e);
      var c := if existing != [] then existing[0] else Zero(e);
      UnmarshalMarshal(es[0], e, c);
      UnmarshalMarshalElems(es[1..], e, if existing != [] then existing[1..] else []);
      assert [es[0]] + es[1..] == es;
    }
  }

  /** `json.Unmarshal` inverts `json.Marshal` on well-formed types. */
  lemma DecodeEncode(v: Value, shape: Shape, cur: Value)
    requires WellFormed(shape) && Conforms(v, shape) && Conforms(cur, shape)
    ensures Decode(shape, Encode(v, shape), cur) == Success(v)
  {
    ParseSerialize(Marshal(v, shape));
    UnmarshalMarshal(v, shape, cur);
  }

  /** Keys that match no field are skipped. */
  lemma {:induction false} UnmarshalUnknownMembers(fs: seq<Field>, ms: seq<Member>, vals: seq<Value>)
    requires FieldsConform(vals, fs)
    requires forall m :: 0 <= m < |ms| ==> FieldIndex(fs, ms[m].key).None?
    ensures UnmarshalMembers(fs, ms, vals) == Success(vals)
    decreases |ms|
  {
    if ms != [] {
      UnmarshalUnknownMembers(fs, ms[1..], vals);
    }
  }

  /** Reading an object's members in two runs. */
  lemma {:induction false} UnmarshalMembersAppend(fs: seq<Field>, a: seq<Member>, b: seq<Member>, vals: seq<Value>)
    requires FieldsConform(vals, fs)
    ensures UnmarshalMembers(fs, a + b, vals) ==
      match UnmarshalMembers(fs, a, vals)
      case Failure(err) => Failure(err)
      case Success(mid) => UnmarshalMembers(fs, b, mid)
    decreases |a|
  {
    if a == [] {
      assert a + b == b;
    } else {
      assert (a + b)[0] == a[0] && (a + b)[1..] == a[1..] + b;
      match FieldIndex(fs, a[0].key)
      case None =>
        UnmarshalMembersAppend(fs, a[1..], b, vals);
      case Some(k) =>
        match Unmarshal(fs[k].shape, a[0].value, vals[k])
        case Failure(_) =>
        case Success(v) =>
          UnmarshalMembersAppend(fs, a[1..], b, vals[k := v]);
    }
  }
}
