/** The JSON error flattener of json/json.go: a depth-first walk of the error
    tree that lists one (path, message) entry per leaf, building paths with a
    pluggable joiner and messages with a pluggable formatter. */
module Json {
  import opened Errors

  /** jsonError: one entry of the serialised list. */
  datatype JsonError = JsonError(path: string, error: string)

  /** Formatter: the text of a leaf, from its message. */
  type Formatter = string -> string

  /** DefaultFormatter (json/json.go:19-21): the message itself. */
  function DefaultFormatter(message: string): (text: string)
    ensures text == message
  {
    message
  }

  /** Joiner: the path of a struct field and of a slice element below a
      base path. */
  datatype Joiner = Joiner(structPath: (string, string) -> string, slicePath: (string, int) -> string)

  /** joiner.Struct (json/json.go:32-34): the base, a dot, the field. */
  function JoinStruct(base: string, child: string): (p: string)
    ensures |p| == |base| + 1 + |child|
    ensures p[..|base|] == base && p[|base|] == '.' && p[|base| + 1..] == child
  {
    base + "." + child
  }

  /** joiner.Slice (json/json.go:36-38): the base, then the index in
      brackets, which reads back as the index. */
  function JoinSlice(base: string, index: int): (p: string)
    ensures |p| >= |base| + 3
    ensures p[..|base|] == base && p[|base|] == '[' && p[|p| - 1] == ']'
    ensures ParseDecimal(p[|base| + 1..|p| - 1]) == index
  {
    var p := base + "[" + Decimal(index) + "]";
    DecimalRoundTrip(index);
    DecimalNonEmpty(index);
    assert p[|base| + 1..|p| - 1] == Decimal(index);
    p
  }

  lemma DecimalNonEmpty(n: int)
    ensures |Decimal(n)| > 0
  {
    if n < 0 {
      DigitsRoundTrip(-n);
    } else {
      DigitsRoundTrip(n);
    }
  }

  /** DefaultJoiner (json/json.go:41). */
  const DefaultJoiner: Joiner := Joiner(JoinStruct, JoinSlice)

  /** The entries marshal appends for one error at a path
      (json/json.go:83-109). */
  function Flatten(f: Formatter, j: Joiner, e: Err, path: string): seq<JsonError>
    decreases e, 1
  {
    match e
    case Coll(es) => FlattenAll(f, j, es, path)
    case StructErr(field, es) => FlattenAll(f, j, es, j.structPath(path, field))
    case SliceErr(index, es) => FlattenAll(f, j, es, j.slicePath(path, index))
    case Leaf(msg) => [JsonError(path, f(msg))]
    case _ => [JsonError(path, Render(e))]
  }

  /** The entries of a list of errors at one path, in order. */
  function FlattenAll(f: Formatter, j: Joiner, es: seq<Err>, path: string): seq<JsonError>
    decreases es, 0
  {
    if |es| == 0 then [] else Flatten(f, j, es[0], path) + FlattenAll(f, j, es[1..], path)
  }

  lemma {:induction false} FlattenAllConcat(f: Formatter, j: Joiner, a: seq<Err>, b: seq<Err>, path: string)
    ensures FlattenAll(f, j, a + b, path) == FlattenAll(f, j, a, path) + FlattenAll(f, j, b, path)
    decreases |a|
  {
    if |a| == 0 {
      assert a + b == b;
    } else {
      assert (a + b)[1..] == a[1..] + b;
      FlattenAllConcat(f, j, a[1..], b, path);
    }
  }

  /** The slice marshal appends to, through a pointer. */
  class Entries {
    var list: seq<JsonError>

    constructor ()
      ensures list == []
    {
      list := [];
    }
  }

  /** marshaler (json/json.go:49-109). */
  class Marshaler {
    const errors: seq<Err>
    const formatter: Formatter
    const joiner: Joiner

    /** New(errors, formatter, joiner) (json/json.go:56-63). */
    constructor (errors: seq<Err>, formatter: Formatter, joiner: Joiner)
      ensures this.errors == errors && this.formatter == formatter && this.joiner == joiner
    {
      this.errors := errors;
      this.formatter := formatter;
      this.joiner := joiner;
    }

    /** Error() (json/json.go:67-69): the rendering of the collection. */
    function Error(): string
    {
      RenderAll(errors)
    }

    /** marshal(er, path, errs) (json/json.go:83-109): appends the entries of
        er and changes nothing already in the list. */
    method Marshal(er: Err, path: string, errs: Entries)
      modifies errs
      ensures errs.list == old(errs.list) + Flatten(formatter, joiner, er, path)
      decreases er, 1
    {
      match er
      case Coll(es) =>
        MarshalEach(es, path, errs);
      case StructErr(field, es) =>
        var p := joiner.structPath(path, field);
        MarshalEach(es, p, errs);
      case SliceErr(index, es) =>
        var p := joiner.slicePath(path, index);
        MarshalEach(es, p, errs);
      case Leaf(msg) =>
        errs.list := errs.list + [JsonError(path, formatter(msg))];
      case _ =>
        errs.list := errs.list + [JsonError(path, Render(er))];
    }

    /** The loop over the members of a node, shared by the Errors,
        StructError and SliceError cases. */
    method MarshalEach(es: seq<Err>, path: string, errs: Entries)
      modifies errs
      ensures errs.list == old(errs.list) + FlattenAll(formatter, joiner, es, path)
      decreases es, 0
    {
      for i := 0 to |es|
        invariant errs.list == old(errs.list) + FlattenAll(formatter, joiner, es[..i], path)
      {
        Marshal(es[i], path, errs);
        FlattenAllConcat(formatter, joiner, es[..i], [es[i]], path);
        assert es[..i + 1] == es[..i] + [es[i]];
        assert FlattenAll(formatter, joiner, [es[i]], path) == Flatten(formatter, joiner, es[i], path);
      }
      assert es[..|es|] == es;
    }

    /** MarshalJSON (json/json.go:72-81), up to the byte encoding: the
        entries of every top-level member, from path "", in order. */
    method MarshalJSON() returns (entries: seq<JsonError>)
      ensures entries == FlattenAll(formatter, joiner, errors, "")
    {
      var errs := new Entries();
      for i := 0 to |errors|
        invariant errs.list == FlattenAll(formatter, joiner, errors[..i], "")
      {
        Marshal(errors[i], "", errs);
        FlattenAllConcat(formatter, joiner, errors[..i], [errors[i]], "");
        assert errors[..i + 1] == errors[..i] + [errors[i]];
        assert FlattenAll(formatter, joiner, [errors[i]], "") == Flatten(formatter, joiner, errors[i], "");
      }
      assert errors[..|errors|] == errors;
      return errs.list;
    }
  }

  // ---------------------------------------------------------------------------
  // Properties of the walk

  function Messages(entries: seq<JsonError>): seq<string>
  {
    if |entries| == 0 then [] else [entries[0].error] + Messages(entries[1..])
  }

  lemma {:induction false} MessagesConcat(a: seq<JsonError>, b: seq<JsonError>)
    ensures Messages(a + b) == Messages(a) + Messages(b)
    decreases |a|
  {
    if |a| == 0 {
      assert a + b == b;
    } else {
      assert (a + b)[1..] == a[1..] + b;
      MessagesConcat(a[1..], b);
    }
  }

  /** With the default formatter, the walk lists the leaves' texts in depth
      first, left to right order: one entry per leaf, whatever the joiner
      and the base path. */
  lemma {:induction false} FlattenLeaves(j: Joiner, e: Err, path: string)
    ensures Messages(Flatten(DefaultFormatter, j, e, path)) == LeafTexts(e)
    ensures |Flatten(DefaultFormatter, j, e, path)| == |LeafTexts(e)|
    decreases e, 1
  {
    match e
    case Coll(es) => FlattenAllLeaves(j, es, path);
    case StructErr(field, es) => FlattenAllLeaves(j, es, j.structPath(path, field));
    case SliceErr(index, es) => FlattenAllLeaves(j, es, j.slicePath(path, index));
    case _ =>
  }

  lemma {:induction false} FlattenAllLeaves(j: Joiner, es: seq<Err>, path: string)
    ensures Messages(FlattenAll(DefaultFormatter, j, es, path)) == LeafTextsAll(es)
    ensures |FlattenAll(DefaultFormatter, j, es, path)| == |LeafTextsAll(es)|
    decreases es, 0
  {
    if |es| > 0 {
      FlattenLeaves(j, es[0], path);
      FlattenAllLeaves(j, es[1..], path);
      MessagesConcat(Flatten(DefaultFormatter, j, es[0], path), FlattenAll(DefaultFormatter, j, es[1..], path));
    }
  }

  /** Every entry's path extends the base path, under the default joiner. */
  lemma {:induction false} FlattenPathsExtend(f: Formatter, e: Err, path: string)
    ensures forall x :: x in Flatten(f, DefaultJoiner, e, path) ==> path <= x.path
    decreases e, 1
  {
    match e
    case Coll(es) => FlattenAllPathsExtend(f, es, path);
    case StructErr(field, es) => FlattenAllPathsExtend(f, es, JoinStruct(path, field));
    case SliceErr(index, es) => FlattenAllPathsExtend(f, es, JoinSlice(path, index));
    case _ =>
  }

  lemma {:induction false} FlattenAllPathsExtend(f: Formatter, es: seq<Err>, path: string)
    ensures forall x :: x in FlattenAll(f, DefaultJoiner, es, path) ==> path <= x.path
    decreases es, 0
  {
    if |es| > 0 {
      FlattenPathsExtend(f, es[0], path);
      FlattenAllPathsExtend(f, es[1..], path);
    }
  }

  /** The first fixture of json_test.go:57-78: two field errors give the
      entries ".username" and ".password". */
  lemma FieldPathsExample(m1: string, m2: string)
    ensures FlattenAll(DefaultFormatter, DefaultJoiner,
                       [StructErr("username", [Leaf(m1)]), StructErr("password", [Leaf(m2)])], "")
         == [JsonError(".username", m1), JsonError(".password", m2)]
  {
    var es := [StructErr("username", [Leaf(m1)]), StructErr("password", [Leaf(m2)])];
    assert es[1..] == [StructErr("password", [Leaf(m2)])] && es[1..][1..] == [];
    assert DefaultJoiner.structPath("", "username") == ".username";
    assert DefaultJoiner.structPath("", "password") == ".password";
    assert Flatten(DefaultFormatter, DefaultJoiner, es[0], "")
        == FlattenAll(DefaultFormatter, DefaultJoiner, [Leaf(m1)], ".username");
    assert Flatten(DefaultFormatter, DefaultJoiner, es[1], "")
        == FlattenAll(DefaultFormatter, DefaultJoiner, [Leaf(m2)], ".password");
    assert FlattenAll(DefaultFormatter, DefaultJoiner, es[1..], "") == Flatten(DefaultFormatter, DefaultJoiner, es[1], "");
    assert FlattenAll(DefaultFormatter, DefaultJoiner, [Leaf(m1)], ".username") == [JsonError(".username", m1)];
    assert FlattenAll(DefaultFormatter, DefaultJoiner, [Leaf(m2)], ".password") == [JsonError(".password", m2)];
  }

  /** Two field errors of one leaf each, below any path: one entry per leaf,
      at the path joined with each field name. */
  lemma TwoFieldPaths(path: string, f1: string, f2: string, m1: string, m2: string)
    ensures FlattenAll(DefaultFormatter, DefaultJoiner, [StructErr(f1, [Leaf(m1)]), StructErr(f2, [Leaf(m2)])], path)
         == [JsonError(path + "." + f1, m1), JsonError(path + "." + f2, m2)]
  {
    var es := [StructErr(f1, [Leaf(m1)]), StructErr(f2, [Leaf(m2)])];
    assert es[1..] == [StructErr(f2, [Leaf(m2)])] && es[1..][1..] == [];
    assert DefaultFormatter(m1) == m1 && DefaultFormatter(m2) == m2;
    assert DefaultJoiner.structPath(path, f1) == path + "." + f1;
    assert DefaultJoiner.structPath(path, f2) == path + "." + f2;
    assert FlattenAll(DefaultFormatter, DefaultJoiner, [Leaf(m1)], path + "." + f1) == [JsonError(path + "." + f1, m1)];
    assert FlattenAll(DefaultFormatter, DefaultJoiner, [Leaf(m2)], path + "." + f2) == [JsonError(path + "." + f2, m2)];
    assert Flatten(DefaultFormatter, DefaultJoiner, es[0], path) == [JsonError(path + "." + f1, m1)];
    assert Flatten(DefaultFormatter, DefaultJoiner, es[1], path) == [JsonError(path + "." + f2, m2)];
    assert FlattenAll(DefaultFormatter, DefaultJoiner, es[1..], path) == [JsonError(path + "." + f2, m2)];
  }

  /** An error list nested in one slice element of one field is flattened
      at the element's path. */
  lemma ElementOfField(f: Formatter, path: string, field: string, index: int, inner: seq<Err>)
    ensures FlattenAll(f, DefaultJoiner, [StructErr(field, [SliceErr(index, inner)])], path)
         == FlattenAll(f, DefaultJoiner, inner, JoinSlice(JoinStruct(path, field), index))
  {
    var es := [StructErr(field, [SliceErr(index, inner)])];
    var p := JoinStruct(path, field);
    assert es[1..] == [];
    assert [SliceErr(index, inner)][1..] == [];
    assert DefaultJoiner.structPath(path, field) == p;
    assert DefaultJoiner.slicePath(p, index) == JoinSlice(p, index);
    assert FlattenAll(f, DefaultJoiner, [SliceErr(index, inner)], p)
        == FlattenAll(f, DefaultJoiner, inner, JoinSlice(p, index));
    assert FlattenAll(f, DefaultJoiner, es, path) == FlattenAll(f, DefaultJoiner, [SliceErr(index, inner)], p);
  }

  /** The path of the first address and of its two fields. */
  lemma FirstAddressPath()
    ensures JoinSlice(JoinStruct("", "addresses"), 0) == ".addresses[0]"
    ensures ".addresses[0]" + "." + "zipcode" == ".addresses[0].zipcode"
    ensures ".addresses[0]" + "." + "country" == ".addresses[0].country"
  {
    assert Decimal(0) == "0";
  }

  /** The nested part of the second fixture of json_test.go:79-169: the
      field errors of the first address get the paths
      ".addresses[0].zipcode" and ".addresses[0].country". */
  lemma NestedPathsExample(m1: string, m2: string)
    ensures FlattenAll(DefaultFormatter, DefaultJoiner,
                       [StructErr("addresses", [SliceErr(0, [StructErr("zipcode", [Leaf(m1)]), StructErr("country", [Leaf(m2)])])])], "")
         == [JsonError(".addresses[0].zipcode", m1), JsonError(".addresses[0].country", m2)]
  {
    FirstAddressPath();
    ElementOfField(DefaultFormatter, "", "addresses", 0, [StructErr("zipcode", [Leaf(m1)]), StructErr("country", [Leaf(m2)])]);
    TwoFieldPaths(".addresses[0]", "zipcode", "country", m1, m2);
  }
}
