/** The JSON error flattener of jsonerr/jsonerr.go: the same depth-first walk
    as json/json.go, with "/"-separated paths and every leaf printed by its
    Error(). */
module JsonErr {
  import opened Errors
  import opened Json

  /** The entries marshal appends for one error at a path
      (jsonerr/jsonerr.go:30-53). */
  function Flatten(e: Err, path: string): seq<JsonError>
    decreases e, 1
  {
    match e
    case Coll(es) => FlattenAll(es, path)
    case StructErr(field, es) => FlattenAll(es, path + "/" + field)
    case SliceErr(index, es) => FlattenAll(es, path + "/" + Decimal(index))
    case _ => [JsonError(path, Render(e))]
  }

  function FlattenAll(es: seq<Err>, path: string): seq<JsonError>
    decreases es, 0
  {
    if |es| == 0 then [] else Flatten(es[0], path) + FlattenAll(es[1..], path)
  }

  lemma {:induction false} FlattenAllConcat(a: seq<Err>, b: seq<Err>, path: string)
    ensures FlattenAll(a + b, path) == FlattenAll(a, path) + FlattenAll(b, path)
    decreases |a|
  {
    if |a| == 0 {
      assert a + b == b;
    } else {
      assert (a + b)[1..] == a[1..] + b;
      FlattenAllConcat(a[1..], b, path);
    }
  }

  /** marshal(er, path, errs) (jsonerr/jsonerr.go:30-53): appends the entries
      of er and changes nothing already in the list. */
  method Marshal(er: Err, path: string, errs: Entries)
    modifies errs
    ensures errs.list == old(errs.list) + Flatten(er, path)
    decreases er, 1
  {
    match er
    case Coll(es) =>
      MarshalEach(es, path, errs);
    case StructErr(field, es) =>
      MarshalEach(es, path + "/" + field, errs);
    case SliceErr(index, es) =>
      MarshalEach(es, path + "/" + Decimal(index), errs);
    case _ =>
      errs.list := errs.list + [JsonError(path, Render(er))];
  }

  /** The loop over the members of a node, shared by the three inner cases. */
  method MarshalEach(es: seq<Err>, path: string, errs: Entries)
    modifies errs
    ensures errs.list == old(errs.list) + FlattenAll(es, path)
    decreases es, 0
  {
    for i := 0 to |es|
      invariant errs.list == old(errs.list) + FlattenAll(es[..i], path)
    {
      Marshal(es[i], path, errs);
      FlattenAllConcat(es[..i], [es[i]], path);
      assert es[..i + 1] == es[..i] + [es[i]];
      assert FlattenAll([es[i]], path) == Flatten(es[i], path);
    }
    assert es[..|es|] == es;
  }

  /** Errors.MarshalJSON (jsonerr/jsonerr.go:14-23), up to the byte encoding. */
  method MarshalJSON(es: seq<Err>) returns (entries: seq<JsonError>)
    ensures entries == FlattenAll(es, "")
  {
    var errs := new Entries();
    for i := 0 to |es|
      invariant errs.list == FlattenAll(es[..i], "")
    {
      Marshal(es[i], "", errs);
      FlattenAllConcat(es[..i], [es[i]], "");
      assert es[..i + 1] == es[..i] + [es[i]];
      assert FlattenAll([es[i]], "") == Flatten(es[i], "");
    }
    assert es[..|es|] == es;
    return errs.list;
  }

  /** The joiner that builds jsonerr's paths. */
  const SlashJoiner: Joiner := Joiner((base, child) => base + "/" + child, (base, index) => base + "/" + Decimal(index))

  /** jsonerr's walk is json's walk with the default formatter and "/" paths. */
  lemma {:induction false} SameWalk(e: Err, path: string)
    ensures Flatten(e, path) == Json.Flatten(DefaultFormatter, SlashJoiner, e, path)
    decreases e, 1
  {
    match e
    case Coll(es) => SameWalkAll(es, path);
    case StructErr(field, es) => SameWalkAll(es, path + "/" + field);
    case SliceErr(index, es) => SameWalkAll(es, path + "/" + Decimal(index));
    case _ =>
  }

  lemma {:induction false} SameWalkAll(es: seq<Err>, path: string)
    ensures FlattenAll(es, path) == Json.FlattenAll(DefaultFormatter, SlashJoiner, es, path)
    decreases es, 0
  {
    if |es| > 0 {
      SameWalk(es[0], path);
      SameWalkAll(es[1..], path);
    }
  }

  /** One entry per leaf, in depth-first order, each with the leaf's
      rendering; every path extends the base path. */
  lemma Leaves(e: Err, path: string)
    ensures Messages(Flatten(e, path)) == LeafTexts(e)
    ensures |Flatten(e, path)| == |LeafTexts(e)|
    ensures forall x :: x in Flatten(e, path) ==> path <= x.path
  {
    SameWalk(e, path);
    FlattenLeaves(SlashJoiner, e, path);
    PathsExtend(e, path);
  }

  lemma {:induction false} PathsExtend(e: Err, path: string)
    ensures forall x :: x in Flatten(e, path) ==> path <= x.path
    decreases e, 1
  {
    match e
    case Coll(es) => PathsExtendAll(es, path);
    case StructErr(field, es) => PathsExtendAll(es, path + "/" + field);
    case SliceErr(index, es) => PathsExtendAll(es, path + "/" + Decimal(index));
    case _ =>
  }

  lemma {:induction false} PathsExtendAll(es: seq<Err>, path: string)
    ensures forall x :: x in FlattenAll(es, path) ==> path <= x.path
    decreases es, 0
  {
    if |es| > 0 {
      PathsExtend(es[0], path);
      PathsExtendAll(es[1..], path);
    }
  }
}
