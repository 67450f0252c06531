/** The error tree of errors.go: leaf messages, the Errors collection, the
    StructError / SliceError / MapError wrappers and the internal Panic, with
    their Error() renderings. */
module Errors {

  /** A validation outcome other than nil.
      Leaf: a plain error (errors.New, fmt.Errorf); Coll: validation.Errors;
      StructErr, SliceErr, MapErr: a collection attributed to a field name,
      a slice index or a map key; Panic: the internal failure. */
  datatype Err =
    | Leaf(msg: string)
    | Coll(errs: seq<Err>)
    | StructErr(field: string, errs: seq<Err>)
    | SliceErr(index: int, errs: seq<Err>)
    | MapErr(key: string, errs: seq<Err>)
    | Panic(msg: string)

  /** The separator Errors.Error() puts between its members. */
  const Sep: string := ", "

  /** strings.Join */
  function Join(xs: seq<string>, sep: string): string
  {
    if |xs| == 0 then ""
    else if |xs| == 1 then xs[0]
    else xs[0] + sep + Join(xs[1..], sep)
  }

  lemma {:induction false} JoinConcat(xs: seq<string>, ys: seq<string>, sep: string)
    requires |xs| > 0 && |ys| > 0
    ensures Join(xs + ys, sep) == Join(xs, sep) + sep + Join(ys, sep)
  {
    if |xs| == 1 {
      assert (xs + ys)[1..] == ys;
    } else {
      assert (xs + ys)[1..] == xs[1..] + ys;
      JoinConcat(xs[1..], ys, sep);
    }
  }

  // ---------------------------------------------------------------------------
  // Decimal rendering, as `%d` prints an int

  function DigitChar(d: nat): char
    requires d < 10
  {
    "0123456789"[d]
  }

  function Digits(n: nat): string
    decreases n
  {
    if n < 10 then [DigitChar(n)] else Digits(n / 10) + [DigitChar(n % 10)]
  }

  /** fmt's `%d` of an int. */
  function Decimal(n: int): string
  {
    if n < 0 then "-" + Digits(-n) else Digits(n)
  }

  function DigitValue(c: char): nat
  {
    if '0' <= c <= '9' then (c - '0') as nat else 0
  }

  function ParseDigits(s: string): nat
    decreases |s|
  {
    if |s| == 0 then 0 else ParseDigits(s[..|s| - 1]) * 10 + DigitValue(s[|s| - 1])
  }

  /** Reads back what Decimal prints. */
  function ParseDecimal(s: string): int
  {
    if |s| > 0 && s[0] == '-' then 0 - ParseDigits(s[1..]) else ParseDigits(s)
  }

  /** Each digit character reads back as its digit. */
  lemma DigitCharValue(d: nat)
    requires d < 10
    ensures '0' <= DigitChar(d) <= '9' && DigitValue(DigitChar(d)) == d
  {
  }

  lemma {:induction false} DigitsRoundTrip(n: nat)
    ensures |Digits(n)| > 0 && '0' <= Digits(n)[0] <= '9'
    ensures ParseDigits(Digits(n)) == n
    decreases n
  {
    if n < 10 {
      DigitCharValue(n);
    } else {
      DigitsRoundTrip(n / 10);
      DigitCharValue(n % 10);
      var s := Digits(n);
      assert s == Digits(n / 10) + [DigitChar(n % 10)];
      assert s[..|s| - 1] == Digits(n / 10) && s[|s| - 1] == DigitChar(n % 10);
      assert s[0] == Digits(n / 10)[0];
    }
  }

  /** The decimal rendering of an index determines the index: distinct slice
      indices never render alike. */
  lemma DecimalRoundTrip(n: int)
    ensures ParseDecimal(Decimal(n)) == n
  {
    if n < 0 {
      var d := Digits(-n);
      DigitsRoundTrip(-n);
      assert Decimal(n) == "-" + d;
      assert ("-" + d)[0] == '-' && ("-" + d)[1..] == d;
    } else {
      DigitsRoundTrip(n);
      assert Decimal(n) == Digits(n) && Digits(n)[0] != '-';
    }
  }

  // ---------------------------------------------------------------------------
  // fmt.Sprintf / fmt.Errorf with integer operands

  /** fmt.Sprintf(template, args...) for the verbs the rules' messages use:
      `%d` and `%v` print the next integer operand in decimal, `%%` prints
      `%`, a verb without an operand prints `%!d(MISSING)`. Any other text
      is copied. */
  function Format(template: string, args: seq<int>): string
    decreases |template|
  {
    if |template| == 0 then ""
    else if template[0] == '%' && |template| >= 2 && template[1] == '%' then
      "%" + Format(template[2..], args)
    else if template[0] == '%' && |template| >= 2 && (template[1] == 'd' || template[1] == 'v') then
      if |args| == 0 then "%!" + [template[1]] + "(MISSING)" + Format(template[2..], args)
      else Decimal(args[0]) + Format(template[2..], args[1..])
    else [template[0]] + Format(template[1..], args)
  }

  /** A character other than `%` is copied and the operands are left alone. */
  lemma FormatCopies(t: string, args: seq<int>)
    requires |t| > 0 && t[0] != '%'
    ensures Format(t, args) == [t[0]] + Format(t[1..], args)
  {
  }

  /** Text without verbs before a template is printed as it is, and the
      operands all go to the rest. */
  lemma {:induction false} FormatText(text: string, rest: string, args: seq<int>)
    requires forall i :: 0 <= i < |text| ==> text[i] != '%'
    ensures Format(text + rest, args) == text + Format(rest, args)
    decreases |text|
  {
    if |text| > 0 {
      var t := text + rest;
      assert t[0] == text[0] && t[1..] == text[1..] + rest;
      FormatCopies(t, args);
      FormatText(text[1..], rest, args);
      assert text == [text[0]] + text[1..];
    } else {
      assert text + rest == rest;
    }
  }

  // ---------------------------------------------------------------------------
  // Error() renderings

  /** Error() of every kind of error (errors.go:15-17, 23-29, 38-40, 49-51,
      61-63). */
  function Render(e: Err): string
    decreases e, 2
  {
    match e
    case Leaf(m) => m
    case Panic(m) => m
    case Coll(es) => RenderAll(es)
    case StructErr(f, es) => f + ": " + RenderAll(es)
    case SliceErr(i, es) => Decimal(i) + ": " + RenderAll(es)
    case MapErr(k, es) => k + ": " + RenderAll(es)
  }

  /** Errors.Error(): the members' renderings joined with ", ". */
  function RenderAll(es: seq<Err>): string
    decreases es, 1
  {
    Join(RenderEach(es), Sep)
  }

  function RenderEach(es: seq<Err>): seq<string>
    decreases es, 0
  {
    if |es| == 0 then [] else [Render(es[0])] + RenderEach(es[1..])
  }

  /** Errors.Error() as errors.go:23-29 writes it: a loop that collects the
      members' renderings, then one join. */
  method ErrorsString(es: seq<Err>) returns (s: string)
    ensures s == RenderAll(es)
  {
    var errors: seq<string> := [];
    for i := 0 to |es|
      invariant errors == RenderEach(es[..i])
    {
      RenderEachConcat(es[..i], [es[i]]);
      assert es[..i + 1] == es[..i] + [es[i]];
      errors := errors + [Render(es[i])];
    }
    assert es[..|es|] == es;
    s := Join(errors, Sep);
  }

  /** Rendering a concatenation of members renders each part in turn: the
      renderings of `a + b` are those of `a` followed by those of `b`. */
  lemma {:induction false} RenderEachConcat(a: seq<Err>, b: seq<Err>)
    ensures RenderEach(a + b) == RenderEach(a) + RenderEach(b)
  {
    if |a| == 0 {
      assert a + b == b;
    } else {
      assert (a + b)[1..] == a[1..] + b;
      RenderEachConcat(a[1..], b);
    }
  }

  /** strings.Join puts the separator exactly between neighbours. */
  lemma JoinSplit(xs: seq<string>, i: nat, sep: string)
    requires i < |xs|
    ensures Join(xs, sep)
         == (if i == 0 then "" else Join(xs[..i], sep) + sep)
          + xs[i]
          + (if i + 1 == |xs| then "" else sep + Join(xs[i + 1..], sep))
  {
    var mid, after := [xs[i]], xs[i + 1..];
    assert xs == xs[..i] + (mid + after);
    if i + 1 < |xs| {
      JoinConcat(mid, after, sep);
    } else {
      assert mid + after == mid;
    }
    if i > 0 {
      JoinConcat(xs[..i], mid + after, sep);
    } else {
      assert xs == mid + after;
    }
  }

  lemma {:induction false} RenderEachSlices(es: seq<Err>, i: nat)
    requires i < |es|
    ensures |RenderEach(es)| == |es|
    ensures RenderEach(es)[i] == Render(es[i])
    ensures RenderEach(es)[..i] == RenderEach(es[..i])
    ensures RenderEach(es)[i + 1..] == RenderEach(es[i + 1..])
  {
    assert es == es[..i] + [es[i]] + es[i + 1..];
    RenderEachConcat(es[..i] + [es[i]], es[i + 1..]);
    RenderEachConcat(es[..i], [es[i]]);
    RenderEachLength(es);
    RenderEachLength(es[..i]);
  }

  lemma {:induction false} RenderEachLength(es: seq<Err>)
    ensures |RenderEach(es)| == |es|
  {
    if |es| > 0 {
      RenderEachLength(es[1..]);
    }
  }

  /** A collection's rendering is its members' renderings in order: the
      rendering of member i sits between those of the members before it and
      those after it, each gap being ", ". */
  lemma RenderAllSplit(es: seq<Err>, i: nat)
    requires i < |es|
    ensures RenderAll(es)
         == (if i == 0 then "" else RenderAll(es[..i]) + Sep)
          + Render(es[i])
          + (if i + 1 == |es| then "" else Sep + RenderAll(es[i + 1..]))
  {
    RenderEachSlices(es, i);
    JoinSplit(RenderEach(es), i, Sep);
  }

  /** A wrapper of two leaves renders as "a: 1, 2", whatever the wrapper
      (errors_test.go:19-59). */
  lemma StructErrRendering()
    ensures Render(StructErr("a", [Leaf("1"), Leaf("2")])) == "a: 1, 2"
    ensures Render(SliceErr(1, [Leaf("1"), Leaf("2")])) == "1: 1, 2"
    ensures Render(MapErr("k1", [Leaf("1"), Leaf("2")])) == "k1: 1, 2"
  {
    var es := [Leaf("1"), Leaf("2")];
    assert es[1..] == [Leaf("2")] && es[1..][1..] == [];
    assert RenderEach(es) == ["1", "2"];
    assert RenderAll(es) == "1, 2";
    assert Decimal(1) == "1";
  }

  /** Error(text): a one-member collection that renders as text
      (errors.go:66-68). */
  function ErrorText(text: string): (r: Err)
    ensures r.Coll? && |r.errs| == 1
    ensures Render(r) == text
  {
    var r := Coll([Leaf(text)]);
    assert RenderEach(r.errs) == [text];
    r
  }

  // ---------------------------------------------------------------------------
  // The leaves of a tree, depth first

  /** The renderings of the leaves of a tree (anything that is not Errors,
      StructError or SliceError), depth first and left to right: the reference
      listing the error flatteners of json/ and jsonerr/ are measured
      against. */
  function LeafTexts(e: Err): seq<string>
    decreases e, 1
  {
    match e
    case Coll(es) => LeafTextsAll(es)
    case StructErr(_, es) => LeafTextsAll(es)
    case SliceErr(_, es) => LeafTextsAll(es)
    case _ => [Render(e)]
  }

  function LeafTextsAll(es: seq<Err>): seq<string>
    decreases es, 0
  {
    if |es| == 0 then [] else LeafTexts(es[0]) + LeafTextsAll(es[1..])
  }
}
