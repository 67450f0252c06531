/** The validation engine of validation.go: the Rules combinator, the struct
    rule built by Struct (its offset-to-name table) and its validate method,
    which resolves each field's name from the pointer its accessor returns. */
module Validation {
  import opened Wrappers
  import opened Values
  import opened Errors

  /** errorArgs and errorAttr (validation.go:8-11). */
  const ErrorArgs: Err := Panic("expected pointer to struct")
  const ErrorAttr: Err := Panic("Attr must return a pointer")

  /** A rule maps the value it is given to nil, a validation error or a Panic. */
  type Rule = Value -> Option<Err>

  /** A field accessor: given the pointer to the struct, it returns a pointer
      to one of its fields, the struct pointer itself, or a Context. */
  type Attr = Value -> Value

  datatype Field = Field(attr: Attr, rules: seq<Rule>)

  predicate IsPanic(o: Option<Err>) {
    o.Some? && o.value.Panic?
  }

  /** The state of an accumulating loop: stopped at a Panic, or the errors
      gathered so far. */
  datatype Tally = Aborted(panic: Err) | Gathered(errs: seq<Err>)

  /** How every accumulating loop ends: the Panic, nil for nothing gathered,
      or the gathered errors as one Errors collection. */
  function Finish(t: Tally): (r: Option<Err>)
    ensures r == None <==> t == Gathered([])
    ensures t.Aborted? ==> r == Some(t.panic)
  {
    match t
    case Aborted(p) => Some(p)
    case Gathered(es) => if |es| == 0 then None else Some(Coll(es))
  }

  // ---------------------------------------------------------------------------
  // Rules (validation.go:35-51)

  /** One rule's outcome added to a tally: a Panic aborts it, an error is
      kept as one member (an Errors result is not spliced). */
  function Step(t: Tally, o: Option<Err>): Tally
  {
    if t.Aborted? || o.None? then t
    else if o.value.Panic? then Aborted(o.value)
    else Gathered(t.errs + [o.value])
  }

  /** The errors of the first n rules, stopping at the first Panic. */
  function RulesTally(rules: seq<Rule>, v: Value, n: nat): Tally
    requires n <= |rules|
  {
    if n == 0 then Gathered([]) else Step(RulesTally(rules, v, n - 1), rules[n - 1](v))
  }

  /** Once aborted, a tally stays aborted with the same Panic. */
  lemma {:induction false} RulesTallySticks(rules: seq<Rule>, v: Value, n: nat, m: nat)
    requires n <= m <= |rules|
    requires RulesTally(rules, v, n).Aborted?
    ensures RulesTally(rules, v, m) == RulesTally(rules, v, n)
  {
    if m > n {
      RulesTallySticks(rules, v, n, m - 1);
    }
  }

  /** Rules(rules): the AND of the rules, reporting every failure. */
  function Rules(rules: seq<Rule>): Rule
  {
    v => Finish(RulesTally(rules, v, |rules|))
  }

  /** The closure Rules returns, as validation.go:36-50 writes it. */
  method RunRules(rules: seq<Rule>, v: Value) returns (r: Option<Err>)
    ensures r == Rules(rules)(v)
  {
    var errs: seq<Err> := [];
    for i := 0 to |rules|
      invariant RulesTally(rules, v, i) == Gathered(errs)
    {
      var err := rules[i](v);
      if err.Some? {
        if err.value.Panic? {
          RulesTallySticks(rules, v, i + 1, |rules|);
          return err;
        }
        errs := errs + [err.value];
      }
    }
    if |errs| > 0 {
      return Some(Coll(errs));
    }
    return None;
  }

  /** The failures of a rule list, in rule order: a reference definition,
      written front to back. */
  function Failures(rules: seq<Rule>, v: Value): seq<Err>
  {
    if |rules| == 0 then [] else Failed(rules[0](v)) + Failures(rules[1..], v)
  }

  /** The error of one rule, as a list of zero or one members. */
  function Failed(o: Option<Err>): seq<Err> {
    if o.Some? then [o.value] else []
  }

  lemma {:induction false} FailuresAppend(rules: seq<Rule>, r: Rule, v: Value)
    ensures Failures(rules + [r], v) == Failures(rules, v) + Failed(r(v))
  {
    if |rules| == 0 {
      assert rules + [r] == [r];
    } else {
      assert (rules + [r])[1..] == rules[1..] + [r];
      FailuresAppend(rules[1..], r, v);
    }
  }

  lemma {:induction false} RulesTallyNoPanic(rules: seq<Rule>, v: Value, n: nat)
    requires n <= |rules|
    requires forall i :: 0 <= i < n ==> !IsPanic(rules[i](v))
    ensures RulesTally(rules, v, n) == Gathered(Failures(rules[..n], v))
  {
    if n > 0 {
      RulesTallyNoPanic(rules, v, n - 1);
      assert rules[..n] == rules[..n - 1] + [rules[n - 1]];
      FailuresAppend(rules[..n - 1], rules[n - 1], v);
    }
  }

  /** Without a Panic, Rules reports one member per failing rule, in rule
      order, and nil when no rule fails. */
  lemma RulesCollectsFailures(rules: seq<Rule>, v: Value)
    requires forall i :: 0 <= i < |rules| ==> !IsPanic(rules[i](v))
    ensures Rules(rules)(v) == if |Failures(rules, v)| == 0 then None else Some(Coll(Failures(rules, v)))
  {
    RulesTallyNoPanic(rules, v, |rules|);
    assert rules[..|rules|] == rules;
  }

  lemma {:induction false} RulesTallyEmpty(rules: seq<Rule>, v: Value, n: nat)
    requires n <= |rules|
    ensures RulesTally(rules, v, n) == Gathered([]) <==> forall i :: 0 <= i < n ==> rules[i](v) == None
  {
    if n > 0 {
      RulesTallyEmpty(rules, v, n - 1);
    }
  }

  /** Rules returns nil exactly when every rule returns nil. */
  lemma RulesNilIff(rules: seq<Rule>, v: Value)
    ensures Rules(rules)(v) == None <==> forall i :: 0 <= i < |rules| ==> rules[i](v) == None
  {
    RulesTallyEmpty(rules, v, |rules|);
  }

  lemma {:induction false} RulesTallyAborts(rules: seq<Rule>, v: Value, k: nat, n: nat)
    requires k < n <= |rules|
    requires IsPanic(rules[k](v))
    requires forall j :: 0 <= j < k ==> !IsPanic(rules[j](v))
    ensures RulesTally(rules, v, n) == Aborted(rules[k](v).value)
  {
    if n == k + 1 {
      RulesTallyNoPanic(rules, v, k);
    } else {
      RulesTallyAborts(rules, v, k, n - 1);
    }
  }

  /** The first Panic is returned unchanged: the rules after it do not run
      and the errors gathered before it are dropped. */
  lemma RulesFirstPanic(rules: seq<Rule>, v: Value, k: nat)
    requires k < |rules|
    requires IsPanic(rules[k](v))
    requires forall j :: 0 <= j < k ==> !IsPanic(rules[j](v))
    ensures Rules(rules)(v) == rules[k](v)
  {
    RulesTallyAborts(rules, v, k, |rules|);
  }

  // ---------------------------------------------------------------------------
  // Splicing: the per-field and per-element lists of validate and SliceEach

  /** What one rule's error adds to a field's list: the members of an Errors
      collection, anything else as it is. */
  function Spread(e: Err): seq<Err>
  {
    if e.Coll? then e.errs else [e]
  }

  /** One rule's outcome added to a field's or an element's tally: like Step,
      but an Errors result is spliced into the list (validation.go:112-126). */
  function SpliceStep(t: Tally, o: Option<Err>): Tally
  {
    if t.Aborted? || o.None? then t
    else if o.value.Panic? then Aborted(o.value)
    else Gathered(t.errs + Spread(o.value))
  }

  /** The spliced errors of the first n rules, stopping at the first Panic. */
  function SpliceTally(rules: seq<Rule>, v: Value, n: nat): Tally
    requires n <= |rules|
  {
    if n == 0 then Gathered([]) else SpliceStep(SpliceTally(rules, v, n - 1), rules[n - 1](v))
  }

  /** One level of splicing over a list. */
  function Splice(es: seq<Err>): seq<Err>
  {
    if |es| == 0 then [] else Splice(es[..|es| - 1]) + Spread(es[|es| - 1])
  }

  lemma SpliceAppend(es: seq<Err>, e: Err)
    ensures Splice(es + [e]) == Splice(es) + Spread(e)
  {
    assert (es + [e])[..|es|] == es;
  }

  /** A tally with its gathered list spliced one level. */
  function SpliceOf(t: Tally): Tally
  {
    if t.Aborted? then t else Gathered(Splice(t.errs))
  }

  lemma SpliceStepOf(t: Tally, o: Option<Err>)
    ensures SpliceStep(SpliceOf(t), o) == SpliceOf(Step(t, o))
  {
    if t.Gathered? && o.Some? && !o.value.Panic? {
      SpliceAppend(t.errs, o.value);
    }
  }

  /** The list a field or a slice element collects is what Rules reports for
      the same rules, with its nested collections spliced one level; a Panic
      is the same Panic. */
  lemma {:induction false} SpliceOfRules(rules: seq<Rule>, v: Value, n: nat)
    requires n <= |rules|
    ensures SpliceTally(rules, v, n) == SpliceOf(RulesTally(rules, v, n))
  {
    if n > 0 {
      SpliceOfRules(rules, v, n - 1);
      SpliceStepOf(RulesTally(rules, v, n - 1), rules[n - 1](v));
    }
  }

  // ---------------------------------------------------------------------------
  // Struct (validation.go:53-90): the offset-to-name table

  /** The rule Struct returns: the offset-to-name table and the fields. */
  datatype StructRule = StructRule(ftab: map<int, string>, fields: seq<Field>)

  /** The fields of validation.Context, which is itself a struct. */
  const ContextType: StructType :=
    StructType("validation.Context", [FieldDecl("Ptr", 0, map[]), FieldDecl("Ctx", 16, map[])])

  /** A pointer to a struct: what Struct and validate demand of their argument
      (validation.go:60-68, 93-101). */
  predicate IsStructPtr(v: Value) {
    KindOf(v) == PtrK && ElemKind(v) == StructK
  }

  function StructTypeOf(v: Value): StructType
    requires KindOf(v) == StructK
  {
    if v.StructVal? then v.t else ContextType
  }

  /** The struct type a struct pointer points to. A typed nil pointer has no
      pointee but carries the type, which is all Struct and validate read. */
  function PointeeType(v: Value): StructType
    requires IsStructPtr(v)
  {
    if v.PtrVal? then StructTypeOf(v.target) else v.t
  }

  /** reflect.StructTag.Get: the tag value under key, "" when absent. */
  function TagGet(tags: map<string, string>, key: string): string {
    if key in tags then tags[key] else ""
  }

  /** The external name of a field under the naming tag (validation.go:73-80). */
  function FieldName(f: FieldDecl, tag: string): (name: string)
    ensures tag == "" ==> name == f.name
    ensures tag != "" && tag in f.tags && f.tags[tag] != "" ==> name == f.tags[tag]
    ensures tag != "" && (tag !in f.tags || f.tags[tag] == "") ==> name == f.name
  {
    if tag == "" then f.name
    else
      var fname := TagGet(f.tags, tag);
      if fname == "" then f.name else fname
  }

  /** The table after the first n fields: each field's offset maps to its
      name, a later field overwriting an earlier one at the same offset. */
  function NameTable(fs: seq<FieldDecl>, tag: string, n: nat): map<int, string>
    requires n <= |fs|
  {
    if n == 0 then map[]
    else NameTable(fs, tag, n - 1)[fs[n - 1].offset := FieldName(fs[n - 1], tag)]
  }

  /** Struct(v, tag, fields) (validation.go:59-90). */
  method Struct(v: Value, tag: string, fields: seq<Field>) returns (r: Result<StructRule, Err>)
    ensures !IsStructPtr(v) ==> r == Failure(ErrorArgs)
    ensures IsStructPtr(v) ==>
              r.Success? && r.value.fields == fields
              && r.value.ftab == NameTable(PointeeType(v).fields, tag, |PointeeType(v).fields|)
  {
    if KindOf(v) != PtrK {
      return Failure(ErrorArgs);
    }
    if ElemKind(v) != StructK {
      return Failure(ErrorArgs);
    }
    var tp := PointeeType(v);
    var ftab: map<int, string> := map[];
    for i := 0 to |tp.fields|
      invariant ftab == NameTable(tp.fields, tag, i)
    {
      var ft := tp.fields[i];
      if tag == "" {
        ftab := ftab[ft.offset := ft.name];
      } else {
        var fname := TagGet(ft.tags, tag);
        if fname == "" {
          fname := ft.name;
        }
        ftab := ftab[ft.offset := fname];
      }
    }
    return Success(StructRule(ftab, fields));
  }

  /** Struct and validate look only at the argument's type
      (validation.go:60-68, 93-101): a typed nil pointer to a struct passes
      both checks, so Struct builds the table of its type, and validate with
      no fields returns nil. */
  lemma TypedNilStruct(t: StructType, ftab: map<int, string>)
    ensures IsStructPtr(NilStructPtr(t)) && PointeeType(NilStructPtr(t)) == t
    ensures Validated(StructRule(ftab, []), NilStructPtr(t)) == None
  {
  }

  /** The table has exactly the fields' offsets as keys. */
  lemma {:induction false} NameTableKeys(fs: seq<FieldDecl>, tag: string, n: nat)
    requires n <= |fs|
    ensures NameTable(fs, tag, n).Keys == set j | 0 <= j < n :: fs[j].offset
  {
    if n > 0 {
      NameTableKeys(fs, tag, n - 1);
      assert (set j | 0 <= j < n :: fs[j].offset)
          == (set j | 0 <= j < n - 1 :: fs[j].offset) + {fs[n - 1].offset};
    }
  }

  /** A field that no later field shares its offset with is found under its
      offset by its external name. */
  lemma {:induction false} NameTableLookup(fs: seq<FieldDecl>, tag: string, n: nat, i: nat)
    requires i < n <= |fs|
    requires forall j :: i < j < n ==> fs[j].offset != fs[i].offset
    ensures fs[i].offset in NameTable(fs, tag, n)
    ensures NameTable(fs, tag, n)[fs[i].offset] == FieldName(fs[i], tag)
  {
    if n - 1 != i {
      NameTableLookup(fs, tag, n - 1, i);
    }
  }

  /** The three naming policies checked by validation_test.go:56-72. */
  lemma FieldNameExamples()
    ensures FieldName(FieldDecl("Country", 0, map["json" := "country"]), "") == "Country"
    ensures FieldName(FieldDecl("Country", 0, map["json" := "country"]), "json") == "country"
    ensures FieldName(FieldDecl("Country", 0, map["json" := "country"]), "xxx") == "Country"
  {
  }

  // ---------------------------------------------------------------------------
  // nameOf (validation.go:140-163)

  /** reflect.Value.Pointer() */
  function Address(p: Value): int {
    if p.PtrVal? then p.addr else 0
  }

  /** The field offset of p relative to self, as uintptr subtraction
      computes it (wrapping modulo 2^64). */
  function Offset(p: Value, self: Value): int {
    (Address(p) - Address(self)) % TWO64
  }

  /** A Go map read: the zero value "" for a missing key. */
  function Lookup(ftab: map<int, string>, k: int): string {
    if k in ftab then ftab[k] else ""
  }

  /** The field name and the value to validate for what an accessor returned:
      a Context contributes its Ptr for the name and its Ctx for the rules. */
  function NameOf(s: StructRule, self: Value, member: Value): Result<(string, Value), Err>
  {
    var ptr := if member.ContextVal? then member.ptr else member;
    var val := if member.ContextVal? then member.ctx else member;
    if KindOf(ptr) != PtrK then Failure(ErrorAttr)
    else if ptr == self then Success(("", val))
    else Success((Lookup(s.ftab, Offset(ptr, self)), val))
  }

  /** Name resolution against a table built by Struct: the struct itself is
      named "", a pointer to field i at its offset is named by the field's
      external name (also through a Context, whose Ctx goes to the rules),
      and anything that is not a pointer is refused. */
  lemma NameOfResolves(tag: string, fields: seq<Field>, base: Uint64, t: StructType, vals: seq<Value>,
                       i: nat, x: Value, c: Value)
    requires i < |t.fields|
    requires forall j :: i < j < |t.fields| ==> t.fields[j].offset != t.fields[i].offset
    requires base + t.fields[i].offset < TWO64
    requires t.fields[i].offset != 0 || x != StructVal(t, vals)
    ensures var self := PtrVal(base, StructVal(t, vals));
            var s := StructRule(NameTable(t.fields, tag, |t.fields|), fields);
            var p := PtrVal(base + t.fields[i].offset, x);
            && NameOf(s, self, p) == Success((FieldName(t.fields[i], tag), p))
            && NameOf(s, self, ContextVal(p, c)) == Success((FieldName(t.fields[i], tag), c))
            && NameOf(s, self, self) == Success(("", self))
            && NameOf(s, self, ContextVal(self, c)) == Success(("", c))
            && (KindOf(x) != PtrK && !x.ContextVal? ==> NameOf(s, self, x) == Failure(ErrorAttr))
  {
    NameTableLookup(t.fields, tag, |t.fields|, i);
  }

  // ---------------------------------------------------------------------------
  // validate (validation.go:92-138)

  /** What one field contributes: a Panic that stops validation, or its
      resolved name and its spliced list of errors. */
  datatype FieldReport = FieldAbort(panic: Err) | FieldDone(name: string, errs: seq<Err>)

  function CheckField(s: StructRule, self: Value, f: Field): FieldReport
  {
    match NameOf(s, self, f.attr(self))
    case Failure(p) => FieldAbort(p)
    case Success(nv) =>
      match SpliceTally(f.rules, nv.1, |f.rules|)
      case Aborted(p) => FieldAbort(p)
      case Gathered(fe) => FieldDone(nv.0, fe)
  }

  /** One field's report added to validate's tally: a StructError for a
      field with errors. */
  function FieldStep(t: Tally, rep: FieldReport): Tally
  {
    if t.Aborted? then t
    else if rep.FieldAbort? then Aborted(rep.panic)
    else if |rep.errs| > 0 then Gathered(t.errs + [StructErr(rep.name, rep.errs)])
    else t
  }

  /** The StructErrors of the first n fields, stopping at the first Panic. */
  function FieldsTally(s: StructRule, self: Value, n: nat): Tally
    requires n <= |s.fields|
  {
    if n == 0 then Gathered([]) else FieldStep(FieldsTally(s, self, n - 1), CheckField(s, self, s.fields[n - 1]))
  }

  lemma {:induction false} FieldsTallySticks(s: StructRule, self: Value, n: nat, m: nat)
    requires n <= m <= |s.fields|
    requires FieldsTally(s, self, n).Aborted?
    ensures FieldsTally(s, self, m) == FieldsTally(s, self, n)
  {
    if m > n {
      FieldsTallySticks(s, self, n, m - 1);
    }
  }

  lemma {:induction false} SpliceTallySticks(rules: seq<Rule>, v: Value, n: nat, m: nat)
    requires n <= m <= |rules|
    requires SpliceTally(rules, v, n).Aborted?
    ensures SpliceTally(rules, v, m) == SpliceTally(rules, v, n)
  {
    if m > n {
      SpliceTallySticks(rules, v, n, m - 1);
    }
  }

  /** The outcome of validating v with the struct rule s. */
  function Validated(s: StructRule, v: Value): Option<Err>
  {
    if !IsStructPtr(v) then Some(ErrorArgs) else Finish(FieldsTally(s, v, |s.fields|))
  }

  /** The rule Struct hands out (s.validate). */
  function AsRule(s: StructRule): Rule
  {
    v => Validated(s, v)
  }

  /** The inner loop of validate (validation.go:112-126): run a field's rules
      on its value, splicing Errors results, stopping at a Panic. */
  method CheckRules(rules: seq<Rule>, value: Value) returns (t: Tally)
    ensures t == SpliceTally(rules, value, |rules|)
  {
    var fe: seq<Err> := [];
    for j := 0 to |rules|
      invariant SpliceTally(rules, value, j) == Gathered(fe)
    {
      var err := rules[j](value);
      if err.Some? {
        if err.value.Panic? {
          SpliceTallySticks(rules, value, j + 1, |rules|);
          return Aborted(err.value);
        }
        if err.value.Coll? {
          fe := fe + err.value.errs;
        } else {
          fe := fe + [err.value];
        }
      }
    }
    return Gathered(fe);
  }

  /** One iteration of validate's loop (validation.go:105-126): resolve the
      field's name, then run its rules on the value to validate. */
  method ValidateField(s: StructRule, self: Value, f: Field) returns (rep: FieldReport)
    ensures rep == CheckField(s, self, f)
  {
    var nv := NameOf(s, self, f.attr(self));
    if nv.Failure? {
      return FieldAbort(nv.error);
    }
    var (name, value) := nv.value;
    var t := CheckRules(f.rules, value);
    if t.Aborted? {
      return FieldAbort(t.panic);
    }
    return FieldDone(name, t.errs);
  }

  /** structRule.validate as validation.go:92-138 writes it. */
  method Validate(s: StructRule, v: Value) returns (r: Option<Err>)
    ensures r == Validated(s, v)
  {
    if KindOf(v) != PtrK {
      return Some(ErrorArgs);
    }
    if ElemKind(v) != StructK {
      return Some(ErrorArgs);
    }
    var errs: seq<Err> := [];
    for i := 0 to |s.fields|
      invariant FieldsTally(s, v, i) == Gathered(errs)
    {
      var rep := ValidateField(s, v, s.fields[i]);
      if rep.FieldAbort? {
        FieldsTallySticks(s, v, i + 1, |s.fields|);
        return Some(rep.panic);
      }
      if |rep.errs| > 0 {
        errs := errs + [StructErr(rep.name, rep.errs)];
      }
    }
    if |errs| > 0 {
      return Some(Coll(errs));
    }
    return None;
  }

  /** The StructErrors of a list of fields, in declaration order: one for each
      field whose list is not empty. A reference definition, front to back. */
  function FieldErrors(s: StructRule, self: Value, fields: seq<Field>): seq<Err>
  {
    if |fields| == 0 then [] else FieldEntry(s, self, fields[0]) + FieldErrors(s, self, fields[1..])
  }

  /** The StructError one field contributes, as a list of zero or one members. */
  function FieldEntry(s: StructRule, self: Value, f: Field): seq<Err>
  {
    ReportEntry(CheckField(s, self, f))
  }

  function ReportEntry(rep: FieldReport): seq<Err>
  {
    if rep.FieldDone? && |rep.errs| > 0 then [StructErr(rep.name, rep.errs)] else []
  }

  lemma {:induction false} FieldErrorsAppend(s: StructRule, self: Value, fields: seq<Field>, f: Field)
    ensures FieldErrors(s, self, fields + [f]) == FieldErrors(s, self, fields) + FieldEntry(s, self, f)
  {
    if |fields| == 0 {
      assert fields + [f] == [f];
    } else {
      assert (fields + [f])[1..] == fields[1..] + [f];
      FieldErrorsAppend(s, self, fields[1..], f);
    }
  }

  predicate Aborts(s: StructRule, self: Value, i: nat)
    requires i < |s.fields|
  {
    CheckField(s, self, s.fields[i]).FieldAbort?
  }

  lemma {:induction false} FieldsTallyNoAbort(s: StructRule, self: Value, n: nat)
    requires n <= |s.fields|
    requires forall i :: 0 <= i < n ==> !Aborts(s, self, i)
    ensures FieldsTally(s, self, n) == Gathered(FieldErrors(s, self, s.fields[..n]))
  {
    if n > 0 {
      FieldsTallyNoAbort(s, self, n - 1);
      assert !Aborts(s, self, n - 1);
      var rep := CheckField(s, self, s.fields[n - 1]);
      assert FieldStep(Gathered(FieldErrors(s, self, s.fields[..n - 1])), rep)
          == Gathered(FieldErrors(s, self, s.fields[..n - 1]) + ReportEntry(rep));
      assert s.fields[..n] == s.fields[..n - 1] + [s.fields[n - 1]];
      FieldErrorsAppend(s, self, s.fields[..n - 1], s.fields[n - 1]);
    }
  }

  /** Without a Panic, validate reports one StructError per failing field, in
      declaration order, named as nameOf resolves it and holding that field's
      spliced list; nil when no field fails. */
  lemma ValidatedReportsFields(s: StructRule, v: Value)
    requires IsStructPtr(v)
    requires forall i :: 0 <= i < |s.fields| ==> !Aborts(s, v, i)
    ensures Validated(s, v)
         == if |FieldErrors(s, v, s.fields)| == 0 then None else Some(Coll(FieldErrors(s, v, s.fields)))
  {
    FieldsTallyNoAbort(s, v, |s.fields|);
    assert s.fields[..|s.fields|] == s.fields;
  }

  /** Every member of FieldErrors is a StructError with a non-empty list, and
      there are at most as many as there are fields. */
  lemma {:induction false} FieldErrorsShape(s: StructRule, self: Value, fields: seq<Field>)
    ensures |FieldErrors(s, self, fields)| <= |fields|
    ensures forall e :: e in FieldErrors(s, self, fields) ==> e.StructErr? && |e.errs| > 0
  {
    if |fields| > 0 {
      FieldErrorsShape(s, self, fields[1..]);
    }
  }

  lemma {:induction false} FieldsTallyEmpty(s: StructRule, self: Value, n: nat)
    requires n <= |s.fields|
    ensures FieldsTally(s, self, n) == Gathered([])
        <==> forall i :: 0 <= i < n ==> CheckField(s, self, s.fields[i]).FieldDone?
                                         && |CheckField(s, self, s.fields[i]).errs| == 0
  {
    if n > 0 {
      FieldsTallyEmpty(s, self, n - 1);
    }
  }

  /** validate returns nil exactly when its argument is a struct pointer and
      every field resolves and passes all its rules. */
  lemma ValidatedNilIff(s: StructRule, v: Value)
    ensures Validated(s, v) == None
        <==> IsStructPtr(v)
             && forall i :: 0 <= i < |s.fields| ==> CheckField(s, v, s.fields[i]).FieldDone?
                                                    && |CheckField(s, v, s.fields[i]).errs| == 0
  {
    if IsStructPtr(v) {
      FieldsTallyEmpty(s, v, |s.fields|);
    }
  }

  lemma {:induction false} FieldsTallyAborts(s: StructRule, self: Value, k: nat, n: nat)
    requires k < n <= |s.fields|
    requires Aborts(s, self, k)
    requires forall j :: 0 <= j < k ==> !Aborts(s, self, j)
    ensures FieldsTally(s, self, n) == Aborted(CheckField(s, self, s.fields[k]).panic)
  {
    if n == k + 1 {
      FieldsTallyNoAbort(s, self, k);
    } else {
      FieldsTallyAborts(s, self, k, n - 1);
    }
  }

  /** The first field that panics (an accessor that returns no pointer, or a
      rule that returns a Panic) decides the whole result: that Panic, with
      no partial result. */
  lemma ValidatedFirstPanic(s: StructRule, v: Value, k: nat)
    requires IsStructPtr(v)
    requires k < |s.fields|
    requires Aborts(s, v, k)
    requires forall j :: 0 <= j < k ==> !Aborts(s, v, j)
    ensures Validated(s, v) == Some(CheckField(s, v, s.fields[k]).panic)
    ensures Validated(s, v).value.Panic?
  {
    FieldsTallyAborts(s, v, k, |s.fields|);
    var f := s.fields[k];
    match NameOf(s, v, f.attr(v))
    case Failure(p) =>
    case Success(nv) => SpliceAbortIsPanic(f.rules, nv.1, |f.rules|);
  }

  lemma {:induction false} SpliceAbortIsPanic(rules: seq<Rule>, v: Value, n: nat)
    requires n <= |rules|
    ensures SpliceTally(rules, v, n).Aborted? ==> SpliceTally(rules, v, n).panic.Panic?
  {
    if n > 0 {
      SpliceAbortIsPanic(rules, v, n - 1);
    }
  }
}
