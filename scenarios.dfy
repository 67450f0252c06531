/** The library's own fixtures replayed through the model: the Address rule
    of fixtures_test.go and the duplicate detection of rule/fixtures_test.go. */
module Scenarios {
  import opened Wrappers
  import opened Values
  import opened Errors
  import opened Validation
  import opened SliceRules

  const ERequired: string := "string cannot be blank"
  const EExpectedStrPtr: string := "expected string pointer"
  const EStartsUpperCase: string := "should start with upper case"
  const EZipCode: string := "should contain only letters"

  /** type Address struct { Country, ZipCode, City string } with json tags. */
  const AddressType: StructType :=
    StructType("validation_test.Address", [
      FieldDecl("Country", 0, map["json" := "country"]),
      FieldDecl("ZipCode", 16, map["json" := "zipCode"]),
      FieldDecl("City", 32, map["json" := "city"])
    ])

  /** An accessor returning a pointer to field i of an *Address. */
  function FieldPtr(i: nat): Attr
    requires i < 3
  {
    (v: Value) => if v.PtrVal? && v.target.StructVal? && |v.target.fields| == 3
         then PtrVal((v.addr + AddressType.fields[i].offset) % TWO64, v.target.fields[i])
         else OtherVal("invalid")
  }

  /** The test helpers stringRequired, startsUpperCase (for ASCII letters)
      and zipCode (for ASCII digits) of fixtures_test.go:172-217. */
  const StringRequired: Rule :=
    (v: Value) => if !(v.PtrVal? && v.target.StrVal?) then Some(Panic(EExpectedStrPtr))
                  else if |v.target.bytes| == 0 then Some(Leaf(ERequired))
                  else None
  const StartsUpperCase: Rule :=
    (v: Value) => if v.PtrVal? && v.target.StrVal? && |v.target.bytes| > 0 && 65 <= v.target.bytes[0] <= 90 then None
                  else Some(Leaf(EStartsUpperCase))
  const ZipCode: Rule :=
    (v: Value) => if v.PtrVal? && v.target.StrVal? && exists i :: 0 <= i < |v.target.bytes| && !(48 <= v.target.bytes[i] <= 57)
                  then Some(Leaf(EZipCode))
                  else None

  const AddressFields: seq<Field> := [
    Field(FieldPtr(0), [StringRequired, StartsUpperCase]),
    Field(FieldPtr(1), [StringRequired, ZipCode])
  ]

  /** The table Struct builds for Address under each naming policy
      (validation_test.go:56-72). */
  lemma AddressNames()
    ensures NameTable(AddressType.fields, "", 3) == map[0 := "Country", 16 := "ZipCode", 32 := "City"]
    ensures NameTable(AddressType.fields, "json", 3) == map[0 := "country", 16 := "zipCode", 32 := "city"]
  {
  }

  /** The rule Struct(&Address{}, "", AddressFields) builds. */
  const AddressRule: StructRule := StructRule(NameTable(AddressType.fields, "", 3), AddressFields)

  /** &Address{} at address base. */
  function EmptyAddressAt(base: Uint64): Value
  {
    PtrVal(base, StructVal(AddressType, [StrVal([]), StrVal([]), StrVal([])]))
  }

  lemma EmptyCountry(base: Uint64)
    ensures CheckField(AddressRule, EmptyAddressAt(base), AddressFields[0])
         == FieldDone("Country", [Leaf(ERequired), Leaf(EStartsUpperCase)])
  {
    var v := EmptyAddressAt(base);
    var p0 := PtrVal(base, StrVal([]));
    AddressNames();
    assert AddressFields[0].attr(v) == p0;
    assert Offset(p0, v) == 0;
    assert NameOf(AddressRule, v, p0) == Success(("Country", p0));
    assert StringRequired(p0) == Some(Leaf(ERequired));
    assert StartsUpperCase(p0) == Some(Leaf(EStartsUpperCase));
    assert SpliceTally(AddressFields[0].rules, p0, 1) == Gathered([Leaf(ERequired)]);
  }

  lemma EmptyZipCode(base: Uint64)
    ensures CheckField(AddressRule, EmptyAddressAt(base), AddressFields[1]) == FieldDone("ZipCode", [Leaf(ERequired)])
  {
    var v := EmptyAddressAt(base);
    var p1 := PtrVal((base + 16) % TWO64, StrVal([]));
    AddressNames();
    assert AddressFields[1].attr(v) == p1;
    assert Offset(p1, v) == 16;
    assert p1 != v;
    assert NameOf(AddressRule, v, p1) == Success(("ZipCode", p1));
    assert StringRequired(p1) == Some(Leaf(ERequired));
    assert ZipCode(p1) == None;
    assert SpliceTally(AddressFields[1].rules, p1, 1) == Gathered([Leaf(ERequired)]);
  }

  /** Address{} fails both rules of Country and the first of ZipCode
      (fixtures_test.go:38-52). */
  lemma EmptyAddress(base: Uint64)
    ensures Validated(AddressRule, EmptyAddressAt(base))
         == Some(Coll([StructErr("Country", [Leaf(ERequired), Leaf(EStartsUpperCase)]),
                       StructErr("ZipCode", [Leaf(ERequired)])]))
  {
    var v := EmptyAddressAt(base);
    EmptyCountry(base);
    EmptyZipCode(base);
    assert IsStructPtr(v);
    assert FieldsTally(AddressRule, v, 1)
        == Gathered([StructErr("Country", [Leaf(ERequired), Leaf(EStartsUpperCase)])]);
    assert FieldsTally(AddressRule, v, 2)
        == Gathered([StructErr("Country", [Leaf(ERequired), Leaf(EStartsUpperCase)]),
                     StructErr("ZipCode", [Leaf(ERequired)])]);
  }

  /** The Address rule as the one rule of an enclosing struct's field
      (fixtures_test.go:306-311). validate splices the Errors it returns, so
      the field's list holds the two StructErrors themselves; Rules would
      keep that Errors as one member. */
  lemma NestedAddress(base: Uint64)
    ensures SpliceTally([AsRule(AddressRule)], EmptyAddressAt(base), 1)
         == Gathered([StructErr("Country", [Leaf(ERequired), Leaf(EStartsUpperCase)]),
                      StructErr("ZipCode", [Leaf(ERequired)])])
    ensures Rules([AsRule(AddressRule)])(EmptyAddressAt(base))
         == Some(Coll([Coll([StructErr("Country", [Leaf(ERequired), Leaf(EStartsUpperCase)]),
                             StructErr("ZipCode", [Leaf(ERequired)])])]))
  {
    EmptyAddress(base);
    assert RulesTally([AsRule(AddressRule)], EmptyAddressAt(base), 1)
        == Gathered([Coll([StructErr("Country", [Leaf(ERequired), Leaf(EStartsUpperCase)]),
                           StructErr("ZipCode", [Leaf(ERequired)])])]);
  }

  /** An iterator over a slice of structs that yields a pointer to each
      element. */
  function ElemPtr(): SliceIter
  {
    (v: Value, i: int) => if v.PtrVal? && v.target.SliceVal? && 0 <= i < |v.target.elems|
              then PtrVal(8, v.target.elems[i])
              else OtherVal("invalid")
  }

  /** A pointer to the slice [u0, u1, u2, u1, u3, u0] of users. */
  function Users(u0: Value, u1: Value, u2: Value, u3: Value): Value
  {
    PtrVal(8, SliceVal("User", [u0, u1, u2, u1, u3, u0], false))
  }

  /** The first three users are distinct: no error yet. */
  lemma DistinctPrefix(msg: string, u0: Value, u1: Value, u2: Value, u3: Value)
    requires u0 != u1 && u0 != u2 && u1 != u2
    ensures UniqueScan(ElemPtr(), msg, Users(u0, u1, u2, u3), 3) == Scan(Gathered([]), {u0, u1, u2})
  {
    var v := Users(u0, u1, u2, u3);
    ScanPointer(ElemPtr(), msg, v, 0, u0);
    ScanPointer(ElemPtr(), msg, v, 1, u1);
    ScanPointer(ElemPtr(), msg, v, 2, u2);
  }

  /** The fourth user repeats the second. */
  lemma RepeatAtThree(msg: string, u0: Value, u1: Value, u2: Value, u3: Value)
    requires u0 != u1 && u0 != u2 && u1 != u2
    ensures UniqueScan(ElemPtr(), msg, Users(u0, u1, u2, u3), 4)
         == Scan(Gathered([SliceErr(3, [Leaf(msg)])]), {u0, u1, u2})
  {
    var e3 := SliceErr(3, [Leaf(msg)]);
    DistinctPrefix(msg, u0, u1, u2, u3);
    ScanPointer(ElemPtr(), msg, Users(u0, u1, u2, u3), 3, u1);
    assert u1 in {u0, u1, u2} && [] + [e3] == [e3];
    assert {u0, u1, u2} + {u1} == {u0, u1, u2};
  }

  /** Six users of which the fourth repeats the second and the sixth the
      first: SliceUnique flags indices 3 and 5 (rule/fixtures_test.go:152-188). */
  lemma DuplicatedUsers(msg: string, u0: Value, u1: Value, u2: Value, u3: Value)
    requires u0 != u1 && u0 != u2 && u0 != u3 && u1 != u2 && u1 != u3 && u2 != u3
    ensures SliceUnique(ElemPtr(), msg)(Users(u0, u1, u2, u3))
         == Some(Coll([SliceErr(3, [Leaf(msg)]), SliceErr(5, [Leaf(msg)])]))
  {
    var v := Users(u0, u1, u2, u3);
    var it := ElemPtr();
    var e3 := SliceErr(3, [Leaf(msg)]);
    RepeatAtThree(msg, u0, u1, u2, u3);
    ScanPointer(it, msg, v, 4, u3);
    assert UniqueScan(it, msg, v, 5) == Scan(Gathered([e3]), {u0, u1, u2, u3});
    ScanPointer(it, msg, v, 5, u0);
    assert UniqueScan(it, msg, v, 6).tally == Gathered([e3, SliceErr(5, [Leaf(msg)])]);
  }

  /** One step of SliceUnique's scan over an element the iterator yields as
      a pointer to u. */
  lemma ScanPointer(it: SliceIter, msg: string, v: Value, n: nat, u: Value)
    requires it == ElemPtr()
    requires v.PtrVal? && v.target.SliceVal? && n < |v.target.elems| && v.target.elems[n] == u
    requires UniqueScan(it, msg, v, n).tally.Gathered?
    ensures UniqueScan(it, msg, v, n + 1)
         == (var sc := UniqueScan(it, msg, v, n);
             Scan(if u in sc.seen then Gathered(sc.tally.errs + [SliceErr(n, [Leaf(msg)])]) else sc.tally,
                  sc.seen + {u}))
  {
    assert it(v, n) == PtrVal(8, u);
  }
}
