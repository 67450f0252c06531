/** The number rules of rule/num.go: Min, Max and Between over `int` and
    `uint` bounds, the argument types their float and time branches accept,
    and their refusal of any other bound type. */
module NumRules {
  import opened Wrappers
  import opened Values
  import opened Errors
  import opened Validation
  import opened GenericRules

  /** The payload of the Panic Between returns for bounds of different
      types (rule/num.go:13). */
  const TypeMismatch: string := "between parameters should have same type"

  /** What v.(*int) accepts. */
  predicate IsIntPtr(v: Value) {
    v.PtrVal? && v.target.IntVal?
  }

  /** What v.(*uint) accepts. */
  predicate IsUintPtr(v: Value) {
    v.PtrVal? && v.target.UintVal?
  }

  /** int64rule(fn) (rule/num.go:16-25). */
  function IntRule(fn: int -> Option<Err>): (r: Rule)
    ensures forall v :: !IsIntPtr(v) ==> r(v) == Some(UnexpectedType(v))
    ensures forall v :: IsIntPtr(v) ==> r(v) == fn(v.target.i)
  {
    v => if IsIntPtr(v) then fn(v.target.i) else Some(UnexpectedType(v))
  }

  /** uint64rule(fn) (rule/num.go:27-36). */
  function UintRule(fn: int -> Option<Err>): (r: Rule)
    ensures forall v :: !IsUintPtr(v) ==> r(v) == Some(UnexpectedType(v))
    ensures forall v :: IsUintPtr(v) ==> r(v) == fn(v.target.u)
  {
    v => if IsUintPtr(v) then fn(v.target.u) else Some(UnexpectedType(v))
  }

  /** The number a *int or *uint points to. */
  function Num(v: Value): int
    requires IsIntPtr(v) || IsUintPtr(v)
  {
    if v.target.IntVal? then v.target.i else v.target.u
  }

  /** The integer an int or uint bound holds. */
  function BoundOf(b: Value): int
    requires b.IntVal? || b.UintVal?
  {
    if b.IntVal? then b.i else b.u
  }

  /** The rule checks the argument's type against the bound's: *int for an
      int bound, *uint for a uint bound. */
  predicate Matches(bound: Value, v: Value) {
    (bound.IntVal? && IsIntPtr(v)) || (bound.UintVal? && IsUintPtr(v))
  }

  /** The bound types whose branches compare floating-point numbers or
      times rather than integers (rule/num.go:81-104, 130-153, 191-210). */
  predicate Compared(b: Value) {
    b.OtherVal? && b.typeName in {"float32", "float64", "time.Time"}
  }

  /** What float64rule accepts (rule/num.go:38-49): *float32 or *float64. */
  predicate IsFloatPtr(v: Value) {
    v.PtrVal? && v.target.OtherVal? && v.target.typeName in {"float32", "float64"}
  }

  /** What timerule accepts (rule/num.go:51-59): *time.Time. */
  predicate IsTimePtr(v: Value) {
    v.PtrVal? && v.target.OtherVal? && v.target.typeName == "time.Time"
  }

  /** The argument type a float or time bound's rule accepts. */
  predicate Accepts(bound: Value, v: Value)
    requires Compared(bound)
  {
    if bound.typeName == "time.Time" then IsTimePtr(v) else IsFloatPtr(v)
  }

  /** float64rule(fn) or timerule(fn), chosen by the bound's type. The
      comparison itself is `compare`, applied to an accepted argument. */
  function ComparedRule(bound: Value, compare: Rule): (r: Rule)
    requires Compared(bound)
    ensures forall v :: !Accepts(bound, v) ==> r(v) == Some(UnexpectedType(v))
    ensures forall v :: Accepts(bound, v) ==> r(v) == compare(v)
  {
    v => if Accepts(bound, v) then compare(v) else Some(UnexpectedType(v))
  }

  /** Min(min, msg) (rule/num.go:63-108). A float or time bound's
      comparison, which the model does not describe, is `compare`: the
      outcome for an argument of the accepted type. */
  function Min(min: Value, msg: string, compare: Rule): (r: Rule)
    ensures min.IntVal? || min.UintVal? ==> forall v :: Matches(min, v) ==> (r(v) == None <==> BoundOf(min) <= Num(v))
    ensures min.IntVal? || min.UintVal? ==>
              forall v :: Matches(min, v) && r(v) != None ==> r(v) == Some(Leaf(Format(msg, [BoundOf(min)])))
    ensures min.IntVal? || min.UintVal? ==> forall v :: !Matches(min, v) ==> r(v) == Some(UnexpectedType(v))
    ensures Compared(min) ==> forall v :: !Accepts(min, v) ==> r(v) == Some(UnexpectedType(v))
    ensures Compared(min) ==> forall v :: Accepts(min, v) ==> r(v) == compare(v)
    ensures !min.IntVal? && !min.UintVal? && !Compared(min) ==> forall v :: r(v) == Some(UnexpectedType(min))
  {
    if min.IntVal? then
      IntRule(x => if x < min.i then Some(Leaf(Format(msg, [min.i]))) else None)
    else if min.UintVal? then
      UintRule(x => if x < min.u then Some(Leaf(Format(msg, [min.u]))) else None)
    else if Compared(min) then
      ComparedRule(min, compare)
    else
      v => Some(UnexpectedType(min))
  }

  /** Max(max, msg) (rule/num.go:112-157), with `compare` as for Min. */
  function Max(max: Value, msg: string, compare: Rule): (r: Rule)
    ensures max.IntVal? || max.UintVal? ==> forall v :: Matches(max, v) ==> (r(v) == None <==> Num(v) <= BoundOf(max))
    ensures max.IntVal? || max.UintVal? ==>
              forall v :: Matches(max, v) && r(v) != None ==> r(v) == Some(Leaf(Format(msg, [BoundOf(max)])))
    ensures max.IntVal? || max.UintVal? ==> forall v :: !Matches(max, v) ==> r(v) == Some(UnexpectedType(v))
    ensures Compared(max) ==> forall v :: !Accepts(max, v) ==> r(v) == Some(UnexpectedType(v))
    ensures Compared(max) ==> forall v :: Accepts(max, v) ==> r(v) == compare(v)
    ensures !max.IntVal? && !max.UintVal? && !Compared(max) ==> forall v :: r(v) == Some(UnexpectedType(max))
  {
    if max.IntVal? then
      IntRule(x => if x > max.i then Some(Leaf(Format(msg, [max.i]))) else None)
    else if max.UintVal? then
      UintRule(x => if x > max.u then Some(Leaf(Format(msg, [max.u]))) else None)
    else if Compared(max) then
      ComparedRule(max, compare)
    else
      v => Some(UnexpectedType(max))
  }

  /** reflect.TypeOf(a) == reflect.TypeOf(b): same kind and same name. */
  predicate SameType(a: Value, b: Value) {
    KindOf(a) == KindOf(b) && TypeName(a) == TypeName(b)
  }

  /** Between(a, b, msg) (rule/num.go:160-214), with `compare` as for Min.
      The default branch names the type of the argument, not of the
      bounds. */
  function Between(a: Value, b: Value, msg: string, compare: Rule): (r: Rule)
    ensures !SameType(a, b) ==> forall v :: r(v) == Some(Panic(TypeMismatch))
    ensures SameType(a, b) && (a.IntVal? || a.UintVal?) ==> b.IntVal? == a.IntVal? && b.UintVal? == a.UintVal?
    ensures SameType(a, b) && (a.IntVal? || a.UintVal?) ==>
              forall v :: Matches(a, v) ==> (r(v) == None <==> BoundOf(a) <= Num(v) <= BoundOf(b))
    ensures SameType(a, b) && (a.IntVal? || a.UintVal?) ==>
              forall v :: Matches(a, v) && r(v) != None ==> r(v) == Some(Leaf(Format(msg, [BoundOf(a), BoundOf(b)])))
    ensures SameType(a, b) && (a.IntVal? || a.UintVal?) ==> forall v :: !Matches(a, v) ==> r(v) == Some(UnexpectedType(v))
    ensures SameType(a, b) && Compared(a) ==> forall v :: !Accepts(a, v) ==> r(v) == Some(UnexpectedType(v))
    ensures SameType(a, b) && Compared(a) ==> forall v :: Accepts(a, v) ==> r(v) == compare(v)
    ensures SameType(a, b) && !a.IntVal? && !a.UintVal? && !Compared(a) ==> forall v :: r(v) == Some(UnexpectedType(v))
  {
    if !SameType(a, b) then
      v => Some(Panic(TypeMismatch))
    else if a.IntVal? then
      var l := a.i;
      var h := if b.IntVal? then b.i else 0;
      IntRule(x => if x < l || x > h then Some(Leaf(Format(msg, [l, h]))) else None)
    else if a.UintVal? then
      var l := a.u;
      var h := if b.UintVal? then b.u else 0;
      UintRule(x => if x < l || x > h then Some(Leaf(Format(msg, [l, h]))) else None)
    else if Compared(a) then
      ComparedRule(a, compare)
    else
      v => Some(UnexpectedType(v))
  }

  /** With two int or two uint bounds, Between rejects exactly what Min of
      the lower or Max of the upper bound rejects, and panics exactly where
      they panic. */
  lemma BetweenIsMinAndMax(a: Value, b: Value, m1: string, m2: string, m3: string, c: Rule, v: Value)
    requires (a.IntVal? && b.IntVal?) || (a.UintVal? && b.UintVal?)
    ensures Between(a, b, m1, c)(v) == None <==> Min(a, m2, c)(v) == None && Max(b, m3, c)(v) == None
    ensures IsPanic(Between(a, b, m1, c)(v)) <==> IsPanic(Min(a, m2, c)(v))
    ensures IsPanic(Min(a, m2, c)(v)) <==> IsPanic(Max(b, m3, c)(v))
  {
  }

  /** Every outcome of the three rules is nil, their one formatted message,
      or a Panic: they never report anything else. */
  lemma NumOutcomes(a: Value, b: Value, msg: string, c: Rule, v: Value)
    requires (a.IntVal? && b.IntVal?) || (a.UintVal? && b.UintVal?)
    ensures var r := Min(a, msg, c)(v); r == None || IsPanic(r) || r == Some(Leaf(Format(msg, [BoundOf(a)])))
    ensures var r := Max(a, msg, c)(v); r == None || IsPanic(r) || r == Some(Leaf(Format(msg, [BoundOf(a)])))
    ensures var r := Between(a, b, msg, c)(v);
            r == None || IsPanic(r) || r == Some(Leaf(Format(msg, [BoundOf(a), BoundOf(b)])))
  {
  }

  /** num.go has no branch for the sized integer types: an `int64` bound
      is an unexpected type, and so is a `*int64` argument under an `int`
      bound. */
  lemma SizedIntPanics(msg: string, c: Rule)
    ensures Min(OtherVal("int64"), msg, c)(PtrVal(8, IntVal(3))) == Some(UnexpectedType(OtherVal("int64")))
    ensures Min(IntVal(10), msg, c)(PtrVal(8, OtherVal("int64"))) == Some(UnexpectedType(PtrVal(8, OtherVal("int64"))))
  {
  }

  /** A float bound takes a *float32 or a *float64 argument to its
      comparison and refuses a *int. */
  lemma FloatArguments(msg: string, c: Rule)
    ensures Min(OtherVal("float64"), msg, c)(PtrVal(8, OtherVal("float32"))) == c(PtrVal(8, OtherVal("float32")))
    ensures Max(OtherVal("float32"), msg, c)(PtrVal(8, OtherVal("float64"))) == c(PtrVal(8, OtherVal("float64")))
    ensures Min(OtherVal("float64"), msg, c)(PtrVal(8, IntVal(3))) == Some(UnexpectedType(PtrVal(8, IntVal(3))))
  {
  }

  /** A time bound takes only a *time.Time argument to its comparison. */
  lemma TimeArguments(msg: string, c: Rule)
    ensures Max(OtherVal("time.Time"), msg, c)(PtrVal(8, OtherVal("float64")))
         == Some(UnexpectedType(PtrVal(8, OtherVal("float64"))))
    ensures Between(OtherVal("time.Time"), OtherVal("time.Time"), msg, c)(PtrVal(8, OtherVal("time.Time")))
         == c(PtrVal(8, OtherVal("time.Time")))
  {
  }

  /** The cases of rule/num_test.go:12-35 for Min(10): a non-pointer and a
      *string panic, 9 fails, 10 and 11 pass; a *uint panics too. */
  lemma MinExamples(msg: string, c: Rule)
    ensures Min(IntVal(10), msg, c)(PtrVal(8, IntVal(9))) == Some(Leaf(Format(msg, [10])))
    ensures Min(IntVal(10), msg, c)(PtrVal(8, IntVal(10))) == None
    ensures Min(IntVal(10), msg, c)(PtrVal(8, IntVal(11))) == None
    ensures IsPanic(Min(IntVal(10), msg, c)(PtrVal(8, UintVal(10))))
    ensures IsPanic(Min(IntVal(10), msg, c)(IntVal(10)))
    ensures IsPanic(Min(IntVal(10), msg, c)(PtrVal(8, StrVal([]))))
  {
  }
}
