/** The generic rules of rule/generic.go: the type-error Panic every rule
    returns for an argument it does not support, and NotNil. */
module GenericRules {
  import opened Wrappers
  import opened Values
  import opened Errors
  import opened Validation

  /** unexpectedType(v) (rule/generic.go:11-15): always a Panic, never a
      validation error, naming the dynamic type of v. */
  function UnexpectedType(v: Value): (e: Err)
    ensures e.Panic?
    ensures e.msg == "unexpected type: " + TypeName(v)
  {
    Panic("unexpected type: " + TypeName(v))
  }

  /** The kinds whose values can be nil. */
  predicate IsNilableKind(k: Kind) {
    k == InterfaceK || k == PtrK || k == SliceK || k == FuncK || k == MapK || k == ChanK
  }

  /** NotNil(msg) (rule/generic.go:18-42). */
  function NotNil(msg: string): (r: Rule)
    ensures forall v :: KindOf(v) != PtrK ==> r(v) == Some(UnexpectedType(v))
    ensures forall v :: KindOf(v) == PtrK && !IsNilableKind(ElemKind(v)) ==> r(v) == Some(UnexpectedType(v))
    ensures forall v :: KindOf(v) == PtrK && IsNilableKind(ElemKind(v)) ==>
              (r(v) == Some(Leaf(msg)) <==> IsNil(Indirect(v))) && (r(v) == None <==> !IsNil(Indirect(v)))
  {
    v =>
      if KindOf(v) != PtrK then Some(UnexpectedType(v))
      else if !IsNilableKind(ElemKind(v)) then Some(UnexpectedType(v))
      else if IsNil(Indirect(v)) then Some(Leaf(msg))
      else None
  }

  /** NotNil never reports anything but its message or a Panic: a Panic for
      a misused rule, the message for a nil value, nil for anything else. */
  lemma NotNilOutcomes(msg: string, v: Value)
    ensures NotNil(msg)(v) == None || NotNil(msg)(v) == Some(Leaf(msg)) || IsPanic(NotNil(msg)(v))
    ensures IsPanic(NotNil(msg)(v)) <==> KindOf(v) != PtrK || !IsNilableKind(ElemKind(v))
  {
  }

  /** The cases of rule/generic_test.go:15-29: an int and a pointer to an
      int panic, a pointer to a nil interface gives the message, a pointer
      to an empty but non-nil slice passes. */
  lemma NotNilExamples(msg: string)
    ensures IsPanic(NotNil(msg)(IntVal(10)))
    ensures IsPanic(NotNil(msg)(PtrVal(8, IntVal(10))))
    ensures NotNil(msg)(PtrVal(8, RefVal(InterfaceRef, "interface {}", true))) == Some(Leaf(msg))
    ensures NotNil(msg)(PtrVal(8, SliceVal("int", [], false))) == None
  {
  }
}
