/** The string rules of rule/str.go. A rule accepts only a pointer to a
    string; lengths are byte lengths. */
module StrRules {
  import opened Wrappers
  import opened Values
  import opened Errors
  import opened Validation
  import opened GenericRules

  /** What the type assertion v.(*string) accepts. */
  predicate IsStrPtr(v: Value) {
    v.PtrVal? && v.target.StrVal?
  }

  /** The string a *string points to. */
  function Str(v: Value): seq<byte>
    requires IsStrPtr(v)
  {
    v.target.bytes
  }

  /** strrule(fn) (rule/str.go:35-43): fn on the string, a type Panic for
      anything but a *string. */
  function StrRule(fn: seq<byte> -> Option<Err>): (r: Rule)
    ensures forall v :: !IsStrPtr(v) ==> r(v) == Some(UnexpectedType(v)) && IsPanic(r(v))
    ensures forall v :: IsStrPtr(v) ==> r(v) == fn(Str(v))
  {
    v => if IsStrPtr(v) then fn(Str(v)) else Some(UnexpectedType(v))
  }

  /** fromfn(pred) (rule/str.go:45-54): a factory of rules that fail with
      exactly msg when pred rejects the string. */
  function FromFn(pred: seq<byte> -> bool): (mk: string -> Rule)
    ensures forall msg, v :: !IsStrPtr(v) ==> IsPanic(mk(msg)(v))
    ensures forall msg, v :: IsStrPtr(v) ==>
              (mk(msg)(v) == None <==> pred(Str(v))) && (mk(msg)(v) == Some(Leaf(msg)) <==> !pred(Str(v)))
  {
    msg => StrRule(s => if !pred(s) then Some(Leaf(msg)) else None)
  }

  /** StrLen(min, max, msg) (rule/str.go:58-66): both bounds inclusive. */
  function StrLen(min: int, max: int, msg: string): (r: Rule)
    ensures forall v :: !IsStrPtr(v) ==> IsPanic(r(v))
    ensures forall v :: IsStrPtr(v) ==>
              (r(v) == None <==> min <= |Str(v)| <= max)
              && (r(v) != None ==> r(v) == Some(Leaf(Format(msg, [min, max]))))
  {
    StrRule(s => if |s| < min || |s| > max then Some(Leaf(Format(msg, [min, max]))) else None)
  }

  /** StrRequired(msg) (rule/str.go:69-76): fails exactly on "". */
  function StrRequired(msg: string): (r: Rule)
    ensures forall v :: !IsStrPtr(v) ==> IsPanic(r(v))
    ensures forall v :: IsStrPtr(v) ==> (r(v) == None <==> |Str(v)| > 0) && (r(v) != None ==> r(v) == Some(Leaf(msg)))
  {
    StrRule(s => if s == [] then Some(Leaf(msg)) else None)
  }

  /** StrMinLen(min, msg) (rule/str.go:81-89): the minimum itself passes. */
  function StrMinLen(min: int, msg: string): (r: Rule)
    ensures forall v :: !IsStrPtr(v) ==> IsPanic(r(v))
    ensures forall v :: IsStrPtr(v) ==>
              (r(v) == None <==> min <= |Str(v)|) && (r(v) != None ==> r(v) == Some(Leaf(Format(msg, [min]))))
  {
    StrRule(s => if |s| < min then Some(Leaf(Format(msg, [min]))) else None)
  }

  /** StrMaxLen(max, msg) (rule/str.go:94-103): the message is formatted
      once, when the rule is built; the maximum itself passes. */
  function StrMaxLen(max: int, msg: string): (r: Rule)
    ensures forall v :: !IsStrPtr(v) ==> IsPanic(r(v))
    ensures forall v :: IsStrPtr(v) ==>
              (r(v) == None <==> |Str(v)| <= max) && (r(v) != None ==> r(v) == Some(Leaf(Format(msg, [max]))))
  {
    var emsg := Format(msg, [max]);
    StrRule(s => if max < |s| then Some(Leaf(emsg)) else None)
  }

  /** StrMatch(pattern, msg) (rule/str.go:107-114), with the regular
      expression's MatchString as the predicate. */
  function StrMatch(matches: seq<byte> -> bool, msg: string): (r: Rule)
    ensures forall v :: !IsStrPtr(v) ==> IsPanic(r(v))
    ensures forall v :: IsStrPtr(v) ==> (r(v) == None <==> matches(Str(v)))
  {
    StrRule(s => if !matches(s) then Some(Leaf(msg)) else None)
  }

  /** StrMatch is the fromfn rule of its matcher. */
  lemma StrMatchIsFromFn(matches: seq<byte> -> bool, msg: string, v: Value)
    ensures StrMatch(matches, msg)(v) == FromFn(matches)(msg)(v)
  {
  }

  /** StrLen(min, max) rejects exactly what StrMinLen(min) or StrMaxLen(max)
      rejects. */
  lemma StrLenIsMinAndMax(min: int, max: int, m1: string, m2: string, m3: string, v: Value)
    ensures StrLen(min, max, m1)(v) == None <==> StrMinLen(min, m2)(v) == None && StrMaxLen(max, m3)(v) == None
  {
  }

  /** StrRequired rejects exactly what StrMinLen(1) rejects. */
  lemma StrRequiredIsMinLenOne(m1: string, m2: string, v: Value)
    ensures StrRequired(m1)(v) == None <==> StrMinLen(1, m2)(v) == None
  {
  }

  /** The cases of rule/str_test.go:29-57 for StrLen(2, 8, msg): an int
      panics, "" and a nine-byte string fail, the two bounds pass. */
  lemma StrLenExamples(msg: string)
    ensures IsPanic(StrLen(2, 8, msg)(IntVal(10)))
    ensures StrLen(2, 8, msg)(PtrVal(8, StrVal([]))) == Some(Leaf(Format(msg, [2, 8])))
    ensures StrLen(2, 8, msg)(PtrVal(8, StrVal([49, 50, 51, 52, 53, 54, 55, 56, 57]))) == Some(Leaf(Format(msg, [2, 8])))
    ensures StrLen(2, 8, msg)(PtrVal(8, StrVal([49, 50]))) == None
    ensures StrLen(2, 8, msg)(PtrVal(8, StrVal([49, 50, 51, 52, 53, 54, 55, 56]))) == None
  {
  }
}
