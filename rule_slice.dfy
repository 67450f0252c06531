/** The slice rules of rule/slice.go: length bounds, per-element validation
    (SliceEach) and duplicate detection (SliceUnique). A rule accepts only a
    pointer to a slice; an iterator maps that pointer and an index to the
    value the element rules see. */
module SliceRules {
  import opened Wrappers
  import opened Values
  import opened Errors
  import opened Validation
  import opened GenericRules

  /** eNotPtr (rule/slice.go:12), split so that its verb-free text can be
      reasoned about on its own. */
  const NotPtrText: string := "expected pointer at index "
  const ENotPtr: string := NotPtrText + "%d"

  /** SliceIter: given the pointer to the slice and an index, what the rules
      of that element receive. */
  type SliceIter = (Value, int) -> Value

  /** What sliceRule accepts: a pointer whose pointee is a slice. */
  predicate IsSlicePtr(v: Value) {
    KindOf(v) == PtrK && ElemKind(v) == SliceK
  }

  /** reflect.ValueOf(v).Elem().Len() of a slice pointer. */
  function Len(v: Value): nat {
    if v.PtrVal? && v.target.SliceVal? then |v.target.elems| else 0
  }

  /** sliceRule(fn) (rule/slice.go:18-32). */
  function SliceRule(fn: Value -> Option<Err>): (r: Rule)
    ensures forall v :: !IsSlicePtr(v) ==> r(v) == Some(UnexpectedType(v)) && IsPanic(r(v))
    ensures forall v :: IsSlicePtr(v) ==> r(v) == fn(v)
  {
    v => if KindOf(v) != PtrK then Some(UnexpectedType(v))
         else if ElemKind(v) != SliceK then Some(UnexpectedType(v))
         else fn(v)
  }

  // ---------------------------------------------------------------------------
  // Length rules (rule/slice.go:36-71); each message is formatted once, when
  // the rule is built.

  function SliceLen(min: int, max: int, msg: string): (r: Rule)
    ensures forall v :: !IsSlicePtr(v) ==> IsPanic(r(v))
    ensures forall v :: IsSlicePtr(v) ==>
              (r(v) == None <==> min <= Len(v) <= max) && (r(v) != None ==> r(v) == Some(Leaf(Format(msg, [min, max]))))
  {
    var emsg := Format(msg, [min, max]);
    SliceRule(v => if Len(v) < min || Len(v) > max then Some(Leaf(emsg)) else None)
  }

  function SliceMinLen(min: int, msg: string): (r: Rule)
    ensures forall v :: !IsSlicePtr(v) ==> IsPanic(r(v))
    ensures forall v :: IsSlicePtr(v) ==>
              (r(v) == None <==> min <= Len(v)) && (r(v) != None ==> r(v) == Some(Leaf(Format(msg, [min]))))
  {
    var emsg := Format(msg, [min]);
    SliceRule(v => if Len(v) < min then Some(Leaf(emsg)) else None)
  }

  function SliceMaxLen(max: int, msg: string): (r: Rule)
    ensures forall v :: !IsSlicePtr(v) ==> IsPanic(r(v))
    ensures forall v :: IsSlicePtr(v) ==>
              (r(v) == None <==> Len(v) <= max) && (r(v) != None ==> r(v) == Some(Leaf(Format(msg, [max]))))
  {
    var emsg := Format(msg, [max]);
    SliceRule(v => if Len(v) > max then Some(Leaf(emsg)) else None)
  }

  /** SliceLen(min, max) rejects exactly what SliceMinLen(min) or
      SliceMaxLen(max) rejects. */
  lemma SliceLenIsMinAndMax(min: int, max: int, m1: string, m2: string, m3: string, v: Value)
    ensures SliceLen(min, max, m1)(v) == None <==> SliceMinLen(min, m2)(v) == None && SliceMaxLen(max, m3)(v) == None
  {
  }

  // ---------------------------------------------------------------------------
  // SliceEach (rule/slice.go:75-110)

  /** The spliced list of element i, or the Panic that stops the walk. */
  function ElemTally(iter: SliceIter, rules: seq<Rule>, v: Value, i: int): Tally
  {
    SpliceTally(rules, iter(v, i), |rules|)
  }

  /** Element i's outcome added to the tally: a SliceError for an element
      with errors. */
  function EachStep(t: Tally, i: int, et: Tally): Tally
  {
    if t.Aborted? then t
    else if et.Aborted? then Aborted(et.panic)
    else if |et.errs| > 0 then Gathered(t.errs + [SliceErr(i, et.errs)])
    else t
  }

  /** The SliceErrors of the first n elements, stopping at the first Panic. */
  function EachTally(iter: SliceIter, rules: seq<Rule>, v: Value, n: nat): Tally
  {
    if n == 0 then Gathered([])
    else EachStep(EachTally(iter, rules, v, n - 1), n - 1, ElemTally(iter, rules, v, n - 1))
  }

  /** SliceEach(iter, rules). */
  function SliceEach(iter: SliceIter, rules: seq<Rule>): Rule
  {
    SliceRule(v => Finish(EachTally(iter, rules, v, Len(v))))
  }

  lemma {:induction false} EachTallySticks(iter: SliceIter, rules: seq<Rule>, v: Value, n: nat, m: nat)
    requires n <= m
    requires EachTally(iter, rules, v, n).Aborted?
    ensures EachTally(iter, rules, v, m) == EachTally(iter, rules, v, n)
  {
    if m > n {
      EachTallySticks(iter, rules, v, n, m - 1);
    }
  }

  /** The closure SliceEach returns, as rule/slice.go:76-109 writes it; the
      inner loop over the rules is the one validate uses. */
  method CheckEach(iter: SliceIter, rules: seq<Rule>, v: Value) returns (r: Option<Err>)
    ensures r == SliceEach(iter, rules)(v)
  {
    if KindOf(v) != PtrK {
      return Some(UnexpectedType(v));
    }
    if ElemKind(v) != SliceK {
      return Some(UnexpectedType(v));
    }
    var ses: seq<Err> := [];
    var n := Len(v);
    for i := 0 to n
      invariant EachTally(iter, rules, v, i) == Gathered(ses)
    {
      var k := iter(v, i);
      var t := CheckRules(rules, k);
      if t.Aborted? {
        EachTallySticks(iter, rules, v, i + 1, n);
        return Some(t.panic);
      }
      if |t.errs| > 0 {
        ses := ses + [SliceErr(i, t.errs)];
      }
    }
    if |ses| > 0 {
      return Some(Coll(ses));
    }
    return None;
  }

  lemma {:induction false} EachTallyEmpty(iter: SliceIter, rules: seq<Rule>, v: Value, n: nat)
    ensures EachTally(iter, rules, v, n) == Gathered([])
        <==> forall i :: 0 <= i < n ==> ElemTally(iter, rules, v, i) == Gathered([])
  {
    if n > 0 {
      EachTallyEmpty(iter, rules, v, n - 1);
    }
  }

  /** SliceEach returns nil exactly when its argument is a slice pointer and
      every element passes every rule; an empty slice passes. */
  lemma SliceEachNilIff(iter: SliceIter, rules: seq<Rule>, v: Value)
    ensures SliceEach(iter, rules)(v) == None
        <==> IsSlicePtr(v) && forall i :: 0 <= i < Len(v) ==> ElemTally(iter, rules, v, i) == Gathered([])
    ensures IsSlicePtr(v) && Len(v) == 0 ==> SliceEach(iter, rules)(v) == None
  {
    EachTallyEmpty(iter, rules, v, Len(v));
  }

  lemma {:induction false} EachTallyAborts(iter: SliceIter, rules: seq<Rule>, v: Value, k: nat, n: nat)
    requires k < n
    requires ElemTally(iter, rules, v, k).Aborted?
    requires forall j :: 0 <= j < k ==> ElemTally(iter, rules, v, j).Gathered?
    ensures EachTally(iter, rules, v, n) == Aborted(ElemTally(iter, rules, v, k).panic)
  {
    if n == k + 1 {
      EachTallyNoAbort(iter, rules, v, k);
    } else {
      EachTallyAborts(iter, rules, v, k, n - 1);
    }
  }

  /** A Panic from any rule on any element is SliceEach's result: the
      elements after it are not visited and nothing gathered is kept. */
  lemma SliceEachFirstPanic(iter: SliceIter, rules: seq<Rule>, v: Value, k: nat)
    requires IsSlicePtr(v)
    requires k < Len(v)
    requires ElemTally(iter, rules, v, k).Aborted?
    requires forall j :: 0 <= j < k ==> ElemTally(iter, rules, v, j).Gathered?
    ensures SliceEach(iter, rules)(v) == Some(ElemTally(iter, rules, v, k).panic)
    ensures IsPanic(SliceEach(iter, rules)(v))
  {
    EachTallyAborts(iter, rules, v, k, Len(v));
    SpliceAbortIsPanic(rules, iter(v, k), |rules|);
  }

  /** Members are SliceErrors with strictly ascending indices. */
  predicate Ascending(es: seq<Err>)
  {
    forall k, l :: 0 <= k < l < |es| ==> es[k].SliceErr? && es[l].SliceErr? && es[k].index < es[l].index
  }

  /** Every member is a SliceError below n. */
  predicate IndicesBelow(es: seq<Err>, n: int)
  {
    forall k :: 0 <= k < |es| ==> es[k].SliceErr? && 0 <= es[k].index < n
  }

  /** Index i has a member. */
  predicate Lists(es: seq<Err>, i: int)
  {
    exists k :: 0 <= k < |es| && es[k].SliceErr? && es[k].index == i
  }

  /** Appending a SliceError above all indices keeps the order and keeps
      every index listed. */
  lemma AppendAbove(es: seq<Err>, n: int, e: Err)
    requires 0 <= n
    requires Ascending(es) && IndicesBelow(es, n) && e.SliceErr? && e.index == n
    ensures Ascending(es + [e]) && IndicesBelow(es + [e], n + 1)
    ensures forall i :: Lists(es, i) ==> Lists(es + [e], i)
    ensures Lists(es + [e], n)
  {
    var es' := es + [e];
    assert es'[|es|] == e;
    assert forall k :: 0 <= k < |es| ==> es'[k] == es[k];
    forall i | Lists(es, i)
      ensures Lists(es', i)
    {
      var k :| 0 <= k < |es| && es[k].SliceErr? && es[k].index == i;
      assert es'[k] == es[k];
    }
  }

  /** The list without a Panic: one SliceError per failing element, in
      ascending index order, each holding that element's spliced list. */
  predicate EachReport(iter: SliceIter, rules: seq<Rule>, v: Value, n: nat, es: seq<Err>)
  {
    && IndicesBelow(es, n)
    && Ascending(es)
    && (forall k :: 0 <= k < |es| ==>
          es[k].SliceErr? && |es[k].errs| > 0 && Gathered(es[k].errs) == ElemTally(iter, rules, v, es[k].index))
    && (forall i :: 0 <= i < n && ElemTally(iter, rules, v, i) != Gathered([]) ==> Lists(es, i))
  }

  /** Element n - 1 added to a report of the elements before it. */
  lemma EachReportStep(iter: SliceIter, rules: seq<Rule>, v: Value, n: nat, es: seq<Err>)
    requires n > 0
    requires EachReport(iter, rules, v, n - 1, es)
    requires ElemTally(iter, rules, v, n - 1).Gathered?
    ensures EachReport(iter, rules, v, n, EachStep(Gathered(es), n - 1, ElemTally(iter, rules, v, n - 1)).errs)
  {
    var et := ElemTally(iter, rules, v, n - 1);
    if |et.errs| > 0 {
      var e := SliceErr(n - 1, et.errs);
      AppendAbove(es, n - 1, e);
      var es' := es + [e];
      assert forall k :: 0 <= k < |es| ==> es'[k] == es[k];
    } else {
      assert IndicesBelow(es, n);
    }
  }

  lemma {:induction false} EachTallyNoAbort(iter: SliceIter, rules: seq<Rule>, v: Value, n: nat)
    requires forall i :: 0 <= i < n ==> ElemTally(iter, rules, v, i).Gathered?
    ensures EachTally(iter, rules, v, n).Gathered?
    ensures EachReport(iter, rules, v, n, EachTally(iter, rules, v, n).errs)
  {
    if n > 0 {
      EachTallyNoAbort(iter, rules, v, n - 1);
      EachReportStep(iter, rules, v, n, EachTally(iter, rules, v, n - 1).errs);
    }
  }

  /** Without a Panic, SliceEach reports exactly the failing elements, in
      ascending order, with their lists; nil when none fails. */
  lemma SliceEachReports(iter: SliceIter, rules: seq<Rule>, v: Value)
    requires IsSlicePtr(v)
    requires forall i :: 0 <= i < Len(v) ==> ElemTally(iter, rules, v, i).Gathered?
    ensures EachTally(iter, rules, v, Len(v)).Gathered?
    ensures var es := EachTally(iter, rules, v, Len(v)).errs;
            EachReport(iter, rules, v, Len(v), es)
            && SliceEach(iter, rules)(v) == if |es| == 0 then None else Some(Coll(es))
  {
    EachTallyNoAbort(iter, rules, v, Len(v));
  }

  // ---------------------------------------------------------------------------
  // SliceUnique (rule/slice.go:114-143)

  /** The loop state of SliceUnique: the tally and the set of dereferenced
      values seen so far. */
  datatype Scan = Scan(tally: Tally, seen: set<Value>)

  /** The Panic for a non-pointer at index i. */
  function NotPtr(i: int): Err
  {
    Panic(Format(ENotPtr, [i]))
  }

  /** Element i, yielded by the iterator as p, added to the scan. */
  function UniqueStep(sc: Scan, i: int, p: Value, msg: string): Scan
  {
    if sc.tally.Aborted? then sc
    else if KindOf(p) != PtrK then Scan(Aborted(NotPtr(i)), sc.seen)
    else
      var k := Indirect(p);
      var t := if k in sc.seen then Gathered(sc.tally.errs + [SliceErr(i, [Leaf(msg)])]) else sc.tally;
      Scan(t, sc.seen + {k})
  }

  /** The scan after the first n elements. */
  function UniqueScan(iter: SliceIter, msg: string, v: Value, n: nat): Scan
  {
    if n == 0 then Scan(Gathered([]), {})
    else UniqueStep(UniqueScan(iter, msg, v, n - 1), n - 1, iter(v, n - 1), msg)
  }

  /** SliceUnique(iter, msg). */
  function SliceUnique(iter: SliceIter, msg: string): Rule
  {
    SliceRule(v => Finish(UniqueScan(iter, msg, v, Len(v)).tally))
  }

  lemma {:induction false} UniqueScanSticks(iter: SliceIter, msg: string, v: Value, n: nat, m: nat)
    requires n <= m
    requires UniqueScan(iter, msg, v, n).tally.Aborted?
    ensures UniqueScan(iter, msg, v, m).tally == UniqueScan(iter, msg, v, n).tally
  {
    if m > n {
      UniqueScanSticks(iter, msg, v, n, m - 1);
    }
  }

  /** The closure SliceUnique returns, as rule/slice.go:115-142 writes it. */
  method CheckUnique(iter: SliceIter, msg: string, v: Value) returns (r: Option<Err>)
    ensures r == SliceUnique(iter, msg)(v)
  {
    if KindOf(v) != PtrK {
      return Some(UnexpectedType(v));
    }
    if ElemKind(v) != SliceK {
      return Some(UnexpectedType(v));
    }
    var errs: seq<Err> := [];
    var seen: set<Value> := {};
    var n := Len(v);
    for i := 0 to n
      invariant UniqueScan(iter, msg, v, i) == Scan(Gathered(errs), seen)
    {
      var p := iter(v, i);
      if KindOf(p) != PtrK {
        UniqueScanSticks(iter, msg, v, i + 1, n);
        return Some(Panic(Format(ENotPtr, [i])));
      }
      var k := Indirect(p);
      if k in seen {
        errs := errs + [SliceErr(i, [Leaf(msg)])];
      }
      seen := seen + {k};
    }
    if |errs| > 0 {
      return Some(Coll(errs));
    }
    return None;
  }

  /** The dereferenced value of element i. */
  function Key(iter: SliceIter, v: Value, i: int): Value
  {
    Indirect(iter(v, i))
  }

  /** Element i repeats the value of an earlier element. */
  predicate Repeats(iter: SliceIter, v: Value, i: int)
  {
    exists j :: 0 <= j < i && Key(iter, v, j) == Key(iter, v, i)
  }

  predicate AllPointers(iter: SliceIter, v: Value, n: nat)
  {
    forall i :: 0 <= i < n ==> KindOf(iter(v, i)) == PtrK
  }

  /** The list without a Panic: one SliceError carrying msg for each
      repeated element, in ascending index order. */
  predicate UniqueReport(iter: SliceIter, msg: string, v: Value, n: nat, es: seq<Err>)
  {
    && IndicesBelow(es, n)
    && Ascending(es)
    && (forall k :: 0 <= k < |es| ==> es[k].SliceErr? && es[k].errs == [Leaf(msg)] && Repeats(iter, v, es[k].index))
    && (forall i :: 0 <= i < n && Repeats(iter, v, i) ==> Lists(es, i))
  }

  lemma {:induction false} UniqueScanSeen(iter: SliceIter, msg: string, v: Value, n: nat)
    requires AllPointers(iter, v, n)
    ensures UniqueScan(iter, msg, v, n).tally.Gathered?
    ensures UniqueScan(iter, msg, v, n).seen == set j | 0 <= j < n :: Key(iter, v, j)
  {
    if n > 0 {
      UniqueScanSeen(iter, msg, v, n - 1);
      assert (set j | 0 <= j < n :: Key(iter, v, j))
          == (set j | 0 <= j < n - 1 :: Key(iter, v, j)) + {Key(iter, v, n - 1)};
    }
  }

  /** Element i is flagged exactly when its value was seen before. */
  lemma RepeatsIffSeen(iter: SliceIter, v: Value, i: nat)
    ensures Repeats(iter, v, i) <==> Key(iter, v, i) in set j | 0 <= j < i :: Key(iter, v, j)
  {
    if Key(iter, v, i) in set j | 0 <= j < i :: Key(iter, v, j) {
      var j :| 0 <= j < i && Key(iter, v, j) == Key(iter, v, i);
    }
  }

  /** Element n - 1 added to a report of the elements before it. */
  lemma UniqueReportStep(iter: SliceIter, msg: string, v: Value, n: nat, es: seq<Err>)
    requires n > 0
    requires UniqueReport(iter, msg, v, n - 1, es)
    ensures Repeats(iter, v, n - 1) ==> UniqueReport(iter, msg, v, n, es + [SliceErr(n - 1, [Leaf(msg)])])
    ensures !Repeats(iter, v, n - 1) ==> UniqueReport(iter, msg, v, n, es)
  {
    if Repeats(iter, v, n - 1) {
      var e := SliceErr(n - 1, [Leaf(msg)]);
      AppendAbove(es, n - 1, e);
      var es' := es + [e];
      assert forall k :: 0 <= k < |es| ==> es'[k] == es[k];
    } else {
      assert IndicesBelow(es, n);
    }
  }

  lemma {:induction false} UniqueScanReport(iter: SliceIter, msg: string, v: Value, n: nat)
    requires AllPointers(iter, v, n)
    ensures UniqueScan(iter, msg, v, n).tally.Gathered?
    ensures UniqueReport(iter, msg, v, n, UniqueScan(iter, msg, v, n).tally.errs)
  {
    if n > 0 {
      UniqueScanReport(iter, msg, v, n - 1);
      UniqueScanSeen(iter, msg, v, n - 1);
      RepeatsIffSeen(iter, v, n - 1);
      var es := UniqueScan(iter, msg, v, n - 1).tally.errs;
      UniqueReportStep(iter, msg, v, n, es);
    }
  }

  /** SliceUnique flags exactly the elements whose value an earlier element
      already had (never the first occurrence), each with a one-message
      SliceError, in ascending order; nil when all values are distinct. */
  lemma SliceUniqueReports(iter: SliceIter, msg: string, v: Value)
    requires IsSlicePtr(v)
    requires AllPointers(iter, v, Len(v))
    ensures UniqueScan(iter, msg, v, Len(v)).tally.Gathered?
    ensures var es := UniqueScan(iter, msg, v, Len(v)).tally.errs;
            UniqueReport(iter, msg, v, Len(v), es)
            && SliceUnique(iter, msg)(v) == if |es| == 0 then None else Some(Coll(es))
    ensures SliceUnique(iter, msg)(v) == None <==> forall i :: 0 <= i < Len(v) ==> !Repeats(iter, v, i)
  {
    UniqueScanReport(iter, msg, v, Len(v));
    var es := UniqueScan(iter, msg, v, Len(v)).tally.errs;
    if |es| > 0 {
      assert Repeats(iter, v, es[0].index);
    }
  }

  lemma {:induction false} UniqueScanAborts(iter: SliceIter, msg: string, v: Value, k: nat, n: nat)
    requires k < n
    requires KindOf(iter(v, k)) != PtrK
    requires AllPointers(iter, v, k)
    ensures UniqueScan(iter, msg, v, n).tally == Aborted(NotPtr(k))
  {
    if n == k + 1 {
      UniqueScanSeen(iter, msg, v, k);
    } else {
      UniqueScanAborts(iter, msg, v, k, n - 1);
    }
  }

  /** An iterator that yields a non-pointer makes SliceUnique panic with the
      first such index in the message. */
  lemma SliceUniqueNotPointer(iter: SliceIter, msg: string, v: Value, k: nat)
    requires IsSlicePtr(v)
    requires k < Len(v)
    requires KindOf(iter(v, k)) != PtrK
    requires AllPointers(iter, v, k)
    ensures SliceUnique(iter, msg)(v) == Some(Panic(NotPtrText + Decimal(k)))
  {
    UniqueScanAborts(iter, msg, v, k, Len(v));
    FormatText(NotPtrText, "%d", [k]);
    assert Format("%d", [k]) == Decimal(k) + Format("", []);
    assert NotPtr(k) == Panic(NotPtrText + Decimal(k));
  }
}
