/** The run-time values that validation rules receive as `interface{}`.
    Go's reflection (reflect.TypeOf, Kind, Elem, IsNil, Indirect) is replaced
    by this explicit sum type and a few classification functions on it. */
module Values {

  /** Width of Go's uintptr, int and uint on a 64-bit platform. */
  const TWO64: int := 0x1_0000_0000_0000_0000

  type Int64 = i: int | -0x8000_0000_0000_0000 <= i < 0x8000_0000_0000_0000
  type Uint64 = u: int | 0 <= u < 0x1_0000_0000_0000_0000

  /** A Go string is a sequence of bytes; `len` counts bytes. */
  newtype byte = b: int | 0 <= b < 256

  /** reflect.Kind, restricted to the kinds the rules distinguish. */
  datatype Kind =
    | StringK | IntK | UintK | SliceK | StructK | PtrK
    | InterfaceK | FuncK | MapK | ChanK | OtherK

  /** The kinds of value whose contents the model does not describe, only
      whether they are nil. A PtrK value here is a pointer whose pointee is
      not modelled (in particular a nil pointer to anything but a struct). */
  datatype RefKind = InterfaceRef | PtrRef | FuncRef | MapRef | ChanRef

  /** A declared struct field, as reflect.StructField gives it: its name, its
      byte offset within the struct and its tag, as key/value pairs. */
  datatype FieldDecl = FieldDecl(name: string, offset: Uint64, tags: map<string, string>)

  datatype StructType = StructType(name: string, fields: seq<FieldDecl>)

  /** A Go value. A pointer has an address and the value it points to; the
      address is what struct validation subtracts to find a field offset. A
      nil slice is `SliceVal(_, [], true)`. `NilStructPtr(t)` is a nil pointer
      of type `*t`: it points nowhere, but its type still names the struct.
      `ContextVal` is the validation.Context struct. */
  datatype Value =
    | StrVal(bytes: seq<byte>)
    | IntVal(i: Int64)
    | UintVal(u: Uint64)
    | SliceVal(elemType: string, elems: seq<Value>, isNil: bool)
    | StructVal(t: StructType, fields: seq<Value>)
    | PtrVal(addr: Uint64, target: Value)
    | NilStructPtr(t: StructType)
    | ContextVal(ptr: Value, ctx: Value)
    | RefVal(ref: RefKind, typeName: string, isNil: bool)
    | OtherVal(typeName: string)

  function RefKindOf(r: RefKind): Kind {
    match r
    case InterfaceRef => InterfaceK
    case PtrRef => PtrK
    case FuncRef => FuncK
    case MapRef => MapK
    case ChanRef => ChanK
  }

  /** reflect.TypeOf(v).Kind() */
  function KindOf(v: Value): Kind {
    match v
    case StrVal(_) => StringK
    case IntVal(_) => IntK
    case UintVal(_) => UintK
    case SliceVal(_, _, _) => SliceK
    case StructVal(_, _) => StructK
    case PtrVal(_, _) => PtrK
    case NilStructPtr(_) => PtrK
    case ContextVal(_, _) => StructK
    case RefVal(r, _, _) => RefKindOf(r)
    case OtherVal(_) => OtherK
  }

  /** reflect.TypeOf(v).Elem().Kind() for a pointer: the kind of what it
      points to (OtherK when the pointee is not modelled). */
  function ElemKind(v: Value): Kind {
    if v.PtrVal? then KindOf(v.target) else if v.NilStructPtr? then StructK else OtherK
  }

  /** reflect.Indirect(v).Interface(): the pointee of a modelled pointer,
      the value itself otherwise. */
  function Indirect(v: Value): Value {
    if v.PtrVal? then v.target else v
  }

  /** reflect.Value.IsNil for the nilable kinds. */
  predicate IsNil(v: Value) {
    (v.SliceVal? && v.isNil) || (v.RefVal? && v.isNil) || v.NilStructPtr?
  }

  /** The text `%v` prints for reflect.TypeOf(v). */
  function TypeName(v: Value): string {
    match v
    case StrVal(_) => "string"
    case IntVal(_) => "int"
    case UintVal(_) => "uint"
    case SliceVal(t, _, _) => "[]" + t
    case StructVal(t, _) => t.name
    case PtrVal(_, target) => "*" + TypeName(target)
    case NilStructPtr(t) => "*" + t.name
    case ContextVal(_, _) => "validation.Context"
    case RefVal(_, t, _) => t
    case OtherVal(t) => t
  }
}
