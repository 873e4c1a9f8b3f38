/**
 * The values that flow through the fake handle.  Go's `interface{}` arguments
 * are modelled as a `Param`: either a pointer to a caller-owned mutable `Cell`,
 * or a plain (non-pointer) value.  Structural equality on `Value` stands in
 * for `reflect.DeepEqual`.
 */
module Values {

  /** Structured data as the handle sees it; equality is Dafny's `==`. */
  datatype Value =
    | Bool(b: bool)
    | Int(i: int)
    | Str(s: string)
    | Slice(elems: seq<Value>)
    | Struct(typeName: string, fields: map<string, Value>)

  /** The kind of a non-pointer value, as reported by the pointer check. */
  datatype Kind = BoolKind | IntKind | StringKind | SliceKind | StructKind

  function KindOf(v: Value): Kind
  {
    match v
    case Bool(_) => BoolKind
    case Int(_) => IntKind
    case Str(_) => StringKind
    case Slice(_) => SliceKind
    case Struct(_, _) => StructKind
  }

  /** A variable of the caller whose address is passed to an operation. */
  class Cell {
    var value: Value

    constructor (v: Value)
      ensures value == v
    {
      value := v;
    }
  }

  /** One argument of an intercepted call. */
  datatype Param = Ptr(target: Cell) | Plain(v: Value)
  {
    /** The cells this argument lets the callee read or write. */
    function Footprint(): set<Cell>
    {
      if Ptr? then {target} else {}
    }
  }

  /** All cells reachable from a parameter list. */
  function Cells(ps: seq<Param>): set<Cell>
  {
    set i | 0 <= i < |ps| && ps[i].Ptr? :: ps[i].target
  }

  /**
   * Deep equality of two arguments: two pointers are equal when they point to
   * equal values (whether or not they are the same pointer), two plain values
   * when they are equal, and a pointer never equals a plain value.
   */
  predicate DeepEqual(a: Param, b: Param)
    reads a.Footprint(), b.Footprint()
  {
    match (a, b)
    case (Ptr(x), Ptr(y)) => x.value == y.value
    case (Plain(u), Plain(w)) => u == w
    case _ => false
  }
}
