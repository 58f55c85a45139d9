/**
  The hierarchical container (an HDF5 file) as an abstract tree: groups with
  named children, datasets holding one payload, and any other kind of object.
  Every node carries attributes; an attribute is stored here as the first
  element of the `values` the storage layer's `readAttribute` returns
  (tests/h5.js:16-22 wraps a scalar into a one-element array).
*/
module Container {
  import opened Wrappers
  import opened Numbers
  import opened Failures

  /** The integer element types of datasets, and equally the integer typed-array kinds. */
  datatype IntType = Int8 | Uint8 | Int16 | Uint16 | Int32 | Uint32 | Int64 | Uint64

  /** One attribute value. */
  datatype Scalar = SInt(i: int) | SNum(x: Float) | SStr(s: string)

  /** One record of a `vls` column's `pointers` dataset. */
  datatype Pointer = Pointer(offset: nat, length: nat)

  /** What a dataset holds, as its `values()` returns it. */
  datatype Payload =
    | IntData(width: IntType, ints: seq<int>)
    | FloatData(floats: seq<Float>)
    | StrData(strs: seq<string>)
    | PointerData(ptrs: seq<Pointer>)

  datatype Node =
    | Group(attrs: map<string, Scalar>, kids: map<string, Node>)
    | DataSet(attrs: map<string, Scalar>, payload: Payload)
    | OtherObject(attrs: map<string, Scalar>)

  const TypeAttr := "type"
  const PlaceholderAttr := "missing-value-placeholder"

  /** `children().indexOf(name) >= 0` on a group. */
  predicate HasChild(n: Node, name: string) {
    n.Group? && name in n.kids
  }

  /** `open(name)`: fails when the node is not a group or has no such child. */
  function Open(n: Node, name: string): Result<Node, Failure> {
    if HasChild(n, name) then Ok(n.kids[name]) else Err(StorageFailure(name))
  }

  /** `open(name)` of a child used as a group (its `children()` are read next); a child of
      any other kind fails. */
  function OpenGroup(n: Node, name: string): (r: Result<Node, Failure>)
    ensures r.Ok? <==> HasChild(n, name) && n.kids[name].Group?
    ensures r.Ok? ==> r.value == n.kids[name]
  {
    var child :- Open(n, name);
    if child.Group? then Ok(child) else Err(StorageFailure(name))
  }

  /** `readAttribute(name).values[0]`: fails when the attribute is absent. */
  function ReadAttribute(n: Node, name: string): Result<Scalar, Failure> {
    if name in n.attrs then Ok(n.attrs[name]) else Err(StorageFailure(name))
  }

  /** The placeholder attribute of a node, if `attributes()` lists it. */
  function Placeholder(n: Node): Option<Scalar> {
    if PlaceholderAttr in n.attrs then Some(n.attrs[PlaceholderAttr]) else None
  }

  /** `values()`: what a dataset holds; any other node has no values. */
  function Values(n: Node): (r: Result<Payload, Failure>)
    ensures r.Ok? <==> n.DataSet?
  {
    if n.DataSet? then Ok(n.payload) else Err(StorageFailure("dataset"))
  }

  /** The stored values as integers, strings or pointers; a payload of another element
      type is a storage failure. */
  function IntsOf(p: Payload): Result<seq<int>, Failure> {
    if p.IntData? then Ok(p.ints) else Err(StorageFailure("integer dataset"))
  }

  function StrsOf(p: Payload): Result<seq<string>, Failure> {
    if p.StrData? then Ok(p.strs) else Err(StorageFailure("string dataset"))
  }

  function PtrsOf(p: Payload): Result<seq<Pointer>, Failure> {
    if p.PointerData? then Ok(p.ptrs) else Err(StorageFailure("pointer dataset"))
  }

  /** `values()` of a dataset of strings. */
  function StringValues(n: Node): Result<seq<string>, Failure> {
    var p :- Values(n);
    StrsOf(p)
  }
}
