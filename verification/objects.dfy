/**
  In-memory values the codec consumes and produces: the entries of a plain
  JavaScript array, the column kinds a DataFrame may hold, the DataFrame
  itself, arbitrary objects handed to the dispatcher, and the decoded form of
  a DataFrame read back from a container.
*/
module Objects {
  import opened Wrappers
  import opened Numbers
  import opened Container

  /** The `typeof` of a non-null entry that is neither a number, a boolean nor a string. */
  datatype ForeignKind = BigIntKind | ObjectKind | FunctionKind | SymbolKind

  /** The `typeof` of a non-null entry. */
  datatype Kind = NumberKind | BooleanKind | StringKind | ForeignOf(foreign: ForeignKind)

  /** One entry of a plain array; `Null` stands for `null` (the test `entry == null`). */
  datatype Entry = Null | Num(x: Float) | Bool(b: bool) | Str(s: string) | Foreign(kind: ForeignKind)

  function KindOf(e: Entry): Kind
    requires !e.Null?
  {
    match e
    case Num(_) => NumberKind
    case Bool(_) => BooleanKind
    case Str(_) => StringKind
    case Foreign(k) => ForeignOf(k)
  }

  /** A column of an in-memory DataFrame, by how `saveDataFrame` tells columns apart. */
  datatype Col =
      /** Int8Array, Uint8Array, Int16Array, Uint16Array, Int32Array, Uint32Array,
          BigInt64Array or BigUint64Array. */
    | TypedInts(kind: IntType, ints: seq<int>)
      /** Float32Array or Float64Array. */
    | FloatArray(floats: seq<Float>)
      /** A plain `Array`. */
    | Plain(entries: seq<Entry>)
      /** Anything that is not an array, such as a nested DataFrame. */
    | NonArray(obj: Obj)

  /** A DataFrame: column names and columns in order, a row count and optional row names. */
  datatype Frame = Frame(names: seq<string>, columns: seq<Col>, rowCount: nat, rowNames: Option<seq<string>>)

  /** One name per column, as `columnNames()` and `column(i)` agree on in a DataFrame. */
  predicate WellFormed(f: Frame) {
    |f.names| == |f.columns|
  }

  /** An object handed to the dispatcher: its constructor's name, the classes it is an
      `instanceof`, and, for a DataFrame, its contents. */
  datatype Obj = Obj(constructorName: string, classes: set<string>, body: Body)

  datatype Body = FrameBody(frame: Frame) | OpaqueBody

  /** `x instanceof cls`. */
  predicate InstanceOf(x: Obj, cls: string) {
    cls in x.classes
  }

  /** A column as `readDataFrame` returns it; `None` is a null slot. */
  datatype Column =
    | IntColumn(ints: seq<Option<int>>)
    | NumColumn(nums: seq<Option<Float>>)
    | BoolColumn(bools: seq<Option<bool>>)
    | StrColumn(strs: seq<Option<string>>)
      /** A column read by dispatching on the object stored at `path`, with no preset metadata. */
    | Delegated(path: string)

  /** A DataFrame as read back. */
  datatype Decoded = Decoded(names: seq<string>, columns: seq<Column>, rowCount: int, rowNames: Option<seq<string>>)

  /** The envelope stored in `OBJECT`. */
  datatype Envelope = Envelope(tag: string, version: string)
}
