/**
  `readDataFrame` (src/DataFrame.js:5-215): reads the `data_frame` group of a
  container, decoding each column child of its `data` group by the child's
  kind and `type` attribute, and turning a column with no child into a
  request to read the object stored beside the container.
*/
module FrameDecode {
  import opened Wrappers
  import opened Numbers
  import opened Failures
  import opened Container
  import opened Objects
  import opened IndexNames
  import opened ColumnDecode

  /** Where the object for the i-th column lives when it is not stored inline. */
  function OtherContents(path: string, i: nat): string {
    path + "/other_contents/" + IndexName(i)
  }

  // ------------------------------------------------------------ stored values

  /** A dataset's values as numbers, as `new Float64Array(rawvals)` makes them. */
  function FloatsOf(p: Payload): Result<seq<Float>, Failure> {
    match p
    case IntData(_, ints) => Ok(FromInts(ints))
    case FloatData(floats) => Ok(floats)
    case _ => Err(StorageFailure("numeric dataset"))
  }

  /** A placeholder attribute read as a number; an integer attribute is widened. */
  function FloatPlaceholder(p: Option<Scalar>): Result<Option<Float>, Failure> {
    match p
    case None => Ok(None)
    case Some(SNum(x)) => Ok(Some(x))
    case Some(SInt(i)) => Ok(Some(FromInt(i)))
    case Some(SStr(_)) => Err(StorageFailure(PlaceholderAttr))
  }

  function IntPlaceholder(p: Option<Scalar>): Result<Option<int>, Failure> {
    match p
    case None => Ok(None)
    case Some(SInt(i)) => Ok(Some(i))
    case Some(_) => Err(StorageFailure(PlaceholderAttr))
  }

  function StrPlaceholder(p: Option<Scalar>): Result<Option<string>, Failure> {
    match p
    case None => Ok(None)
    case Some(SStr(s)) => Ok(Some(s))
    case Some(_) => Err(StorageFailure(PlaceholderAttr))
  }

  // ------------------------------------------------------------ one column

  /** The `type` values a dataset column may carry. */
  const DataSetTypes: set<string> := {"number", "boolean", "integer", "string"}

  /** The `type` a column decoded from a dataset came from. */
  function ColumnTag(c: Column): string {
    match c
    case IntColumn(_) => "integer"
    case NumColumn(_) => "number"
    case BoolColumn(_) => "boolean"
    case StrColumn(_) => "string"
    case Delegated(_) => ""
  }

  /** A column stored as a dataset, by its `type` attribute (src/DataFrame.js:35-108). */
  function DecodeDataSet(path: string, name: string, n: Node): (r: Result<Column, Failure>)
    requires n.DataSet?
    ensures TypeAttr !in n.attrs ==> r == Err(StorageFailure(TypeAttr))
    ensures TypeAttr in n.attrs && !(n.attrs[TypeAttr].SStr? && n.attrs[TypeAttr].s in DataSetTypes) ==>
              r == Err(UnknownColumnType(name, path))
    ensures r.Ok? ==> TypeAttr in n.attrs && n.attrs[TypeAttr] == SStr(ColumnTag(r.value))
    ensures r.Err? ==> r.error.StorageFailure? || r.error == UnknownColumnType(name, path)
  {
    var tag :- ReadAttribute(n, TypeAttr);
    var placeholder := Placeholder(n);
    if tag == SStr("number") then
      var raw :- FloatsOf(n.payload);
      var missing :- FloatPlaceholder(placeholder);
      Ok(NumColumn(Nullify(raw, missing)))
    else if tag == SStr("boolean") then
      var raw :- IntsOf(n.payload);
      var missing :- IntPlaceholder(placeholder);
      Ok(BoolColumn(Booleans(raw, missing)))
    else if tag == SStr("integer") then
      var raw :- IntsOf(n.payload);
      var missing :- IntPlaceholder(placeholder);
      Ok(IntColumn(Nullify(raw, missing)))
    else if tag == SStr("string") then
      var raw :- StrsOf(n.payload);
      var missing :- StrPlaceholder(placeholder);
      Ok(StrColumn(Nullify(raw, missing)))
    else
      Err(UnknownColumnType(name, path))
  }

  /** A column stored as a group: a `factor` or a `vls` column (src/DataFrame.js:110-186).
      The placeholder is the one listed on the `codes` or `pointers` dataset. */
  function DecodeGroup(path: string, name: string, n: Node, text: seq<int> -> string): (r: Result<Column, Failure>)
    requires n.Group?
    ensures TypeAttr !in n.attrs ==> r == Err(StorageFailure(TypeAttr))
    ensures TypeAttr in n.attrs && n.attrs[TypeAttr] != SStr("factor") && n.attrs[TypeAttr] != SStr("vls") ==>
              r == Err(UnknownColumnType(name, path))
    ensures r.Ok? ==> r.value.StrColumn? && TypeAttr in n.attrs &&
                      (n.attrs[TypeAttr] == SStr("factor") || n.attrs[TypeAttr] == SStr("vls"))
    ensures r.Err? ==> r.error.StorageFailure? || r.error == UnknownColumnType(name, path)
  {
    var tag :- ReadAttribute(n, TypeAttr);
    if tag == SStr("factor") then
      var levelsNode :- Open(n, "levels");
      var levels :- StringValues(levelsNode);
      var codesNode :- Open(n, "codes");
      var codesData :- Values(codesNode);
      var codes :- IntsOf(codesData);
      var missing :- IntPlaceholder(Placeholder(codesNode));
      Ok(StrColumn(FactorValues(codes, levels, missing)))
    else if tag == SStr("vls") then
      var heapNode :- Open(n, "heap");
      var heapData :- Values(heapNode);
      var heap :- IntsOf(heapData);
      var ptrsNode :- Open(n, "pointers");
      var ptrsData :- Values(ptrsNode);
      var ptrs :- PtrsOf(ptrsData);
      var missing :- StrPlaceholder(Placeholder(ptrsNode));
      Ok(StrColumn(Nullify(VlsStrings(heap, ptrs, text), missing)))
    else
      Err(UnknownColumnType(name, path))
  }

  function DecodeChild(path: string, name: string, n: Node, text: seq<int> -> string): (r: Result<Column, Failure>)
    ensures r.Err? && (r.error.UnknownColumnType? || r.error.UnknownColumnKind?) ==>
              r.error.column == name && r.error.path == path
    ensures r.Ok? ==> !r.value.Delegated?
    ensures n.OtherObject? ==> r == Err(UnknownColumnKind(name, path))
    ensures r.Err? && r.error.UnknownColumnKind? ==> n.OtherObject?
  {
    match n
    case DataSet(_, _) => DecodeDataSet(path, name, n)
    case Group(_, _) => DecodeGroup(path, name, n, text)
    case OtherObject(_) => Err(UnknownColumnKind(name, path))
  }

  /** The i-th column, named `name`: decoded from the child `String(i)` of `data`, or, when
      there is no such child, read from its side path by the dispatcher. */
  function DecodeColumn(path: string, data: Node, i: nat, name: string, text: seq<int> -> string)
    : (r: Result<Column, Failure>)
    ensures !HasChild(data, IndexName(i)) ==> r == Ok(Delegated(OtherContents(path, i)))
    ensures r.Ok? && r.value.Delegated? ==> !HasChild(data, IndexName(i))
    ensures r.Err? && (r.error.UnknownColumnType? || r.error.UnknownColumnKind?) ==>
              r.error.column == name && r.error.path == path
  {
    if !HasChild(data, IndexName(i)) then Ok(Delegated(OtherContents(path, i)))
    else DecodeChild(path, name, data.kids[IndexName(i)], text)
  }

  /** All columns in order; the first column that fails decides the error. */
  function DecodeColumns(path: string, data: Node, names: seq<string>, text: seq<int> -> string)
    : (r: Result<seq<Column>, Failure>)
    ensures r.Ok? ==> |r.value| == |names|
    ensures r.Ok? ==> forall i :: 0 <= i < |names| ==> DecodeColumn(path, data, i, names[i], text) == Ok(r.value[i])
    ensures r.Err? ==>
              exists i :: 0 <= i < |names| && DecodeColumn(path, data, i, names[i], text) == Err(r.error) &&
                          forall j :: 0 <= j < i ==> DecodeColumn(path, data, j, names[j], text).Ok?
    ensures (forall i :: 0 <= i < |names| ==> DecodeColumn(path, data, i, names[i], text).Ok?) ==> r.Ok?
  {
    if |names| == 0 then Ok([])
    else
      var n := |names| - 1;
      var init := names[..n];
      assert forall j :: 0 <= j < n ==> init[j] == names[j];
      var cols :- DecodeColumns(path, data, init, text);
      var c :- DecodeColumn(path, data, n, names[n], text);
      Ok(cols + [c])
  }

  /** Decoding one more column extends the decoded prefix, or fails with that column's error. */
  lemma DecodeColumnsStep(path: string, data: Node, names: seq<string>, k: nat, text: seq<int> -> string)
    requires k < |names| && DecodeColumns(path, data, names[..k], text).Ok?
    ensures var c := DecodeColumn(path, data, k, names[k], text);
      DecodeColumns(path, data, names[..k + 1], text) ==
        if c.Err? then Err(c.error) else Ok(DecodeColumns(path, data, names[..k], text).value + [c.value])
  {
    assert names[..k + 1][..k] == names[..k];
  }

  /** Once a prefix fails, the whole fails the same way. */
  lemma {:induction false} DecodeColumnsPrefixErr(path: string, data: Node, names: seq<string>, k: nat, text: seq<int> -> string)
    requires k <= |names| && DecodeColumns(path, data, names[..k], text).Err?
    ensures DecodeColumns(path, data, names, text) == DecodeColumns(path, data, names[..k], text)
    decreases |names| - k
  {
    if k == |names| {
      assert names[..k] == names;
    } else {
      var n := |names| - 1;
      assert names[..n][..k] == names[..k];
      DecodeColumnsPrefixErr(path, data, names[..n], k, text);
    }
  }

  /** The row count attribute, `Number(...)` of its first value. */
  function RowCount(s: Scalar): Result<int, Failure> {
    match s
    case SInt(i) => Ok(i)
    case _ => Err(StorageFailure("row-count"))
  }

  /** The DataFrame stored in a container: the `data_frame` group, its `data` group and
      `column_names` dataset, every column, the `row-count` attribute and, when present,
      the `row_names` dataset, read in that order. */
  function DecodeFrame(path: string, file: Node, text: seq<int> -> string): (r: Result<Decoded, Failure>)
    ensures r.Ok? ==> |r.value.names| == |r.value.columns|
    ensures r.Ok? ==> HasChild(file, "data_frame") && HasChild(file.kids["data_frame"], "data") &&
                      file.kids["data_frame"].kids["data"].Group?
    ensures HasChild(file, "data_frame") && HasChild(file.kids["data_frame"], "data") ==>
              (!file.kids["data_frame"].kids["data"].Group? ==> r == Err(StorageFailure("data")))
  {
    var frame :- Open(file, "data_frame");
    var data :- OpenGroup(frame, "data");
    var namesNode :- Open(frame, "column_names");
    var names :- StringValues(namesNode);
    var columns :- DecodeColumns(path, data, names, text);
    var countAttr :- ReadAttribute(frame, "row-count");
    var rowCount :- RowCount(countAttr);
    if HasChild(frame, "row_names") then
      var rowNames :- StringValues(frame.kids["row_names"]);
      Ok(Decoded(names, columns, rowCount, Some(rowNames)))
    else
      Ok(Decoded(names, columns, rowCount, None))
  }

  // ------------------------------------------------------------ the reader as written

  /** One column, by the source's branches and loops. */
  method ReadColumn(path: string, data: Node, i: nat, name: string, text: seq<int> -> string)
    returns (r: Result<Column, Failure>)
    ensures r == DecodeColumn(path, data, i, name, text)
  {
    var iname := IndexName(i);
    if !HasChild(data, iname) {
      return Ok(Delegated(OtherContents(path, i)));
    }
    var child := data.kids[iname];
    if child.DataSet? {
      if TypeAttr !in child.attrs {
        return Err(StorageFailure(TypeAttr));
      }
      var tag := child.attrs[TypeAttr];
      var placeholder := Placeholder(child);
      if tag == SStr("number") {
        var raw :- FloatsOf(child.payload);
        var missing :- FloatPlaceholder(placeholder);
        var vals := DecodeNumbers(raw, missing);
        r := Ok(NumColumn(vals));
      } else if tag == SStr("boolean") {
        var raw :- IntsOf(child.payload);
        var missing :- IntPlaceholder(placeholder);
        var vals := DecodeBooleans(raw, missing);
        r := Ok(BoolColumn(vals));
      } else if tag == SStr("integer") {
        var raw :- IntsOf(child.payload);
        var missing :- IntPlaceholder(placeholder);
        var vals := ReplacePlaceholder(raw, missing);
        r := Ok(IntColumn(vals));
      } else if tag == SStr("string") {
        var raw :- StrsOf(child.payload);
        var missing :- StrPlaceholder(placeholder);
        var vals := ReplacePlaceholder(raw, missing);
        r := Ok(StrColumn(vals));
      } else {
        r := Err(UnknownColumnType(name, path));
      }
    } else if child.Group? {
      if TypeAttr !in child.attrs {
        return Err(StorageFailure(TypeAttr));
      }
      var tag := child.attrs[TypeAttr];
      if tag == SStr("factor") {
        var levelsNode :- Open(child, "levels");
        var levels :- StringValues(levelsNode);
        var codesNode :- Open(child, "codes");
        var codesData :- Values(codesNode);
        var codes :- IntsOf(codesData);
        var missing :- IntPlaceholder(Placeholder(codesNode));
        var vals := DecodeFactor(codes, levels, missing);
        r := Ok(StrColumn(vals));
      } else if tag == SStr("vls") {
        var heapNode :- Open(child, "heap");
        var heapData :- Values(heapNode);
        var heap :- IntsOf(heapData);
        var ptrsNode :- Open(child, "pointers");
        var ptrsData :- Values(ptrsNode);
        var ptrs :- PtrsOf(ptrsData);
        var missing :- StrPlaceholder(Placeholder(ptrsNode));
        var vals := DecodeVls(heap, ptrs, missing, text);
        r := Ok(StrColumn(vals));
      } else {
        r := Err(UnknownColumnType(name, path));
      }
    } else {
      r := Err(UnknownColumnKind(name, path));
    }
  }

  /** `readDataFrame` on the container file already fetched for `path`. */
  method ReadDataFrame(path: string, file: Node, text: seq<int> -> string) returns (r: Result<Decoded, Failure>)
    ensures r == DecodeFrame(path, file, text)
  {
    var frame :- Open(file, "data_frame");
    var data :- OpenGroup(frame, "data");
    var namesNode :- Open(frame, "column_names");
    var names :- StringValues(namesNode);
    var columns: seq<Column> := [];
    var i := 0;
    while i < |names|
      invariant 0 <= i <= |names|
      invariant DecodeColumns(path, data, names[..i], text) == Ok(columns)
    {
      var c := ReadColumn(path, data, i, names[i], text);
      DecodeColumnsStep(path, data, names, i, text);
      if c.Err? {
        DecodeColumnsPrefixErr(path, data, names, i + 1, text);
        return Err(c.error);
      }
      columns := columns + [c.value];
      i := i + 1;
    }
    assert names[..|names|] == names;
    var countAttr :- ReadAttribute(frame, "row-count");
    var rowCount :- RowCount(countAttr);
    var rowNames: Option<seq<string>> := None;
    if HasChild(frame, "row_names") {
      var rn :- StringValues(frame.kids["row_names"]);
      rowNames := Some(rn);
    }
    r := Ok(Decoded(names, columns, rowCount, rowNames));
  }

  // ------------------------------------------------------------ errors

  /** A decoding error about a column names that column and the DataFrame's path. */
  lemma ColumnErrorsNameTheColumn(path: string, file: Node, text: seq<int> -> string)
    requires DecodeFrame(path, file, text).Err?
    requires DecodeFrame(path, file, text).error.UnknownColumnType? ||
             DecodeFrame(path, file, text).error.UnknownColumnKind?
    ensures var e := DecodeFrame(path, file, text).error;
      e.path == path &&
      var names := StringValues(file.kids["data_frame"].kids["column_names"]);
      names.Ok? && e.column in names.value
  {
    var frame := file.kids["data_frame"];
    var data := frame.kids["data"];
    var names := StringValues(frame.kids["column_names"]).value;
    var cols := DecodeColumns(path, data, names, text);
    assert cols.Err?;
    var i :| 0 <= i < |names| && DecodeColumn(path, data, i, names[i], text) == Err(cols.error);
  }
}
