/**
  Reading back what `saveDataFrame` wrote gives the DataFrame's names, row
  count and row names unchanged, every inline column with its nulls in the
  same slots and its other values unchanged, and every other column as a
  request to read the object saved at its side path.
*/
module RoundTrip {
  import opened Wrappers
  import opened Numbers
  import opened Container
  import opened Objects
  import opened IndexNames
  import opened Placeholders
  import opened ColumnDecode
  import opened ColumnEncode
  import opened FrameDecode
  import opened FrameEncode

  // ------------------------------------------------------------ the expected reading

  function Somes<T>(s: seq<T>): (r: seq<Option<T>>)
    ensures |r| == |s| && forall i :: 0 <= i < |s| ==> r[i] == Some(s[i])
  {
    seq(|s|, i requires 0 <= i < |s| => Some(s[i]))
  }

  /** The entries of a column of numbers, each null as `None`. */
  function NullableNumbers(col: seq<Entry>): seq<Option<Float>> {
    seq(|col|, i requires 0 <= i < |col| => if col[i].Num? then Some(col[i].x) else None)
  }

  function NullableBools(col: seq<Entry>): seq<Option<bool>> {
    seq(|col|, i requires 0 <= i < |col| => if col[i].Bool? then Some(col[i].b) else None)
  }

  function NullableStrings(col: seq<Entry>): seq<Option<string>> {
    seq(|col|, i requires 0 <= i < |col| => if col[i].Str? then Some(col[i].s) else None)
  }

  /** The i-th column as it should read back: the same values with nulls where they were,
      integers of 64 bits or more, and unsigned 32-bit ones, widened to numbers, and an
      all-null array read as booleans; a column not stored inline reads as a request. */
  function ExpectedColumn(col: Col, path: string, i: nat): Column {
    match col
    case TypedInts(kind, ints) =>
      if FitsInteger(kind) then IntColumn(Somes(ints)) else NumColumn(Somes(FromInts(ints)))
    case FloatArray(_) => Delegated(OtherContents(path, i))
    case NonArray(_) => Delegated(OtherContents(path, i))
    case Plain(entries) =>
      var kinds := Kinds(entries);
      if kinds == {} || kinds == {BooleanKind} then BoolColumn(NullableBools(entries))
      else if kinds == {NumberKind} then NumColumn(NullableNumbers(entries))
      else if kinds == {StringKind} && EncodeColumn(col).Inline? then StrColumn(NullableStrings(entries))
      else
        Delegated(OtherContents(path, i))
  }

  function ExpectedColumns(cols: seq<Col>, path: string): seq<Column> {
    seq(|cols|, i requires 0 <= i < |cols| => ExpectedColumn(cols[i], path, i))
  }

  // ------------------------------------------------------------ one column

  lemma NumbersRoundTrip(path: string, name: string, col: seq<Entry>)
    requires Kinds(col) == {NumberKind}
    ensures EncodePlain(col).Inline?
    ensures DecodeDataSet(path, name, EncodePlain(col).node) == Ok(NumColumn(NullableNumbers(col)))
  {
    SingleKind(col, NumberKind);
    var node := EncodePlain(col).node;
    if Null in col {
      var p := NumericPlaceholder(col);
      var raw := NumbersOf(Filled(col, Num(p)));
      assert node == DataSet(ColumnAttrs("number", Some(SNum(p))), FloatData(raw));
      assert Nullify(raw, Some(p)) == NullableNumbers(col) by {
        forall i | 0 <= i < |col|
          ensures Nullify(raw, Some(p))[i] == NullableNumbers(col)[i]
        {
          if !col[i].Null? {
            assert col[i] in col;
          }
        }
      }
    } else {
      assert forall i :: 0 <= i < |col| ==> col[i] != Null;
      assert Nullify(NumbersOf(col), None) == NullableNumbers(col);
    }
  }

  lemma BooleansRoundTrip(path: string, name: string, col: seq<Entry>)
    requires Kinds(col) == {} || Kinds(col) == {BooleanKind}
    ensures EncodePlain(col).Inline?
    ensures DecodeDataSet(path, name, EncodePlain(col).node) == Ok(BoolColumn(NullableBools(col)))
  {
    SingleKind(col, BooleanKind);
    var codes := BooleanCodes(col);
    var missing := if Null in col then Some(BooleanPlaceholder) else None;
    assert EncodePlain(col).node == BooleanDataSet(col);
    assert Booleans(codes, missing) == NullableBools(col) by {
      forall i | 0 <= i < |col|
        ensures Booleans(codes, missing)[i] == NullableBools(col)[i]
      {
        if col[i].Null? {
          assert Null in col by { assert col[i] in col; }
        }
      }
    }
  }

  lemma StringsRoundTrip(path: string, name: string, col: seq<Entry>)
    requires Kinds(col) == {StringKind} && EncodePlain(col).Inline?
    ensures DecodeDataSet(path, name, EncodePlain(col).node) == Ok(StrColumn(NullableStrings(col)))
  {
    SingleKind(col, StringKind);
    var p := StringPlaceholder(col);
    var strs := FilledStrings(col);
    var missing := if Null in col then Some(p) else None;
    assert EncodePlain(col).node == DataSet(ColumnAttrs("string", if Null in col then Some(SStr(p)) else None), StrData(strs));
    assert Nullify(strs, missing) == NullableStrings(col) by {
      forall i | 0 <= i < |col|
        ensures Nullify(strs, missing)[i] == NullableStrings(col)[i]
      {
        if col[i].Null? {
          assert Null in col by { assert col[i] in col; }
        } else {
          assert col[i] in col;
        }
      }
    }
  }

  /** A column written inline decodes to its expected reading; one that was queued reads
      as a request for its side path. */
  lemma ColumnRoundTrip(col: Col, path: string, name: string, i: nat, data: Node, text: seq<int> -> string)
    requires data.Group?
    requires IndexName(i) in data.kids <==> EncodeColumn(col).Inline?
    requires EncodeColumn(col).Inline? ==> data.kids[IndexName(i)] == EncodeColumn(col).node
    ensures DecodeColumn(path, data, i, name, text) == Ok(ExpectedColumn(col, path, i))
  {
    match col
    case TypedInts(kind, ints) =>
      var node := EncodeColumn(col).node;
      if FitsInteger(kind) {
        assert Nullify(ints, None) == Somes(ints);
      } else {
        assert Nullify(FromInts(ints), None) == Somes(FromInts(ints));
      }
      assert DecodeChild(path, name, node, text) == DecodeDataSet(path, name, node);
    case FloatArray(_) =>
    case NonArray(_) =>
    case Plain(entries) =>
      var kinds := Kinds(entries);
      if kinds == {} || kinds == {BooleanKind} {
        BooleansRoundTrip(path, name, entries);
      } else if kinds == {NumberKind} {
        NumbersRoundTrip(path, name, entries);
      } else if kinds == {StringKind} && EncodeColumn(col).Inline? {
        StringsRoundTrip(path, name, entries);
      } else {
        assert EncodeColumn(col).Queue?;
      }
  }

  // ------------------------------------------------------------ the whole DataFrame

  /** Reading the container `saveDataFrame` wrote gives back the names, the row count, the
      row names and the expected reading of every column. */
  lemma FrameRoundTrip(x: Frame, path: string, text: seq<int> -> string)
    requires WellFormed(x)
    ensures DecodeFrame(path, EncodeFrame(x, path).container, text) ==
            Ok(Decoded(x.names, ExpectedColumns(x.columns, path), x.rowCount, x.rowNames))
  {
    var outs := Outcomes(x.columns);
    var data := Group(map[], InlineKids(outs));
    forall i | 0 <= i < |x.names|
      ensures DecodeColumn(path, data, i, x.names[i], text) == Ok(ExpectedColumn(x.columns[i], path, i))
    {
      InlineKidsLookup(outs, i);
      ColumnRoundTrip(x.columns[i], path, x.names[i], i, data, text);
    }
    var cols := DecodeColumns(path, data, x.names, text);
    assert cols.Ok?;
    assert cols.value == ExpectedColumns(x.columns, path);
  }

  /** Every column that reads back as a request was handed to the dispatcher at that path,
      and every request is for such a column. */
  lemma DelegatedColumnsAreSaved(x: Frame, path: string, i: nat)
    requires WellFormed(x) && i < |x.columns|
    ensures ExpectedColumn(x.columns[i], path, i).Delegated? <==> EncodeColumn(x.columns[i]).Queue?
    ensures EncodeColumn(x.columns[i]).Queue? ==>
              Request(OtherContents(path, i), EncodeColumn(x.columns[i]).col) in EncodeFrame(x, path).requests
  {
    var outs := Outcomes(x.columns);
    assert outs[i] == EncodeColumn(x.columns[i]);
    if x.columns[i].Plain? {
      var entries := x.columns[i].entries;
      if Kinds(entries) == {} || Kinds(entries) == {BooleanKind} {
        BooleansRoundTrip(path, "", entries);
      } else if Kinds(entries) == {NumberKind} {
        NumbersRoundTrip(path, "", entries);
      }
    }
  }

  // ------------------------------------------------------------ distinct side paths

  lemma OtherContentsInjective(path: string, i: nat, j: nat)
    ensures OtherContents(path, i) == OtherContents(path, j) ==> i == j
  {
    var prefix := path + "/other_contents/";
    if OtherContents(path, i) == OtherContents(path, j) {
      assert IndexName(i) == OtherContents(path, i)[|prefix|..];
      assert IndexName(j) == OtherContents(path, j)[|prefix|..];
      IndexNameInjective(i, j);
    }
  }

  /** The requests are for side paths of columns before the n-th. */
  lemma {:induction false} RequestsBefore(outs: seq<Outcome>, path: string, n: nat)
    requires |outs| <= n
    ensures forall r :: r in Requests(outs, path) ==> r.path != OtherContents(path, n)
  {
    forall r | r in Requests(outs, path)
      ensures r.path != OtherContents(path, n)
    {
      var i :| 0 <= i < |outs| && outs[i].Queue? && r == Request(OtherContents(path, i), outs[i].col);
      OtherContentsInjective(path, i, n);
    }
  }

  predicate DistinctPaths(rs: seq<Request>) {
    forall a, b :: 0 <= a < b < |rs| ==> rs[a].path != rs[b].path
  }

  lemma DistinctAppend(rs: seq<Request>, r: Request)
    requires DistinctPaths(rs)
    requires forall q :: q in rs ==> q.path != r.path
    ensures DistinctPaths(rs + [r])
  {
    var all := rs + [r];
    forall a, b | 0 <= a < b < |all|
      ensures all[a].path != all[b].path
    {
      assert all[a] == rs[a] && rs[a] in rs;
      if b < |rs| {
        assert all[b] == rs[b];
      }
    }
  }

  /** No two requests share a path, so no queued column overwrites another. */
  lemma {:induction false} RequestPathsDistinct(outs: seq<Outcome>, path: string)
    ensures DistinctPaths(Requests(outs, path))
  {
    if |outs| > 0 {
      var n := |outs| - 1;
      RequestPathsDistinct(outs[..n], path);
      RequestsBefore(outs[..n], path, n);
      if outs[n].Queue? {
        DistinctAppend(Requests(outs[..n], path), Request(OtherContents(path, n), outs[n].col));
      }
    }
  }
}
