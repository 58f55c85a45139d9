/**
  Four places where `saveDataFrame` (src/DataFrame.js) does not do what the
  surrounding code evidently means, each modelled as written next to an input
  that shows the difference. The rest of the model uses the intended
  behaviour: `ColumnEncode.BooleanCodes`, `ColumnEncode.BooleanDataSet`,
  `Placeholders.NumericPlaceholder` and `FrameEncode.Requests`.
*/
module AsWritten {
  import opened Wrappers
  import opened Numbers
  import opened Container
  import opened Objects
  import opened Placeholders
  import opened ColumnDecode
  import opened ColumnEncode
  import opened FrameDecode
  import opened FrameEncode
  import opened RoundTrip

  // ------------------------------------------------------------ booleans (line 374)

  /** `new Uint8Array(col)`: true becomes 1, and false and null both become 0. The codes
      computed just before (null as 2) are discarded. */
  function BooleanCodesAsWritten(col: seq<Entry>): (codes: seq<int>)
    ensures |codes| == |col|
    ensures forall i :: 0 <= i < |col| && col[i].Null? ==> codes[i] == 0
    ensures BooleanOrNull(col) ==> forall i :: 0 <= i < |col| && col[i].Bool? ==> codes[i] == BooleanCodes(col)[i]
  {
    seq(|col|, i requires 0 <= i < |col| => if col[i] == Bool(true) then 1 else 0)
  }

  function BooleanDataSetAsWritten(col: seq<Entry>): Node {
    DataSet(ColumnAttrs("boolean", if Null in col then Some(SInt(BooleanPlaceholder)) else None),
            IntData(Uint8, BooleanCodesAsWritten(col)))
  }

  /** As written, every null of a boolean array reads back as false; the booleans read back
      unchanged. */
  lemma NullsReadFalse(path: string, name: string, col: seq<Entry>)
    requires BooleanOrNull(col)
    ensures var r := DecodeDataSet(path, name, BooleanDataSetAsWritten(col));
      r.Ok? && r.value.BoolColumn? && |r.value.bools| == |col| &&
      forall i :: 0 <= i < |col| ==> r.value.bools[i] == (if col[i].Null? then Some(false) else Some(col[i].b))
  {
    var codes := BooleanCodesAsWritten(col);
    var missing := if Null in col then Some(BooleanPlaceholder) else None;
    var bools := Booleans(codes, missing);
    assert DecodeDataSet(path, name, BooleanDataSetAsWritten(col)) == Ok(BoolColumn(bools));
    forall i | 0 <= i < |col|
      ensures bools[i] == (if col[i].Null? then Some(false) else Some(col[i].b))
    {
      assert codes[i] == 0 || codes[i] == 1;
    }
  }

  /** A null boolean reads back as false. */
  lemma NullBooleanReadsFalse()
    ensures var col := [Bool(true), Bool(false), Null];
      DecodeDataSet("df", "flag", BooleanDataSetAsWritten(col)) == Ok(BoolColumn([Some(true), Some(false), Some(false)]))
      && DecodeDataSet("df", "flag", BooleanDataSet(col)) == Ok(BoolColumn(NullableBools(col)))
      && NullableBools(col) == [Some(true), Some(false), None]
  {
    var col := [Bool(true), Bool(false), Null];
    assert Null in col by { assert col[2] == Null; }
    assert BooleanCodesAsWritten(col) == [1, 0, 0];
    assert Booleans([1, 0, 0], Some(2)) == [Some(true), Some(false), Some(false)];
    assert Kinds(col) == {BooleanKind} by {
      assert KindOf(col[0]) == BooleanKind;
      assert Kinds(col) <= {BooleanKind};
    }
    BooleansRoundTrip("df", "flag", col);
    assert EncodePlain(col).node == BooleanDataSet(col);
  }

  // ------------------------------------------------------------ all null (line 309)

  /** An array with no non-null entry is written as an empty boolean dataset. */
  function AllNullAsWritten(col: seq<Entry>): Node {
    DataSet(ColumnAttrs("boolean", None), IntData(Uint8, []))
  }

  /** Two nulls read back as no entries at all. */
  lemma AllNullLosesLength()
    ensures DecodeDataSet("df", "empty", AllNullAsWritten([Null, Null])) == Ok(BoolColumn([]))
    ensures DecodeDataSet("df", "empty", BooleanDataSet([Null, Null])) == Ok(BoolColumn([None, None]))
  {
    var col := [Null, Null];
    assert Booleans([], None) == [];
    assert Kinds(col) == {};
    BooleansRoundTrip("df", "empty", col);
    assert EncodePlain(col).node == BooleanDataSet(col);
    assert NullableBools(col) == [None, None];
  }

  // ------------------------------------------------------------ NaN test (line 322)

  /** The placeholder as written: NaN exactly when the column already holds a NaN. */
  function NumericPlaceholderAsWritten(col: seq<Entry>): Float {
    if Num(NaN) in col then NaN
    else
      match FirstAbsent(NumericCandidates, col, 0)
      case Some(c) => c
      case None =>
        var m := LeastFiniteAbove(col, -MaxValue, 0.0);
        Finite((-MaxValue + m) / 2.0)
  }

  function NumberDataSet(col: seq<Entry>, p: Float): Node
    requires forall i :: 0 <= i < |col| ==> col[i].Null? || col[i].Num?
  {
    DataSet(ColumnAttrs("number", Some(SNum(p))), FloatData(NumbersOf(Filled(col, Num(p)))))
  }

  /** A stored NaN reads back as null, because the placeholder chosen is NaN itself. */
  lemma NaNReadsAsNull()
    ensures var col := [Num(NaN), Null];
      NumericPlaceholderAsWritten(col) == NaN
      && DecodeDataSet("df", "x", NumberDataSet(col, NumericPlaceholderAsWritten(col))) == Ok(NumColumn([None, None]))
      && DecodeDataSet("df", "x", NumberDataSet(col, NumericPlaceholder(col))) == Ok(NumColumn([Some(NaN), None]))
  {
    var col := [Num(NaN), Null];
    assert Num(NaN) in col by { assert col[0] == Num(NaN); }
    assert Null in col by { assert col[1] == Null; }
    assert Kinds(col) == {NumberKind} by {
      assert KindOf(col[0]) == NumberKind;
      assert Kinds(col) <= {NumberKind};
    }
    var p := NumericPlaceholder(col);
    assert NumbersOf(Filled(col, Num(NaN))) == [NaN, NaN];
    assert Nullify([NaN, NaN], Some(NaN)) == [None, None];
    NumbersRoundTrip("df", "x", col);
    assert EncodePlain(col).node == NumberDataSet(col, p);
    assert NullableNumbers(col) == [Some(NaN), None];
  }

  // ------------------------------------------------------------ delegation key (lines 423, 427)

  /** `externals["iname"] = col`: every queued column overwrites the one before, so at most
      the last is saved, at the literal side path `other_contents/iname`. */
  function RequestsAsWritten(outs: seq<Outcome>, path: string): (rs: seq<Request>)
    ensures |rs| <= 1
  {
    if |outs| == 0 then []
    else
      var n := |outs| - 1;
      match outs[n]
      case Queue(c) => [Request(path + "/other_contents/iname", c)]
      case Inline(_) => RequestsAsWritten(outs[..n], path)
  }

  /** Two columns that need delegation: only the second is saved, and not where the reader
      looks for it. */
  lemma SecondDelegationOverwritesFirst()
    ensures var x := Frame(["a", "b"], [FloatArray([]), FloatArray([Finite(1.0)])], 1, None);
      var outs := Outcomes(x.columns);
      RequestsAsWritten(outs, "df") == [Request("df/other_contents/iname", FloatArray([Finite(1.0)]))]
      && Requests(outs, "df") == [Request(OtherContents("df", 0), FloatArray([])),
                                  Request(OtherContents("df", 1), FloatArray([Finite(1.0)]))]
  {
    var x := Frame(["a", "b"], [FloatArray([]), FloatArray([Finite(1.0)])], 1, None);
    var outs := Outcomes(x.columns);
    assert outs == [Queue(FloatArray([])), Queue(FloatArray([Finite(1.0)]))];
    assert outs[..1] == [Queue(FloatArray([]))];
    assert outs[..1][..0] == [];
    assert "df" + "/other_contents/iname" == "df/other_contents/iname";
  }
}
