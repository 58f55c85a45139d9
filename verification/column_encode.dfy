/**
  Per-column encoding of `saveDataFrame` (src/DataFrame.js:236-428): each
  column is either written inline as a dataset of the `data` group, tagged
  with its type and, when it has nulls, the placeholder that stands for them,
  or queued for delegation to the dispatcher.
*/
module ColumnEncode {
  import opened Wrappers
  import opened Numbers
  import opened Container
  import opened Objects
  import opened Placeholders

  // ------------------------------------------------------------ classification

  /** The set of `typeof`s of the non-null entries. */
  function Kinds(col: seq<Entry>): set<Kind> {
    set e | e in col && !e.Null? :: KindOf(e)
  }

  lemma KindsMember(col: seq<Entry>, i: nat)
    requires i < |col| && !col[i].Null?
    ensures KindOf(col[i]) in Kinds(col)
  {
    var e := col[i];
    assert e in col && !e.Null?;
  }

  /** When the non-null entries have one kind, every entry is null or of that kind. */
  lemma SingleKind(col: seq<Entry>, k: Kind)
    requires Kinds(col) <= {k}
    ensures forall i :: 0 <= i < |col| ==> col[i].Null? || KindOf(col[i]) == k
  {
    forall i | 0 <= i < |col| && !col[i].Null?
      ensures KindOf(col[i]) == k
    {
      KindsMember(col, i);
    }
  }

  lemma SingleKindOnly(col: seq<Entry>)
    requires forall i :: 0 <= i < |col| ==> col[i].Null? || col[i].Bool?
    ensures Kinds(col) <= {BooleanKind}
  {
  }

  /** The scan of src/DataFrame.js:297-305. */
  method ScanEntries(col: seq<Entry>) returns (kinds: set<Kind>, hasMissing: bool)
    ensures kinds == Kinds(col)
    ensures hasMissing <==> Null in col
  {
    kinds := {};
    hasMissing := false;
    var i := 0;
    while i < |col|
      invariant 0 <= i <= |col|
      invariant kinds == Kinds(col[..i])
      invariant hasMissing <==> Null in col[..i]
    {
      var entry := col[i];
      assert col[..i + 1] == col[..i] + [entry];
      if entry.Null? {
        hasMissing := true;
      } else {
        kinds := kinds + {KindOf(entry)};
      }
      i := i + 1;
    }
    assert col[..|col|] == col;
  }

  // ------------------------------------------------------------ null filling

  /** A copy of the column whose null slots hold `filler`. */
  function Filled(col: seq<Entry>, filler: Entry): seq<Entry> {
    seq(|col|, i requires 0 <= i < |col| => if col[i].Null? then filler else col[i])
  }

  /** The loops of src/DataFrame.js:348-352 and 391-395, on a copy of the column. */
  method FillNulls(col: seq<Entry>, filler: Entry) returns (filled: seq<Entry>)
    ensures |filled| == |col|
    ensures forall i :: 0 <= i < |col| && col[i].Null? ==> filled[i] == filler
    ensures forall i :: 0 <= i < |col| && !col[i].Null? ==> filled[i] == col[i]
    ensures filled == Filled(col, filler)
  {
    var a := new Entry[|col|](i requires 0 <= i < |col| => col[i]);
    var i := 0;
    while i < a.Length
      invariant 0 <= i <= a.Length
      invariant forall j :: 0 <= j < i ==> a[j] == Filled(col, filler)[j]
      invariant forall j :: i <= j < a.Length ==> a[j] == col[j]
    {
      if a[i].Null? {
        a[i] := filler;
      }
      i := i + 1;
    }
    filled := a[..];
  }

  function NumbersOf(col: seq<Entry>): seq<Float>
    requires forall i :: 0 <= i < |col| ==> col[i].Num?
  {
    seq(|col|, i requires 0 <= i < |col| => col[i].x)
  }

  function StringsOf(col: seq<Entry>): seq<string>
    requires forall i :: 0 <= i < |col| ==> col[i].Str?
  {
    seq(|col|, i requires 0 <= i < |col| => col[i].s)
  }

  // ------------------------------------------------------------ booleans

  /** The fixed sentinel for a null boolean. */
  const BooleanPlaceholder := 2

  predicate BooleanOrNull(col: seq<Entry>) {
    forall i :: 0 <= i < |col| ==> col[i].Null? || col[i].Bool?
  }

  function BooleanCodes(col: seq<Entry>): seq<int>
    requires BooleanOrNull(col)
  {
    seq(|col|, i requires 0 <= i < |col| => if col[i].Null? then BooleanPlaceholder else if col[i].b then 1 else 0)
  }

  /** The loop of src/DataFrame.js:365-372 filling a Uint8Array. */
  method EncodeBooleans(col: seq<Entry>) returns (vals: seq<int>)
    requires BooleanOrNull(col)
    ensures |vals| == |col|
    ensures forall i :: 0 <= i < |col| && col[i].Null? ==> vals[i] == 2
    ensures forall i :: 0 <= i < |col| && col[i] == Bool(true) ==> vals[i] == 1
    ensures forall i :: 0 <= i < |col| && col[i] == Bool(false) ==> vals[i] == 0
    ensures vals == BooleanCodes(col)
  {
    var a := new int[|col|];
    var i := 0;
    while i < |col|
      invariant 0 <= i <= |col|
      invariant forall j :: 0 <= j < i ==> a[j] == BooleanCodes(col)[j]
    {
      if col[i].Null? {
        a[i] := 2;
      } else {
        a[i] := if col[i].b then 1 else 0;
      }
      i := i + 1;
    }
    vals := a[..];
  }

  // ------------------------------------------------------------ fixed width or VLS

  function SumLen(strs: seq<string>): nat {
    if |strs| == 0 then 0 else SumLen(strs[..|strs| - 1]) + |strs[|strs| - 1]|
  }

  function MaxLen(strs: seq<string>): nat {
    if |strs| == 0 then 0
    else
      var m := MaxLen(strs[..|strs| - 1]);
      if |strs[|strs| - 1]| > m then |strs[|strs| - 1]| else m
  }

  /** The size test of src/DataFrame.js:407: padding every string to the longest costs more
      than two 8-byte offsets per string. */
  predicate UseVls(strs: seq<string>) {
    MaxLen(strs) * |strs| > SumLen(strs) + 2 * 8 * |strs|
  }

  /** The accumulation of src/DataFrame.js:399-406 (lengths counted in characters). */
  method MeasureStrings(strs: seq<string>) returns (maxLen: nat, sumLen: nat)
    ensures maxLen == MaxLen(strs) && sumLen == SumLen(strs)
    ensures forall i :: 0 <= i < |strs| ==> |strs[i]| <= maxLen
    ensures |strs| > 0 ==> exists i :: 0 <= i < |strs| && |strs[i]| == maxLen
  {
    maxLen, sumLen := 0, 0;
    var i := 0;
    while i < |strs|
      invariant 0 <= i <= |strs|
      invariant maxLen == MaxLen(strs[..i]) && sumLen == SumLen(strs[..i])
      invariant forall j :: 0 <= j < i ==> |strs[j]| <= maxLen
      invariant i > 0 ==> exists j :: 0 <= j < i && |strs[j]| == maxLen
      invariant i == 0 ==> maxLen == 0
    {
      assert strs[..i + 1][..i] == strs[..i];
      var s := strs[i];
      sumLen := sumLen + |s|;
      if |s| > maxLen {
        maxLen := |s|;
      }
      i := i + 1;
    }
    assert strs[..|strs|] == strs;
  }

  /** Strings at least `b` long in total take at least `b` per string. */
  lemma {:induction false} SumLenAtLeast(strs: seq<string>, b: int)
    requires forall i :: 0 <= i < |strs| ==> |strs[i]| >= b
    ensures SumLen(strs) >= b * |strs|
  {
    if |strs| > 0 {
      var init := strs[..|strs| - 1];
      assert forall i :: 0 <= i < |init| ==> init[i] == strs[i];
      SumLenAtLeast(init, b);
    }
  }

  /** A string array goes to VLS only when some string is more than 16 characters shorter
      than the longest: padding wastes more than the two 8-byte pointer fields per string
      only if some string is padded by more than that. */
  lemma VlsNeedsShortString(strs: seq<string>)
    ensures UseVls(strs) ==> exists i :: 0 <= i < |strs| && |strs[i]| + 2 * 8 < MaxLen(strs)
  {
    if UseVls(strs) && forall i :: 0 <= i < |strs| ==> |strs[i]| + 2 * 8 >= MaxLen(strs) {
      SumLenAtLeast(strs, MaxLen(strs) - 2 * 8);
      assert false;
    }
  }

  /** Strings of one common length always go fixed-width. */
  lemma {:induction false} UniformLengthsStayFixed(strs: seq<string>, len: nat)
    requires forall i :: 0 <= i < |strs| ==> |strs[i]| == len
    ensures SumLen(strs) == len * |strs|
    ensures MaxLen(strs) == (if |strs| == 0 then 0 else len)
    ensures !UseVls(strs)
  {
    if |strs| > 0 {
      var init := strs[..|strs| - 1];
      UniformLengthsStayFixed(init, len);
    }
  }

  // ------------------------------------------------------------ one column

  /** An inline column's attributes: its type tag and, when nulls were seen, its placeholder. */
  function ColumnAttrs(tag: string, placeholder: Option<Scalar>): map<string, Scalar> {
    match placeholder
    case None => map[TypeAttr := SStr(tag)]
    case Some(p) => map[TypeAttr := SStr(tag), PlaceholderAttr := p]
  }

  datatype Outcome = Inline(node: Node) | Queue(col: Col)

  /** Integer typed arrays whose values fit the 32-bit signed `integer` type. */
  predicate FitsInteger(kind: IntType) {
    kind == Int8 || kind == Uint8 || kind == Int16 || kind == Uint16 || kind == Int32
  }

  function BooleanDataSet(col: seq<Entry>): Node
    requires BooleanOrNull(col)
  {
    DataSet(ColumnAttrs("boolean", if Null in col then Some(SInt(BooleanPlaceholder)) else None),
            IntData(Uint8, BooleanCodes(col)))
  }

  /** The column kinds that are written inline, and the type tag each gets. */
  predicate KnownTag(n: Node) {
    n.DataSet? && TypeAttr in n.attrs &&
    n.attrs[TypeAttr] in {SStr("integer"), SStr("number"), SStr("boolean"), SStr("string")}
  }

  /** The strings of a string column once its nulls hold the placeholder. */
  function FilledStrings(col: seq<Entry>): (strs: seq<string>)
    ensures |strs| == |col|
  {
    seq(|col|, i requires 0 <= i < |col| => if col[i].Str? then col[i].s else StringPlaceholder(col))
  }

  /** How a plain array is stored. */
  function EncodePlain(col: seq<Entry>): (out: Outcome)
    ensures out.Inline? ==> KnownTag(out.node)
    ensures out.Inline? ==> (PlaceholderAttr in out.node.attrs <==> Null in col)
    ensures |Kinds(col)| > 1 ==> out == Queue(Plain(col))
  {
    var kinds := Kinds(col);
    if kinds == {} then
      SingleKind(col, BooleanKind);
      Inline(BooleanDataSet(col))
    else if kinds == {NumberKind} then
      SingleKind(col, NumberKind);
      if Null in col then
        var p := NumericPlaceholder(col);
        Inline(DataSet(ColumnAttrs("number", Some(SNum(p))), FloatData(NumbersOf(Filled(col, Num(p))))))
      else
        Inline(DataSet(ColumnAttrs("number", None), FloatData(NumbersOf(col))))
    else if kinds == {BooleanKind} then
      SingleKind(col, BooleanKind);
      Inline(BooleanDataSet(col))
    else if kinds == {StringKind} then
      SingleKind(col, StringKind);
      var p := StringPlaceholder(col);
      var filled := if Null in col then Filled(col, Str(p)) else col;
      var strs := FilledStrings(col);
      if UseVls(strs) then Queue(Plain(filled))
      else Inline(DataSet(ColumnAttrs("string", if Null in col then Some(SStr(p)) else None), StrData(strs)))
    else
      Queue(Plain(col))
  }

  /** A plain array is stored inline as booleans when it has no non-null entry or only
      booleans, as numbers when it has only numbers, as fixed-width strings when it has only
      strings and padding is cheap enough; anything else is queued. */
  lemma PlainClassification(col: seq<Entry>)
    ensures Kinds(col) == {} || Kinds(col) == {BooleanKind} ==>
              EncodePlain(col).Inline? && EncodePlain(col).node.attrs[TypeAttr] == SStr("boolean")
    ensures Kinds(col) == {NumberKind} ==>
              EncodePlain(col).Inline? && EncodePlain(col).node.attrs[TypeAttr] == SStr("number")
    ensures Kinds(col) == {StringKind} ==>
              (EncodePlain(col).Inline? <==> !UseVls(FilledStrings(col))) &&
              (EncodePlain(col).Inline? ==> EncodePlain(col).node.attrs[TypeAttr] == SStr("string"))
    ensures (forall f :: Kinds(col) != {ForeignOf(f)}) ==>
              (EncodePlain(col).Queue? ==> Kinds(col) == {StringKind} || |Kinds(col)| > 1)
    ensures Kinds(col) == {StringKind} && EncodePlain(col).Queue? ==>
              EncodePlain(col).col == Plain(Filled(col, Str(StringPlaceholder(col)))) || Null !in col
  {
    var kinds := Kinds(col);
    if kinds != {} && kinds != {NumberKind} && kinds != {BooleanKind} && kinds != {StringKind} {
      if |kinds| <= 1 {
        var k :| k in kinds;
        var rest := kinds - {k};
        assert kinds == rest + {k};
        assert |rest| == 0;
        assert kinds == {k};
      }
    }
  }

  /** `[true, false, null]` is stored as `[1, 0, 2]` with placeholder 2. */
  lemma BooleanSentinelExample()
    ensures EncodePlain([Bool(true), Bool(false), Null]) ==
            Inline(DataSet(map[TypeAttr := SStr("boolean"), PlaceholderAttr := SInt(2)], IntData(Uint8, [1, 0, 2])))
  {
    var col := [Bool(true), Bool(false), Null];
    assert Null in col by { assert col[2] == Null; }
    assert Kinds(col) == {BooleanKind} by {
      assert KindOf(col[0]) == BooleanKind;
      SingleKindOnly(col);
    }
    assert BooleanCodes(col) == [1, 0, 2];
  }

  /** How one column is stored. */
  function EncodeColumn(col: Col): (out: Outcome)
    ensures out.Inline? ==> KnownTag(out.node)
    ensures col.FloatArray? || col.NonArray? ==> out == Queue(col)
    ensures col.TypedInts? ==>
              out.Inline? && out.node.attrs[TypeAttr] == SStr(if FitsInteger(col.kind) then "integer" else "number")
  {
    match col
    case TypedInts(kind, ints) =>
      if FitsInteger(kind) then Inline(DataSet(ColumnAttrs("integer", None), IntData(kind, ints)))
      else if kind == Uint32 then Inline(DataSet(ColumnAttrs("number", None), IntData(Uint32, ints)))
      else Inline(DataSet(ColumnAttrs("number", None), FloatData(FromInts(ints))))
    case FloatArray(_) => Queue(col)
    case NonArray(_) => Queue(col)
    case Plain(entries) => EncodePlain(entries)
  }

  /** The branch structure of src/DataFrame.js:239-428 for one column. */
  method WriteColumn(col: Col) returns (out: Outcome)
    ensures out == EncodeColumn(col)
  {
    if !col.Plain? {
      return EncodeColumn(col);
    }
    var entries := col.entries;
    var types, hasMissing := ScanEntries(entries);
    if types == {} {
      SingleKind(entries, BooleanKind);
      var vals := EncodeBooleans(entries);
      var attrs := ColumnAttrs("boolean", if hasMissing then Some(SInt(BooleanPlaceholder)) else None);
      out := Inline(DataSet(attrs, IntData(Uint8, vals)));
    } else if types == {NumberKind} {
      SingleKind(entries, NumberKind);
      if hasMissing {
        var placeholder := ChooseNumericPlaceholder(entries);
        var filled := FillNulls(entries, Num(placeholder));
        out := Inline(DataSet(ColumnAttrs("number", Some(SNum(placeholder))), FloatData(NumbersOf(filled))));
      } else {
        out := Inline(DataSet(ColumnAttrs("number", None), FloatData(NumbersOf(entries))));
      }
    } else if types == {BooleanKind} {
      SingleKind(entries, BooleanKind);
      var vals := EncodeBooleans(entries);
      var attrs := ColumnAttrs("boolean", if hasMissing then Some(SInt(BooleanPlaceholder)) else None);
      out := Inline(DataSet(attrs, IntData(Uint8, vals)));
    } else if types == {StringKind} {
      SingleKind(entries, StringKind);
      var filled := entries;
      var placeholder := "";
      if hasMissing {
        placeholder := ChooseStringPlaceholder(entries);
        filled := FillNulls(entries, Str(placeholder));
      }
      var strs := StringsOf(filled);
      assert strs == FilledStrings(entries);
      var maxLen, sumLen := MeasureStrings(strs);
      if maxLen * |strs| > sumLen + 2 * 8 * |strs| {
        out := Queue(Plain(filled));
      } else {
        out := Inline(DataSet(ColumnAttrs("string", if hasMissing then Some(SStr(placeholder)) else None), StrData(strs)));
      }
    } else {
      out := Queue(col);
    }
  }
}
