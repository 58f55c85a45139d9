/**
  `saveDataFrame` (src/DataFrame.js:217-445): writes the `OBJECT` envelope and
  a container holding the `data_frame` group, and asks the dispatcher to save
  every column it cannot store inline beside the container.
*/
module FrameEncode {
  import opened Wrappers
  import opened Container
  import opened Objects
  import opened IndexNames
  import opened ColumnEncode
  import opened FrameDecode

  /** A `saveObject(col, path)` call left for the dispatcher. */
  datatype Request = Request(path: string, col: Col)

  /** Everything `saveDataFrame` writes: the envelope, the container, and the requests for
      the columns saved beside it. */
  datatype Saved = Saved(envelope: Envelope, container: Node, requests: seq<Request>)

  const FrameEnvelope := Envelope("data_frame", "1.1")

  /** How each column is stored, in order. */
  function Outcomes(cols: seq<Col>): (outs: seq<Outcome>)
    ensures |outs| == |cols| && forall i :: 0 <= i < |cols| ==> outs[i] == EncodeColumn(cols[i])
  {
    seq(|cols|, i requires 0 <= i < |cols| => EncodeColumn(cols[i]))
  }

  /** The children of the `data` group: the inline columns, keyed by their index. */
  function InlineKids(outs: seq<Outcome>): map<string, Node> {
    if |outs| == 0 then map[]
    else
      var n := |outs| - 1;
      match outs[n]
      case Inline(node) => InlineKids(outs[..n])[IndexName(n) := node]
      case Queue(_) => InlineKids(outs[..n])
  }

  /** Only the indices of columns are keys. */
  lemma {:induction false} InlineKidsBeyond(outs: seq<Outcome>, j: nat)
    requires |outs| <= j
    ensures IndexName(j) !in InlineKids(outs)
  {
    if |outs| > 0 {
      var n := |outs| - 1;
      InlineKidsBeyond(outs[..n], j);
      IndexNameInjective(n, j);
    }
  }

  /** Column i has a child in `data` exactly when it is stored inline, and that child is
      its encoding. */
  lemma {:induction false} InlineKidsLookup(outs: seq<Outcome>, i: nat)
    requires i < |outs|
    ensures IndexName(i) in InlineKids(outs) <==> outs[i].Inline?
    ensures outs[i].Inline? ==> InlineKids(outs)[IndexName(i)] == outs[i].node
  {
    var n := |outs| - 1;
    var m := InlineKids(outs[..n]);
    if i < n {
      InlineKidsLookup(outs[..n], i);
      assert outs[..n][i] == outs[i];
      IndexNameInjective(i, n);
    } else {
      InlineKidsBeyond(outs[..n], n);
    }
  }

  /** The queued columns, in column order, each at its side path. */
  function Requests(outs: seq<Outcome>, path: string): (rs: seq<Request>)
    ensures |rs| <= |outs|
    ensures forall i :: 0 <= i < |outs| && outs[i].Queue? ==> Request(OtherContents(path, i), outs[i].col) in rs
    ensures forall r :: r in rs ==>
              exists i :: 0 <= i < |outs| && outs[i].Queue? && r == Request(OtherContents(path, i), outs[i].col)
  {
    if |outs| == 0 then []
    else
      var n := |outs| - 1;
      assert forall i :: 0 <= i < n ==> outs[..n][i] == outs[i];
      var rs := Requests(outs[..n], path);
      match outs[n]
      case Inline(_) => rs
      case Queue(c) => rs + [Request(OtherContents(path, n), c)]
  }

  /** The `data_frame` group: the row count, the column names, the optional row names and
      the `data` group of inline columns. */
  function FrameGroup(x: Frame): Node {
    var kids := map["column_names" := DataSet(map[], StrData(x.names)),
                    "data" := Group(map[], InlineKids(Outcomes(x.columns)))];
    Group(map["row-count" := SInt(x.rowCount)],
          match x.rowNames
          case None => kids
          case Some(rn) => kids["row_names" := DataSet(map[], StrData(rn))])
  }

  function EncodeFrame(x: Frame, path: string): (s: Saved)
    requires WellFormed(x)
    ensures s.envelope.tag == "data_frame"
    ensures HasChild(s.container, "data_frame") && HasChild(s.container.kids["data_frame"], "data")
    ensures HasChild(s.container.kids["data_frame"], "row_names") <==> x.rowNames.Some?
  {
    Saved(FrameEnvelope, Group(map[], map["data_frame" := FrameGroup(x)]), Requests(Outcomes(x.columns), path))
  }

  /** `saveDataFrame`, by the source's loop over the columns. */
  method SaveDataFrame(x: Frame, path: string) returns (saved: Saved)
    requires WellFormed(x)
    ensures saved == EncodeFrame(x, path)
  {
    var kids: map<string, Node> := map[];
    var requests: seq<Request> := [];
    var i := 0;
    while i < |x.columns|
      invariant 0 <= i <= |x.columns|
      invariant kids == InlineKids(Outcomes(x.columns)[..i])
      invariant requests == Requests(Outcomes(x.columns)[..i], path)
    {
      ghost var outs := Outcomes(x.columns);
      assert outs[..i + 1][..i] == outs[..i];
      var out := WriteColumn(x.columns[i]);
      if out.Inline? {
        kids := kids[IndexName(i) := out.node];
      } else {
        requests := requests + [Request(OtherContents(path, i), out.col)];
      }
      i := i + 1;
    }
    assert Outcomes(x.columns)[..|x.columns|] == Outcomes(x.columns);
    var frameKids := map["column_names" := DataSet(map[], StrData(x.names)), "data" := Group(map[], kids)];
    if x.rowNames.Some? {
      frameKids := frameKids["row_names" := DataSet(map[], StrData(x.rowNames.value))];
    }
    var frame := Group(map["row-count" := SInt(x.rowCount)], frameKids);
    saved := Saved(FrameEnvelope, Group(map[], map["data_frame" := frame]), requests);
  }
}
