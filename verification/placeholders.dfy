/**
  Missing-value placeholders chosen by `saveDataFrame` (src/DataFrame.js):
  an in-band value that stands for null in a stored column and that no
  present entry of the column equals.
*/
module Placeholders {
  import opened Wrappers
  import opened Numbers
  import opened Objects

  // ---------------------------------------------------------------- strings

  function Underscores(k: nat): (u: string)
    ensures |u| == k
  {
    seq(k, _ => '_')
  }

  /** The string candidates in the order they are tried: "NA", "NA_", "NA__", ... */
  function Candidate(k: nat): (c: string)
    ensures |c| == k + 2
  {
    "NA" + Underscores(k)
  }

  /** The strings present in a column. */
  function PresentStrings(col: seq<Entry>): set<string> {
    set e | e in col && e.Str? :: e.s
  }

  lemma PresentStringsMember(col: seq<Entry>, s: string)
    ensures s in PresentStrings(col) <==> Str(s) in col
  {
    if Str(s) in col {
      var e := Str(s);
      assert e in col && e.Str? && e.s == s;
    }
  }

  /** A set holding the first k candidates has at least k members. */
  lemma {:induction false} CandidatesBounded(present: set<string>, k: nat)
    requires forall j :: 0 <= j < k ==> Candidate(j) in present
    ensures k <= |present|
  {
    if k > 0 {
      var rest := present - {Candidate(k - 1)};
      forall j | 0 <= j < k - 1
        ensures Candidate(j) in rest
      {
        assert |Candidate(j)| != |Candidate(k - 1)|;
      }
      CandidatesBounded(rest, k - 1);
    }
  }

  /** The first candidate from the k-th on that is absent, given the earlier ones are present. */
  function PlaceholderFrom(present: set<string>, k: nat): (p: string)
    requires forall j :: 0 <= j < k ==> Candidate(j) in present
    ensures p !in present
    ensures |p| >= k + 2 && p == Candidate(|p| - 2)
    ensures forall j :: 0 <= j < |p| - 2 ==> Candidate(j) in present
    decreases |present| - k
  {
    if Candidate(k) !in present then Candidate(k)
    else
      CandidatesBounded(present, k + 1);
      PlaceholderFrom(present, k + 1)
  }

  /** "NA" followed by the fewest underscores that make it absent from the column. */
  function StringPlaceholder(col: seq<Entry>): (p: string)
    ensures Str(p) !in col
    ensures |p| >= 2 && p == Candidate(|p| - 2)
    ensures forall j :: 0 <= j < |p| - 2 ==> Str(Candidate(j)) in col
  {
    var p := PlaceholderFrom(PresentStrings(col), 0);
    PresentStringsMember(col, p);
    forall j | 0 <= j < |p| - 2
      ensures Str(Candidate(j)) in col
    {
      PresentStringsMember(col, Candidate(j));
    }
    p
  }

  /** The growing loop of src/DataFrame.js:387-390. */
  method ChooseStringPlaceholder(col: seq<Entry>) returns (p: string)
    ensures p == StringPlaceholder(col)
    ensures Str(p) !in col
  {
    ghost var present := PresentStrings(col);
    p := "NA";
    assert p == Candidate(0);
    while Str(p) in col
      invariant |p| >= 2 && p == Candidate(|p| - 2)
      invariant forall j :: 0 <= j < |p| - 2 ==> Candidate(j) in present
      invariant PlaceholderFrom(present, |p| - 2) == PlaceholderFrom(present, 0)
      decreases |present| - (|p| - 2)
    {
      PresentStringsMember(col, p);
      CandidatesBounded(present, |p| - 1);
      assert Candidate(|p| - 1) == p + "_";
      p := p + "_";
    }
    PresentStringsMember(col, p);
  }

  /** A column holding null and "NA" gets "NA_" (a property stated for the format). */
  lemma PlaceholderAvoidsNA()
    ensures StringPlaceholder([Null, Str("NA")]) == "NA_"
  {
    var col := [Null, Str("NA")];
    var p := StringPlaceholder(col);
    assert Candidate(0) == "NA";
    assert Candidate(1) == "NA_";
    assert Str(Candidate(1)) !in col;
    assert |p| == 3;
  }

  // ---------------------------------------------------------------- numbers

  /** The candidates src/DataFrame.js:325 tries once NaN is ruled out. */
  const NumericCandidates: seq<Float> :=
    [Finite(0.0), PosInf, NegInf, Finite(MaxValue), Finite(-MaxValue), Finite(0.0)]

  /** The first candidate from the k-th on that no entry equals (`indexOf` uses strict equality). */
  function FirstAbsent(cands: seq<Float>, col: seq<Entry>, k: nat): (r: Option<Float>)
    requires k <= |cands|
    ensures r.Some? ==> r.value in cands[k..] && Num(r.value) !in col
    ensures r.Some? ==> exists j :: k <= j < |cands| && r.value == cands[j] &&
                                    forall i :: k <= i < j ==> Num(cands[i]) in col
    ensures r.None? ==> forall j :: k <= j < |cands| ==> Num(cands[j]) in col
    decreases |cands| - k
  {
    if k == |cands| then None
    else if Num(cands[k]) !in col then Some(cands[k])
    else FirstAbsent(cands, col, k + 1)
  }

  /** The least finite value in the column above `lo`, or `best` if none is below it. */
  function LeastFiniteAbove(col: seq<Entry>, lo: real, best: real): (m: real)
    requires lo < best
    ensures lo < m <= best
    ensures m == best || exists j :: 0 <= j < |col| && col[j] == Num(Finite(m))
    ensures forall j :: 0 <= j < |col| && col[j].Num? && col[j].x.Finite? && lo < col[j].x.r ==> m <= col[j].x.r
  {
    if |col| == 0 then best
    else
      var m := LeastFiniteAbove(col[..|col| - 1], lo, best);
      var e := col[|col| - 1];
      assert forall j :: 0 <= j < |col| - 1 ==> col[..|col| - 1][j] == col[j];
      assert m == best || exists j :: 0 <= j < |col| - 1 && col[j] == Num(Finite(m));
      if e.Num? && e.x.Finite? && lo < e.x.r < m then e.x.r else m
  }

  /** NaN when no NaN is present; otherwise the first absent candidate; otherwise the midpoint
      between -MAX_VALUE and the least finite value above it (src/DataFrame.js:319-346, with the
      NaN test the right way round). */
  function NumericPlaceholder(col: seq<Entry>): (p: Float)
    ensures Num(p) !in col
  {
    if Num(NaN) !in col then NaN
    else
      match FirstAbsent(NumericCandidates, col, 0)
      case Some(c) => c
      case None =>
        assert Num(Finite(0.0)) in col by { assert NumericCandidates[0] == Finite(0.0); }
        var m := LeastFiniteAbove(col, -MaxValue, 0.0);
        var p := (-MaxValue + m) / 2.0;
        assert -MaxValue < p < m;
        assert forall j :: 0 <= j < |col| ==> col[j] != Num(Finite(p));
        Finite(p)
  }

  /** The search as the source's loops run it. */
  method ChooseNumericPlaceholder(col: seq<Entry>) returns (p: Float)
    ensures p == NumericPlaceholder(col)
    ensures Num(p) !in col
  {
    if Num(NaN) !in col {
      return NaN;
    }
    var k := 0;
    while k < |NumericCandidates|
      invariant 0 <= k <= |NumericCandidates|
      invariant FirstAbsent(NumericCandidates, col, k) == FirstAbsent(NumericCandidates, col, 0)
    {
      var candidate := NumericCandidates[k];
      if Num(candidate) !in col {
        return candidate;
      }
      k := k + 1;
    }
    var m := 0.0;
    var i := 0;
    while i < |col|
      invariant 0 <= i <= |col|
      invariant m == LeastFiniteAbove(col[..i], -MaxValue, 0.0)
    {
      assert col[..i + 1][..i] == col[..i];
      var e := col[i];
      if e.Num? && e.x.Finite? && -MaxValue < e.x.r < m {
        m := e.x.r;
      }
      i := i + 1;
    }
    assert col[..|col|] == col;
    p := Finite((-MaxValue + m) / 2.0);
  }
}
