/**
  Per-column decoding rules of `readDataFrame` (src/DataFrame.js): each
  stored column becomes a sequence of optional values, `None` standing for a
  null slot. The specification functions come first; the methods that follow
  are the source's index loops, proved against them.
*/
module ColumnDecode {
  import opened Wrappers
  import opened Numbers
  import opened Container

  /** Slot i is null exactly when raw[i] equals the placeholder; otherwise it holds raw[i]. */
  function Nullify<T(==)>(raw: seq<T>, placeholder: Option<T>): seq<Option<T>> {
    seq(|raw|, i requires 0 <= i < |raw| => if placeholder == Some(raw[i]) then None else Some(raw[i]))
  }

  /** Boolean slots: the placeholder is null, any other value is true iff it is non-zero. */
  function Booleans(raw: seq<int>, placeholder: Option<int>): seq<Option<bool>> {
    seq(|raw|, i requires 0 <= i < |raw| => if placeholder == Some(raw[i]) then None else Some(raw[i] != 0))
  }

  /** `levels[code]`; an index outside the levels gives `undefined`, which this model reads as null. */
  function Level(levels: seq<string>, code: int): Option<string> {
    if 0 <= code < |levels| then Some(levels[code]) else None
  }

  function FactorValues(codes: seq<int>, levels: seq<string>, placeholder: Option<int>): seq<Option<string>> {
    seq(|codes|, i requires 0 <= i < |codes| => if placeholder == Some(codes[i]) then None else Level(levels, codes[i]))
  }

  /** `indexOf(x)`: the first index holding x, or -1. */
  function IndexOf(s: seq<int>, x: int): (k: int)
    ensures -1 <= k < |s|
    ensures k >= 0 ==> s[k] == x && forall j :: 0 <= j < k ==> s[j] != x
    ensures k == -1 ==> forall j :: 0 <= j < |s| ==> s[j] != x
  {
    if |s| == 0 then -1
    else if s[0] == x then 0
    else
      var k := IndexOf(s[1..], x);
      if k < 0 then -1 else k + 1
  }

  function Min(a: nat, b: nat): nat {
    if a <= b then a else b
  }

  /** `heap.slice(start, end)` for non-negative bounds: both are clamped to the heap. */
  function HeapSlice(heap: seq<int>, start: nat, end: nat): (s: seq<int>)
    ensures start <= end <= |heap| ==> s == heap[start..end]
    ensures end <= start || |heap| <= start ==> s == []
    ensures start < end && start < |heap| < end ==> s == heap[start..]
  {
    var a := Min(start, |heap|);
    var b := Min(end, |heap|);
    if a < b then heap[a..b] else []
  }

  /** The bytes a pointer designates: its span of the heap, cut before the first zero byte. */
  function Kept(heap: seq<int>, p: Pointer): (kept: seq<int>)
    ensures var span := HeapSlice(heap, p.offset, p.offset + p.length);
      && kept <= span
      && (forall j :: 0 <= j < |kept| ==> kept[j] != 0)
      && (|kept| < |span| ==> span[|kept|] == 0)
  {
    var current := HeapSlice(heap, p.offset, p.offset + p.length);
    var early := IndexOf(current, 0);
    if early >= 0 then current[..early] else current
  }

  /** The text of every pointer, before placeholder substitution. */
  function VlsStrings(heap: seq<int>, ptrs: seq<Pointer>, text: seq<int> -> string): seq<string> {
    seq(|ptrs|, i requires 0 <= i < |ptrs| => text(Kept(heap, ptrs[i])))
  }

  /** The `integer` and `string` branches (src/DataFrame.js:82-102): copy the values and
      null out the slots equal to the placeholder, if there is one. */
  method ReplacePlaceholder<T(==)>(raw: seq<T>, placeholder: Option<T>) returns (vals: seq<Option<T>>)
    ensures |vals| == |raw|
    ensures forall i :: 0 <= i < |raw| ==> (vals[i] == None <==> placeholder == Some(raw[i]))
    ensures forall i :: 0 <= i < |raw| && vals[i] != None ==> vals[i] == Some(raw[i])
    ensures vals == Nullify(raw, placeholder)
  {
    var a := new Option<T>[|raw|](i requires 0 <= i < |raw| => Some(raw[i]));
    if placeholder.Some? {
      var i := 0;
      while i < a.Length
        invariant 0 <= i <= a.Length
        invariant forall j :: 0 <= j < i ==> a[j] == Nullify(raw, placeholder)[j]
        invariant forall j :: i <= j < a.Length ==> a[j] == Some(raw[j])
      {
        if a[i] == placeholder {
          a[i] := None;
        }
        i := i + 1;
      }
    }
    vals := a[..];
  }

  /** The `number` branch (src/DataFrame.js:46-64): a NaN placeholder nulls the NaN slots,
      any other placeholder the slots equal to it; without one every slot is kept. */
  method DecodeNumbers(raw: seq<Float>, placeholder: Option<Float>) returns (vals: seq<Option<Float>>)
    ensures |vals| == |raw|
    ensures placeholder == Some(NaN) ==> forall i :: 0 <= i < |raw| ==> (vals[i] == None <==> raw[i].NaN?)
    ensures placeholder.Some? && !placeholder.value.NaN? ==>
      forall i :: 0 <= i < |raw| ==> (vals[i] == None <==> raw[i] == placeholder.value)
    ensures forall i :: 0 <= i < |raw| && vals[i] != None ==> vals[i] == Some(raw[i])
    ensures vals == Nullify(raw, placeholder)
  {
    var a := new Option<Float>[|raw|](i requires 0 <= i < |raw| => Some(raw[i]));
    if placeholder == Some(NaN) {
      var i := 0;
      while i < a.Length
        invariant 0 <= i <= a.Length
        invariant forall j :: 0 <= j < i ==> a[j] == Nullify(raw, placeholder)[j]
        invariant forall j :: i <= j < a.Length ==> a[j] == Some(raw[j])
      {
        if raw[i].NaN? {
          a[i] := None;
        }
        i := i + 1;
      }
    } else if placeholder.Some? {
      var missing := placeholder.value;
      var i := 0;
      while i < a.Length
        invariant 0 <= i <= a.Length
        invariant forall j :: 0 <= j < i ==> a[j] == Nullify(raw, placeholder)[j]
        invariant forall j :: i <= j < a.Length ==> a[j] == Some(raw[j])
      {
        if raw[i] == missing {
          a[i] := None;
        }
        i := i + 1;
      }
    }
    vals := a[..];
  }

  /** The `boolean` branch (src/DataFrame.js:66-80). */
  method DecodeBooleans(raw: seq<int>, placeholder: Option<int>) returns (vals: seq<Option<bool>>)
    ensures |vals| == |raw|
    ensures forall i :: 0 <= i < |raw| ==> (vals[i] == None <==> placeholder == Some(raw[i]))
    ensures forall i :: 0 <= i < |raw| && vals[i] != None ==> vals[i] == Some(raw[i] != 0)
    ensures vals == Booleans(raw, placeholder)
  {
    var a := new Option<bool>[|raw|];
    var i := 0;
    while i < |raw|
      invariant 0 <= i <= |raw|
      invariant forall j :: 0 <= j < i ==> a[j] == Booleans(raw, placeholder)[j]
    {
      if placeholder == Some(raw[i]) {
        a[i] := None;
      } else {
        a[i] := Some(raw[i] != 0);
      }
      i := i + 1;
    }
    vals := a[..];
  }

  /** A `factor` group (src/DataFrame.js:113-145): each code is looked up in the levels,
      the placeholder code gives null. */
  method DecodeFactor(codes: seq<int>, levels: seq<string>, placeholder: Option<int>)
    returns (vals: seq<Option<string>>)
    ensures |vals| == |codes|
    ensures forall i :: 0 <= i < |codes| && placeholder == Some(codes[i]) ==> vals[i] == None
    ensures forall i :: 0 <= i < |codes| && placeholder != Some(codes[i]) && 0 <= codes[i] < |levels| ==>
      vals[i] == Some(levels[codes[i]])
    ensures forall i :: 0 <= i < |codes| && placeholder != Some(codes[i]) && !(0 <= codes[i] < |levels|) ==>
      vals[i] == None
    ensures vals == FactorValues(codes, levels, placeholder)
  {
    var a := new Option<string>[|codes|];
    var i := 0;
    while i < |codes|
      invariant 0 <= i <= |codes|
      invariant forall j :: 0 <= j < i ==> a[j] == FactorValues(codes, levels, placeholder)[j]
    {
      if placeholder == Some(codes[i]) {
        a[i] := None;
      } else {
        a[i] := Level(levels, codes[i]);
      }
      i := i + 1;
    }
    vals := a[..];
  }

  /** A `vls` group (src/DataFrame.js:147-182): each pointer's span of the heap, cut at
      its first zero byte, is decoded as text; texts equal to the placeholder become null.
      `text` stands for the UTF-8 decoder, which is not part of this model. */
  method DecodeVls(heap: seq<int>, ptrs: seq<Pointer>, placeholder: Option<string>, text: seq<int> -> string)
    returns (vals: seq<Option<string>>)
    ensures |vals| == |ptrs|
    ensures forall i :: 0 <= i < |ptrs| ==>
      (vals[i] == None <==> placeholder == Some(text(Kept(heap, ptrs[i]))))
    ensures forall i :: 0 <= i < |ptrs| && vals[i] != None ==> vals[i] == Some(text(Kept(heap, ptrs[i])))
    ensures vals == Nullify(VlsStrings(heap, ptrs, text), placeholder)
  {
    var a := new Option<string>[|ptrs|];
    var i := 0;
    while i < |ptrs|
      invariant 0 <= i <= |ptrs|
      invariant forall j :: 0 <= j < i ==> a[j] == Some(VlsStrings(heap, ptrs, text)[j])
    {
      var current := HeapSlice(heap, ptrs[i].offset, ptrs[i].offset + ptrs[i].length);
      var early := IndexOf(current, 0);
      if early >= 0 {
        current := current[..early];
      }
      assert current == Kept(heap, ptrs[i]);
      a[i] := Some(text(current));
      i := i + 1;
    }
    if placeholder.Some? {
      i := 0;
      while i < |ptrs|
        invariant 0 <= i <= |ptrs|
        invariant forall j :: 0 <= j < i ==> a[j] == Nullify(VlsStrings(heap, ptrs, text), placeholder)[j]
        invariant forall j :: i <= j < |ptrs| ==> a[j] == Some(VlsStrings(heap, ptrs, text)[j])
      {
        if a[i] == placeholder {
          a[i] := None;
        }
        i := i + 1;
      }
    }
    vals := a[..];
  }

  /** Codes `[0, 1, 1, 2]` over two levels, with placeholder 2, read as two levels and a null. */
  lemma FactorExample()
    ensures FactorValues([0, 1, 1, 2], ["bar_A", "bar_B"], Some(2)) ==
            [Some("bar_A"), Some("bar_B"), Some("bar_B"), None]
  {
  }
}
