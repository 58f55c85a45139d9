/**
  Column indices as the string keys `String(i)` that name a column's child in
  the `data` group and its side path under `other_contents`.
*/
module IndexNames {

  function Digit(d: nat): char
    requires d < 10
  {
    "0123456789"[d]
  }

  function DigitValue(c: char): nat {
    if '0' <= c <= '9' then (c as int - '0' as int) as nat else 0
  }

  /** `String(i)`: the decimal digits of `i`, without leading zeros. */
  function IndexName(i: nat): string
  {
    if i < 10 then [Digit(i)] else IndexName(i / 10) + [Digit(i % 10)]
  }

  /** Reads a string of decimal digits back as a number. */
  function ParseIndex(s: string): nat
  {
    if |s| == 0 then 0 else ParseIndex(s[..|s| - 1]) * 10 + DigitValue(s[|s| - 1])
  }

  lemma {:induction false} ParseIndexName(i: nat)
    ensures ParseIndex(IndexName(i)) == i
    ensures |IndexName(i)| > 0
  {
    if i < 10 {
      assert IndexName(i)[..0] == [];
    } else {
      ParseIndexName(i / 10);
      var s := IndexName(i);
      assert s[..|s| - 1] == IndexName(i / 10);
    }
  }

  /** Distinct columns get distinct keys. */
  lemma IndexNameInjective(i: nat, j: nat)
    ensures IndexName(i) == IndexName(j) ==> i == j
  {
    ParseIndexName(i);
    ParseIndexName(j);
  }
}
