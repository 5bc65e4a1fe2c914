/**
 * The numeric spacing scale of the design-token configuration.
 *
 * `GenerateNumericSpacing` fills a string-keyed table in place: three seed
 * entries, then `"i" -> "ipx"` for every i from 1 to 20, then the same for a
 * fixed list of 22 larger sizes. The table is specified by `NumericSpacing`
 * (a fold of the same writes over the keys in order), and the lemmas below
 * state what that table holds.
 *
 * A number used as a key of a string-keyed table is converted to its decimal
 * string, as is a number placed in a template string; `NatToString` is that
 * conversion for the non-negative integers used here.
 */
module Spacing {

  // ---------------------------------------------------------------------
  // Decimal strings of natural numbers.
  // ---------------------------------------------------------------------

  predicate IsDigit(c: char) {
    '0' <= c <= '9'
  }

  predicate AllDigits(s: string) {
    forall i | 0 <= i < |s| :: IsDigit(s[i])
  }

  function DigitChar(d: nat): (c: char)
    requires d < 10
    ensures IsDigit(c)
    ensures c == '0' <==> d == 0
  {
    (48 + d) as char
  }

  function DigitValue(c: char): (d: nat)
    requires IsDigit(c)
    ensures d < 10
  {
    c as int - 48
  }

  /**
   * The decimal representation of `n`: one or more digits, with a leading
   * zero only for zero itself.
   */
  function NatToString(n: nat): (s: string)
    ensures |s| >= 1 && AllDigits(s)
    ensures s[0] == '0' <==> n == 0
    decreases n
  {
    if n < 10 then [DigitChar(n)] else NatToString(n / 10) + [DigitChar(n % 10)]
  }

  /** The value of a string of decimal digits (the inverse of `NatToString`). */
  function ParseDecimal(s: string): nat
    requires AllDigits(s)
    decreases |s|
  {
    if s == [] then 0 else 10 * ParseDecimal(s[..|s| - 1]) + DigitValue(s[|s| - 1])
  }

  lemma {:induction false} ParseNatToString(n: nat)
    ensures ParseDecimal(NatToString(n)) == n
    decreases n
  {
    var s := NatToString(n);
    if n >= 10 {
      ParseNatToString(n / 10);
      assert s[..|s| - 1] == NatToString(n / 10);
    }
  }

  /** Different numbers give different keys. */
  lemma NatToStringInjective(m: nat, n: nat)
    ensures NatToString(m) == NatToString(n) ==> m == n
  {
    ParseNatToString(m);
    ParseNatToString(n);
  }

  // ---------------------------------------------------------------------
  // The numeric spacing table.
  // ---------------------------------------------------------------------

  /** The value the template `${n}px` gives: the number's key followed by "px". */
  function Px(key: string): string {
    key + "px"
  }

  // ---------------------------------------------------------------------
  // Writing a run of keys into a table.
  // ---------------------------------------------------------------------

  /**
   * `base` with `key -> key + "px"` written for every key of `keys`, in
   * order; a key written twice keeps its last value.
   */
  function WriteAll(base: map<string, string>, keys: seq<string>): map<string, string>
    decreases |keys|
  {
    if keys == [] then base
    else
      var key := keys[|keys| - 1];
      WriteAll(base, keys[..|keys| - 1])[key := Px(key)]
  }

  /** The keys of `keys`, as a set. */
  function KeySet(keys: seq<string>): set<string> {
    set k | k in keys
  }

  /** No key occurs twice in `keys`. */
  predicate Distinct(keys: seq<string>) {
    forall i, j | 0 <= i < j < |keys| :: keys[i] != keys[j]
  }

  /**
   * `spacing` is `base` plus the keys `keys`, each mapped to itself followed
   * by "px"; the entries of `base` are kept.
   */
  predicate Extends(spacing: map<string, string>, base: map<string, string>, keys: set<string>) {
    && spacing.Keys == base.Keys + keys
    && (forall k | k in base :: spacing[k] == base[k])
    && (forall k | k in keys :: spacing[k] == Px(k))
  }

  /** Writing a key that is not in the table adds one entry. */
  lemma AddKey(spacing: map<string, string>, key: string, value: string)
    requires key !in spacing
    ensures |spacing[key := value]| == |spacing| + 1
  {
  }

  /** Writing `key -> keypx` for a key not in the table adds it and keeps the rest. */
  lemma AddStep(spacing: map<string, string>, base: map<string, string>, keys: set<string>, key: string)
    requires Extends(spacing, base, keys) && key !in spacing
    ensures Extends(spacing[key := Px(key)], base, keys + {key})
  {
  }

  /** The keys before the last one of a distinct sequence: distinct, without the last one. */
  lemma SplitLast(keys: seq<string>)
    requires keys != [] && Distinct(keys)
    ensures Distinct(keys[..|keys| - 1])
    ensures keys[|keys| - 1] !in keys[..|keys| - 1]
    ensures forall k | k in keys[..|keys| - 1] :: k in keys
    ensures KeySet(keys) == KeySet(keys[..|keys| - 1]) + {keys[|keys| - 1]}
  {
    assert keys == keys[..|keys| - 1] + [keys[|keys| - 1]];
  }

  /**
   * Writing distinct keys that are not in the table only adds: one new entry
   * per key, every entry of `base` kept.
   */
  lemma {:induction false} WriteAllExtends(base: map<string, string>, keys: seq<string>)
    requires Distinct(keys)
    requires forall k | k in keys :: k !in base
    ensures Extends(WriteAll(base, keys), base, KeySet(keys))
    decreases |keys|
  {
    if keys != [] {
      var init, key := keys[..|keys| - 1], keys[|keys| - 1];
      SplitLast(keys);
      WriteAllExtends(base, init);
      AddStep(WriteAll(base, init), base, KeySet(init), key);
    }
  }

  /** Writing distinct keys that are not in the table adds one entry per key. */
  lemma {:induction false} WriteAllSize(base: map<string, string>, keys: seq<string>)
    requires Distinct(keys)
    requires forall k | k in keys :: k !in base
    ensures |WriteAll(base, keys)| == |base| + |keys|
    decreases |keys|
  {
    if keys != [] {
      var init, key := keys[..|keys| - 1], keys[|keys| - 1];
      SplitLast(keys);
      WriteAllExtends(base, init);
      WriteAllSize(base, init);
      AddKey(WriteAll(base, init), key, Px(key));
    }
  }

  /** Writing one run of keys after another: the base is kept under both runs. */
  lemma ExtendsTwice(t: map<string, string>, mid: map<string, string>, base: map<string, string>,
                     first: set<string>, second: set<string>)
    requires Extends(mid, base, first) && Extends(t, mid, second)
    ensures Extends(t, base, first + second)
  {
  }

  // ---------------------------------------------------------------------
  // The generated table.
  // ---------------------------------------------------------------------

  /** The three entries the table starts from. */
  const Seeds: map<string, string> := map["0" := "0px", "px" := "1px", "0.5" := "0.5px"]

  /** The largest of the small sizes written by the counting loop (from 1). */
  const SmallMax: nat := 20

  /** The medium and large sizes written after the small ones. */
  const LargerSizes: seq<nat> :=
    [24, 25, 28, 30, 32, 36, 40, 44, 48, 50, 56, 60, 64, 72, 80, 96, 100, 128,
     140, 160, 200, 256]

  /** The keys the counting loop writes: those of 1..`last`, in increasing order. */
  function CountKeySeq(last: nat): seq<string> {
    seq(last, i requires 0 <= i < last => NatToString(i + 1))
  }

  /** The keys the loop over `sizes` writes, in the order of `sizes`. */
  function SizeKeySeq(sizes: seq<nat>): seq<string> {
    seq(|sizes|, j requires 0 <= j < |sizes| => NatToString(sizes[j]))
  }

  /** The table `generateNumericSpacing` returns: the seeds, then 1..20, then the larger sizes. */
  function NumericSpacing(): map<string, string> {
    WriteAll(WriteAll(Seeds, CountKeySeq(SmallMax)), SizeKeySeq(LargerSizes))
  }

  /** Every key of the numeric table: the seeds, 1..20 and the larger sizes. */
  function NumericKeys(): set<string> {
    Seeds.Keys + KeySet(CountKeySeq(SmallMax)) + KeySet(SizeKeySeq(LargerSizes))
  }

  /** A key that the numeric table may hold: "px", "0.5", or a string of digits. */
  predicate IsNumericKey(k: string) {
    k == "px" || k == "0.5" || AllDigits(k)
  }

  /** Sizes listed in increasing order, all above the small ones. */
  predicate AboveSmallIncreasing(sizes: seq<nat>) {
    && (forall j, k | 0 <= j < k < |sizes| :: sizes[j] < sizes[k])
    && (forall j | 0 <= j < |sizes| :: SmallMax < sizes[j])
  }

  lemma LargerSizesIncreasing()
    ensures AboveSmallIncreasing(LargerSizes)
  {
  }

  /** The seeds are three distinct keys, each but "px" mapped to itself followed by "px". */
  lemma SeedFacts()
    ensures Seeds.Keys == {"0", "px", "0.5"} && |Seeds| == 3
    ensures forall k | k in Seeds && k != "px" :: Seeds[k] == Px(k)
    ensures forall k | k in Seeds :: IsNumericKey(k)
  {
  }

  /** The key of a positive number is none of the seed keys. */
  lemma PositiveKeyNotSeed(n: nat)
    requires n >= 1
    ensures NatToString(n) !in Seeds && NatToString(n) != "px"
  {
    var s := NatToString(n);
    assert s[0] != '0';
    assert "px"[0] == 'p' && !IsDigit('p');
  }

  /** The keys of 1..`last` are distinct digit strings, none of them a seed. */
  lemma CountKeysFacts(last: nat)
    ensures Distinct(CountKeySeq(last))
    ensures forall k | k in CountKeySeq(last) :: k !in Seeds && AllDigits(k)
    ensures forall i | 1 <= i <= last :: NatToString(i) in KeySet(CountKeySeq(last))
  {
    var keys := CountKeySeq(last);
    forall i | 1 <= i <= last ensures NatToString(i) in KeySet(keys) {
      assert keys[i - 1] == NatToString(i);
    }
    forall i, j | 0 <= i < j < |keys| ensures keys[i] != keys[j] {
      NatToStringInjective(i + 1, j + 1);
    }
    forall k | k in keys ensures k !in Seeds && AllDigits(k) {
      var i :| 0 <= i < |keys| && keys[i] == k;
      PositiveKeyNotSeed(i + 1);
    }
  }

  /**
   * The keys of increasing sizes above the small ones are distinct digit
   * strings, none of them a seed or the key of a number 1..20.
   */
  lemma SizeKeysFacts(sizes: seq<nat>)
    requires AboveSmallIncreasing(sizes)
    ensures Distinct(SizeKeySeq(sizes))
    ensures forall k | k in SizeKeySeq(sizes) :: k !in Seeds && k !in CountKeySeq(SmallMax) && AllDigits(k)
    ensures forall size | size in sizes :: NatToString(size) in KeySet(SizeKeySeq(sizes))
  {
    var keys := SizeKeySeq(sizes);
    forall size | size in sizes ensures NatToString(size) in KeySet(keys) {
      var j :| 0 <= j < |sizes| && sizes[j] == size;
      assert keys[j] == NatToString(size);
    }
    forall i, j | 0 <= i < j < |keys| ensures keys[i] != keys[j] {
      NatToStringInjective(sizes[i], sizes[j]);
    }
    forall k | k in keys ensures k !in Seeds && k !in CountKeySeq(SmallMax) && AllDigits(k) {
      var j :| 0 <= j < |keys| && keys[j] == k;
      PositiveKeyNotSeed(sizes[j]);
      forall i | 0 <= i < SmallMax ensures CountKeySeq(SmallMax)[i] != k {
        NatToStringInjective(i + 1, sizes[j]);
      }
    }
  }

  /** The generated table is the seeds plus the keys of 1..20 and of the larger sizes. */
  lemma NumericSpacingShape()
    ensures Extends(NumericSpacing(), Seeds, KeySet(CountKeySeq(SmallMax)) + KeySet(SizeKeySeq(LargerSizes)))
  {
    var small := WriteAll(Seeds, CountKeySeq(SmallMax));
    CountKeysFacts(SmallMax);
    WriteAllExtends(Seeds, CountKeySeq(SmallMax));
    LargerSizesIncreasing();
    SizeKeysFacts(LargerSizes);
    WriteAllExtends(small, SizeKeySeq(LargerSizes));
    ExtendsTwice(NumericSpacing(), small, Seeds, KeySet(CountKeySeq(SmallMax)), KeySet(SizeKeySeq(LargerSizes)));
  }

  /** The generated table has 3 + 20 + 22 entries. */
  lemma NumericSpacingSize()
    ensures |NumericSpacing()| == 45
  {
    var small := WriteAll(Seeds, CountKeySeq(SmallMax));
    SeedFacts();
    CountKeysFacts(SmallMax);
    WriteAllSize(Seeds, CountKeySeq(SmallMax));
    WriteAllExtends(Seeds, CountKeySeq(SmallMax));
    LargerSizesIncreasing();
    SizeKeysFacts(LargerSizes);
    WriteAllSize(small, SizeKeySeq(LargerSizes));
  }

  /**
   * The generated table holds exactly the 45 numeric keys, with the seed
   * entries "0" -> "0px", "px" -> "1px" and "0.5" -> "0.5px".
   */
  lemma NumericSpacingKeys()
    ensures NumericSpacing().Keys == NumericKeys()
    ensures |NumericSpacing()| == 45
    ensures var t := NumericSpacing();
      && "0" in t && t["0"] == "0px"
      && "px" in t && t["px"] == "1px"
      && "0.5" in t && t["0.5"] == "0.5px"
  {
    NumericSpacingShape();
    NumericSpacingSize();
    SeedFacts();
  }

  /** The generated table maps "i" to "ipx" for 1..20 and for every larger size. */
  lemma NumericSpacingEntries()
    ensures var t := NumericSpacing();
      && (forall i | 1 <= i <= SmallMax :: NatToString(i) in t && t[NatToString(i)] == Px(NatToString(i)))
      && (forall size | size in LargerSizes :: NatToString(size) in t && t[NatToString(size)] == Px(NatToString(size)))
  {
    NumericSpacingShape();
    CountKeysFacts(SmallMax);
    LargerSizesIncreasing();
    SizeKeysFacts(LargerSizes);
  }

  /**
   * Every key of the generated table but "px" maps to itself followed by
   * "px", and every key looks numeric.
   */
  lemma NumericSpacingValues()
    ensures var t := NumericSpacing();
      && (forall k | k in t && k != "px" :: t[k] == Px(k))
      && (forall k | k in t :: IsNumericKey(k))
  {
    NumericSpacingShape();
    SeedFacts();
    CountKeysFacts(SmallMax);
    LargerSizesIncreasing();
    SizeKeysFacts(LargerSizes);
  }

  /**
   * The two loops of the generator, over the table they start from, the last
   * number of the counting loop and the list of larger sizes.
   */
  method FillSpacing(seeds: map<string, string>, last: nat, sizes: seq<nat>) returns (spacing: map<string, string>)
    ensures spacing == WriteAll(WriteAll(seeds, CountKeySeq(last)), SizeKeySeq(sizes))
  {
    spacing := seeds;
    for i := 1 to last + 1
      invariant spacing == WriteAll(seeds, CountKeySeq(i - 1))
    {
      assert CountKeySeq(i)[..i - 1] == CountKeySeq(i - 1);
      spacing := spacing[NatToString(i) := Px(NatToString(i))];
    }
    ghost var small := spacing;
    for n := 0 to |sizes|
      invariant spacing == WriteAll(small, SizeKeySeq(sizes[..n]))
    {
      assert SizeKeySeq(sizes[..n + 1])[..n] == SizeKeySeq(sizes[..n]);
      spacing := spacing[NatToString(sizes[n]) := Px(NatToString(sizes[n]))];
    }
    assert sizes[..|sizes|] == sizes;
  }

  /**
   * Builds the numeric spacing table as the configuration does: the seeds,
   * then a counting loop over 1..20, then a loop over the larger sizes.
   */
  method GenerateNumericSpacing() returns (spacing: map<string, string>)
    ensures spacing == NumericSpacing()
  {
    spacing := FillSpacing(Seeds, SmallMax, LargerSizes);
  }
}
