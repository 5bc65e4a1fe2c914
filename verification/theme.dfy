/**
 * The `spacing` entry of the theme extension: the generated numeric table
 * spread first, then the named design-system sizes. In a spread a later key
 * overrides an earlier one; no named key looks numeric, so no key clashes and
 * every generated entry survives the merge.
 */
module Theme {
  import opened Spacing

  /** The named spacing sizes of the design system, in rem, in the order they are written. */
  const NamedSizes: seq<(string, string)> := [
    ("none", "0rem"),
    ("xxs", "0.125rem"),
    ("xs", "0.25rem"),
    ("sm", "0.375rem"),
    ("md", "0.5rem"),
    ("lg", "0.75rem"),
    ("xl", "1rem"),
    ("2xl", "1.25rem"),
    ("3xl", "1.5rem"),
    ("4xl", "2rem"),
    ("5xl", "2.5rem"),
    ("6xl", "3rem"),
    ("7xl", "4rem"),
    ("8xl", "5rem"),
    ("9xl", "6rem"),
    ("10xl", "8rem"),
    ("11xl", "8.75rem")
  ]

  /** The named sizes as a table (their names are distinct). */
  const NamedSpacing: map<string, string> :=
    map i | 0 <= i < |NamedSizes| :: NamedSizes[i].0 := NamedSizes[i].1

  lemma {:induction false} DistinctCard<T>(s: seq<T>)
    requires forall i, j | 0 <= i < j < |s| :: s[i] != s[j]
    ensures |set x | x in s| == |s|
    decreases |s|
  {
    if s != [] {
      var t := s[..|s| - 1];
      DistinctCard(t);
      assert (set x | x in s) == (set x | x in t) + {s[|s| - 1]};
    }
  }

  /** No named size looks numeric: each name ends in a letter and none is "px". */
  lemma NamedKeysNotNumeric()
    ensures forall k | k in NamedSpacing :: !IsNumericKey(k)
  {
    forall k | k in NamedSpacing ensures !IsNumericKey(k) {
      var i :| 0 <= i < |NamedSizes| && NamedSizes[i].0 == k;
      assert |k| > 0 && !IsDigit(k[|k| - 1]) && k != "px";
    }
  }

  /** There are 17 named sizes. */
  lemma NamedSpacingCount()
    ensures |NamedSpacing| == 17
  {
    var names := seq(|NamedSizes|, i requires 0 <= i < |NamedSizes| => NamedSizes[i].0);
    DistinctCard(names);
    forall k | k in NamedSpacing ensures k in names {
      var i :| 0 <= i < |NamedSizes| && NamedSizes[i].0 == k;
      assert names[i] == k;
    }
    assert NamedSpacing.Keys == set x | x in names;
  }

  /**
   * The spread of the numeric table followed by the named sizes: a later key
   * overrides an earlier one. When every numeric key looks numeric, no key
   * clashes, so every numeric entry is kept and the sizes add up.
   */
  function MergeSpacing(numeric: map<string, string>): (r: map<string, string>)
    ensures r.Keys == numeric.Keys + NamedSpacing.Keys
    ensures forall k | k in NamedSpacing :: r[k] == NamedSpacing[k]
    ensures (forall k | k in numeric :: IsNumericKey(k)) ==>
      && (forall k | k in numeric :: r[k] == numeric[k])
      && |r| == |numeric| + |NamedSpacing|
  {
    NamedKeysNotNumeric();
    numeric + NamedSpacing
  }

  /** The `spacing` entry of the theme extension. */
  method ThemeSpacing() returns (spacing: map<string, string>)
    ensures spacing.Keys == NumericKeys() + NamedSpacing.Keys
    ensures |spacing| == 62
    ensures forall k | k in NumericKeys() && k != "px" :: spacing[k] == Px(k)
    ensures spacing["px"] == "1px"
    ensures forall k | k in NamedSpacing :: spacing[k] == NamedSpacing[k]
  {
    var numeric := GenerateNumericSpacing();
    NumericSpacingKeys();
    NumericSpacingValues();
    NamedSpacingCount();
    spacing := MergeSpacing(numeric);
  }
}
