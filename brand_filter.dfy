/** The database-backed brand filter: the distinct brands of the catalogue in
    sorted order, one button each after "All Brands". */
module BrandFilter {
  import opened Js

  /** JavaScript's default sort order on text: the first differing character
      decides, and a proper prefix comes first. */
  predicate Less(a: string, b: string)
    decreases |a|
  {
    if a == [] then b != []
    else b != [] && (a[0] < b[0] || (a[0] == b[0] && Less(a[1..], b[1..])))
  }

  lemma {:induction false} LessIrreflexive(a: string)
    ensures !Less(a, a)
    decreases |a|
  {
    if a != [] {
      LessIrreflexive(a[1..]);
    }
  }

  lemma {:induction false} LessTransitive(a: string, b: string, c: string)
    requires Less(a, b) && Less(b, c)
    ensures Less(a, c)
    decreases |a|
  {
    if a != [] && a[0] == b[0] && b[0] == c[0] {
      LessTransitive(a[1..], b[1..], c[1..]);
    }
  }

  lemma {:induction false} LessTotal(a: string, b: string)
    requires a != b
    ensures Less(a, b) || Less(b, a)
    decreases |a|
  {
    if a != [] && b != [] && a[0] == b[0] {
      assert a == [a[0]] + a[1..] && b == [b[0]] + b[1..];
      LessTotal(a[1..], b[1..]);
    }
  }

  /** Every element comes strictly before every later one. */
  predicate StrictlySorted(s: seq<string>) {
    forall i, j :: 0 <= i < j < |s| ==> Less(s[i], s[j])
  }

  lemma StrictlySortedIsDistinct(s: seq<string>)
    requires StrictlySorted(s)
    ensures Distinct(s)
  {
    forall i, j | 0 <= i < j < |s| ensures s[i] != s[j] {
      if s[i] == s[j] {
        LessIrreflexive(s[i]);
      }
    }
  }

  /** `.not("brand", "is", null)` followed by `data.map(p => p.brand)`. */
  function NonNull(brands: seq<Option<string>>): (r: seq<string>)
    ensures forall b :: b in r <==> Some(b) in brands
  {
    if brands == [] then []
    else
      var n := |brands| - 1;
      NonNull(brands[..n]) + (if brands[n].Some? then [brands[n].value] else [])
  }

  /** `Array.from(new Set(values))`: the first occurrence of each value, in order. */
  function Unique(values: seq<string>): (r: seq<string>)
    ensures Distinct(r)
    ensures forall b :: b in r <==> b in values
  {
    if values == [] then []
    else
      var n := |values| - 1;
      var d := Unique(values[..n]);
      assert values == values[..n] + [values[n]];
      if values[n] in d then d else d + [values[n]]
  }

  /** Places `x` into a strictly sorted list that does not hold it. */
  function Insert(x: string, s: seq<string>): (r: seq<string>)
    ensures forall b :: b in r <==> b == x || b in s
    ensures |r| == |s| + 1
  {
    if s == [] then [x]
    else if Less(x, s[0]) then [x] + s
    else [s[0]] + Insert(x, s[1..])
  }

  lemma {:induction false} InsertSorted(x: string, s: seq<string>)
    requires StrictlySorted(s) && x !in s
    ensures StrictlySorted(Insert(x, s))
  {
    if s == [] {
    } else if Less(x, s[0]) {
      var r := [x] + s;
      forall i, j | 0 <= i < j < |r| ensures Less(r[i], r[j]) {
        if i == 0 && j > 1 {
          LessTransitive(x, s[0], s[j - 1]);
        }
      }
    } else {
      LessTotal(x, s[0]);
      InsertSorted(x, s[1..]);
      var t := Insert(x, s[1..]);
      var r := [s[0]] + t;
      forall i, j | 0 <= i < j < |r| ensures Less(r[i], r[j]) {
        if i == 0 {
          assert r[j] in t;
          assert r[j] == x || r[j] in s[1..];
          if r[j] != x {
            var k :| 0 <= k < |s[1..]| && s[1..][k] == r[j];
            assert s[k + 1] == r[j];
          }
        }
      }
    }
  }

  /** `.sort()` on a list without duplicates. */
  function Sort(s: seq<string>): (r: seq<string>)
    requires Distinct(s)
    ensures forall b :: b in r <==> b in s
    ensures StrictlySorted(r)
  {
    if s == [] then []
    else
      var n := |s| - 1;
      var rest := Sort(s[..n]);
      assert s[n] !in s[..n];
      InsertSorted(s[n], rest);
      Insert(s[n], rest)
  }

  /** The brands the filter offers. */
  function Brands(rows: seq<Option<string>>): (r: seq<string>)
    ensures StrictlySorted(r)
    ensures forall b :: b in r <==> Some(b) in rows
  {
    Sort(Unique(NonNull(rows)))
  }

  /** The brands are in sorted order without duplicates, and they are exactly
      the brands some fetched row has. */
  lemma BrandsSortedAndComplete(rows: seq<Option<string>>)
    ensures StrictlySorted(Brands(rows)) && Distinct(Brands(rows))
    ensures forall b :: b in Brands(rows) <==> Some(b) in rows
  {
    StrictlySortedIsDistinct(Brands(rows));
  }

  /** The head of a strictly sorted list comes before every other element. */
  lemma LeastOf(s: seq<string>, x: string)
    requires StrictlySorted(s) && x in s
    ensures x == s[0] || Less(s[0], x)
  {
    var k :| 0 <= k < |s| && s[k] == x;
    if k > 0 {
      assert Less(s[0], s[k]);
    }
  }

  lemma LessAsymmetric(a: string, b: string)
    ensures !(Less(a, b) && Less(b, a))
  {
    if Less(a, b) && Less(b, a) {
      LessTransitive(a, b, a);
      LessIrreflexive(a);
    }
  }

  /** Two strictly sorted lists with the same elements are the same list, so
      the order of the fetched rows never changes the buttons. */
  lemma {:induction false} SortedUnique(s: seq<string>, t: seq<string>)
    requires StrictlySorted(s) && StrictlySorted(t)
    requires forall b :: b in s <==> b in t
    ensures s == t
  {
    if s != [] {
      assert s[0] in s;
    }
    if t != [] {
      assert t[0] in t;
    }
    if s != [] && t != [] {
      // the least element of each list is the least of both
      LeastOf(t, s[0]);
      LeastOf(s, t[0]);
      LessAsymmetric(s[0], t[0]);
      forall b | b in s[1..] ensures b in t[1..] {
        var k :| 0 <= k < |s| - 1 && s[1..][k] == b;
        assert Less(s[0], s[k + 1]);
        LessIrreflexive(b);
        assert b in t;
        var m :| 0 <= m < |t| && t[m] == b;
        assert m != 0;
        assert t[1..][m - 1] == b;
      }
      forall b | b in t[1..] ensures b in s[1..] {
        var k :| 0 <= k < |t| - 1 && t[1..][k] == b;
        assert Less(t[0], t[k + 1]);
        LessIrreflexive(b);
        assert b in s;
        var m :| 0 <= m < |s| && s[m] == b;
        assert m != 0;
        assert s[1..][m - 1] == b;
      }
      SortedUnique(s[1..], t[1..]);
      assert s == [s[0]] + s[1..] && t == [t[0]] + t[1..];
    }
  }

  /** The buttons depend only on which brands occur: they are the one sorted
      list of those brands. */
  lemma BrandsDeterminedByOccurrence(rows: seq<Option<string>>, names: seq<string>)
    requires StrictlySorted(names)
    requires forall b :: b in names <==> Some(b) in rows
    ensures Brands(rows) == names
  {
    BrandsSortedAndComplete(rows);
    SortedUnique(Brands(rows), names);
  }

  /** A button of the filter. */
  datatype Button = AllBrands | BrandButton(brand: string)

  /** A button's variant is "default" (active) exactly under this test. */
  predicate Active(button: Button, selected: Option<string>) {
    match button
    case AllBrands => selected == None
    case BrandButton(b) => selected == Some(b)
  }

  function Buttons(brands: seq<string>): (r: seq<Button>)
    ensures |r| == |brands| + 1 && r[0] == AllBrands
    ensures forall i :: 0 <= i < |brands| ==> r[i + 1] == BrandButton(brands[i])
  {
    [AllBrands] + seq(|brands|, i requires 0 <= i < |brands| => BrandButton(brands[i]))
  }

  /** With distinct brands at most one button is active, and one is active
      exactly when nothing is selected or the selected brand is offered. */
  lemma ActiveButtonRule(brands: seq<string>, selected: Option<string>)
    requires Distinct(brands)
    ensures var bs := Buttons(brands);
      forall i, j :: 0 <= i < j < |bs| && Active(bs[i], selected) ==> !Active(bs[j], selected)
    ensures var bs := Buttons(brands);
      (exists i :: 0 <= i < |bs| && Active(bs[i], selected)) <==> selected.None? || selected.value in brands
  {
    var bs := Buttons(brands);
    if selected.Some? && selected.value in brands {
      var k :| 0 <= k < |brands| && brands[k] == selected.value;
      assert Active(bs[k + 1], selected);
    }
    if selected.None? {
      assert Active(bs[0], selected);
    }
    forall i, j | 0 <= i < j < |bs| && Active(bs[i], selected) ensures !Active(bs[j], selected) {
      assert bs[j] == BrandButton(brands[j - 1]);
      if i > 0 {
        assert bs[i] == BrandButton(brands[i - 1]);
      }
    }
  }
}
