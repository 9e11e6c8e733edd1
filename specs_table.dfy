/** The specifications table: a list of labelled values, of which only the
    ones with a value are shown. */
module SpecsTable {
  import opened Js

  /** One `{ label, value }` entry, the label as `name`; `None` is `null` or `undefined`. */
  datatype SpecEntry = SpecEntry(name: string, value: Option<string>)

  /** `specs.filter(spec => spec.value)` */
  function Filtered(specs: seq<SpecEntry>): (r: seq<SpecEntry>)
    ensures |r| <= |specs|
    ensures forall k :: 0 <= k < |r| ==> TruthyText(r[k].value)
  {
    if specs == [] then []
    else
      var last := specs[|specs| - 1];
      Filtered(specs[..|specs| - 1]) + (if TruthyText(last.value) then [last] else [])
  }

  /** The input positions the filter keeps, in increasing order. */
  function Kept(specs: seq<SpecEntry>): (idx: seq<nat>)
    ensures forall k :: 0 <= k < |idx| ==> idx[k] < |specs|
  {
    if specs == [] then []
    else
      var n := |specs| - 1;
      Kept(specs[..n]) + (if TruthyText(specs[n].value) then [n] else [])
  }

  /** The shown rows are the input rows at the positions `Kept` lists: those
      positions increase (so every shown row comes from its own input row and
      the order is kept), and a position is listed exactly when its value is
      truthy (so no row with a value is dropped). */
  lemma {:induction false} FilteredIsTruthySubsequence(specs: seq<SpecEntry>)
    ensures var r := Filtered(specs); var idx := Kept(specs);
      && |idx| == |r|
      && (forall k :: 0 <= k < |r| ==> r[k] == specs[idx[k]])
      && (forall k, l :: 0 <= k < l < |idx| ==> idx[k] < idx[l])
      && (forall i :: 0 <= i < |specs| ==> (i in idx <==> TruthyText(specs[i].value)))
  {
    if specs != [] {
      var n := |specs| - 1;
      var init := specs[..n];
      FilteredIsTruthySubsequence(init);
      var r := Filtered(specs);
      var idx := Kept(specs);
      assert forall k :: 0 <= k < |Kept(init)| ==> Kept(init)[k] < n;
      assert forall i :: 0 <= i < n ==> specs[i] == init[i];
      if TruthyText(specs[n].value) {
        assert r == Filtered(init) + [specs[n]];
        assert idx == Kept(init) + [n];
      } else {
        assert r == Filtered(init);
        assert idx == Kept(init);
      }
    }
  }
}
