/** The phone page's specifications section: highlight cards for four key
    values, grouped tables of all twelve, and a fallback when the phone has
    no main specifications. */
module SpecificationsSection {
  import opened Js
  import opened Text
  import opened Phones
  import opened SpecsTable

  /** Shown in a group's row whose value is missing. */
  const Placeholder: string := "—"

  /** `specs.some(s => s.value)` */
  predicate HasValues(specs: seq<SpecEntry>) {
    exists i :: 0 <= i < |specs| && TruthyText(specs[i].value)
  }

  /** A table row as rendered: the label and the text in the value column. */
  datatype Row = Row(name: string, shown: string)

  datatype Group = Group(title: string, rows: seq<Row>)

  /** `SpecGroup`: nothing when no entry has a value; otherwise every entry,
      including the empty ones, which show the placeholder. */
  function RenderGroup(title: string, specs: seq<SpecEntry>): (g: Option<Group>)
    ensures g.Some? <==> HasValues(specs)
    ensures g.Some? ==> g.value.title == title && |g.value.rows| == |specs|
    ensures g.Some? ==> forall i :: 0 <= i < |specs| ==>
      && g.value.rows[i].name == specs[i].name
      && (TruthyText(specs[i].value) ==> g.value.rows[i].shown == specs[i].value.value)
      && (!TruthyText(specs[i].value) ==> g.value.rows[i].shown == Placeholder)
  {
    if HasValues(specs) then
      Some(Group(title, seq(|specs|, i requires 0 <= i < |specs| => Row(specs[i].name, TextOr(specs[i].value, Placeholder)))))
    else None
  }

  /** A rendered group never shows an empty cell, and at least one of its
      rows shows its entry's own value. */
  lemma RenderedGroupShowsAValue(title: string, specs: seq<SpecEntry>)
    requires RenderGroup(title, specs).Some?
    ensures var rows := RenderGroup(title, specs).value.rows;
      && (forall i :: 0 <= i < |rows| ==> rows[i].shown != "")
      && exists i :: 0 <= i < |rows| && TruthyText(specs[i].value) && rows[i].shown == specs[i].value.value
  {
    var rows := RenderGroup(title, specs).value.rows;
    var i :| 0 <= i < |specs| && TruthyText(specs[i].value);
    assert rows[i].shown == specs[i].value.value;
  }

  datatype Highlight = Highlight(name: string, value: string)

  /** `HighlightCard`: shown exactly when its value is truthy. */
  function HighlightCard(name: string, value: Option<string>): (h: Option<Highlight>)
    ensures h.Some? <==> TruthyText(value)
    ensures h.Some? ==> h.value == Highlight(name, value.value)
  {
    if TruthyText(value) then Some(Highlight(name, value.value)) else None
  }

  /** `main_camera?.split('+')[0]?.trim()`: the text before the first `+`,
      without surrounding whitespace. */
  function BackCamera(mainCamera: Option<string>): (r: Option<string>)
    ensures r.Some? <==> mainCamera.Some?
    ensures r.Some? ==> r.value == Trim(mainCamera.value[..IndexOf(mainCamera.value, '+')])
    ensures r.Some? ==> '+' !in r.value
  {
    match mainCamera
    case None => None
    case Some(text) =>
      SplitFirst(text, '+');
      Some(Trim(Split(text, '+')[0]))
  }

  /** The section as rendered. */
  datatype View = NotAvailable | Detailed(highlights: seq<Highlight>, groups: seq<Group>)

  /** `hasSpecs`: one of the seven main columns is truthy. */
  predicate HasSpecs(s: Specs) {
    || TruthyText(s.processor) || TruthyText(s.ram) || TruthyText(s.storage) || TruthyText(s.battery)
    || TruthyText(s.mainCamera) || TruthyText(s.displaySize) || TruthyText(s.os)
  }

  /** The values of an optional element that is present. */
  function Present<T>(o: Option<T>): (r: seq<T>)
    ensures o.Some? ==> r == [o.value]
    ensures o.None? ==> r == []
  {
    if o.Some? then [o.value] else []
  }

  /** The highlight cards, in order: display, RAM, battery, back camera. A
      card with a given name and value is shown exactly when that column holds
      that non-empty value. */
  function Highlights(s: Specs): (r: seq<Highlight>)
    ensures |r| <= 4
    ensures forall h :: h in r ==> h.value != []
    ensures forall v :: Highlight("Display", v) in r <==> s.displaySize == Some(v) && v != ""
    ensures forall v :: Highlight("RAM", v) in r <==> s.ram == Some(v) && v != ""
    ensures forall v :: Highlight("Battery", v) in r <==> s.battery == Some(v) && v != ""
    ensures forall v :: Highlight("Back Camera", v) in r <==> BackCamera(s.mainCamera) == Some(v) && v != ""
  {
    HighlightCards(s.displaySize, s.ram, s.battery, BackCamera(s.mainCamera))
  }

  /** The four cards for the four highlighted values. */
  function HighlightCards(display: Option<string>, ram: Option<string>, battery: Option<string>,
                          camera: Option<string>): (r: seq<Highlight>)
    ensures |r| <= 4
    ensures forall h :: h in r ==> h.value != []
    ensures forall v :: Highlight("Display", v) in r <==> display == Some(v) && v != ""
    ensures forall v :: Highlight("RAM", v) in r <==> ram == Some(v) && v != ""
    ensures forall v :: Highlight("Battery", v) in r <==> battery == Some(v) && v != ""
    ensures forall v :: Highlight("Back Camera", v) in r <==> camera == Some(v) && v != ""
  {
    var r := Present(HighlightCard("Display", display)) + Present(HighlightCard("RAM", ram))
      + Present(HighlightCard("Battery", battery)) + Present(HighlightCard("Back Camera", camera));
    DisplayCard(display, ram, battery, camera);
    RamCard(display, ram, battery, camera);
    BatteryCard(display, ram, battery, camera);
    CameraCard(display, ram, battery, camera);
    r
  }

  lemma DisplayCard(display: Option<string>, ram: Option<string>, battery: Option<string>, camera: Option<string>)
    ensures var r := Present(HighlightCard("Display", display)) + Present(HighlightCard("RAM", ram))
      + Present(HighlightCard("Battery", battery)) + Present(HighlightCard("Back Camera", camera));
      forall v :: Highlight("Display", v) in r <==> display == Some(v) && v != ""
  {
    var d, m, b, c := Present(HighlightCard("Display", display)), Present(HighlightCard("RAM", ram)),
      Present(HighlightCard("Battery", battery)), Present(HighlightCard("Back Camera", camera));
    assert "Display" != "Battery" by { assert "Display"[0] != "Battery"[0]; }
    assert d + m + b + c == [] + d + (m + b + c);
    OneCard("Display", display, [], m + b + c);
  }

  lemma RamCard(display: Option<string>, ram: Option<string>, battery: Option<string>, camera: Option<string>)
    ensures var r := Present(HighlightCard("Display", display)) + Present(HighlightCard("RAM", ram))
      + Present(HighlightCard("Battery", battery)) + Present(HighlightCard("Back Camera", camera));
      forall v :: Highlight("RAM", v) in r <==> ram == Some(v) && v != ""
  {
    var d, m, b, c := Present(HighlightCard("Display", display)), Present(HighlightCard("RAM", ram)),
      Present(HighlightCard("Battery", battery)), Present(HighlightCard("Back Camera", camera));
    assert d + m + b + c == d + m + (b + c);
    OneCard("RAM", ram, d, b + c);
  }

  lemma BatteryCard(display: Option<string>, ram: Option<string>, battery: Option<string>, camera: Option<string>)
    ensures var r := Present(HighlightCard("Display", display)) + Present(HighlightCard("RAM", ram))
      + Present(HighlightCard("Battery", battery)) + Present(HighlightCard("Back Camera", camera));
      forall v :: Highlight("Battery", v) in r <==> battery == Some(v) && v != ""
  {
    var d, m, b, c := Present(HighlightCard("Display", display)), Present(HighlightCard("RAM", ram)),
      Present(HighlightCard("Battery", battery)), Present(HighlightCard("Back Camera", camera));
    assert "Display" != "Battery" by { assert "Display"[0] != "Battery"[0]; }
    assert "Battery" != "Back Camera" by { assert "Battery"[2] != "Back Camera"[2]; }
    OneCard("Battery", battery, d + m, c);
  }

  lemma CameraCard(display: Option<string>, ram: Option<string>, battery: Option<string>, camera: Option<string>)
    ensures var r := Present(HighlightCard("Display", display)) + Present(HighlightCard("RAM", ram))
      + Present(HighlightCard("Battery", battery)) + Present(HighlightCard("Back Camera", camera));
      forall v :: Highlight("Back Camera", v) in r <==> camera == Some(v) && v != ""
  {
    var d, m, b, c := Present(HighlightCard("Display", display)), Present(HighlightCard("RAM", ram)),
      Present(HighlightCard("Battery", battery)), Present(HighlightCard("Back Camera", camera));
    assert "Battery" != "Back Camera" by { assert "Battery"[2] != "Back Camera"[2]; }
    assert d + m + b + c == (d + m + b) + c + [];
    OneCard("Back Camera", camera, d + m + b, []);
  }

  /** Among cards of other names, the card named `name` is there exactly when
      its value is truthy, and then with that value. */
  lemma OneCard(name: string, value: Option<string>, before: seq<Highlight>, after: seq<Highlight>)
    requires forall h :: h in before ==> h.name != name
    requires forall h :: h in after ==> h.name != name
    ensures var r := before + Present(HighlightCard(name, value)) + after;
      forall v :: Highlight(name, v) in r <==> value == Some(v) && v != ""
  {
  }

  /** The position of a highlight card's name in the row of cards. */
  function CardRank(name: string): nat
  {
    if name == "Display" then 0
    else if name == "RAM" then 1
    else if name == "Battery" then 2
    else 3
  }

  /** Cards whose ranks strictly increase: shown in layout order, none twice. */
  predicate InCardOrder(r: seq<Highlight>) {
    forall i, j :: 0 <= i < j < |r| ==> CardRank(r[i].name) < CardRank(r[j].name)
  }

  /** One card for each truthy value, and the cards keep the order display,
      RAM, battery, back camera. */
  lemma HighlightsInOrder(s: Specs)
    ensures var r := Highlights(s);
      && |r| == Count(TruthyText(s.displaySize)) + Count(TruthyText(s.ram))
              + Count(TruthyText(s.battery)) + Count(TruthyText(BackCamera(s.mainCamera)))
      && InCardOrder(r)
  {
    CardsCount(s.displaySize, s.ram, s.battery, BackCamera(s.mainCamera));
    CardsInOrder(s.displaySize, s.ram, s.battery, BackCamera(s.mainCamera));
  }

  /** One card per truthy value. */
  lemma CardsCount(display: Option<string>, ram: Option<string>, battery: Option<string>, camera: Option<string>)
    ensures |HighlightCards(display, ram, battery, camera)|
      == Count(TruthyText(display)) + Count(TruthyText(ram)) + Count(TruthyText(battery)) + Count(TruthyText(camera))
  {
    var d, m, b, c := Present(HighlightCard("Display", display)), Present(HighlightCard("RAM", ram)),
      Present(HighlightCard("Battery", battery)), Present(HighlightCard("Back Camera", camera));
    assert HighlightCards(display, ram, battery, camera) == d + m + b + c;
  }

  /** The cards that are shown keep the layout order. */
  lemma CardsInOrder(display: Option<string>, ram: Option<string>, battery: Option<string>, camera: Option<string>)
    ensures InCardOrder(HighlightCards(display, ram, battery, camera))
  {
    var d, m, b, c := Present(HighlightCard("Display", display)), Present(HighlightCard("RAM", ram)),
      Present(HighlightCard("Battery", battery)), Present(HighlightCard("Back Camera", camera));
    assert HighlightCards(display, ram, battery, camera) == d + m + b + c;
    RanksOf(d, "Display", display, 0);
    RanksOf(m, "RAM", ram, 1);
    RanksOf(b, "Battery", battery, 2) by {
      assert "Display" != "Battery" by { assert "Display"[0] != "Battery"[0]; }
    }
    RanksOf(c, "Back Camera", camera, 3) by {
      assert "Battery" != "Back Camera" by { assert "Battery"[2] != "Back Camera"[2]; }
    }
    FourInOrder(d, m, b, c);
  }

  /** Four runs of cards ranked 0, 1, 2 and 3 are in order together. */
  lemma FourInOrder(d: seq<Highlight>, m: seq<Highlight>, b: seq<Highlight>, c: seq<Highlight>)
    requires InCardOrder(d) && forall h :: h in d ==> CardRank(h.name) == 0
    requires InCardOrder(m) && forall h :: h in m ==> CardRank(h.name) == 1
    requires InCardOrder(b) && forall h :: h in b ==> CardRank(h.name) == 2
    requires InCardOrder(c) && forall h :: h in c ==> CardRank(h.name) == 3
    ensures InCardOrder(d + m + b + c)
  {
    OrderedConcat(d, m);
    assert forall h :: h in d + m ==> CardRank(h.name) <= 1;
    OrderedConcat(d + m, b);
    assert forall h :: h in d + m + b ==> CardRank(h.name) <= 2;
    OrderedConcat(d + m + b, c);
  }

  /** The card for one value has that name's rank, and is in order on its own. */
  lemma RanksOf(p: seq<Highlight>, name: string, value: Option<string>, rank: nat)
    requires p == Present(HighlightCard(name, value)) && CardRank(name) == rank
    ensures InCardOrder(p) && forall h :: h in p ==> CardRank(h.name) == rank
  {
  }

  /** 1 when the condition holds, 0 otherwise. */
  function Count(c: bool): nat { if c then 1 else 0 }

  /** Two runs of cards in order, all of the first ranked before all of the
      second, are in order together. */
  lemma OrderedConcat(a: seq<Highlight>, b: seq<Highlight>)
    requires InCardOrder(a) && InCardOrder(b)
    requires forall x, y :: x in a && y in b ==> CardRank(x.name) < CardRank(y.name)
    ensures InCardOrder(a + b)
  {
    forall i, j | 0 <= i < j < |a + b|
      ensures CardRank((a + b)[i].name) < CardRank((a + b)[j].name)
    {
      if j < |a| {
      } else if i >= |a| {
        assert (a + b)[i] == b[i - |a|] && (a + b)[j] == b[j - |a|];
      } else {
        assert (a + b)[i] == a[i] && (a + b)[j] == b[j - |a|];
        assert a[i] in a && b[j - |a|] in b;
      }
    }
  }

  /** The seven groups, in the order they are laid out, each with its entries. */
  function GroupEntries(s: Specs): seq<(string, seq<SpecEntry>)>
  {
    [ ("Display", [SpecEntry("Screen Size", s.displaySize), SpecEntry("Screen Type", s.displayType)]),
      ("Memory", [SpecEntry("RAM", s.ram), SpecEntry("Internal Storage", s.storage)]),
      ("Performance", [SpecEntry("Processor", s.processor), SpecEntry("Operating System", s.os)]),
      ("Battery", [SpecEntry("Capacity", s.battery)]),
      ("Camera", [SpecEntry("Back Camera", s.mainCamera), SpecEntry("Front Camera", s.selfieCamera)]),
      ("Connectivity", [SpecEntry("Network", s.network)]),
      ("General", [SpecEntry("Weight", s.weight), SpecEntry("Dimensions", s.dimensions)]) ]
  }

  /** The groups that render, in layout order. */
  function Groups(entries: seq<(string, seq<SpecEntry>)>): (r: seq<Group>)
    ensures |r| <= |entries|
    ensures forall g :: g in r ==> exists k :: 0 <= k < |entries| && RenderGroup(entries[k].0, entries[k].1) == Some(g)
  {
    if entries == [] then []
    else
      var n := |entries| - 1;
      Groups(entries[..n]) + Present(RenderGroup(entries[n].0, entries[n].1))
  }

  /** The layout positions of the groups that have a value, in increasing order. */
  function GroupPositions(entries: seq<(string, seq<SpecEntry>)>): (idx: seq<nat>)
    ensures forall k :: 0 <= k < |idx| ==> idx[k] < |entries|
  {
    if entries == [] then []
    else
      var n := |entries| - 1;
      GroupPositions(entries[..n]) + (if HasValues(entries[n].1) then [n] else [])
  }

  /** The rendered groups are the declared groups at the positions
      `GroupPositions` lists: the positions increase, so the layout order is
      kept and no group is shown twice, and a position is listed exactly when
      its group has a value, so no group with a value is hidden. */
  lemma GroupsInLayoutOrder(entries: seq<(string, seq<SpecEntry>)>)
    ensures var r := Groups(entries); var idx := GroupPositions(entries);
      && |idx| == |r|
      && (forall k :: 0 <= k < |r| ==> Some(r[k]) == RenderGroup(entries[idx[k]].0, entries[idx[k]].1))
      && (forall k, l :: 0 <= k < l < |idx| ==> idx[k] < idx[l])
      && (forall i :: 0 <= i < |entries| ==> (i in idx <==> HasValues(entries[i].1)))
  {
    GroupsAtPositions(entries);
    PositionsIncreaseAndCover(entries);
  }

  /** The k-th rendered group is the group at the k-th listed position. */
  lemma {:induction false} GroupsAtPositions(entries: seq<(string, seq<SpecEntry>)>)
    ensures var r := Groups(entries); var idx := GroupPositions(entries);
      && |idx| == |r|
      && (forall k :: 0 <= k < |r| ==> Some(r[k]) == RenderGroup(entries[idx[k]].0, entries[idx[k]].1))
  {
    if entries != [] {
      var n := |entries| - 1;
      var init := entries[..n];
      GroupsAtPositions(init);
      var r0, idx0 := Groups(init), GroupPositions(init);
      assert forall k :: 0 <= k < |idx0| ==> entries[idx0[k]] == init[idx0[k]];
      var g := RenderGroup(entries[n].0, entries[n].1);
      var r, idx := Groups(entries), GroupPositions(entries);
      if HasValues(entries[n].1) {
        assert r == r0 + [g.value] && idx == idx0 + [n];
        forall k | 0 <= k < |r|
          ensures Some(r[k]) == RenderGroup(entries[idx[k]].0, entries[idx[k]].1)
        {
          if k < |r0| {
            assert r[k] == r0[k] && idx[k] == idx0[k];
          }
        }
      } else {
        assert r == r0 && idx == idx0;
      }
    }
  }

  /** The listed positions increase, and a position is listed exactly when its
      group has a value. */
  lemma {:induction false} PositionsIncreaseAndCover(entries: seq<(string, seq<SpecEntry>)>)
    ensures var idx := GroupPositions(entries);
      && (forall k, l :: 0 <= k < l < |idx| ==> idx[k] < idx[l])
      && (forall i :: 0 <= i < |entries| ==> (i in idx <==> HasValues(entries[i].1)))
  {
    if entries != [] {
      var n := |entries| - 1;
      var init := entries[..n];
      PositionsIncreaseAndCover(init);
      assert forall i :: 0 <= i < n ==> entries[i] == init[i];
      assert n !in GroupPositions(init);
    }
  }

  /** Every group that has a value is shown. */
  lemma GroupsShowEveryValuedGroup(entries: seq<(string, seq<SpecEntry>)>, k: nat)
    requires k < |entries| && HasValues(entries[k].1)
    ensures RenderGroup(entries[k].0, entries[k].1).value in Groups(entries)
  {
    GroupsInLayoutOrder(entries);
    var idx := GroupPositions(entries);
    var j :| 0 <= j < |idx| && idx[j] == k;
  }

  /** `SpecificationsSection` */
  function Section(s: Specs): (v: View)
    ensures v == NotAvailable <==> !HasSpecs(s)
  {
    if !HasSpecs(s) then NotAvailable else Detailed(Highlights(s), Groups(GroupEntries(s)))
  }

  /** A group renders whenever some group's entry has a value. */
  lemma GroupsNonEmpty(entries: seq<(string, seq<SpecEntry>)>, k: nat)
    requires k < |entries| && HasValues(entries[k].1)
    ensures |Groups(entries)| >= 1
  {
    GroupsShowEveryValuedGroup(entries, k);
  }

  /** Whenever the fallback is not shown, at least one table of specifications
      is: each of the seven main columns belongs to some group. */
  lemma DetailedHasAGroup(s: Specs)
    requires HasSpecs(s)
    ensures Section(s).Detailed? && |Section(s).groups| >= 1
  {
    var entries := GroupEntries(s);
    if TruthyText(s.displaySize) {
      assert TruthyText(entries[0].1[0].value);
      GroupsNonEmpty(entries, 0);
    } else if TruthyText(s.ram) || TruthyText(s.storage) {
      assert TruthyText(entries[1].1[0].value) || TruthyText(entries[1].1[1].value);
      GroupsNonEmpty(entries, 1);
    } else if TruthyText(s.processor) || TruthyText(s.os) {
      assert TruthyText(entries[2].1[0].value) || TruthyText(entries[2].1[1].value);
      GroupsNonEmpty(entries, 2);
    } else if TruthyText(s.battery) {
      assert TruthyText(entries[3].1[0].value);
      GroupsNonEmpty(entries, 3);
    } else {
      assert TruthyText(entries[4].1[0].value);
      GroupsNonEmpty(entries, 4);
    }
  }

  /** A phone can have main specifications and still show no highlight card:
      the processor and the OS have none. */
  lemma HighlightsMayBeEmpty(s: Specs)
    requires TruthyText(s.processor)
    requires !TruthyText(s.displaySize) && !TruthyText(s.ram) && !TruthyText(s.battery) && s.mainCamera.None?
    ensures Section(s).Detailed? && Section(s).highlights == []
  {
  }
}
