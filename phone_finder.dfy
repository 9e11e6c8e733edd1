/** The "AI Phone Finder" form: the budget field, the preference toggles, the
    guard in front of the request, and the cards the answer is shown as. */
module PhoneFinder {
  import opened Js
  import opened Text
  import RecommendPhones

  /** `prev.filter(p => p !== id)` */
  function Remove(prev: seq<string>, id: string): (r: seq<string>)
    ensures id !in r
    ensures forall x :: x != id ==> (x in r <==> x in prev)
  {
    if prev == [] then []
    else
      assert prev == [prev[0]] + prev[1..];
      (if prev[0] == id then [] else [prev[0]]) + Remove(prev[1..], id)
  }

  /** Filtering drops every copy of `id` and keeps every copy of the others. */
  lemma {:induction false} RemoveCounts(prev: seq<string>, id: string)
    ensures multiset(Remove(prev, id)) == multiset(prev)[id := 0]
  {
    if prev != [] {
      assert prev == [prev[0]] + prev[1..];
      RemoveCounts(prev[1..], id);
    }
  }

  /** Filtering distributes over concatenation, so every kept id stays in its
      place relative to the others. */
  lemma {:induction false} RemoveAppend(a: seq<string>, b: seq<string>, id: string)
    ensures Remove(a + b, id) == Remove(a, id) + Remove(b, id)
  {
    if a == [] {
      assert a + b == b;
    } else {
      var ab := a + b;
      var head: seq<string> := if a[0] == id then [] else [a[0]];
      assert ab[0] == a[0] && ab[1..] == a[1..] + b;
      assert Remove(ab, id) == head + Remove(a[1..] + b, id);
      RemoveAppend(a[1..], b, id);
      assert Remove(a, id) == head + Remove(a[1..], id);
    }
  }

  /** Removing an id that is absent changes nothing. */
  lemma {:induction false} RemoveAbsent(prev: seq<string>, id: string)
    requires id !in prev
    ensures Remove(prev, id) == prev
  {
    if prev != [] {
      RemoveAbsent(prev[1..], id);
    }
  }

  /** Filtering a duplicate-free list keeps it duplicate-free. */
  lemma {:induction false} RemoveDistinct(prev: seq<string>, id: string)
    requires Distinct(prev)
    ensures Distinct(Remove(prev, id))
  {
    if prev != [] {
      RemoveDistinct(prev[1..], id);
      assert prev[0] !in prev[1..];
    }
  }

  /** `togglePreference`'s update of the previous list. */
  function Toggled(prev: seq<string>, id: string): (r: seq<string>)
    ensures id in r <==> id !in prev
    ensures forall x :: x != id ==> (x in r <==> x in prev)
  {
    if id in prev then Remove(prev, id) else prev + [id]
  }

  /** An absent id is appended at the end; a present one is removed
      everywhere, the others keeping their order. */
  lemma ToggleCases(prev: seq<string>, id: string)
    ensures id !in prev ==> Toggled(prev, id) == prev + [id]
    ensures id in prev ==> multiset(Toggled(prev, id)) == multiset(prev)[id := 0]
    ensures id in prev ==> forall a, b :: prev == a + b ==> Toggled(prev, id) == Remove(a, id) + Remove(b, id)
  {
    if id in prev {
      RemoveCounts(prev, id);
      forall a, b | prev == a + b ensures Toggled(prev, id) == Remove(a, id) + Remove(b, id) {
        RemoveAppend(a, b, id);
      }
    }
  }

  /** Toggling an absent id twice gives the list back. */
  lemma ToggleTwiceRestores(prev: seq<string>, id: string)
    requires id !in prev
    ensures Toggled(Toggled(prev, id), id) == prev
  {
    RemoveAppend(prev, [id], id);
    RemoveAbsent(prev, id);
    assert Remove([id], id) == [];
  }

  /** A toggle keeps a duplicate-free list duplicate-free. */
  lemma ToggleKeepsDistinct(prev: seq<string>, id: string)
    requires Distinct(prev)
    ensures Distinct(Toggled(prev, id))
  {
    if id in prev {
      RemoveDistinct(prev, id);
    }
  }

  /** `budget && Number(budget) > 0`; `toNumber` is JavaScript's `Number` on
      text. A comparison with NaN is false. */
  predicate SubmitAllowed(budget: string, toNumber: string -> JsNumber): (ok: bool)
    ensures ok ==> budget != "" && toNumber(budget).Finite?
    ensures ok ==> TruthyNumber(Some(toNumber(budget).value))
    ensures toNumber(budget).NaN? ==> !ok
  {
    budget != "" && toNumber(budget).Finite? && toNumber(budget).value > 0.0
  }

  /** `!budget || Number(budget) <= 0 || isPending` */
  predicate SubmitDisabled(budget: string, toNumber: string -> JsNumber, pending: bool): (d: bool)
    ensures budget == "" || pending ==> d
    ensures !d ==> budget != "" && !pending && (toNumber(budget).NaN? || toNumber(budget).value > 0.0)
  {
    budget == "" || (toNumber(budget).Finite? && toNumber(budget).value <= 0.0) || pending
  }

  /** Whenever `Number(budget)` is a number, the button is disabled exactly
      when a submit would be ignored or a request is pending. */
  lemma DisabledIsComplement(budget: string, toNumber: string -> JsNumber, pending: bool)
    requires budget == "" || toNumber(budget).Finite?
    ensures SubmitDisabled(budget, toNumber, pending) <==> !SubmitAllowed(budget, toNumber) || pending
  {
  }

  /** For non-empty text that `Number` reads as NaN the two tests disagree:
      the button is enabled, and pressing it sends nothing. */
  lemma NaNBudgetEnabledButIgnored(budget: string, toNumber: string -> JsNumber)
    requires budget != "" && toNumber(budget).NaN?
    ensures !SubmitDisabled(budget, toNumber, false)
    ensures !SubmitAllowed(budget, toNumber)
  {
  }

  /** The body sent to `recommend-phones`. */
  datatype RequestBody = RequestBody(budget: real, preferences: seq<string>)

  /** The form's state. */
  class FinderForm {
    var budget: string
    var selectedPreferences: seq<string>

    ghost predicate Valid()
      reads this
    {
      Distinct(selectedPreferences)
    }

    constructor ()
      ensures Valid() && budget == "" && selectedPreferences == []
    {
      budget := "";
      selectedPreferences := [];
    }

    /** The budget field's `onChange`. */
    method SetBudget(text: string)
      requires Valid()
      modifies this
      ensures Valid()
      ensures budget == text && selectedPreferences == old(selectedPreferences)
    {
      budget := text;
    }

    /** `togglePreference(id)` */
    method TogglePreference(id: string)
      requires Valid()
      modifies this
      ensures Valid()
      ensures selectedPreferences == Toggled(old(selectedPreferences), id)
      ensures budget == old(budget)
    {
      ToggleKeepsDistinct(selectedPreferences, id);
      selectedPreferences := Toggled(selectedPreferences, id);
    }

    /** `handleSubmit`: the request body when the guard lets it through,
        `None` when the submit is ignored. The form itself does not change. */
    method Submit(toNumber: string -> JsNumber) returns (sent: Option<RequestBody>)
      ensures sent.Some? <==> SubmitAllowed(budget, toNumber)
      ensures sent.Some? ==> sent.value == RequestBody(toNumber(budget).value, selectedPreferences)
      ensures sent.Some? ==> sent.value.budget > 0.0
      ensures sent.Some? ==> TruthyNumber(Some(sent.value.budget))
    {
      if budget != "" && toNumber(budget).Finite? && toNumber(budget).value > 0.0 {
        sent := Some(RequestBody(toNumber(budget).value, selectedPreferences));
      } else {
        sent := None;
      }
    }
  }

  /** How many `bestFor` tags a card shows. */
  const MaxTags: nat := 3

  /** One result card: the rank badge, the tags and the reason. */
  datatype Card = Card(rankLabel: string, tags: seq<string>, reason: string)

  /** `#${index + 1}`: the badge counts positions in the list, whatever the
      model put in `rank`. */
  function RankLabel(index: nat): string
  {
    "#" + NatToString(index + 1)
  }

  /** `rec.bestFor.slice(0, 3)` */
  function Tags(bestFor: seq<string>): (r: seq<string>)
    ensures r <= bestFor
    ensures |r| == if |bestFor| <= MaxTags then |bestFor| else MaxTags
    ensures |bestFor| <= MaxTags ==> r == bestFor
    ensures |bestFor| > MaxTags ==> r == bestFor[..MaxTags]
  {
    if |bestFor| <= MaxTags then bestFor else bestFor[..MaxTags]
  }

  /** The cards for the endpoint's recommendations, in order: each shows its
      recommendation's reason and its first three tags. */
  function Cards(recs: seq<RecommendPhones.Enriched>): (cards: seq<Card>)
    ensures |cards| == |recs|
    ensures forall i :: 0 <= i < |recs| ==>
      cards[i].tags == Tags(recs[i].rec.bestFor) && cards[i].reason == recs[i].rec.reason
  {
    seq(|recs|, i requires 0 <= i < |recs| => Card(RankLabel(i), Tags(recs[i].rec.bestFor), recs[i].rec.reason))
  }

  /** Each card shows exactly the first three tags of its recommendation (all
      of them when there are fewer), its badge reads back as its position plus
      one, and no two cards have the same badge. */
  lemma CardsLabelPositions(recs: seq<RecommendPhones.Enriched>)
    ensures forall i :: 0 <= i < |recs| ==>
      && |Cards(recs)[i].tags| <= MaxTags && Cards(recs)[i].tags <= recs[i].rec.bestFor
      && (|recs[i].rec.bestFor| >= MaxTags ==> Cards(recs)[i].tags == recs[i].rec.bestFor[..MaxTags])
      && (|recs[i].rec.bestFor| < MaxTags ==> Cards(recs)[i].tags == recs[i].rec.bestFor)
      && Cards(recs)[i].reason == recs[i].rec.reason
      && Cards(recs)[i].rankLabel[0] == '#'
      && DigitsValue(Cards(recs)[i].rankLabel[1..]) == i + 1
    ensures forall i, j :: 0 <= i < j < |recs| ==> Cards(recs)[i].rankLabel != Cards(recs)[j].rankLabel
  {
    var cards := Cards(recs);
    forall i | 0 <= i < |recs|
      ensures cards[i].rankLabel[0] == '#' && DigitsValue(cards[i].rankLabel[1..]) == i + 1
    {
      assert cards[i].rankLabel[1..] == NatToString(i + 1);
      NatToStringRoundTrip(i + 1);
    }
    forall i, j | 0 <= i < j < |recs| ensures cards[i].rankLabel != cards[j].rankLabel {
      assert DigitsValue(cards[i].rankLabel[1..]) != DigitsValue(cards[j].rankLabel[1..]);
    }
  }
}
