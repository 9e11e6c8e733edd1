/** The `recommend-phones` endpoint: validates the budget, fetches the phones in
    the budget window, asks the model to rank them, and attaches the fetched
    rows to the model's recommendations. */
module RecommendPhones {
  import opened Js
  import opened Text
  import opened Phones
  import opened Endpoint
  import Fences

  /** What the model is shown of one fetched phone. */
  datatype PhoneSummary = PhoneSummary(
    id: string, name: string, slug: string, price: real,
    processor: Option<string>, ram: Option<string>, storage: Option<string>,
    battery: Option<string>, camera: Option<string>, display: Option<string>,
    rating: Option<real>)

  /** One entry of the model's `recommendations` array. */
  datatype Recommendation = Recommendation(
    phoneId: string, rank: int, matchScore: int, reason: string, bestFor: seq<string>)

  /** The parsed model reply; `recommendations` is `None` when the parsed value
      has no such array. */
  datatype ModelReply = ModelReply(recommendations: Option<seq<Recommendation>>, summary: Option<string>)

  /** `{ ...rec, phone: phone || null }` */
  datatype Enriched = Enriched(rec: Recommendation, phone: Option<PhoneRow>)

  /** The two success shapes of the endpoint's reply. */
  datatype Recommended =
    | NoPhones(recommendations: seq<Enriched>, message: string)
    | Ranked(recommendations: seq<Enriched>, summary: Option<string>)

  /** The request the endpoint sends to the model gateway. */
  datatype ModelRequest = ModelRequest(budget: real, preferencesText: string, phones: seq<PhoneSummary>)

  /** The foreign calls the endpoint makes, in order. */
  datatype Effect = FetchPhones | CallModel(request: ModelRequest)

  function Summarize(p: PhoneRow): PhoneSummary
  {
    PhoneSummary(p.id, p.name, p.slug, p.currentPrice, p.specs.processor, p.specs.ram,
                 p.specs.storage, p.specs.battery, p.specs.mainCamera, p.specs.displaySize, p.rating)
  }

  /** `phones.map(p => ({ ... }))`: one summary per fetched phone, in order,
      with `current_price`, `main_camera` and `display_size` renamed. */
  function Summaries(phones: seq<PhoneRow>): (r: seq<PhoneSummary>)
    ensures |r| == |phones|
    ensures forall i :: 0 <= i < |r| ==>
      && r[i].id == phones[i].id && r[i].name == phones[i].name && r[i].slug == phones[i].slug
      && r[i].price == phones[i].currentPrice
      && r[i].camera == phones[i].specs.mainCamera
      && r[i].display == phones[i].specs.displaySize
      && r[i].processor == phones[i].specs.processor && r[i].ram == phones[i].specs.ram
      && r[i].storage == phones[i].specs.storage && r[i].battery == phones[i].specs.battery
      && r[i].rating == phones[i].rating
  {
    seq(|phones|, i requires 0 <= i < |phones| => Summarize(phones[i]))
  }

  const PreferencesPrefix: string := "User preferences: "
  const NoPreferences: string := "User has no specific preferences"

  /** The preferences line of the prompt. */
  function PreferencesText(preferences: Option<seq<string>>): (t: string)
    ensures preferences.Some? && |preferences.value| > 0 ==> StartsWith(t, PreferencesPrefix)
    ensures preferences.None? || |preferences.value| == 0 ==> t == NoPreferences
  {
    if preferences.Some? && |preferences.value| > 0
    then PreferencesPrefix + Join(preferences.value, ", ")
    else NoPreferences
  }

  /** The preferences text announces preferences exactly when some were given,
      and then lists every one of them. */
  lemma PreferencesTextListsPreferences(preferences: Option<seq<string>>)
    ensures StartsWith(PreferencesText(preferences), PreferencesPrefix)
        <==> preferences.Some? && |preferences.value| > 0
    ensures preferences.None? || |preferences.value| == 0 ==> PreferencesText(preferences) == NoPreferences
    ensures preferences.Some? ==> forall k :: 0 <= k < |preferences.value| ==>
      Occurs(PreferencesText(preferences), preferences.value[k])
  {
    var t := PreferencesText(preferences);
    if preferences.Some? && |preferences.value| > 0 {
      assert t[..|PreferencesPrefix|] == PreferencesPrefix;
      forall k | 0 <= k < |preferences.value|
        ensures Occurs(t, preferences.value[k])
      {
        var items := preferences.value;
        var joined := Join(items, ", ");
        JoinContains(items, ", ", k);
        var i :| 0 <= i <= |joined| && OccursAt(joined, items[k], i);
        assert t == PreferencesPrefix + joined;
        OccursAfterPrefix(PreferencesPrefix, joined, items[k], i);
        assert OccursAt(t, items[k], |PreferencesPrefix| + i);
      }
    } else {
      assert t[5] != PreferencesPrefix[5];
    }
  }

  /** `phones.find(p => p.id === id)`, as the index of the first match. */
  function FindIndex(phones: seq<PhoneRow>, id: string): (r: Option<nat>)
    ensures r.Some? ==> r.value < |phones| && phones[r.value].id == id
    ensures r.Some? ==> forall j :: 0 <= j < r.value ==> phones[j].id != id
    ensures r.None? <==> forall j :: 0 <= j < |phones| ==> phones[j].id != id
  {
    if phones == [] then None
    else if phones[0].id == id then Some(0)
    else match FindIndex(phones[1..], id)
      case Some(k) => Some(k + 1)
      case None => None
  }

  function FindPhone(phones: seq<PhoneRow>, id: string): Option<PhoneRow>
  {
    match FindIndex(phones, id)
    case Some(i) => Some(phones[i])
    case None => None
  }

  /** The `map` step: every recommendation, in order, with the first fetched phone
      whose id is its `phone_id`, or `null`. */
  function Attach(recs: seq<Recommendation>, phones: seq<PhoneRow>): (r: seq<Enriched>)
    ensures |r| == |recs|
    ensures forall i :: 0 <= i < |r| ==> r[i].rec == recs[i] && r[i].phone == FindPhone(phones, recs[i].phoneId)
  {
    seq(|recs|, i requires 0 <= i < |recs| => Enriched(recs[i], FindPhone(phones, recs[i].phoneId)))
  }

  /** The `filter(rec => rec.phone !== null)` step. */
  function KeepMatched(xs: seq<Enriched>): (r: seq<Enriched>)
    ensures |r| <= |xs|
    ensures forall e :: e in r <==> e in xs && e.phone.Some?
  {
    if xs == [] then []
    else if xs[0].phone.Some? then [xs[0]] + KeepMatched(xs[1..])
    else KeepMatched(xs[1..])
  }

  /** `recommendations.map(...).filter(...)`: never more entries than the
      model gave, each one of the model's with a phone attached. */
  function Enrich(recs: seq<Recommendation>, phones: seq<PhoneRow>): (r: seq<Enriched>)
    ensures |r| <= |recs|
    ensures forall e :: e in r ==> e.rec in recs && e.phone.Some? && e.phone.value.id == e.rec.phoneId
  {
    KeepMatched(Attach(recs, phones))
  }

  /** Reference: the recommendations whose `phone_id` some fetched phone has. */
  function Matched(recs: seq<Recommendation>, phones: seq<PhoneRow>): seq<Recommendation>
  {
    if recs == [] then []
    else if FindIndex(phones, recs[0].phoneId).Some? then [recs[0]] + Matched(recs[1..], phones)
    else Matched(recs[1..], phones)
  }

  function RecsOf(xs: seq<Enriched>): (r: seq<Recommendation>)
    ensures |r| == |xs| && forall i :: 0 <= i < |xs| ==> r[i] == xs[i].rec
  {
    seq(|xs|, i requires 0 <= i < |xs| => xs[i].rec)
  }

  /** The enriched list holds exactly the matched recommendations, whole and in
      their original relative order; unmatched ones are dropped. */
  lemma {:induction false} EnrichKeepsMatchedInOrder(recs: seq<Recommendation>, phones: seq<PhoneRow>)
    ensures RecsOf(Enrich(recs, phones)) == Matched(recs, phones)
  {
    if recs != [] {
      var a := Attach(recs, phones);
      assert a[1..] == Attach(recs[1..], phones);
      assert a[0] == Enriched(recs[0], FindPhone(phones, recs[0].phoneId));
      var tail := Enrich(recs[1..], phones);
      EnrichKeepsMatchedInOrder(recs[1..], phones);
      if FindIndex(phones, recs[0].phoneId).Some? {
        assert Enrich(recs, phones) == [a[0]] + tail;
        RecsOfCons(a[0], tail);
      } else {
        assert Enrich(recs, phones) == tail;
      }
    }
  }

  lemma RecsOfCons(x: Enriched, xs: seq<Enriched>)
    ensures RecsOf([x] + xs) == [x.rec] + RecsOf(xs)
  {
  }

  /** Each enriched recommendation carries the first fetched phone whose id is
      its `phone_id`. */
  lemma EnrichAttachesFirstMatch(recs: seq<Recommendation>, phones: seq<PhoneRow>)
    ensures forall e :: e in Enrich(recs, phones) ==>
      && e.rec in recs
      && exists i :: 0 <= i < |phones| && e.phone == Some(phones[i]) && phones[i].id == e.rec.phoneId
                     && forall j :: 0 <= j < i ==> phones[j].id != e.rec.phoneId
  {
    var a := Attach(recs, phones);
    forall e | e in Enrich(recs, phones)
      ensures e.rec in recs
      ensures exists i :: 0 <= i < |phones| && e.phone == Some(phones[i]) && phones[i].id == e.rec.phoneId
                     && forall j :: 0 <= j < i ==> phones[j].id != e.rec.phoneId
    {
      var k :| 0 <= k < |a| && a[k] == e;
      assert e.rec == recs[k];
      var i := FindIndex(phones, e.rec.phoneId).value;
      assert e.phone == Some(phones[i]);
    }
  }

  /** `Matched` is exactly the recommendations that have a phone. */
  lemma {:induction false} MatchedMembers(recs: seq<Recommendation>, phones: seq<PhoneRow>)
    ensures forall r :: r in Matched(recs, phones) <==>
      r in recs && exists j :: 0 <= j < |phones| && phones[j].id == r.phoneId
  {
    if recs != [] {
      MatchedMembers(recs[1..], phones);
      assert recs == [recs[0]] + recs[1..];
    }
  }

  const RateLimited: string := "Rate limit exceeded. Please try again later."
  const CreditsExhausted: string := "API credits exhausted. Please add credits."
  const AiErrorPrefix: string := "AI API error: "

  /** The reply for a gateway status that is not ok. */
  function UpstreamFailure(status: nat): (r: Reply<Recommended>)
    requires !IsOk(status)
    ensures status == 429 ==> r == Reply(429, Error(RateLimited))
    ensures status == 402 ==> r == Reply(402, Error(CreditsExhausted))
    ensures status != 429 && status != 402 ==> r == Thrown(AiErrorPrefix + NatToString(status))
  {
    if status == 429 then Reply(429, Error(RateLimited))
    else if status == 402 then Reply(402, Error(CreditsExhausted))
    else Thrown(AiErrorPrefix + NatToString(status))
  }

  /** Only 429 and 402 are passed through; every other failure is a 500 whose
      message names the gateway's status, which can be read back from it. */
  lemma UpstreamFailureStatus(status: nat)
    requires !IsOk(status)
    ensures UpstreamFailure(status).status in {402, 429, 500}
    ensures UpstreamFailure(status).status == 500 ==>
      exists m :: UpstreamFailure(status).body == Error(m) && StartsWith(m, AiErrorPrefix)
               && (forall i :: |AiErrorPrefix| <= i < |m| ==> IsDigit(m[i]))
               && DigitsValue(m[|AiErrorPrefix|..]) == status
  {
    if status != 429 && status != 402 {
      var m := AiErrorPrefix + NatToString(status);
      assert m[..|AiErrorPrefix|] == AiErrorPrefix;
      assert m[|AiErrorPrefix|..] == NatToString(status);
      NatToStringRoundTrip(status);
    }
  }

  /** The handler, from the parsed request body on. The environment, the fetched
      rows, the gateway's answer and `JSON.parse` are inputs: `apiKey` says
      whether `LOVABLE_API_KEY` is set, `fetched` is `None` when the query fails. */
  method Handle(budget: Option<real>, preferences: Option<seq<string>>, apiKey: bool,
                fetched: Option<seq<PhoneRow>>, upstream: Upstream, parse: string -> Option<ModelReply>)
    returns (reply: Reply<Recommended>, effects: seq<Effect>)
    ensures !TruthyNumber(budget) ==> reply == Reply(400, Error("Budget is required")) && effects == []
    ensures TruthyNumber(budget) && !apiKey ==> reply == Thrown("LOVABLE_API_KEY is not configured") && effects == []
    ensures TruthyNumber(budget) && apiKey ==> |effects| >= 1 && effects[0] == FetchPhones
    ensures TruthyNumber(budget) && apiKey && fetched.None? ==>
      reply == Thrown("Failed to fetch phones") && effects == [FetchPhones]
    ensures TruthyNumber(budget) && apiKey && fetched == Some([]) ==>
      reply == Reply(200, Success(NoPhones([], "No phones found in your budget range"))) && effects == [FetchPhones]
    ensures forall e :: e in effects && e.CallModel? ==>
      && fetched.Some? && |fetched.value| > 0 && TruthyNumber(budget)
      && e.request == ModelRequest(budget.value, PreferencesText(preferences), Summaries(fetched.value))
    ensures |effects| == 2 ==> effects[1].CallModel?
    ensures |effects| <= 2
    ensures |effects| == 2 && !IsOk(upstream.status) ==> reply == UpstreamFailure(upstream.status)
    ensures |effects| == 2 && IsOk(upstream.status) && !TruthyText(upstream.content) ==>
      reply == Thrown("No content in AI response")
    ensures |effects| == 2 && IsOk(upstream.status) && TruthyText(upstream.content)
            && parse(Fences.StripFences(upstream.content.value)).None? ==>
      reply == Thrown("Invalid JSON response from AI")
    ensures TruthyNumber(budget) && apiKey && fetched.Some? && |fetched.value| > 0 ==> |effects| == 2
    ensures |effects| == 2 && IsOk(upstream.status) && TruthyText(upstream.content) ==>
      var parsed := parse(Fences.StripFences(upstream.content.value));
      && (parsed.Some? && parsed.value.recommendations.Some? ==>
            reply == Reply(200, Success(Ranked(Enrich(parsed.value.recommendations.value, fetched.value),
                                               parsed.value.summary))))
      && (parsed.Some? && parsed.value.recommendations.None? ==> reply == Reply(500, EngineError))
    ensures reply.status == 400 <==> !TruthyNumber(budget)
    ensures reply.status == 200 && reply.body.Success? && reply.body.value.Ranked? ==>
      && |effects| == 2 && IsOk(upstream.status) && TruthyText(upstream.content)
      && var parsed := parse(Fences.StripFences(upstream.content.value));
         && parsed.Some? && parsed.value.recommendations.Some?
         && reply.body.value == Ranked(Enrich(parsed.value.recommendations.value, fetched.value), parsed.value.summary)
    ensures reply.status in {200, 400, 402, 429, 500}
    ensures reply.status == 200 <==> reply.body.Success?
  {
    if !TruthyNumber(budget) {
      return Reply(400, Error("Budget is required")), [];
    }
    if !apiKey {
      return Thrown("LOVABLE_API_KEY is not configured"), [];
    }
    effects := [FetchPhones];
    if fetched.None? {
      return Thrown("Failed to fetch phones"), effects;
    }
    var phones := fetched.value;
    if |phones| == 0 {
      return Reply(200, Success(NoPhones([], "No phones found in your budget range"))), effects;
    }
    var summaries := Summaries(phones);
    var preferencesText := PreferencesText(preferences);
    effects := effects + [CallModel(ModelRequest(budget.value, preferencesText, summaries))];
    if !IsOk(upstream.status) {
      return UpstreamFailure(upstream.status), effects;
    }
    if !TruthyText(upstream.content) {
      return Thrown("No content in AI response"), effects;
    }
    var result := parse(Fences.StripFences(upstream.content.value));
    if result.None? {
      return Thrown("Invalid JSON response from AI"), effects;
    }
    if result.value.recommendations.None? {
      // `result.recommendations.map` on a missing array throws a TypeError
      return Reply(500, EngineError), effects;
    }
    var enriched := Enrich(result.value.recommendations.value, phones);
    reply := Reply(200, Success(Ranked(enriched, result.value.summary)));
  }
}
