/** The `generate-specs` endpoint: asks the model for a phone's specifications
    and writes twelve of them onto that phone's row. */
module GenerateSpecs {
  import opened Js
  import opened Phones
  import opened Endpoint
  import Fences
  import Text

  /** A parsed JSON object of specifications: a key that is absent is
      `undefined`, a key mapped to `None` is `null`. */
  type SpecObject = map<string, Option<string>>

  /** What `JSON.parse` produced: `null`, or an object. */
  datatype Parsed = NullValue | Object(fields: SpecObject)

  datatype Generated = Generated(specs: SpecObject, updated: bool)

  /** The body of the `update` call. `JSON.stringify` drops properties whose
      value is `undefined`, so only the twelve columns the reply actually has are
      sent; other keys of the reply are never sent. */
  function UpdatePayload(specs: SpecObject): (payload: SpecObject)
    ensures payload.Keys == specs.Keys * SpecColumnNames
    ensures forall k :: k in payload ==> payload[k] == specs[k]
  {
    map k | k in specs && k in SpecColumnNames :: specs[k]
  }

  /** The new value of one column: the payload's when it names the column. */
  function Pick(payload: SpecObject, c: SpecColumn, current: Option<string>): Option<string>
  {
    if ColumnName(c) in payload then payload[ColumnName(c)] else current
  }

  /** The row's specification columns after PostgREST applies `payload`: a
      column the payload names takes the payload's value, every other keeps its own. */
  function ApplyPayload(s: Specs, payload: SpecObject): (r: Specs)
    ensures forall c :: Column(r, c) == if ColumnName(c) in payload then payload[ColumnName(c)] else Column(s, c)
  {
    Specs(
      Pick(payload, Processor, s.processor), Pick(payload, Ram, s.ram),
      Pick(payload, Storage, s.storage), Pick(payload, Battery, s.battery),
      Pick(payload, MainCamera, s.mainCamera), Pick(payload, SelfieCamera, s.selfieCamera),
      Pick(payload, DisplaySize, s.displaySize), Pick(payload, DisplayType, s.displayType),
      Pick(payload, Os, s.os), Pick(payload, Network, s.network),
      Pick(payload, Weight, s.weight), Pick(payload, Dimensions, s.dimensions))
  }

  /** A reply that names every one of the twelve columns determines them all,
      whatever the row held before. */
  lemma FullReplyOverwritesAllColumns(s: Specs, specs: SpecObject)
    requires SpecColumnNames <= specs.Keys
    ensures forall c :: Column(ApplyPayload(s, UpdatePayload(specs)), c) == specs[ColumnName(c)]
  {
    ColumnNamesAreSpecColumnNames();
  }

  /** A column the reply does not name keeps its value. */
  lemma UnnamedColumnsKept(s: Specs, specs: SpecObject, c: SpecColumn)
    requires ColumnName(c) !in specs
    ensures Column(ApplyPayload(s, UpdatePayload(specs)), c) == Column(s, c)
  {
  }

  /** Keys outside the twelve columns never reach the row: the updated row is
      the same as for the reply without them. */
  lemma ExtraKeysNotPersisted(s: Specs, specs: SpecObject, extra: SpecObject)
    requires extra.Keys !! SpecColumnNames
    ensures ApplyPayload(s, UpdatePayload(specs + extra)) == ApplyPayload(s, UpdatePayload(specs))
  {
    var a := ApplyPayload(s, UpdatePayload(specs + extra));
    var b := ApplyPayload(s, UpdatePayload(specs));
    ColumnNamesAreSpecColumnNames();
    forall c ensures Column(a, c) == Column(b, c) {
      assert ColumnName(c) !in extra;
    }
    ColumnsDetermineSpecs(a, b);
  }

  /** Applying the same reply twice changes nothing the first did not. */
  lemma ApplyPayloadIdempotent(s: Specs, payload: SpecObject)
    ensures ApplyPayload(ApplyPayload(s, payload), payload) == ApplyPayload(s, payload)
  {
    var once := ApplyPayload(s, payload);
    ColumnsDetermineSpecs(ApplyPayload(once, payload), once);
  }

  /** The `phones` table, keyed by `id`. */
  class PhonesTable {
    var rows: map<string, PhoneRow>

    ghost predicate Valid()
      reads this
    {
      forall id :: id in rows ==> rows[id].id == id
    }

    constructor (initial: map<string, PhoneRow>)
      requires forall id :: id in initial ==> initial[id].id == id
      ensures Valid() && rows == initial
    {
      rows := initial;
    }

    /** `.from('phones').update(payload).eq('id', id)`: the row with that id, if
        there is one, gets the payload's columns; no other row and no other column
        changes. Because rows are keyed by their own id, the rows the filter
        matches are exactly the one under that key. No matching row is not an
        error. */
    method Update(id: string, payload: SpecObject)
      requires Valid()
      modifies this
      ensures Valid()
      ensures id in old(rows) ==>
        rows == old(rows)[id := old(rows)[id].(specs := ApplyPayload(old(rows)[id].specs, payload))]
      ensures id !in old(rows) ==> rows == old(rows)
      ensures rows.Keys == old(rows).Keys
      ensures forall k :: k in old(rows) ==>
        rows[k] == if old(rows)[k].id == id
                   then old(rows)[k].(specs := ApplyPayload(old(rows)[k].specs, payload))
                   else old(rows)[k]
    {
      if id in rows {
        var row := rows[id];
        rows := rows[id := row.(specs := ApplyPayload(row.specs, payload))];
      }
    }
  }

  /** The handler, from the parsed request body on. `apiKey` says whether
      `GROQ_API_KEY` is set; `updateFails` is the database's answer to the update. */
  method Handle(table: PhonesTable, phoneName: Option<string>, phoneId: Option<string>, apiKey: bool,
                upstream: Upstream, parse: string -> Option<Parsed>, updateFails: bool)
    returns (reply: Reply<Generated>)
    requires table.Valid()
    modifies table
    ensures table.Valid()
    ensures !TruthyText(phoneName) || !TruthyText(phoneId) ==>
      reply == Reply(400, Error("Phone name and ID are required")) && table.rows == old(table.rows)
    ensures TruthyText(phoneName) && TruthyText(phoneId) && !apiKey ==>
      reply == Thrown("GROQ_API_KEY is not configured")
    ensures TruthyText(phoneName) && TruthyText(phoneId) && apiKey && !IsOk(upstream.status) ==>
      reply == Thrown("GROQ API error: " + Text.NatToString(upstream.status))
    ensures TruthyText(phoneName) && TruthyText(phoneId) && apiKey && IsOk(upstream.status)
            && !TruthyText(upstream.content) ==>
      reply == Thrown("No content in GROQ response")
    ensures TruthyText(phoneName) && TruthyText(phoneId) && apiKey && IsOk(upstream.status)
            && TruthyText(upstream.content) && parse(Fences.StripFences(upstream.content.value)).None? ==>
      reply == Thrown("Invalid JSON response from GROQ")
    ensures TruthyText(phoneName) && TruthyText(phoneId) && apiKey && IsOk(upstream.status)
            && TruthyText(upstream.content) ==>
      var parsed := parse(Fences.StripFences(upstream.content.value));
      && (parsed == Some(NullValue) ==> reply == Reply(500, EngineError))
      && (parsed.Some? && parsed.value.Object? && updateFails ==>
            reply == Thrown("Failed to update phone specs in database"))
      && (parsed.Some? && parsed.value.Object? && !updateFails ==>
            reply == Reply(200, Success(Generated(parsed.value.fields, true))))
    ensures reply.status == 400 <==> !TruthyText(phoneName) || !TruthyText(phoneId)
    ensures reply.status == 200 ==>
      && TruthyText(phoneId) && TruthyText(upstream.content) && !updateFails
      && var parsed := parse(Fences.StripFences(upstream.content.value));
         && parsed.Some? && parsed.value.Object?
         && reply.body == Success(Generated(parsed.value.fields, true))
         && var id := phoneId.value;
            && (id in old(table.rows) ==> table.rows == old(table.rows)[id :=
                  old(table.rows)[id].(specs := ApplyPayload(old(table.rows)[id].specs, UpdatePayload(parsed.value.fields)))])
            && (id !in old(table.rows) ==> table.rows == old(table.rows))
    ensures reply.status != 200 ==> table.rows == old(table.rows)
    ensures reply.status in {200, 400, 500}
  {
    if !TruthyText(phoneName) || !TruthyText(phoneId) {
      return Reply(400, Error("Phone name and ID are required"));
    }
    if !apiKey {
      return Thrown("GROQ_API_KEY is not configured");
    }
    if !IsOk(upstream.status) {
      return Thrown("GROQ API error: " + Text.NatToString(upstream.status));
    }
    if !TruthyText(upstream.content) {
      return Thrown("No content in GROQ response");
    }
    var specs := parse(Fences.StripFences(upstream.content.value));
    if specs.None? {
      return Thrown("Invalid JSON response from GROQ");
    }
    if specs.value.NullValue? {
      // reading `specs.processor` of `null` throws a TypeError
      return Reply(500, EngineError);
    }
    if updateFails {
      return Thrown("Failed to update phone specs in database");
    }
    table.Update(phoneId.value, UpdatePayload(specs.value.fields));
    reply := Reply(200, Success(Generated(specs.value.fields, true)));
  }
}
