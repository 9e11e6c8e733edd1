/** The `generate-review` endpoint: renders the phone's data as a block of
    "Label: value" lines, sends it to the model and returns the parsed review. */
module GenerateReview {
  import opened Js
  import opened Text
  import opened Phones
  import opened Endpoint
  import Fences

  /** The label of a specification column in the block. */
  function SpecLabel(c: SpecColumn): string
  {
    match c
    case Processor => "Processor"
    case Ram => "RAM"
    case Storage => "Storage"
    case Battery => "Battery"
    case MainCamera => "Main Camera"
    case SelfieCamera => "Selfie Camera"
    case DisplaySize => "Display Size"
    case DisplayType => "Display Type"
    case Os => "OS"
    case Network => "Network"
    case Weight => "Weight"
    case Dimensions => "Dimensions"
  }

  /** The order of the specification lines in the block. */
  const BlockColumns: seq<SpecColumn> := [
    Processor, Ram, Storage, Battery, MainCamera, SelfieCamera,
    DisplaySize, DisplayType, Os, Network, Weight, Dimensions]

  /** `Label: ${value || 'Unknown'}` */
  function SpecLine(p: PhoneRow, c: SpecColumn): string
  {
    SpecLabel(c) + ": " + TextOr(Column(p.specs, c), "Unknown")
  }

  /** The price line; `show` renders a JavaScript number as text. */
  function PriceLine(p: PhoneRow, show: real -> string): string
  {
    "Price: Rs. " + show(p.currentPrice)
      + (if TruthyNumber(p.originalPrice) then " (Original: Rs. " + show(p.originalPrice.value) + ")" else "")
  }

  function DiscountLine(p: PhoneRow, show: real -> string): string
  {
    if TruthyText(p.discount) then "Discount: " + p.discount.value else ""
  }

  function RatingLine(p: PhoneRow, show: real -> string): string
  {
    "Rating: " + (if TruthyNumber(p.rating) then show(p.rating.value) else "N/A")
  }

  /** The first four lines of the template. */
  function HeadLines(p: PhoneRow, show: real -> string): seq<string>
  {
    ["Phone: " + p.name, PriceLine(p, show), DiscountLine(p, show), RatingLine(p, show)]
  }

  /** The twelve specification lines of the template. */
  function SpecLines(p: PhoneRow): seq<string>
  {
    seq(|BlockColumns|, i requires 0 <= i < |BlockColumns| => SpecLine(p, BlockColumns[i]))
  }

  /** The lines of the template, in order. */
  function BlockLines(p: PhoneRow, show: real -> string): seq<string>
  {
    HeadLines(p, show) + SpecLines(p)
  }

  /** `phoneSpecs`: the template, which opens with a newline and closes with a
      newline and the closing line's indentation, trimmed as a whole. */
  function SpecBlock(p: PhoneRow, show: real -> string): (r: string)
    ensures r == Trim(Join(BlockLines(p, show), "\n"))
  {
    var joined := Join(BlockLines(p, show), "\n");
    assert AllWhitespace("\n") && AllWhitespace("\n    ");
    TrimIgnoresPadding("\n", joined, "\n    ");
    Trim("\n" + joined + "\n    ")
  }

  /** No text that goes into the block holds a line break. */
  predicate SingleLineFields(p: PhoneRow, show: real -> string)
  {
    && '\n' !in p.name
    && '\n' !in show(p.currentPrice)
    && (p.originalPrice.Some? ==> '\n' !in show(p.originalPrice.value))
    && (p.discount.Some? ==> '\n' !in p.discount.value)
    && (p.rating.Some? ==> '\n' !in show(p.rating.value))
    && forall c :: Column(p.specs, c).Some? ==> '\n' !in Column(p.specs, c).value
  }

  lemma SpecLineSingle(p: PhoneRow, c: SpecColumn)
    requires Column(p.specs, c).Some? ==> '\n' !in Column(p.specs, c).value
    ensures '\n' !in SpecLine(p, c)
  {
    assert '\n' !in SpecLabel(c) by {
      match c
      case Processor => case Ram => case Storage => case Battery =>
      case MainCamera => case SelfieCamera => case DisplaySize =>
      case DisplayType => case Os => case Network => case Weight =>
      case Dimensions =>
    }
    assert '\n' !in TextOr(Column(p.specs, c), "Unknown");
  }

  /** No line of the template holds a line break when no value does. */
  lemma BlockLinesSingle(p: PhoneRow, show: real -> string)
    requires SingleLineFields(p, show)
    ensures forall k :: 0 <= k < |BlockLines(p, show)| ==> '\n' !in BlockLines(p, show)[k]
  {
    var head := HeadLines(p, show);
    var spec := SpecLines(p);
    assert '\n' !in PriceLine(p, show);
    assert '\n' !in DiscountLine(p, show);
    assert '\n' !in RatingLine(p, show);
    forall k | 0 <= k < |spec| ensures '\n' !in spec[k] {
      SpecLineSingle(p, BlockColumns[k]);
    }
    assert BlockLines(p, show) == head + spec;
  }

  /** Splitting the block on line breaks gives the template's lines, as long
      as no value holds a line break and the dimensions do not end in
      whitespace, which the trim would cut. */
  lemma BlockSplitsIntoLines(p: PhoneRow, show: real -> string)
    requires SingleLineFields(p, show)
    requires var d := TextOr(p.specs.dimensions, "Unknown"); !IsWhitespace(d[|d| - 1])
    ensures Split(SpecBlock(p, show), '\n') == BlockLines(p, show)
  {
    var lines := BlockLines(p, show);
    var joined := Join(lines, "\n");
    assert !IsWhitespace(joined[0]) && !IsWhitespace(joined[|joined| - 1]) by {
      JoinFirst(lines, "\n");
      JoinLast(lines, "\n");
      var d := TextOr(p.specs.dimensions, "Unknown");
      var last := lines[|lines| - 1];
      assert last == "Dimensions: " + d;
      assert last[|last| - 1] == d[|d| - 1];
    }
    calc {
      Split(SpecBlock(p, show), '\n');
      Split(Trim(joined), '\n');
      { TrimNoop(joined); }
      Split(joined, '\n');
      { BlockLinesSingle(p, show); SplitJoin(lines, '\n'); }
      lines;
    }
  }

  /** What each line of the template says. */
  predicate SaysFields(lines: seq<string>, p: PhoneRow, show: real -> string)
  {
    && |lines| == 4 + |BlockColumns|
    && lines[0] == "Phone: " + p.name
    && (TruthyNumber(p.originalPrice) ==>
          lines[1] == "Price: Rs. " + show(p.currentPrice) + " (Original: Rs. " + show(p.originalPrice.value) + ")")
    && (!TruthyNumber(p.originalPrice) ==> lines[1] == "Price: Rs. " + show(p.currentPrice))
    && lines[2] == (if TruthyText(p.discount) then "Discount: " + p.discount.value else "")
    && lines[3] == "Rating: " + (if TruthyNumber(p.rating) then show(p.rating.value) else "N/A")
    && forall i :: 0 <= i < |BlockColumns| ==>
         lines[4 + i] == SpecLabel(BlockColumns[i]) + ": "
           + (if TruthyText(Column(p.specs, BlockColumns[i])) then Column(p.specs, BlockColumns[i]).value else "Unknown")
  }

  lemma BlockLinesSayFields(p: PhoneRow, show: real -> string)
    ensures SaysFields(BlockLines(p, show), p, show)
  {
    var lines := BlockLines(p, show);
    forall i | 0 <= i < |BlockColumns|
      ensures lines[4 + i] == SpecLabel(BlockColumns[i]) + ": "
        + (if TruthyText(Column(p.specs, BlockColumns[i])) then Column(p.specs, BlockColumns[i]).value else "Unknown")
    {
      assert lines[4 + i] == SpecLines(p)[i];
    }
  }

  /** Reading the block back line by line gives, in order: the name; the price,
      with the original price exactly when it is truthy; the discount or an
      empty line; the rating or "N/A"; and every specification column's own
      value or "Unknown". */
  lemma SpecBlockReadsBack(p: PhoneRow, show: real -> string)
    requires SingleLineFields(p, show)
    requires var d := TextOr(p.specs.dimensions, "Unknown"); !IsWhitespace(d[|d| - 1])
    ensures SaysFields(Split(SpecBlock(p, show), '\n'), p, show)
  {
    BlockSplitsIntoLines(p, show);
    BlockLinesSayFields(p, show);
  }

  /** The request sent to the model gateway: the prompt's phone block. */
  datatype Effect = CallModel(specBlock: string)

  /** `{ review }` */
  datatype Wrapped<+J> = Wrapped(review: J)

  datatype Exchange<+J> = Exchange(reply: Reply<Wrapped<J>>, effects: seq<Effect>)

  /** The handler, from the parsed request body on; `J` is whatever `JSON.parse`
      yields, and `apiKey` says whether `GROQ_API_KEY` is set. */
  function Handle<J>(phone: Option<PhoneRow>, apiKey: bool, upstream: Upstream,
                     parse: string -> Option<J>, show: real -> string): (x: Exchange<J>)
    ensures phone.None? ==> x.reply == Reply(400, Error("Phone data is required")) && x.effects == []
    ensures phone.Some? && !apiKey ==> x.reply == Thrown("GROQ_API_KEY is not configured") && x.effects == []
    ensures phone.Some? && apiKey ==> x.effects == [CallModel(SpecBlock(phone.value, show))]
    ensures phone.Some? && apiKey && !IsOk(upstream.status) ==>
      x.reply == Thrown("GROQ API error: " + NatToString(upstream.status))
    ensures phone.Some? && apiKey && IsOk(upstream.status) && !TruthyText(upstream.content) ==>
      x.reply == Thrown("No content in GROQ response")
    ensures phone.Some? && apiKey && IsOk(upstream.status) && TruthyText(upstream.content)
            && parse(Fences.StripFences(upstream.content.value)).None? ==>
      x.reply == Thrown("Invalid JSON response from GROQ")
    ensures x.reply.status == 400 <==> phone.None?
    ensures x.reply.status == 200 <==>
      && phone.Some? && apiKey && IsOk(upstream.status) && TruthyText(upstream.content)
      && parse(Fences.StripFences(upstream.content.value)).Some?
    ensures x.reply.status == 200 ==>
      x.reply.body == Success(Wrapped(parse(Fences.StripFences(upstream.content.value)).value))
    ensures x.reply.status in {200, 400, 500}
  {
    if phone.None? then Exchange(Reply(400, Error("Phone data is required")), [])
    else if !apiKey then Exchange(Thrown("GROQ_API_KEY is not configured"), [])
    else
      var effects := [CallModel(SpecBlock(phone.value, show))];
      if !IsOk(upstream.status) then Exchange(Thrown("GROQ API error: " + NatToString(upstream.status)), effects)
      else if !TruthyText(upstream.content) then Exchange(Thrown("No content in GROQ response"), effects)
      else match parse(Fences.StripFences(upstream.content.value))
        case None => Exchange(Thrown("Invalid JSON response from GROQ"), effects)
        case Some(review) => Exchange(Reply(200, Success(Wrapped(review))), effects)
  }
}
