/** The page head: the values written into the meta and link tags, and the
    schema.org JSON-LD object describing the page. */
module SeoHead {
  import opened Js
  import opened Text

  const SiteUrl: string := "https://phone-insights-x.vercel.app"
  const DefaultImage: string := "https://phone-insights-x.vercel.app/og-image.png"

  /** The phone a product page describes. */
  datatype SeoPhone = SeoPhone(name: string, price: real, image: Option<string>,
                               rating: Option<real>, brand: Option<string>)

  datatype PageType = Website | Product

  /** The component's properties; `None` is an omitted property. */
  datatype Props = Props(title: string, description: string, canonical: Option<string>,
                         image: Option<string>, pageType: Option<PageType>, phone: Option<SeoPhone>)

  /** A default parameter applies only when the property is omitted. */
  function PageImage(p: Props): (image: string)
    ensures p.image.None? ==> image == DefaultImage
    ensures p.image.Some? ==> image == p.image.value
  {
    if p.image.None? then DefaultImage else p.image.value
  }

  function TypeName(p: Props): string
  {
    match p.pageType
    case None => "website"
    case Some(Website) => "website"
    case Some(Product) => "product"
  }

  /** `canonical || siteUrl` */
  function CurrentUrl(canonical: Option<string>): (url: string)
    ensures TruthyText(canonical) ==> url == canonical.value
    ensures !TruthyText(canonical) ==> url == SiteUrl
  {
    TextOr(canonical, SiteUrl)
  }

  /** `value` is written into the tag `name`. */
  predicate Writes(m: seq<(string, string)>, name: string, value: string) {
    exists i :: 0 <= i < |m| && m[i].0 == name && m[i].1 == value
  }

  /** The tags `updateMeta` fills in, as (tag, value) pairs in order: each tag
      once, the descriptions and title from the properties, the type and image
      with their defaults, and the current URL in the canonical link and
      `og:url`. */
  function MetaValues(p: Props): (m: seq<(string, string)>)
    ensures |m| == 7
    ensures forall i, j :: 0 <= i < j < |m| ==> m[i].0 != m[j].0
    ensures Writes(m, "description", p.description) && Writes(m, "og:description", p.description)
    ensures Writes(m, "og:title", p.title)
    ensures Writes(m, "og:type", TypeName(p))
    ensures Writes(m, "og:image", PageImage(p))
    ensures Writes(m, "canonical", CurrentUrl(p.canonical)) && Writes(m, "og:url", CurrentUrl(p.canonical))
  {
    var m := [ ("description", p.description), ("og:title", p.title), ("og:description", p.description),
      ("og:type", TypeName(p)), ("og:image", PageImage(p)),
      ("canonical", CurrentUrl(p.canonical)), ("og:url", CurrentUrl(p.canonical)) ];
    assert m[0].0 == "description" && m[1].0 == "og:title" && m[2].0 == "og:description";
    assert m[3].0 == "og:type" && m[4].0 == "og:image" && m[5].0 == "canonical" && m[6].0 == "og:url";
    m
  }

  /** Each tag carries one value, so what `Writes` names is what the tag holds. */
  lemma WritesOnce(m: seq<(string, string)>, name: string, v: string, w: string)
    requires forall i, j :: 0 <= i < j < |m| ==> m[i].0 != m[j].0
    requires Writes(m, name, v) && Writes(m, name, w)
    ensures v == w
  {
  }

  /** Omitted properties fall back to their defaults in the head: the type to
      "website", the image to the site's OG image, the address to the site root. */
  lemma MetaDefaults(p: Props)
    ensures p.pageType.None? ==> Writes(MetaValues(p), "og:type", "website")
    ensures p.pageType == Some(Product) ==> Writes(MetaValues(p), "og:type", "product")
    ensures p.image.None? ==> Writes(MetaValues(p), "og:image", DefaultImage)
    ensures !TruthyText(p.canonical) ==> Writes(MetaValues(p), "canonical", SiteUrl)
  {
  }

  /** The canonical link and `og:url` agree, and both fall back to the site root. */
  lemma CanonicalAndOgUrlAgree(p: Props)
    ensures var m := MetaValues(p);
      && m[5].0 == "canonical" && m[6].0 == "og:url" && m[5].1 == m[6].1
      && (TruthyText(p.canonical) ==> m[5].1 == p.canonical.value)
      && (!TruthyText(p.canonical) ==> m[5].1 == SiteUrl)
  {
  }

  datatype Offer = Offer(priceCurrency: string, price: real, availability: string, url: string)

  datatype AggregateRating = AggregateRating(ratingValue: real, reviewCount: nat)

  /** The JSON-LD object. */
  datatype Schema =
    | ProductSchema(name: string, description: string, image: string, brandName: string,
                    offers: Offer, aggregateRating: Option<AggregateRating>)
    | WebSiteSchema(siteName: string, url: string, siteDescription: string,
                    target: string, queryInput: string)

  /** `phone.brand || phone.name.split(" ")[0]` */
  function BrandName(phone: SeoPhone): (b: string)
    ensures TruthyText(phone.brand) ==> b == phone.brand.value
    ensures !TruthyText(phone.brand) ==> b == phone.name[..IndexOf(phone.name, ' ')]
  {
    SplitFirst(phone.name, ' ');
    TextOr(phone.brand, Split(phone.name, ' ')[0])
  }

  /** A brand read from the name is the name's first word. */
  lemma BrandFromNameIsFirstWord(phone: SeoPhone)
    requires !TruthyText(phone.brand)
    ensures StartsWith(phone.name, BrandName(phone)) && ' ' !in BrandName(phone)
    ensures |BrandName(phone)| < |phone.name| ==> phone.name[|BrandName(phone)|] == ' '
  {
  }

  /** `schemaData` */
  function SchemaData(p: Props): (s: Schema)
    ensures s.ProductSchema? <==> p.phone.Some?
  {
    match p.phone
    case Some(phone) =>
      ProductSchema(phone.name, p.description, TextOr(phone.image, PageImage(p)), BrandName(phone),
                    Offer("PKR", phone.price, "https://schema.org/InStock", CurrentUrl(p.canonical)),
                    if TruthyNumber(phone.rating) then Some(AggregateRating(phone.rating.value, 85)) else None)
    case None =>
      WebSiteSchema("Phone Insights", SiteUrl, "Compare 416+ mobile specs and prices in Pakistan",
                    SiteUrl + "/?search={search_term_string}", "required name=search_term_string")
  }

  /** A product page names the phone, its brand as `BrandName` gives it, and the
      page's description. It offers the phone at its price in rupees at the page's own
      address; it is rated exactly when the phone has a truthy rating, always
      with 85 reviews; and its image is the phone's, if truthy, else the page's. */
  lemma ProductSchemaFields(p: Props)
    requires p.phone.Some?
    ensures var s := SchemaData(p); var phone := p.phone.value;
      && s.name == phone.name && s.description == p.description && s.brandName == BrandName(phone)
      && s.offers.priceCurrency == "PKR" && s.offers.price == phone.price
      && s.offers.url == CurrentUrl(p.canonical) == MetaValues(p)[6].1
      && (s.aggregateRating.Some? <==> TruthyNumber(phone.rating))
      && (s.aggregateRating.Some? ==> s.aggregateRating.value == AggregateRating(phone.rating.value, 85))
      && (TruthyText(phone.image) ==> s.image == phone.image.value)
      && (!TruthyText(phone.image) ==> s.image == PageImage(p))
      && (!TruthyText(phone.image) && p.image.None? ==> s.image == DefaultImage)
      && (!TruthyText(phone.image) && p.image.Some? ==> s.image == p.image.value)
  {
  }

  /** Without a phone the page describes the site and its search. */
  lemma WebSiteSchemaFields(p: Props)
    requires p.phone.None?
    ensures var s := SchemaData(p);
      && s.WebSiteSchema? && s.url == SiteUrl
      && s.target == SiteUrl + "/?search={search_term_string}"
      && s.queryInput == "required name=search_term_string"
  {
  }
}
