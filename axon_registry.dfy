/**
  The nudge resolver ("AXON registry"). From an intent analysis it builds a
  shopping query, takes the first shopping result the search gateway returns
  (or a record of a small offline catalogue when the gateway reports an
  error), scores its relevance to the intent, and phrases the nudge sentence
  with a percent-encoded Markdown link. The search response is an input.
*/
module AxonRegistry {
  import opened Basics
  import opened Text
  import opened Models
  import SerpClient

  type ShoppingItem = SerpClient.ShoppingItem

  /** Number of entities that make up the search query. */
  const ENTITY_LIMIT: int := 3

  const TUTORING_MODIFIER: string := " online course tutoring"
  const BEST_BUY_MODIFIER: string := " best buy"

  /** Relevance in hundredths: the base and the boosts. */
  const BASE_RELEVANCE: int := 60
  const INTENT_BOOST: int := 15
  const HIGH_STRUGGLE_BOOST: int := 15
  const MODERATE_STRUGGLE_BOOST: int := 10

  // ---------------------------------------------------------------------
  // Specification
  // ---------------------------------------------------------------------

  /** The modifier appended to the query: tutoring for an educational intent or
      high struggle, "best buy" for moderate struggle otherwise. */
  function QueryModifier(bucket: IntentBucket, struggle: StruggleState): string {
    if bucket == Educational || struggle == High then TUTORING_MODIFIER
    else if struggle == Moderate then BEST_BUY_MODIFIER
    else ""
  }

  /** The search query: the first three entities joined by spaces, then the modifier. */
  function SearchQuery(a: IntentAnalysis): string {
    Join(PyPrefix(a.detectedEntities, ENTITY_LIMIT), " ") + QueryModifier(a.intentBucket, a.struggleState)
  }

  /** Relevance in hundredths: 0.60, plus 0.15 for a commercial or transactional
      intent, plus 0.15 for high or 0.10 for moderate struggle, capped at 1.00. */
  function Relevance(bucket: IntentBucket, struggle: StruggleState): int {
    Min(BASE_RELEVANCE
      + (if IsCommercialOrTransactional(bucket) then INTENT_BOOST else 0)
      + (if struggle == High then HIGH_STRUGGLE_BOOST else if struggle == Moderate then MODERATE_STRUGGLE_BOOST else 0),
      100)
  }

  /** The link of a result: its product link when that is non-empty, else its plain link. */
  function ResultLink(item: ShoppingItem): Option<string> {
    if SerpClient.Truthy(item.productLink) then item.productLink else item.link
  }

  const HIGH_PREFIX: string := "By the way, since you're working through this"
  const MODERATE_PREFIX: string := "If you'd like a little help"
  const PLAIN_PREFIX: string := "You might also find this useful"
  const EXCELLENT_REVIEWS: string := " has excellent reviews ("
  const STAR: string := "\U{2605})"

  function StrugglePrefix(struggle: StruggleState): string {
    match struggle
    case High => HIGH_PREFIX
    case Moderate => MODERATE_PREFIX
    case _ => PLAIN_PREFIX
  }

  /** The product reference: bold, and a Markdown link to the quoted URL when there is one. */
  function ProductRef(title: string, link: Option<string>): string {
    if SerpClient.Truthy(link) then "[**" + title + "**](" + Quote(link.value) + ")" else "**" + title + "**"
  }

  /** "<prefix>, <product> from <source>". */
  function Opening(item: ShoppingItem, struggle: StruggleState, link: Option<string>): string {
    StrugglePrefix(struggle) + ", " + ProductRef(item.title.GetOr("this product"), link) + " from " + item.source.GetOr("online")
  }

  function PriceClause(item: ShoppingItem): string {
    if SerpClient.Truthy(item.price) then " (" + item.price.value + ")" else ""
  }

  function RatingClause(item: ShoppingItem): string {
    if item.rating.Some? && item.rating.value.excellent then EXCELLENT_REVIEWS + item.rating.value.shown + STAR else ""
  }

  function Closing(item: ShoppingItem): string {
    if SerpClient.Truthy(item.localAvailability) then ". " + item.localAvailability.value + "." else "."
  }

  /** The nudge sentence for a result. */
  function NudgeText(item: ShoppingItem, struggle: StruggleState, link: Option<string>): string {
    Opening(item, struggle, link) + PriceClause(item) + RatingClause(item) + Closing(item)
  }

  /** The nudge a result makes for an analysis. */
  function NudgeFrom(item: ShoppingItem, a: IntentAnalysis): Result<Nudge, ValidationError> {
    var link := ResultLink(item);
    NewNudge(item.title.GetOr("Recommended Product"), item.source.GetOr("Online Retailer"),
      Relevance(a.intentBucket, a.struggleState), NudgeText(item, a.struggleState, link), link,
      Some("Check it out at " + item.source.GetOr("the store")), Some(item.localAvailability.GetOr("")))
  }

  function Found(r: Result<Nudge, ValidationError>): Option<Nudge> {
    if r.Success? then Some(r.value) else None
  }

  /** The nudge found for an analysis, given the API key and the response the
      network would give: the catalogue on an error or an empty response, the
      first shopping result otherwise, and nothing without entities or results. */
  function NudgeFor(a: IntentAnalysis, apiKey: string, network: SerpClient.SearchResponse): Option<Nudge> {
    if a.detectedEntities == [] then None
    else
      var query := SearchQuery(a);
      match SerpClient.Search(apiKey, network)
      case SearchError(_) => Found(NudgeFrom(MockResult(query), a))
      case Results(shopping, organic, otherKeys) =>
        if shopping.None? && organic.None? && !otherKeys then Found(NudgeFrom(MockResult(query), a))
        else if shopping.Some? && |shopping.value| > 0 then Found(NudgeFrom(shopping.value[0], a))
        else None
  }

  // ---------------------------------------------------------------------
  // The offline catalogue
  // ---------------------------------------------------------------------

  const PLUMBING_WORDS: seq<string> := ["faucet", "plumbing", "wrench", "pipe", "repair"]
  const TUTORING_WORDS: seq<string> := ["calculus", "math", "tutoring", "study"]
  const LAPTOP_WORDS: seq<string> := ["laptop", "computer", "macbook", "coding"]

  const DELTA_LINK: string := "https://www.homedepot.com/b/Plumbing/Delta/N-5yc1vZbqewZ1z0v"
  const BRILLIANT_LINK: string := "https://brilliant.org/courses/calculus-done-right/"
  const MACBOOK_LINK: string := "https://www.apple.com/macbook-air/"
  const GENERIC_LINK: string := "https://www.amazon.com/s?k={query}"

  const DELTA_TITLE: string := "Delta Faucet Repair Kit - Complete Set"

  const DELTA_KIT: ShoppingItem := SerpClient.ShoppingItem(
    Some(DELTA_TITLE), Some("$24.99"), Some("Home Depot"),
    Some(SerpClient.Rating("4.7", true, true)), None, None, None, Some(DELTA_LINK), Some("In stock at nearby store"))

  const BRILLIANT_PREMIUM: ShoppingItem := SerpClient.ShoppingItem(
    Some("Brilliant.org Premium - Learn Calculus Interactively"), Some("$12.99/mo"), Some("Brilliant"),
    Some(SerpClient.Rating("4.9", true, true)), None, None, None, Some(BRILLIANT_LINK), Some(""))

  const MACBOOK_AIR: ShoppingItem := SerpClient.ShoppingItem(
    Some("MacBook Air M3 - 15 inch"), Some("$1,299"), Some("Apple Store"),
    Some(SerpClient.Rating("4.8", true, true)), None, None, None, Some(MACBOOK_LINK), Some("Available for pickup today"))

  /** The generic record; its link keeps the placeholder `{query}` as it stands. */
  function GenericResult(query: string): ShoppingItem {
    SerpClient.ShoppingItem(
      Some("Top Rated " + Title(query) + " Solution"), Some("$29.99"), Some("Amazon"),
      Some(SerpClient.Rating("4.5", true, true)), None, None, None, Some(GENERIC_LINK), Some("Prime delivery available"))
  }

  predicate MentionsAny(text: string, words: seq<string>) {
    exists w :: w in words && Contains(text, w)
  }

  /** `_get_mock_result`: the first catalogue entry whose keywords occur in the
      lower-cased query, else the generic record. */
  function MockResult(query: string): ShoppingItem {
    var low := Lower(query);
    if MentionsAny(low, PLUMBING_WORDS) then DELTA_KIT
    else if MentionsAny(low, TUTORING_WORDS) then BRILLIANT_PREMIUM
    else if MentionsAny(low, LAPTOP_WORDS) then MACBOOK_AIR
    else GenericResult(query)
  }

  // ---------------------------------------------------------------------
  // The resolver as the source runs it
  // ---------------------------------------------------------------------

  /** `_generate_nudge_text`: the sentence grows clause by clause. */
  method GenerateNudgeText(item: ShoppingItem, a: IntentAnalysis, link: Option<string>) returns (nudge: string)
    ensures nudge == NudgeText(item, a.struggleState, link)
  {
    var product := item.title.GetOr("this product");
    if SerpClient.Truthy(link) {
      var safeLink := Quote(link.value);
      product := "[**" + product + "**](" + safeLink + ")";
    } else {
      product := "**" + product + "**";
    }
    assert product == ProductRef(item.title.GetOr("this product"), link);
    var source := item.source.GetOr("online");
    var price := item.price.GetOr("");
    var local := item.localAvailability.GetOr("");
    var prefix: string;
    if a.struggleState == High {
      prefix := HIGH_PREFIX;
    } else if a.struggleState == Moderate {
      prefix := MODERATE_PREFIX;
    } else {
      prefix := PLAIN_PREFIX;
    }
    assert prefix == StrugglePrefix(a.struggleState);
    nudge := prefix + ", " + product + " from " + source;
    assert nudge == Opening(item, a.struggleState, link);
    if price != "" {
      nudge := nudge + (" (" + price + ")");
    }
    assert nudge == Opening(item, a.struggleState, link) + PriceClause(item);
    if item.rating.Some? && item.rating.value.excellent {
      nudge := nudge + (EXCELLENT_REVIEWS + item.rating.value.shown + STAR);
    }
    assert nudge == Opening(item, a.struggleState, link) + PriceClause(item) + RatingClause(item);
    if local != "" {
      nudge := nudge + (". " + local + ".");
    } else {
      nudge := nudge + ".";
    }
  }

  /** `_create_nudge`: relevance accumulates boost by boost. */
  method CreateNudge(item: ShoppingItem, a: IntentAnalysis) returns (r: Result<Nudge, ValidationError>)
    ensures r == NudgeFrom(item, a)
  {
    var baseRelevance := BASE_RELEVANCE;
    if IsCommercialOrTransactional(a.intentBucket) {
      baseRelevance := baseRelevance + INTENT_BOOST;
    }
    if a.struggleState == High {
      baseRelevance := baseRelevance + HIGH_STRUGGLE_BOOST;
    } else if a.struggleState == Moderate {
      baseRelevance := baseRelevance + MODERATE_STRUGGLE_BOOST;
    }
    var relevance := Min(baseRelevance, 100);
    var link := if SerpClient.Truthy(item.productLink) then item.productLink else item.link;
    var nudgeText := GenerateNudgeText(item, a, link);
    r := NewNudge(item.title.GetOr("Recommended Product"), item.source.GetOr("Online Retailer"), relevance,
      nudgeText, link, Some("Check it out at " + item.source.GetOr("the store")), Some(item.localAvailability.GetOr("")));
  }

  /** `find_nudge`, with the API key and the response the network gives for the query. */
  method FindNudge(a: IntentAnalysis, apiKey: string, network: SerpClient.SearchResponse) returns (r: Option<Nudge>)
    ensures r == NudgeFor(a, apiKey, network)
  {
    if a.detectedEntities == [] {
      return None;
    }
    var query := Join(PyPrefix(a.detectedEntities, ENTITY_LIMIT), " ");
    if a.intentBucket == Educational || a.struggleState == High {
      query := query + TUTORING_MODIFIER;
    } else if a.struggleState == Moderate || a.struggleState == High {
      query := query + BEST_BUY_MODIFIER;
    }
    assert query == SearchQuery(a);
    var data := SerpClient.Search(apiKey, network);
    var built: Result<Nudge, ValidationError>;
    if data.SearchError? || (data.shopping.None? && data.organic.None? && !data.otherKeys) {
      built := CreateNudge(MockResult(query), a);
    } else if data.shopping.Some? && |data.shopping.value| > 0 {
      built := CreateNudge(data.shopping.value[0], a);
    } else {
      return None;
    }
    r := Found(built);
  }
}
