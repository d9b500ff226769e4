/**
  The search gateway as the core sees it: the shape of a search response,
  the missing-API-key short cut of `search`, and the bounded text digest
  that `extract_shopping_data` makes of a response.
*/
module SerpClient {
  import opened Basics
  import opened Text

  /** A JSON number or string as Python prints it with `str`, and whether it is truthy. */
  datatype Scalar = Scalar(shown: string, truthy: bool)

  /** A rating value: how it prints, whether it is truthy, and whether
      `float(rating)` succeeds with a value of at least 4.5. */
  datatype Rating = Rating(shown: string, truthy: bool, excellent: bool)

  /** One shopping result, or a record of the offline catalogue; `None` is an absent key. */
  datatype ShoppingItem = ShoppingItem(
    title: Option<string>,
    price: Option<string>,
    source: Option<string>,
    rating: Option<Rating>,
    reviews: Option<Scalar>,
    thumbnail: Option<string>,
    productLink: Option<string>,
    link: Option<string>,
    localAvailability: Option<string>)

  datatype OrganicItem = OrganicItem(title: Option<string>, snippet: Option<string>)

  /** A search response: a map with an "error" key, or one whose
      "shopping_results" and "organic_results" keys may each be absent;
      `otherKeys` says whether any further key is present. */
  datatype SearchResponse =
    | SearchError(message: string)
    | Results(shopping: Option<seq<ShoppingItem>>, organic: Option<seq<OrganicItem>>, otherKeys: bool)

  /** What `extract_shopping_data` returns. */
  datatype Digest = Digest(text: string, images: seq<string>)

  predicate Truthy(s: Option<string>) {
    s.Some? && s.value != ""
  }

  /** `search`: without an API key no request is made and the error map is returned;
      otherwise the response is whatever the network call produced. */
  function Search(apiKey: string, network: SearchResponse): (r: SearchResponse)
    ensures apiKey == "" ==> r.SearchError? && r.message == "SERP_API_KEY not configured"
    ensures apiKey != "" ==> r == network
  {
    if apiKey == "" then SearchError("SERP_API_KEY not configured") else network
  }

  // ---------------------------------------------------------------------
  // The digest, as a specification
  // ---------------------------------------------------------------------

  const SHOPPING_LIMIT: nat := 3
  const ORGANIC_LIMIT: nat := 3
  const IMAGE_LIMIT: nat := 2
  const DEFAULT_CHAR_LIMIT: int := 1000

  /** The optional " [r stars (n reviews)]" suffix of a shopping line. */
  function RatingSuffix(item: ShoppingItem): string {
    if item.rating.Some? && item.rating.value.truthy then
      " [" + item.rating.value.shown + " stars"
      + (if item.reviews.Some? && item.reviews.value.truthy then " (" + item.reviews.value.shown + " reviews)" else "")
      + "]"
    else ""
  }

  /** "- {title} ({price}) from {merchant}" plus the rating suffix. */
  function ShoppingLine(item: ShoppingItem): string {
    "- " + item.title.GetOr("Unknown Product") + " (" + item.price.GetOr("N/A") + ") from "
    + item.source.GetOr("Unknown Seller") + RatingSuffix(item)
  }

  function OrganicLine(item: OrganicItem): string {
    "- " + item.title.GetOr("") + ": " + item.snippet.GetOr("")
  }

  function ShoppingLines(items: seq<ShoppingItem>): (r: seq<string>)
    ensures |r| == |items|
    ensures forall k :: 0 <= k < |items| ==> r[k] == ShoppingLine(items[k])
  {
    if items == [] then []
    else
      var init := items[..|items| - 1];
      assert forall k :: 0 <= k < |init| ==> init[k] == items[k];
      ShoppingLines(init) + [ShoppingLine(items[|items| - 1])]
  }

  function OrganicLines(items: seq<OrganicItem>): (r: seq<string>)
    ensures |r| == |items|
    ensures forall k :: 0 <= k < |items| ==> r[k] == OrganicLine(items[k])
  {
    if items == [] then []
    else
      var init := items[..|items| - 1];
      assert forall k :: 0 <= k < |init| ==> init[k] == items[k];
      OrganicLines(init) + [OrganicLine(items[|items| - 1])]
  }

  /** The thumbnails of the items that have a non-empty one, in order. */
  function Thumbnails(items: seq<ShoppingItem>): seq<string> {
    if items == [] then []
    else
      var last := items[|items| - 1];
      Thumbnails(items[..|items| - 1]) + (if Truthy(last.thumbnail) then [last.thumbnail.value] else [])
  }

  /** The lines of the digest: shopping results take precedence over organic ones. */
  function DigestLines(data: SearchResponse): seq<string> {
    match data
    case SearchError(_) => []
    case Results(shopping, organic, _) =>
      if shopping.Some? then ShoppingLines(PyPrefix(shopping.value, SHOPPING_LIMIT))
      else if organic.Some? then OrganicLines(PyPrefix(organic.value, ORGANIC_LIMIT))
      else []
  }

  function DigestImages(data: SearchResponse): seq<string> {
    if data.Results? && data.shopping.Some? then Thumbnails(PyPrefix(data.shopping.value, SHOPPING_LIMIT)) else []
  }

  function DigestOf(data: SearchResponse, charLimit: int): Digest {
    if data.SearchError? then Digest("", [])
    else Digest(PyPrefix(Join(DigestLines(data), "\n"), charLimit), PyPrefix(DigestImages(data), IMAGE_LIMIT))
  }

  // ---------------------------------------------------------------------
  // The digest, as the source builds it
  // ---------------------------------------------------------------------

  /** `extract_shopping_data`: walks the first three shopping (or organic)
      results, collecting one line and at most one thumbnail per item. */
  method ExtractShoppingData(data: SearchResponse, charLimit: int) returns (d: Digest)
    ensures d == DigestOf(data, charLimit)
  {
    if data.SearchError? {
      return Digest("", []);
    }
    var resultsText: seq<string> := [];
    var images: seq<string> := [];
    if data.shopping.Some? {
      var items := PyPrefix(data.shopping.value, SHOPPING_LIMIT);
      for i := 0 to |items|
        invariant resultsText == ShoppingLines(items[..i])
        invariant images == Thumbnails(items[..i])
      {
        var item := items[i];
        var title := item.title.GetOr("Unknown Product");
        var price := item.price.GetOr("N/A");
        var merchant := item.source.GetOr("Unknown Seller");
        if Truthy(item.thumbnail) {
          images := images + [item.thumbnail.value];
        }
        var entry := "- " + title + " (" + price + ") from " + merchant;
        if item.rating.Some? && item.rating.value.truthy {
          var suffix := " [" + item.rating.value.shown + " stars";
          if item.reviews.Some? && item.reviews.value.truthy {
            suffix := suffix + (" (" + item.reviews.value.shown + " reviews)");
          }
          suffix := suffix + "]";
          assert suffix == RatingSuffix(item);
          entry := entry + suffix;
        }
        assert entry == ShoppingLine(item);
        resultsText := resultsText + [entry];
        assert items[..i + 1][..i] == items[..i];
        assert ShoppingLines(items[..i + 1]) == ShoppingLines(items[..i]) + [ShoppingLine(items[i])];
        assert Thumbnails(items[..i + 1])
          == Thumbnails(items[..i]) + (if Truthy(item.thumbnail) then [item.thumbnail.value] else []);
      }
      assert items[..|items|] == items;
    } else if data.organic.Some? {
      var items := PyPrefix(data.organic.value, ORGANIC_LIMIT);
      for i := 0 to |items|
        invariant resultsText == OrganicLines(items[..i])
      {
        var item := items[i];
        resultsText := resultsText + ["- " + item.title.GetOr("") + ": " + item.snippet.GetOr("")];
        assert items[..i + 1][..i] == items[..i];
      }
      assert items[..|items|] == items;
    }
    d := Digest(PyPrefix(Join(resultsText, "\n"), charLimit), PyPrefix(images, IMAGE_LIMIT));
  }

  // ---------------------------------------------------------------------
  // Properties of the digest
  // ---------------------------------------------------------------------

  lemma {:induction false} ThumbnailsAreItemThumbnails(items: seq<ShoppingItem>)
    ensures |Thumbnails(items)| <= |items|
    ensures forall t :: t in Thumbnails(items) ==>
      t != "" && exists k :: 0 <= k < |items| && items[k].thumbnail == Some(t)
  {
    if items != [] {
      var init := items[..|items| - 1];
      ThumbnailsAreItemThumbnails(init);
      forall t | t in Thumbnails(items)
        ensures t != "" && exists k :: 0 <= k < |items| && items[k].thumbnail == Some(t)
      {
        if t in Thumbnails(init) {
          var k :| 0 <= k < |init| && init[k].thumbnail == Some(t);
          assert items[k] == init[k];
        } else {
          assert items[|items| - 1].thumbnail == Some(t);
        }
      }
    }
  }

  /** The digest text never exceeds the character limit, there are at most two
      images, and each is the non-empty thumbnail of one of the first three
      shopping results. */
  lemma DigestBounds(data: SearchResponse, charLimit: int)
    ensures charLimit >= 0 ==> |DigestOf(data, charLimit).text| <= charLimit
    ensures |DigestOf(data, charLimit).images| <= IMAGE_LIMIT
    ensures forall t :: t in DigestOf(data, charLimit).images ==>
      t != "" && data.Results? && data.shopping.Some?
      && exists k :: 0 <= k < Min(|data.shopping.value|, SHOPPING_LIMIT) && data.shopping.value[k].thumbnail == Some(t)
  {
    if data.Results? && data.shopping.Some? {
      var items := PyPrefix(data.shopping.value, SHOPPING_LIMIT);
      ThumbnailsAreItemThumbnails(items);
      forall t | t in DigestOf(data, charLimit).images
        ensures exists k :: 0 <= k < Min(|data.shopping.value|, SHOPPING_LIMIT) && data.shopping.value[k].thumbnail == Some(t)
      {
        assert t in Thumbnails(items);
        var k :| 0 <= k < |items| && items[k].thumbnail == Some(t);
        assert data.shopping.value[k] == items[k];
      }
    }
  }

  /** An error response gives an empty digest. */
  lemma ErrorGivesEmptyDigest(message: string, charLimit: int)
    ensures DigestOf(SearchError(message), charLimit) == Digest("", [])
  {
  }

  /** When shopping results are present the organic results play no part. */
  lemma ShoppingTakesPrecedence(
    shopping: seq<ShoppingItem>, o1: Option<seq<OrganicItem>>, o2: Option<seq<OrganicItem>>,
    x1: bool, x2: bool, charLimit: int)
    ensures DigestOf(Results(Some(shopping), o1, x1), charLimit) == DigestOf(Results(Some(shopping), o2, x2), charLimit)
  {
  }

  /** One line per result, for at most three results, and no images from organic results. */
  lemma DigestLineCount(data: SearchResponse)
    ensures data.Results? && data.shopping.Some? ==> |DigestLines(data)| == Min(|data.shopping.value|, SHOPPING_LIMIT)
    ensures data.Results? && data.shopping.None? && data.organic.Some? ==>
      |DigestLines(data)| == Min(|data.organic.value|, ORGANIC_LIMIT) && DigestImages(data) == []
    ensures |DigestLines(data)| <= 3
  {
  }

  /** A shopping line shows the defaults for absent keys, and a rating that
      is absent or falsy adds nothing to it. */
  lemma ShoppingLineDefaults(item: ShoppingItem)
    requires item.title.None? && item.price.None? && item.source.None?
    requires item.rating.None? || !item.rating.value.truthy
    ensures ShoppingLine(item) == "- Unknown Product (N/A) from Unknown Seller"
  {
  }
}
