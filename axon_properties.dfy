/**
  What the nudge resolver promises: the relevance values it can produce, that
  a nudge it builds always passes validation, the shape of the nudge
  sentence and of its Markdown link, which result is chosen, and how the
  offline catalogue routes a query.
*/
module AxonProperties {
  import opened Basics
  import opened Text
  import opened Models
  import Config
  import SerpClient
  import opened AxonRegistry

  // ---------------------------------------------------------------------
  // The search query
  // ---------------------------------------------------------------------

  /** "best buy" is added only for moderate struggle outside an educational
      intent; high struggle always gets the tutoring modifier instead. */
  lemma ModifierCases(bucket: IntentBucket, struggle: StruggleState)
    ensures QueryModifier(bucket, struggle) == BEST_BUY_MODIFIER <==> bucket != Educational && struggle == Moderate
    ensures QueryModifier(bucket, struggle) == TUTORING_MODIFIER <==> bucket == Educational || struggle == High
    ensures QueryModifier(bucket, struggle) == "" <==>
      bucket != Educational && (struggle == NoStruggle || struggle == Mild)
  {
  }

  /** Only the first three entities reach the query, in order, one space apart. */
  lemma QueryUsesFirstThreeEntities(a: IntentAnalysis, extra: seq<string>)
    requires |a.detectedEntities| >= 3
    ensures SearchQuery(a.(detectedEntities := a.detectedEntities + extra)) == SearchQuery(a)
    ensures SearchQuery(a) == a.detectedEntities[0] + " " + a.detectedEntities[1] + " " + a.detectedEntities[2]
      + QueryModifier(a.intentBucket, a.struggleState)
  {
    var es := a.detectedEntities;
    assert PyPrefix(es + extra, ENTITY_LIMIT) == es[..3];
    assert PyPrefix(es, ENTITY_LIMIT) == es[..3];
    var first := es[..3];
    assert first[1..] == [es[1], es[2]] && [es[1], es[2]][1..] == [es[2]];
    assert Join([es[2]], " ") == es[2];
    assert Join([es[1], es[2]], " ") == es[1] + " " + es[2];
    assert Join(first, " ") == es[0] + " " + (es[1] + " " + es[2]);
  }

  // ---------------------------------------------------------------------
  // Relevance
  // ---------------------------------------------------------------------

  /** Relevance takes one of five values, never exceeds 0.90, and reaches the
      0.70 inclusion threshold exactly when the intent is commercial or
      transactional or the struggle is at least moderate. */
  lemma RelevanceValues(bucket: IntentBucket, struggle: StruggleState)
    ensures Relevance(bucket, struggle) in {60, 70, 75, 85, 90}
    ensures Relevance(bucket, struggle) <= 90
    ensures Relevance(bucket, struggle) >= Config.MIN_RELEVANCE_SCORE <==>
      IsCommercialOrTransactional(bucket) || struggle == Moderate || struggle == High
  {
  }

  /** 0.6 + 0.15 + 0.10 = 0.85 for a commercial intent with moderate struggle. */
  lemma RelevanceExamples()
    ensures Relevance(Commercial, Moderate) == 85
    ensures Relevance(Transactional, High) == 90
    ensures Relevance(Educational, Mild) == 60
    ensures Relevance(Transactional, Mild) == 75
  {
  }

  // ---------------------------------------------------------------------
  // The nudge built from a result
  // ---------------------------------------------------------------------

  /** Building a nudge never fails validation; it carries the computed relevance,
      the chosen link, the defaults for absent keys and the call to action. */
  lemma NudgeFromAlwaysBuilds(item: ShoppingItem, a: IntentAnalysis)
    ensures NudgeFrom(item, a).Success?
    ensures
      var n := NudgeFrom(item, a).value;
      && n.relevanceScore == Relevance(a.intentBucket, a.struggleState)
      && n.productName == item.title.GetOr("Recommended Product")
      && n.vendorName == item.source.GetOr("Online Retailer")
      && n.link == (if SerpClient.Truthy(item.productLink) then item.productLink else item.link)
      && n.callToAction == Some("Check it out at " + item.source.GetOr("the store"))
      && n.localAvailability == Some(item.localAvailability.GetOr(""))
      && n.nudgeText == NudgeText(item, a.struggleState, n.link)
  {
    RelevanceValues(a.intentBucket, a.struggleState);
  }

  lemma NudgeTextParts(item: ShoppingItem, struggle: StruggleState, link: Option<string>)
    ensures NudgeText(item, struggle, link) ==
      StrugglePrefix(struggle) + ", " + ProductRef(item.title.GetOr("this product"), link)
      + (" from " + item.source.GetOr("online") + PriceClause(item) + RatingClause(item)) + Closing(item)
  {
    var head := StrugglePrefix(struggle) + ", ";
    var ref := ProductRef(item.title.GetOr("this product"), link);
    var src := " from " + item.source.GetOr("online");
    assert Opening(item, struggle, link) == head + ref + src;
    Regroup(head + ref, src, PriceClause(item), RatingClause(item), Closing(item));
  }

  lemma ClosingEndsWithStop(item: ShoppingItem)
    ensures |Closing(item)| > 0 && Closing(item)[|Closing(item)| - 1] == '.'
  {
  }

  lemma FourPartSlices(head: string, ref: string, rest: string, close: string)
    ensures (head + ref + rest + close)[..|head|] == head
    ensures (head + ref + rest + close)[|head|..|head| + |ref|] == ref
    ensures |close| > 0 ==> (head + ref + rest + close)[|head + ref + rest + close| - 1] == close[|close| - 1]
  {
  }

  /** The sentence opens with the struggle prefix, names the product reference,
      and always ends with a full stop. */
  lemma NudgeTextShape(item: ShoppingItem, struggle: StruggleState, link: Option<string>)
    ensures StartsWith(NudgeText(item, struggle, link), StrugglePrefix(struggle) + ", ")
    ensures Contains(NudgeText(item, struggle, link), ProductRef(item.title.GetOr("this product"), link))
    ensures |NudgeText(item, struggle, link)| > 0
    ensures NudgeText(item, struggle, link)[|NudgeText(item, struggle, link)| - 1] == '.'
  {
    var head := StrugglePrefix(struggle) + ", ";
    var ref := ProductRef(item.title.GetOr("this product"), link);
    var rest := " from " + item.source.GetOr("online") + PriceClause(item) + RatingClause(item);
    NudgeTextParts(item, struggle, link);
    ClosingEndsWithStop(item);
    FourPartSlices(head, ref, rest, Closing(item));
    ContainsAt(NudgeText(item, struggle, link), ref, |head|);
  }

  /** A link made only of characters the quoting keeps appears verbatim as the
      target of a bold Markdown link to the product. */
  lemma SafeLinkAppearsVerbatim(item: ShoppingItem, struggle: StruggleState, link: Option<string>)
    requires SerpClient.Truthy(link)
    requires forall i :: 0 <= i < |link.value| ==> IsLinkSafe(link.value[i])
    ensures Contains(NudgeText(item, struggle, link), "[**" + item.title.GetOr("this product") + "**](" + link.value + ")")
  {
    QuoteKeepsSafeLink(link.value);
    NudgeTextShape(item, struggle, link);
  }

  /** Whatever the link, the Markdown target holds only characters the quoting
      keeps, so no space or parenthesis can end it early. */
  lemma LinkTargetIsSafe(title: string, link: Option<string>)
    requires SerpClient.Truthy(link)
    ensures ProductRef(title, link) == "[**" + title + "**](" + Quote(link.value) + ")"
    ensures forall i :: 0 <= i < |Quote(link.value)| ==> IsLinkSafe(Quote(link.value)[i]) && Quote(link.value)[i] != ')'
  {
    QuoteOutputIsSafe(link.value);
  }

  // ---------------------------------------------------------------------
  // Result selection
  // ---------------------------------------------------------------------

  /** Without entities no search is made and no nudge is found. */
  lemma NoEntitiesNoNudge(a: IntentAnalysis, apiKey: string, network: SerpClient.SearchResponse)
    requires a.detectedEntities == []
    ensures NudgeFor(a, apiKey, network) == None
  {
  }

  /** Without an API key the catalogue answers, and a nudge is always found. */
  lemma MissingKeyUsesCatalogue(a: IntentAnalysis, network: SerpClient.SearchResponse)
    requires a.detectedEntities != []
    ensures NudgeFor(a, "", network) == Some(NudgeFrom(MockResult(SearchQuery(a)), a).value)
  {
    NudgeFromAlwaysBuilds(MockResult(SearchQuery(a)), a);
  }

  /** With shopping results the first one, and only it, makes the nudge; a
      response with neither an error nor shopping results gives nothing unless
      it is entirely empty. */
  lemma FirstShoppingResultWins(
    a: IntentAnalysis, apiKey: string, shopping: seq<ShoppingItem>,
    organic: Option<seq<SerpClient.OrganicItem>>, otherKeys: bool)
    requires a.detectedEntities != [] && apiKey != ""
    ensures |shopping| > 0 ==>
      NudgeFor(a, apiKey, SerpClient.Results(Some(shopping), organic, otherKeys)) == Some(NudgeFrom(shopping[0], a).value)
    ensures NudgeFor(a, apiKey, SerpClient.Results(Some([]), organic, otherKeys)) == None
    ensures organic.Some? || otherKeys ==> NudgeFor(a, apiKey, SerpClient.Results(None, organic, otherKeys)) == None
  {
    if |shopping| > 0 {
      NudgeFromAlwaysBuilds(shopping[0], a);
    }
  }

  /** A nudge that is found carries the relevance of the analysis, at most 0.90. */
  lemma FoundNudgeRelevance(a: IntentAnalysis, apiKey: string, network: SerpClient.SearchResponse)
    ensures NudgeFor(a, apiKey, network).Some? ==>
      NudgeFor(a, apiKey, network).value.relevanceScore == Relevance(a.intentBucket, a.struggleState)
      && NudgeFor(a, apiKey, network).value.relevanceScore <= 90
  {
    RelevanceValues(a.intentBucket, a.struggleState);
  }

  // ---------------------------------------------------------------------
  // The catalogue
  // ---------------------------------------------------------------------

  /** The catalogue tries the plumbing words first, then the tutoring words,
      then the laptop words; the generic record keeps the literal placeholder
      in its link. */
  lemma MockRoutingOrder(query: string)
    ensures MentionsAny(Lower(query), PLUMBING_WORDS) ==> MockResult(query) == DELTA_KIT
    ensures !MentionsAny(Lower(query), PLUMBING_WORDS) && MentionsAny(Lower(query), TUTORING_WORDS) ==>
      MockResult(query) == BRILLIANT_PREMIUM
    ensures (!MentionsAny(Lower(query), PLUMBING_WORDS) && !MentionsAny(Lower(query), TUTORING_WORDS)
             && MentionsAny(Lower(query), LAPTOP_WORDS)) ==> MockResult(query) == MACBOOK_AIR
    ensures MockResult(query).link.Some?
    ensures MockResult(query) !in {DELTA_KIT, BRILLIANT_PREMIUM, MACBOOK_AIR} ==>
      MockResult(query).link == Some("https://www.amazon.com/s?k={query}")
  {
  }

  lemma TutoringModifierIsLowerCase()
    ensures Lower(TUTORING_MODIFIER) == TUTORING_MODIFIER
  {
    LowerKeepsLowerCase(TUTORING_MODIFIER);
  }

  lemma TutoringModifierHasTutoring()
    ensures Contains(TUTORING_MODIFIER, "tutoring")
  {
    assert TUTORING_MODIFIER[15..23] == "tutoring";
    ContainsAt(TUTORING_MODIFIER, "tutoring", 15);
  }

  /** Whatever precedes it, the tutoring modifier puts a tutoring word in the lower-cased query. */
  lemma ModifierMentionsTutoring(entities: string)
    ensures MentionsAny(Lower(entities + TUTORING_MODIFIER), TUTORING_WORDS)
  {
    TutoringModifierIsLowerCase();
    TutoringModifierHasTutoring();
    LowerConcat(entities, TUTORING_MODIFIER);
    ContainsInConcat(Lower(entities), TUTORING_MODIFIER, "", "tutoring");
    assert Lower(entities) + TUTORING_MODIFIER + "" == Lower(entities + TUTORING_MODIFIER);
    assert "tutoring" in TUTORING_WORDS;
  }

  /** Any query carrying the tutoring modifier and no plumbing word gets the
      Brilliant record. */
  lemma TutoringQueryGetsBrilliant(a: IntentAnalysis)
    requires a.intentBucket == Educational || a.struggleState == High
    requires !MentionsAny(Lower(SearchQuery(a)), PLUMBING_WORDS)
    ensures MockResult(SearchQuery(a)) == BRILLIANT_PREMIUM
  {
    var entities := Join(PyPrefix(a.detectedEntities, ENTITY_LIMIT), " ");
    assert SearchQuery(a) == entities + TUTORING_MODIFIER;
    ModifierMentionsTutoring(entities);
  }

  /** The analysis of the clickable-link check: a transactional faucet
      repair kit with mild struggle. */
  predicate IsFaucetAnalysis(a: IntentAnalysis) {
    && a.detectedEntities == ["faucet", "repair", "kit"]
    && a.intentBucket == Transactional
    && a.struggleState == Mild
  }

  lemma FaucetQuery(a: IntentAnalysis)
    requires IsFaucetAnalysis(a)
    ensures SearchQuery(a) == "faucet repair kit"
  {
    var es := PyPrefix(a.detectedEntities, ENTITY_LIMIT);
    assert es == ["faucet", "repair", "kit"];
    assert es[1..][1..] == ["kit"];
    assert Join(es[1..], " ") == "repair" + " " + "kit";
    assert Join(es, " ") == "faucet" + " " + "repair kit";
    assert QueryModifier(a.intentBucket, a.struggleState) == "";
  }

  /** A query opening with "faucet", in any case, is a plumbing query. */
  lemma FaucetOpeningIsPlumbing(query: string)
    requires StartsWith(Lower(query), "faucet")
    ensures MentionsAny(Lower(query), PLUMBING_WORDS)
  {
    assert "faucet" in PLUMBING_WORDS;
  }

  lemma FaucetQueryIsLowerCase(s: string)
    requires s == "faucet repair kit"
    ensures Lower(s) == s && StartsWith(s, "faucet")
  {
    LowerKeepsLowerCase(s);
    assert s[..6] == "faucet";
  }

  predicate AllLinkSafe(s: string) {
    forall i :: 0 <= i < |s| ==> IsLinkSafe(s[i])
  }

  /** The three pieces of the Delta store address. */
  lemma DeltaPieceIsSafe(s: string)
    requires s == "https://www.homedepot.com/" || s == "b/Plumbing/Delta/" || s == "N-5yc1vZbqewZ1z0v"
    ensures AllLinkSafe(s)
  {
    forall i | 0 <= i < |s| ensures IsLinkSafe(s[i]) {
      assert s[i] in s;
    }
  }

  lemma LinkSafeConcat(a: string, b: string)
    requires AllLinkSafe(a) && AllLinkSafe(b)
    ensures AllLinkSafe(a + b)
  {
    forall i | 0 <= i < |a + b| ensures IsLinkSafe((a + b)[i]) {
      if i < |a| {
        assert (a + b)[i] == a[i];
      } else {
        assert (a + b)[i] == b[i - |a|];
      }
    }
  }

  /** The Delta store address needs no quoting. */
  lemma DeltaLinkIsSafe()
    ensures AllLinkSafe(DELTA_LINK)
  {
    var site, path, leaf := "https://www.homedepot.com/", "b/Plumbing/Delta/", "N-5yc1vZbqewZ1z0v";
    assert DELTA_LINK == site + path + leaf;
    DeltaPieceIsSafe(site);
    DeltaPieceIsSafe(path);
    DeltaPieceIsSafe(leaf);
    LinkSafeConcat(site, path);
    LinkSafeConcat(site + path, leaf);
  }

  lemma FaucetQueryOpensWithFaucet(a: IntentAnalysis)
    requires IsFaucetAnalysis(a)
    ensures StartsWith(Lower(SearchQuery(a)), "faucet")
  {
    var query := SearchQuery(a);
    FaucetQuery(a);
    FaucetQueryIsLowerCase(query);
  }

  /** Without an API key an analysis whose query opens with "faucet" reaches
      the Delta record of the catalogue. */
  lemma FaucetQueryGetsDelta(a: IntentAnalysis, network: SerpClient.SearchResponse)
    requires a.detectedEntities != []
    requires StartsWith(Lower(SearchQuery(a)), "faucet")
    ensures NudgeFor(a, "", network) == Found(NudgeFrom(DELTA_KIT, a))
  {
    FaucetOpeningIsPlumbing(SearchQuery(a));
  }

  /** A record with a safe plain link and no product link makes a nudge that
      links its title to that address verbatim. */
  lemma PlainSafeLinkNudge(item: ShoppingItem, a: IntentAnalysis)
    requires item.productLink.None? && item.link.Some? && item.link.value != ""
    requires AllLinkSafe(item.link.value)
    ensures NudgeFrom(item, a).Success?
    ensures NudgeFrom(item, a).value.link == item.link
    ensures Contains(NudgeFrom(item, a).value.nudgeText,
      "[**" + item.title.GetOr("this product") + "**](" + item.link.value + ")")
  {
    NudgeFromAlwaysBuilds(item, a);
    SafeLinkAppearsVerbatim(item, a.struggleState, item.link);
  }

  /** Without an API key, any analysis whose query opens with "faucet" gets
      the Delta kit nudge, linked verbatim to the store page. */
  lemma FaucetQueryNudge(a: IntentAnalysis, network: SerpClient.SearchResponse)
    requires a.detectedEntities != []
    requires StartsWith(Lower(SearchQuery(a)), "faucet")
    ensures
      var n := NudgeFor(a, "", network);
      && n.Some?
      && n.value.productName == DELTA_TITLE
      && n.value.link == Some(DELTA_LINK)
      && n.value.relevanceScore == Relevance(a.intentBucket, a.struggleState)
      && Contains(n.value.nudgeText, "[**" + n.value.productName + "**](" + DELTA_LINK + ")")
  {
    FaucetQueryGetsDelta(a, network);
    var r := NudgeFrom(DELTA_KIT, a);
    NudgeFromAlwaysBuilds(DELTA_KIT, a);
    assert r.Success? && r.value.productName == DELTA_TITLE;
    DeltaLinkIsSafe();
    PlainSafeLinkNudge(DELTA_KIT, a);
  }

  /** The faucet analysis without an API key, whatever the network would
      answer: the nudge names the Delta kit, carries the store link, has
      relevance 0.75, and its sentence links the product name to the store
      page verbatim. */
  lemma ClickableFaucetNudge(a: IntentAnalysis, network: SerpClient.SearchResponse)
    requires IsFaucetAnalysis(a)
    ensures
      var n := NudgeFor(a, "", network);
      && n.Some?
      && n.value.productName == DELTA_TITLE
      && n.value.link == Some(DELTA_LINK)
      && n.value.relevanceScore == 75
      && Contains(n.value.nudgeText, "[**" + n.value.productName + "**](" + DELTA_LINK + ")")
  {
    FaucetQueryOpensWithFaucet(a);
    assert Relevance(a.intentBucket, a.struggleState) == 75;
    FaucetQueryNudge(a, network);
  }
}
