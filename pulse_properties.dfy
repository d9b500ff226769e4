/**
  What the intent classifier promises: which strategy answers, that the
  unsafe verdict and every failure end in an analysis that cannot trigger a
  nudge, how the quick and pattern strategies score, and the shape of the
  transcript the pattern strategy shows the reasoner.
*/
module PulseProperties {
  import opened Basics
  import opened Text
  import opened Models
  import Config
  import opened PulseMonitor

  // ---------------------------------------------------------------------
  // Dispatch
  // ---------------------------------------------------------------------

  /** With an image the visual strategy answers, whatever the history and the demo flag. */
  lemma ImageIgnoresHistoryAndDemo(
    m1: seq<Message>, m2: seq<Message>, d1: bool, d2: bool, image: Option<string>,
    reply: Generated, loads: string -> Decoded)
    requires HasImage(image)
    ensures Analysis(m1, image, d1, reply, loads) == Analysis(m2, image, d2, reply, loads)
    ensures Analysis(m1, image, d1, reply, loads) == MultimodalAnalysis(reply, loads)
  {
  }

  /** Demo mode changes nothing outside the quick strategy. */
  lemma DemoOnlyAffectsQuick(messages: seq<Message>, image: Option<string>, reply: Generated, loads: string -> Decoded)
    requires HasImage(image) || |messages| >= 3
    ensures Analysis(messages, image, true, reply, loads) == Analysis(messages, image, false, reply, loads)
  {
  }

  /** An empty history without an image gives the default analysis without asking the reasoner. */
  lemma NoHistoryGivesDefault(image: Option<string>, demo: bool, reply: Generated, loads: string -> Decoded)
    requires !HasImage(image)
    ensures Analysis([], image, demo, reply, loads) == DefaultAnalysis("")
    ensures Analysis([], image, demo, reply, loads).reasoning == Some("Default analysis")
  {
  }

  // ---------------------------------------------------------------------
  // The trigger, the default analysis and failures
  // ---------------------------------------------------------------------

  /** The trigger at its boundaries: 69 alone is not enough, 70 is, and a
      commercial intent with some struggle suffices below the threshold;
      an unsafe topic never triggers. */
  lemma TriggerExamples()
    ensures !ShouldTriggerNudge(IntentAnalysis(Educational, NoStruggle, 69, [], None, None, None, true, None))
    ensures ShouldTriggerNudge(IntentAnalysis(Educational, NoStruggle, 70, [], None, None, None, true, None))
    ensures ShouldTriggerNudge(IntentAnalysis(Commercial, Mild, 69, [], None, None, None, true, None))
    ensures !ShouldTriggerNudge(IntentAnalysis(Commercial, NoStruggle, 69, [], None, None, None, true, None))
    ensures !ShouldTriggerNudge(IntentAnalysis(Transactional, High, 100, [], None, None, None, false, None))
  {
  }

  lemma TriggerRequiresSafety(a: IntentAnalysis)
    ensures ShouldTriggerNudge(a) ==> a.isSafeForAds
    ensures ShouldTriggerNudge(a) <==>
      a.isSafeForAds && (a.propensityScore >= Config.CONVERSION_THRESHOLD || ((a.intentBucket == Commercial || a.intentBucket == Transactional) && a.struggleState != NoStruggle))
  {
  }

  /** The default analysis scores 0, is educational without struggle, and never triggers. */
  lemma DefaultNeverTriggers(reason: string)
    ensures DefaultAnalysis(reason).propensityScore == 0
    ensures DefaultAnalysis(reason).groundingData == None
    ensures !ShouldTriggerNudge(DefaultAnalysis(reason))
  {
  }

  /** The recovered outcome of a strategy is the default analysis exactly when the strategy failed. */
  lemma RecoverIsDefaultOnFailure(prefix: string, r: Result<IntentAnalysis, Failure>)
    ensures r.Failure? ==> Recover(prefix, r) == DefaultAnalysis(prefix + Describe(r.error))
    ensures r.Failure? ==> !ShouldTriggerNudge(Recover(prefix, r))
    ensures r.Success? ==> Recover(prefix, r) == r.value
  {
  }

  /** When the reasoner fails, whatever the strategy, the analysis scores 0 and cannot trigger a nudge. */
  lemma FailedReasonerNeverTriggers(
    messages: seq<Message>, image: Option<string>, demo: bool, detail: string, loads: string -> Decoded)
    ensures Analysis(messages, image, demo, GenerationFailed(detail), loads).propensityScore == 0
    ensures !ShouldTriggerNudge(Analysis(messages, image, demo, GenerationFailed(detail), loads))
  {
  }

  // ---------------------------------------------------------------------
  // Reply parsing
  // ---------------------------------------------------------------------

  /** A fenced object reply is decoded from the text between the fences. */
  lemma FencedReplyDecodesBody(tag: string, body: string, loads: string -> Decoded)
    requires '\n' !in tag
    requires loads(body).JsonObject?
    ensures ReplyFields(Generated(FENCE + tag + "\n" + body + FENCE), loads) == Success(loads(body).fields)
  {
    FencedReplyUnwrapped(tag, body);
  }

  /** A reply that opens a fence and never breaks the line makes every strategy fall back. */
  lemma FenceWithoutNewlineFails(response: string, loads: string -> Decoded)
    requires StartsWith(Strip(response), FENCE)
    requires '\n' !in Strip(response)
    ensures ReplyFields(Generated(response), loads) == Failure(FenceWithoutNewline)
  {
  }

  /** A reply that does not decode reads as an object with no keys. */
  lemma UndecodableReplyIsEmptyObject(response: string, loads: string -> Decoded)
    requires CleanReply(response).Success?
    requires loads(CleanReply(response).value).NotJson?
    ensures ReplyFields(Generated(response), loads) == Success(EMPTY_REPLY)
  {
  }

  // ---------------------------------------------------------------------
  // Quick strategy
  // ---------------------------------------------------------------------

  /** The quick strategy fails only on a bucket name that is not one of the four. */
  lemma QuickFailsOnlyOnUnknownBucket(content: string, data: Reply, demo: bool)
    ensures QuickOutcome(content, data, demo).Failure? <==> ParseBucket(data.intentBucket.GetOr("educational")).None?
  {
  }

  /** The quick heuristics: a keyword or a commercial bucket gives mild struggle and
      score 75 and lifts an educational bucket to commercial; otherwise no struggle
      and score 10; demo mode forces 99 and high struggle on a commercial or
      transactional result; an unsafe verdict zeroes the score. */
  lemma QuickHeuristics(content: string, data: Reply, demo: bool)
    requires ParseBucket(data.intentBucket.GetOr("educational")).Some?
    ensures QuickOutcome(content, data, demo).Success?
    ensures
      var a := QuickOutcome(content, data, demo).value;
      var parsed := ParseBucket(data.intentBucket.GetOr("educational")).value;
      var boosted := HasStrongIntent(content) || IsCommercialOrTransactional(parsed);
      var forced := demo && IsCommercialOrTransactional(a.intentBucket);
      && a.intentBucket == (if boosted && parsed == Educational then Commercial else parsed)
      && a.isSafeForAds == data.isSafeForAds.GetOr(true)
      && (!a.isSafeForAds ==> a.propensityScore == 0)
      && (a.isSafeForAds && forced ==> a.propensityScore == 99)
      && (a.isSafeForAds && !forced ==> a.propensityScore == if boosted then 75 else 10)
      && a.struggleState == (if forced then High else if boosted then Mild else NoStruggle)
      && a.detectedEntities == data.detectedEntities.GetOr([])
      && a.groundingData == None
      && a.reasoning == Some("Quick analysis - heuristics applied")
  {
  }

  /** A message opening with "I need", in any case, shows a strong purchase intent. */
  lemma OpeningNeedIsStrongIntent(content: string)
    requires |content| >= 6 && Lower(content)[..6] == "i need"
    ensures HasStrongIntent(content)
  {
    assert StartsWith(Lower(content), "i need");
    assert "i need" in STRONG_INTENT_KEYWORDS;
  }

  /** A message with a purchase keyword and a safe educational verdict becomes a
      commercial intent with mild struggle and score 75, which triggers a nudge. */
  lemma KeywordLiftsEducational(content: string, reply: Generated, loads: string -> Decoded)
    requires HasStrongIntent(content)
    requires ReplyFields(reply, loads).Success?
    requires ReplyFields(reply, loads).value.intentBucket.GetOr("educational") == "educational"
    requires ReplyFields(reply, loads).value.isSafeForAds.GetOr(true)
    ensures
      var a := QuickAnalysis(Some(Message("user", content)), false, reply, loads);
      a.intentBucket == Commercial && a.struggleState == Mild && a.propensityScore == 75 && ShouldTriggerNudge(a)
  {
    QuickHeuristics(content, ReplyFields(reply, loads).value, false);
  }

  // ---------------------------------------------------------------------
  // Pattern strategy
  // ---------------------------------------------------------------------

  /** Worked scores: a homework grind on a repeated topic saturates at 100, and a
      single browse keeps its base. */
  lemma PatternScoreExamples()
    ensures PatternScore(30, 4, "GRINDING", true) == 100
    ensures PatternScore(20, 1, "BROWSING", false) == 20
    ensures PatternScore(30, 2, "LEARNING", false) == 55
    ensures PatternScore(40, 3, "SHOPPING", false) == 100
  {
  }

  /** The score never exceeds 100 and never falls below the (capped) base; with no
      repeats, no boosting pattern and no homework it is the capped base. */
  lemma PatternScoreBounds(base: int, topicCount: int, pattern: string, homework: bool)
    ensures PatternScore(base, topicCount, pattern, homework) <= 100
    ensures PatternScore(base, topicCount, pattern, homework) >= Min(base, 100)
    ensures topicCount < 2 && PatternBoost(pattern) == 0 && !homework ==>
      PatternScore(base, topicCount, pattern, homework) == Min(base, 100)
  {
  }

  /** More repeats of the topic never lower the score. */
  lemma PatternScoreMonotoneInRepeats(base: int, c1: int, c2: int, pattern: string, homework: bool)
    requires c1 <= c2
    ensures PatternScore(base, c1, pattern, homework) <= PatternScore(base, c2, pattern, homework)
  {
  }

  /** The struggle table: grinding and urgent are high, learning moderate,
      shopping mild, anything else none. */
  lemma PatternStruggleTable(pattern: string)
    ensures PatternToStruggle(pattern) == High <==> pattern == "GRINDING" || pattern == "URGENT"
    ensures PatternToStruggle(pattern) == Moderate <==> pattern == "LEARNING"
    ensures PatternToStruggle(pattern) == Mild <==> pattern == "SHOPPING"
  {
  }

  /** The boost table the pattern score uses is the one the source keeps as a dictionary. */
  lemma PatternBoostTable(pattern: string)
    ensures PatternBoost(pattern) == if pattern in PATTERN_BOOSTS then PATTERN_BOOSTS[pattern] else 0
    ensures 0 <= PatternBoost(pattern) <= 30
  {
  }

  /** The intent table: commercial exactly for a repeated topic with an
      opportunity, transactional exactly for shopping otherwise, never navigational. */
  lemma PatternIntentTable(topicCount: int, pattern: string, hasOpportunity: bool)
    ensures PatternToIntent(topicCount, pattern, hasOpportunity) == Commercial <==> topicCount >= 3 && hasOpportunity
    ensures PatternToIntent(topicCount, pattern, hasOpportunity) == Transactional <==>
      !(topicCount >= 3 && hasOpportunity) && pattern == "SHOPPING"
    ensures PatternToIntent(topicCount, pattern, hasOpportunity) != Navigational
  {
  }

  /** A grounding query exists exactly when there is an opportunity or a subject,
      always starts with "buy ", and prefers the opportunity. */
  lemma GroundingQueryShape(opportunity: Option<string>, subjects: seq<string>)
    ensures GroundingQuery(opportunity, subjects).Some? <==> (opportunity.Some? && opportunity.value != "") || |subjects| > 0
    ensures GroundingQuery(opportunity, subjects).Some? ==> StartsWith(GroundingQuery(opportunity, subjects).value, "buy ")
    ensures opportunity.Some? && opportunity.value != "" ==> GroundingQuery(opportunity, subjects) == Some("buy " + opportunity.value)
  {
  }

  /** The pattern strategy succeeds exactly when the topic is unsafe or no
      grounding query was made (the score is then never negative); a successful
      analysis carries no grounding, and an unsafe one scores 0. */
  lemma PatternOutcomeSucceeds(data: Reply)
    ensures PatternOutcome(data).Success? <==>
      !data.isSafeForAds.GetOr(true) || (ReplyGroundingQuery(data).None? && ReplyPatternScore(data) >= 0)
    ensures PatternOutcome(data).Success? ==>
      && PatternOutcome(data).value.groundingData == None
      && PatternOutcome(data).value.struggleState == PatternToStruggle(data.usagePattern.GetOr("BROWSING"))
      && PatternOutcome(data).value.intentBucket == ReplyIntent(data)
      && (!data.isSafeForAds.GetOr(true) ==> PatternOutcome(data).value.propensityScore == 0)
      && (data.isSafeForAds.GetOr(true) ==> PatternOutcome(data).value.propensityScore == ReplyPatternScore(data))
  {
  }

  /** A shopping verdict with a non-empty commercial opportunity asks for
      grounding, with the query "buy " and the opportunity. */
  lemma ShoppingOpportunityIsGrounded(data: Reply, opportunity: string)
    requires data.usagePattern == Some("SHOPPING")
    requires data.commercialOpportunity == Some(opportunity) && opportunity != ""
    ensures ReplyGroundingQuery(data) == Some("buy " + opportunity)
  {
    assert IsCommercialOrTransactional(ReplyIntent(data));
  }

  /** The record refuses the search record handed to it as grounding text. */
  lemma GroundedOutcomeFails(data: Reply)
    requires data.isSafeForAds.GetOr(true) && ReplyPatternScore(data) >= 0
    requires ReplyGroundingQuery(data).Some?
    ensures PatternOutcome(data) == Failure(Invalid(GroundingNotText))
  {
    PatternOutcomeSucceeds(data);
  }

  /** A safe verdict with a score in range that leads to a grounding query
      hands the search record to the analysis, which refuses it: the strategy
      falls back to the default analysis, which cannot trigger a nudge. */
  lemma GroundedPatternFallsBack(reply: Generated, loads: string -> Decoded)
    requires ReplyFields(reply, loads).Success?
    requires ReplyFields(reply, loads).value.isSafeForAds.GetOr(true)
    requires ReplyPatternScore(ReplyFields(reply, loads).value) >= 0
    requires ReplyGroundingQuery(ReplyFields(reply, loads).value).Some?
    ensures PatternAnalysis(reply, loads) == DefaultAnalysis(PATTERN_ERROR + "validation error for IntentAnalysis: grounding_data")
    ensures !ShouldTriggerNudge(PatternAnalysis(reply, loads))
  {
    var data := ReplyFields(reply, loads).value;
    GroundedOutcomeFails(data);
    var reason := PATTERN_ERROR + Describe(Invalid(GroundingNotText));
    assert PatternAnalysis(reply, loads) == DefaultAnalysis(reason);
    DefaultNeverTriggers(reason);
  }

  /** For example, a safe shopping verdict about running shoes. */
  lemma RunningShoesFallBack(reply: Generated, loads: string -> Decoded)
    requires ReplyFields(reply, loads).Success?
    requires ReplyFields(reply, loads).value.isSafeForAds == Some(true)
    requires ReplyFields(reply, loads).value.usagePattern == Some("SHOPPING")
    requires ReplyFields(reply, loads).value.commercialOpportunity == Some("running shoes")
    requires ReplyFields(reply, loads).value.propensityScore.GetOr(30) >= 0
    ensures PatternAnalysis(reply, loads) == DefaultAnalysis(PATTERN_ERROR + "validation error for IntentAnalysis: grounding_data")
  {
    ShoppingOpportunityIsGrounded(ReplyFields(reply, loads).value, "running shoes");
    GroundedPatternFallsBack(reply, loads);
  }

  // ---------------------------------------------------------------------
  // Multimodal strategy
  // ---------------------------------------------------------------------

  /** The visual strategy reports moderate struggle, defaults to a commercial
      bucket and score 90, and fails only on an unknown bucket or a score
      outside 0..100. */
  lemma MultimodalFields(data: Reply)
    ensures MultimodalOutcome(data).Success? <==>
      ParseBucket(data.intentBucket.GetOr("commercial")).Some? && 0 <= data.propensityScore.GetOr(90) <= 100
    ensures MultimodalOutcome(data).Success? ==>
      && MultimodalOutcome(data).value.struggleState == Moderate
      && MultimodalOutcome(data).value.propensityScore == data.propensityScore.GetOr(90)
      && MultimodalOutcome(data).value.safetyReason == None
      && MultimodalOutcome(data).value.groundingData == None
  {
  }

  /** Unlike the other two, the visual strategy does not zero the score of an
      unsafe topic: an empty unsafe verdict keeps score 90 (the trigger still
      refuses it). */
  lemma MultimodalKeepsUnsafeScore()
    ensures
      var verdict := EMPTY_REPLY.(isSafeForAds := Some(false));
      var a := MultimodalAnalysis(Generated("{}"), (s: string) => JsonObject(verdict));
      && a.isSafeForAds == false && a.propensityScore == 90
      && a.intentBucket == Commercial && a.struggleState == Moderate
      && !ShouldTriggerNudge(a)
  {
  }

  // ---------------------------------------------------------------------
  // Safety across the strategies
  // ---------------------------------------------------------------------

  /** An unsafe verdict from the reasoner never leads to a nudge, whichever
      strategy answered and whether or not it then failed. */
  lemma UnsafeVerdictNeverTriggers(
    messages: seq<Message>, image: Option<string>, demo: bool, reply: Generated, loads: string -> Decoded)
    requires ReplyFields(reply, loads).Success?
    requires ReplyFields(reply, loads).value.isSafeForAds == Some(false)
    ensures !ShouldTriggerNudge(Analysis(messages, image, demo, reply, loads))
  {
    var data := ReplyFields(reply, loads).value;
    var a := Analysis(messages, image, demo, reply, loads);
    if HasImage(image) {
      assert a == Recover(MULTIMODAL_ERROR, MultimodalOutcome(data));
    } else if |messages| == 0 {
      assert a == DefaultAnalysis("");
    } else if |messages| < 3 {
      assert a == Recover(QUICK_ERROR, QuickOutcome(messages[|messages| - 1].content, data, demo));
    } else {
      assert a == Recover(PATTERN_ERROR, PatternOutcome(data));
    }
  }

  /** Outside the visual strategy an analysis marked unsafe scores 0. */
  lemma UnsafeScoresZeroWithoutImage(
    messages: seq<Message>, image: Option<string>, demo: bool, reply: Generated, loads: string -> Decoded)
    requires !HasImage(image)
    ensures !Analysis(messages, image, demo, reply, loads).isSafeForAds ==>
      Analysis(messages, image, demo, reply, loads).propensityScore == 0
  {
    var a := Analysis(messages, image, demo, reply, loads);
    if |messages| < 3 && messages != [] && ReplyFields(reply, loads).Success? {
      var data := ReplyFields(reply, loads).value;
      var content := messages[|messages| - 1].content;
      if ParseBucket(data.intentBucket.GetOr("educational")).Some? {
        QuickHeuristics(content, data, demo);
      }
    }
  }

  /** No strategy's successful outcome carries grounding text. */
  lemma OutcomesCarryNoGrounding(content: string, data: Reply, demo: bool)
    ensures QuickOutcome(content, data, demo).Success? ==> QuickOutcome(content, data, demo).value.groundingData == None
    ensures PatternOutcome(data).Success? ==> PatternOutcome(data).value.groundingData == None
    ensures MultimodalOutcome(data).Success? ==> MultimodalOutcome(data).value.groundingData == None
  {
  }

  lemma RecoveredCarriesNoGrounding(prefix: string, r: Result<IntentAnalysis, Failure>)
    requires r.Success? ==> r.value.groundingData == None
    ensures Recover(prefix, r).groundingData == None
  {
    if r.Failure? {
      DefaultNeverTriggers(prefix + Describe(r.error));
    }
  }

  /** No analysis ever carries grounding text: the quick and visual strategies
      give none, and the pattern strategy's record is refused. */
  lemma NoAnalysisCarriesGrounding(
    messages: seq<Message>, image: Option<string>, demo: bool, reply: Generated, loads: string -> Decoded)
    ensures Analysis(messages, image, demo, reply, loads).groundingData == None
  {
    var fields := ReplyFields(reply, loads);
    if |messages| == 0 && !HasImage(image) {
      DefaultNeverTriggers("");
      return;
    }
    var content := if |messages| > 0 then messages[|messages| - 1].content else "";
    var r: Result<IntentAnalysis, Failure>;
    var prefix: string;
    if fields.Success? {
      OutcomesCarryNoGrounding(content, fields.value, demo);
    }
    if HasImage(image) {
      r := if fields.Failure? then Failure(fields.error) else MultimodalOutcome(fields.value);
      prefix := MULTIMODAL_ERROR;
    } else if |messages| < 3 {
      r := if fields.Failure? then Failure(fields.error) else QuickOutcome(content, fields.value, demo);
      prefix := QUICK_ERROR;
    } else {
      r := if fields.Failure? then Failure(fields.error) else PatternOutcome(fields.value);
      prefix := PATTERN_ERROR;
    }
    assert Analysis(messages, image, demo, reply, loads) == Recover(prefix, r);
    RecoveredCarriesNoGrounding(prefix, r);
  }

  // ---------------------------------------------------------------------
  // The transcript
  // ---------------------------------------------------------------------

  lemma {:induction false} NumberedLinesAt(window: seq<Message>, k: nat)
    requires k < |window|
    ensures NumberedLines(window)[k] == TranscriptLine(k + 1, window[k])
  {
    if k < |window| - 1 {
      NumberedLinesAt(window[..|window| - 1], k);
    }
  }

  /** The transcript shows the last twenty messages (all of them when there are
      fewer), oldest first, numbered from 1, labelled USER exactly for the
      user's role, with each text cut to 500 characters. */
  lemma TranscriptShowsLastTwenty(messages: seq<Message>, k: nat)
    requires k < Min(|messages|, 20)
    ensures |TranscriptLines(messages)| == Min(|messages|, 20)
    ensures
      var m := messages[|messages| - Min(|messages|, 20) + k];
      TranscriptLines(messages)[k] ==
        "[" + NatToString(k + 1) + "] " + (if m.role == "user" then "USER" else "ASSISTANT") + ": "
        + m.content[..Min(|m.content|, 500)]
  {
    var window := PySliceFrom(messages, -TRANSCRIPT_WINDOW);
    assert |window| == Min(|messages|, 20);
    NumberedLinesAt(window, k);
    assert window[k] == messages[|messages| - Min(|messages|, 20) + k];
  }

  /** An empty history reads "[No messages]". */
  lemma EmptyTranscript()
    ensures Transcript([]) == "[No messages]"
  {
  }
}
