/** The thresholds the core reads from the application settings. */
module Config {
  /** Propensity score at or above which a nudge is looked for. */
  const CONVERSION_THRESHOLD: int := 70

  /** Minimum nudge relevance, in hundredths (0.7), for the nudge to reach the prompt. */
  const MIN_RELEVANCE_SCORE: int := 70
}

/**
  The data model of the pipeline: intent buckets, struggle levels, messages,
  the per-turn intent analysis, the nudge, and the conversation state whose
  message buffer grows by appending.
*/
module Models {
  import opened Basics
  import opened Text

  datatype IntentBucket = Educational | Commercial | Navigational | Transactional

  datatype StruggleState = NoStruggle | Mild | Moderate | High

  /** The string value the enum member carries. */
  function BucketValue(b: IntentBucket): string {
    match b
    case Educational => "educational"
    case Commercial => "commercial"
    case Navigational => "navigational"
    case Transactional => "transactional"
  }

  /** `IntentBucket(s)`: the member whose value is `s`; any other string is refused. */
  function ParseBucket(s: string): (r: Option<IntentBucket>)
    ensures r.Some? ==> BucketValue(r.value) == s
    ensures r.None? ==> forall b :: BucketValue(b) != s
  {
    if s == "educational" then Some(Educational)
    else if s == "commercial" then Some(Commercial)
    else if s == "navigational" then Some(Navigational)
    else if s == "transactional" then Some(Transactional)
    else None
  }

  lemma ParseBucketRoundTrip(b: IntentBucket)
    ensures ParseBucket(BucketValue(b)) == Some(b)
  {
  }

  predicate IsCommercialOrTransactional(b: IntentBucket) {
    b == Commercial || b == Transactional
  }

  /** A conversation message; its creation timestamp is not modelled. */
  datatype Message = Message(role: string, content: string)

  /** A propensity score as the analysis record admits it. */
  type Score = n: int | 0 <= n <= 100

  /** A relevance score in hundredths (0.00 to 1.00) as the nudge record admits it. */
  type Hundredths = n: int | 0 <= n <= 100

  datatype IntentAnalysis = IntentAnalysis(
    intentBucket: IntentBucket,
    struggleState: StruggleState,
    propensityScore: Score,
    detectedEntities: seq<string>,
    recommendedCategory: Option<string>,
    groundingData: Option<string>,
    reasoning: Option<string>,
    isSafeForAds: bool,
    safetyReason: Option<string>)

  /** What a caller hands to the `grounding_data` field: nothing, a text, or a
      structured record (which that text-typed field refuses). */
  datatype GroundingArg = NoGrounding | GroundingText(text: string) | GroundingRecord

  /** Why constructing a record was refused. */
  datatype ValidationError = ScoreOutOfRange(score: int) | GroundingNotText | RelevanceOutOfRange(relevance: int)

  /** Constructing an `IntentAnalysis`: refused unless the score lies in 0..100
      and the grounding, if any, is text. The fields after the score may be
      left out: no entities, safe for ads, and nothing for the optional ones. */
  function NewIntentAnalysis(
    bucket: IntentBucket, struggle: StruggleState, score: int, entities: seq<string> := [],
    category: Option<string> := None, grounding: GroundingArg := NoGrounding, reasoning: Option<string> := None,
    isSafe: bool := true, safetyReason: Option<string> := None): (r: Result<IntentAnalysis, ValidationError>)
    ensures r.Success? <==> 0 <= score <= 100 && !grounding.GroundingRecord?
    ensures r.Success? ==>
      && r.value.intentBucket == bucket && r.value.struggleState == struggle
      && r.value.propensityScore == score && r.value.detectedEntities == entities
      && r.value.recommendedCategory == category && r.value.reasoning == reasoning
      && r.value.isSafeForAds == isSafe && r.value.safetyReason == safetyReason
      && r.value.groundingData == (if grounding.GroundingText? then Some(grounding.text) else None)
  {
    if !(0 <= score <= 100) then Failure(ScoreOutOfRange(score))
    else if grounding.GroundingRecord? then Failure(GroundingNotText)
    else
      var text := if grounding.GroundingText? then Some(grounding.text) else None;
      Success(IntentAnalysis(bucket, struggle, score, entities, category, text, reasoning, isSafe, safetyReason))
  }

  /** An analysis built from the three required fields alone has no entities,
      no category, no grounding, no reasoning, no safety reason, and is safe for ads. */
  lemma RequiredFieldsOnly(bucket: IntentBucket, struggle: StruggleState, score: int)
    requires 0 <= score <= 100
    ensures NewIntentAnalysis(bucket, struggle, score)
      == Success(IntentAnalysis(bucket, struggle, score, [], None, None, None, true, None))
  {
  }

  datatype Nudge = Nudge(
    productName: string,
    vendorName: string,
    relevanceScore: Hundredths,
    nudgeText: string,
    link: Option<string>,
    callToAction: Option<string>,
    localAvailability: Option<string>)

  /** Constructing a `Nudge`: refused unless the relevance lies in 0.00..1.00. */
  function NewNudge(
    product: string, vendor: string, relevance: int, text: string,
    link: Option<string>, cta: Option<string>, local: Option<string>): (r: Result<Nudge, ValidationError>)
    ensures r.Success? <==> 0 <= relevance <= 100
    ensures r.Success? ==>
      && r.value.relevanceScore == relevance && r.value.productName == product
      && r.value.vendorName == vendor && r.value.nudgeText == text && r.value.link == link
      && r.value.callToAction == cta && r.value.localAvailability == local
  {
    if 0 <= relevance <= 100 then Success(Nudge(product, vendor, relevance, text, link, cta, local))
    else Failure(RelevanceOutOfRange(relevance))
  }

  /** The state of one conversation session. Its message list only grows. */
  class ConversationState {
    const sessionId: string
    var messages: seq<Message>
    var currentIntent: Option<IntentAnalysis>
    var nudgesShown: seq<Nudge>
    var totalRevenueGenerated: real

    constructor (sessionId: string)
      ensures this.sessionId == sessionId
      ensures messages == [] && currentIntent == None && nudgesShown == []
      ensures totalRevenueGenerated == 0.0
    {
      this.sessionId := sessionId;
      messages := [];
      currentIntent := None;
      nudgesShown := [];
      totalRevenueGenerated := 0.0;
    }

    /** Appends one message at the end; nothing else changes. */
    method AddMessage(role: string, content: string)
      modifies this`messages
      ensures messages == old(messages) + [Message(role, content)]
      ensures |messages| == |old(messages)| + 1
      ensures messages[..|old(messages)|] == old(messages)
      ensures messages[|messages| - 1].role == role && messages[|messages| - 1].content == content
    {
      messages := messages + [Message(role, content)];
    }

    /** `messages[-count:]`: the last `count` messages for a positive count, but
        the whole list for a count of 0 (Python reads `-0` as `0`). */
    function GetRecentMessages(count: int): (r: seq<Message>)
      reads this
      ensures count >= 1 ==> r == messages[|messages| - Min(count, |messages|)..]
      ensures count == 0 ==> r == messages
      ensures count < 0 ==> r == messages[Min(-count, |messages|)..]
    {
      PySliceFrom(messages, -count)
    }
  }
}
