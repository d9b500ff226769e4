/**
  The intent classifier ("pulse monitor"). Each turn it picks one of three
  strategies, asks the reasoner for a JSON verdict, and turns that verdict
  into an `IntentAnalysis`: a quick keyword heuristic for short histories, a
  pattern-propensity score for longer ones, and a visual strategy when an
  image is attached. Every failure on the way yields the default analysis.
  `ShouldTriggerNudge` then decides whether a nudge is looked for.

  The reasoner is outside the model: its answer is the `Generated` input, and
  `json.loads` is the `loads` parameter (an arbitrary total function from
  text to a decoded value).
*/
module PulseMonitor {
  import opened Basics
  import opened Text
  import opened Models
  import Config
  import SerpClient

  /** Topic repeats from which a session counts as grinding. */
  const REPEATED_QUERY_THRESHOLD: int := 3

  /** Pattern score from which grounding is looked up. */
  const GROUNDING_SCORE: int := 60

  /** Number of recent messages the transcript shows, and characters shown per message. */
  const TRANSCRIPT_WINDOW: int := 20
  const CONTENT_LIMIT: int := 500

  const STRONG_INTENT_KEYWORDS: seq<string> := ["i need", "i want", "buy", "purchase", "looking for", "recommend"]

  const QUICK_ERROR: string := "Quick analysis error: "
  const PATTERN_ERROR: string := "Pattern analysis error: "
  const MULTIMODAL_ERROR: string := "Multimodal analysis error: "

  // ---------------------------------------------------------------------
  // The reasoner's reply
  // ---------------------------------------------------------------------

  /** The keys of the reasoner's JSON object that the strategies read; `None`
      stands for an absent key. A JSON null or a value of another type is not
      modelled. */
  datatype Reply = Reply(
    intentBucket: Option<string>,
    detectedEntities: Option<seq<string>>,
    isSafeForAds: Option<bool>,
    safetyReason: Option<string>,
    propensityScore: Option<int>,
    topicRepeatCount: Option<int>,
    usagePattern: Option<string>,
    isHomeworkPattern: Option<bool>,
    detectedSubjects: Option<seq<string>>,
    commercialOpportunity: Option<string>,
    reasoning: Option<string>)

  const EMPTY_REPLY: Reply := Reply(None, None, None, None, None, None, None, None, None, None, None)

  /** What `json.loads` makes of a text: a decode error, an object, or any other JSON value. */
  datatype Decoded = NotJson | JsonObject(fields: Reply) | JsonOther

  /** The exceptions the strategies catch. */
  datatype Failure =
    | ReasonerFailed(detail: string)
    | FenceWithoutNewline
    | ReplyNotObject
    | UnknownBucket(value: string)
    | Invalid(error: ValidationError)

  /** The text the exception contributes to the default analysis' reasoning. */
  function Describe(f: Failure): string {
    match f
    case ReasonerFailed(detail) => detail
    case FenceWithoutNewline => "list index out of range"
    case ReplyNotObject => "object has no attribute 'get'"
    case UnknownBucket(value) => "'" + value + "' is not a valid IntentBucket"
    case Invalid(ScoreOutOfRange(_)) => "validation error for IntentAnalysis: propensity_score"
    case Invalid(GroundingNotText) => "validation error for IntentAnalysis: grounding_data"
    case Invalid(RelevanceOutOfRange(_)) => "validation error for IntentAnalysis"
  }

  // ---------------------------------------------------------------------
  // _parse_json
  // ---------------------------------------------------------------------

  const FENCE: string := "```"

  /** The text handed to `json.loads`: the stripped reply, and for a fenced
      reply the part after the first line and before the last fence. A fence
      with no line break after it raises. */
  function CleanReply(response: string): Result<string, Failure> {
    var cleaned := Strip(response);
    if StartsWith(cleaned, FENCE) then
      match FindChar(cleaned, '\n')
      case None => Failure(FenceWithoutNewline)
      case Some(i) =>
        var rest := cleaned[i + 1..];
        match RFind(rest, FENCE)
        case None => Success(rest)
        case Some(j) => Success(rest[..j])
    else Success(cleaned)
  }

  /** `_parse_json`: a text that does not decode gives the empty object. */
  function ParseJson(response: string, loads: string -> Decoded): (r: Result<Decoded, Failure>)
    ensures r.Failure? <==> CleanReply(response).Failure?
    ensures r.Success? ==> !r.value.NotJson?
    ensures r.Success? && loads(CleanReply(response).value).NotJson? ==> r.value == JsonObject(EMPTY_REPLY)
    ensures r.Success? && !loads(CleanReply(response).value).NotJson? ==> r.value == loads(CleanReply(response).value)
  {
    match CleanReply(response)
    case Failure(f) => Failure(f)
    case Success(cleaned) =>
      if loads(cleaned).NotJson? then Success(JsonObject(EMPTY_REPLY)) else Success(loads(cleaned))
  }

  /** The reply object a strategy reads with `data.get`, or the exception met on the way. */
  function ReplyFields(reply: Generated, loads: string -> Decoded): Result<Reply, Failure> {
    match reply
    case GenerationFailed(detail) => Failure(ReasonerFailed(detail))
    case Generated(text) =>
      match ParseJson(text, loads)
      case Failure(f) => Failure(f)
      case Success(JsonObject(fields)) => Success(fields)
      case Success(_) => Failure(ReplyNotObject)
  }

  /** The first line break after a line without one is the one that ends it. */
  lemma FirstBreakEndsLine(line: string, rest: string)
    requires '\n' !in line
    ensures FindChar(line + "\n" + rest, '\n') == Some(|line|)
  {
    var s := line + "\n" + rest;
    assert s[|line|] == '\n';
    assert s[..|line|] == line;
  }

  /** The last fence of a text that ends in one is that final fence. */
  lemma LastFenceEndsText(body: string)
    ensures RFind(body + FENCE, FENCE) == Some(|body|)
  {
    var rest := body + FENCE;
    assert rest[|body|..|body| + |FENCE|] == FENCE;
  }

  /** A fenced reply "```tag\n<body>```" reaches `json.loads` as exactly <body>. */
  lemma FencedReplyUnwrapped(tag: string, body: string)
    requires '\n' !in tag
    ensures CleanReply(FENCE + tag + "\n" + body + FENCE) == Success(body)
  {
    var line := FENCE + tag;
    var rest := body + FENCE;
    var s := line + "\n" + rest;
    assert s == FENCE + tag + "\n" + body + FENCE;
    assert s[0] == '`' && s[|s| - 1] == '`';
    assert StripStart(s) == s;
    assert StripEnd(s) == s;
    assert s[..|FENCE|] == FENCE;
    assert '\n' !in line by {
      assert forall k :: 0 <= k < |line| ==> line[k] == if k < |FENCE| then FENCE[k] else tag[k - |FENCE|];
    }
    FirstBreakEndsLine(line, rest);
    assert s[|line| + 1..] == rest;
    LastFenceEndsText(body);
    assert rest[..|body|] == body;
  }

  /** A reply without a leading fence reaches `json.loads` only stripped. */
  lemma UnfencedReplyOnlyStripped(response: string)
    requires !StartsWith(Strip(response), FENCE)
    ensures CleanReply(response) == Success(Strip(response))
  {
  }

  // ---------------------------------------------------------------------
  // The default analysis and the trigger
  // ---------------------------------------------------------------------

  /** `_default_analysis`: educational, no struggle, score 0, no entities. */
  function DefaultAnalysis(reason: string): IntentAnalysis {
    IntentAnalysis(Educational, NoStruggle, 0, [], None, None,
      Some(if reason == "" then "Default analysis" else reason), true, None)
  }

  /** The default analysis is what the constructor builds from the bucket, the
      struggle, a zero score, no entities and the reason, every other field
      left at its default: it is safe for ads and carries no grounding. */
  lemma DefaultAnalysisUsesDefaults(reason: string)
    ensures NewIntentAnalysis(Educational, NoStruggle, 0, entities := [],
      reasoning := Some(if reason == "" then "Default analysis" else reason)) == Success(DefaultAnalysis(reason))
    ensures DefaultAnalysis(reason).isSafeForAds && DefaultAnalysis(reason).groundingData == None
  {
  }

  function Recover(prefix: string, r: Result<IntentAnalysis, Failure>): IntentAnalysis {
    match r
    case Success(a) => a
    case Failure(f) => DefaultAnalysis(prefix + Describe(f))
  }

  function Lift(r: Result<IntentAnalysis, ValidationError>): Result<IntentAnalysis, Failure> {
    match r
    case Success(a) => Success(a)
    case Failure(e) => Failure(Invalid(e))
  }

  /** `should_trigger_nudge`. */
  predicate ShouldTriggerNudge(a: IntentAnalysis) {
    if !a.isSafeForAds then false
    else (a.propensityScore >= Config.CONVERSION_THRESHOLD
          || (IsCommercialOrTransactional(a.intentBucket) && a.struggleState != NoStruggle))
  }

  // ---------------------------------------------------------------------
  // Quick strategy (specification)
  // ---------------------------------------------------------------------

  predicate HasStrongIntent(content: string) {
    exists k :: k in STRONG_INTENT_KEYWORDS && Contains(Lower(content), k)
  }

  /** What the quick strategy makes of a reply object, for a message with text `content`. */
  function QuickOutcome(content: string, data: Reply, demo: bool): Result<IntentAnalysis, Failure> {
    var bucketText := data.intentBucket.GetOr("educational");
    match ParseBucket(bucketText)
    case None => Failure(UnknownBucket(bucketText))
    case Some(parsed) =>
      var boosted := HasStrongIntent(content) || IsCommercialOrTransactional(parsed);
      var intent := if boosted && parsed == Educational then Commercial else parsed;
      var demoForced := demo && IsCommercialOrTransactional(intent);
      var struggle := if demoForced then High else if boosted then Mild else NoStruggle;
      var score := if demoForced then 99 else if boosted then 75 else 10;
      var isSafe := data.isSafeForAds.GetOr(true);
      Lift(NewIntentAnalysis(intent, struggle, if isSafe then score else 0, entities := data.detectedEntities.GetOr([]),
        reasoning := Some("Quick analysis - heuristics applied"), isSafe := isSafe, safetyReason := data.safetyReason))
  }

  function QuickAnalysis(message: Option<Message>, demo: bool, reply: Generated, loads: string -> Decoded): IntentAnalysis {
    if message.None? then DefaultAnalysis("")
    else
      Recover(QUICK_ERROR,
        match ReplyFields(reply, loads)
        case Failure(f) => Failure(f)
        case Success(data) => QuickOutcome(message.value.content, data, demo))
  }

  // ---------------------------------------------------------------------
  // Pattern strategy (specification)
  // ---------------------------------------------------------------------

  /** The topic-repeat bonus: +50 from the threshold on, +15 for two repeats. */
  function RepeatBonus(topicCount: int): (bonus: int)
    ensures bonus == 0 || bonus == 15 || bonus == 50
  {
    if topicCount >= REPEATED_QUERY_THRESHOLD then 50 else if topicCount >= 2 then 15 else 0
  }

  function PatternBoost(pattern: string): int {
    if pattern == "SHOPPING" then 30
    else if pattern == "GRINDING" then 25
    else if pattern == "URGENT" then 20
    else if pattern == "LEARNING" then 10
    else 0
  }

  /** The pattern score: the reasoner's base plus the three bonuses, capped at 100. */
  function PatternScore(base: int, topicCount: int, pattern: string, homework: bool): int {
    Min(base + RepeatBonus(topicCount) + PatternBoost(pattern) + (if homework then 15 else 0), 100)
  }

  const STRUGGLE_BY_PATTERN: map<string, StruggleState> :=
    map["GRINDING" := High, "URGENT" := High, "LEARNING" := Moderate, "SHOPPING" := Mild, "BROWSING" := NoStruggle]

  /** `_pattern_to_struggle`: a table lookup with "none" for unknown labels. */
  function PatternToStruggle(pattern: string): StruggleState {
    if pattern in STRUGGLE_BY_PATTERN then STRUGGLE_BY_PATTERN[pattern] else NoStruggle
  }

  /** `_pattern_to_intent`. */
  function PatternToIntent(topicCount: int, pattern: string, hasOpportunity: bool): IntentBucket {
    if topicCount >= REPEATED_QUERY_THRESHOLD && hasOpportunity then Commercial
    else if pattern == "SHOPPING" then Transactional
    else if pattern == "GRINDING" || pattern == "LEARNING" then Educational
    else Educational
  }

  predicate GroundingWanted(score: int, intent: IntentBucket) {
    score >= GROUNDING_SCORE || IsCommercialOrTransactional(intent)
  }

  /** The grounding search query: from the commercial opportunity, else the first subject. */
  function GroundingQuery(opportunity: Option<string>, subjects: seq<string>): Option<string> {
    var opp := opportunity.GetOr("");
    if opp != "" then Some("buy " + opp)
    else if |subjects| > 0 then Some("buy " + subjects[0])
    else None
  }

  function ReplyPatternScore(data: Reply): int {
    PatternScore(data.propensityScore.GetOr(30), data.topicRepeatCount.GetOr(0),
      data.usagePattern.GetOr("BROWSING"), data.isHomeworkPattern.GetOr(false))
  }

  function ReplyIntent(data: Reply): IntentBucket {
    PatternToIntent(data.topicRepeatCount.GetOr(0), data.usagePattern.GetOr("BROWSING"), data.commercialOpportunity.Some?)
  }

  /** The grounding query a pattern reply leads to, if grounding is wanted at all. */
  function ReplyGroundingQuery(data: Reply): Option<string> {
    if GroundingWanted(ReplyPatternScore(data), ReplyIntent(data))
    then GroundingQuery(data.commercialOpportunity, data.detectedSubjects.GetOr([]))
    else None
  }

  /** What the pattern strategy makes of a reply object. When a grounding query
      was made and the topic is safe, the search digest (a record, not a text)
      is handed to `grounding_data`, which refuses it. */
  function PatternOutcome(data: Reply): Result<IntentAnalysis, Failure> {
    var score := ReplyPatternScore(data);
    var isSafe := data.isSafeForAds.GetOr(true);
    var grounded := isSafe && ReplyGroundingQuery(data).Some?;
    Lift(NewIntentAnalysis(ReplyIntent(data), PatternToStruggle(data.usagePattern.GetOr("BROWSING")),
      if isSafe then score else 0, data.detectedSubjects.GetOr([]), data.commercialOpportunity,
      if grounded then GroundingRecord else NoGrounding, Some(data.reasoning.GetOr("")), isSafe, data.safetyReason))
  }

  function PatternAnalysis(reply: Generated, loads: string -> Decoded): IntentAnalysis {
    Recover(PATTERN_ERROR,
      match ReplyFields(reply, loads)
      case Failure(f) => Failure(f)
      case Success(data) => PatternOutcome(data))
  }

  // ---------------------------------------------------------------------
  // Multimodal strategy (specification)
  // ---------------------------------------------------------------------

  /** What the multimodal strategy makes of a reply object: struggle is always
      moderate and the reasoner's score is taken as it is, unsafe or not. */
  function MultimodalOutcome(data: Reply): Result<IntentAnalysis, Failure> {
    var bucketText := data.intentBucket.GetOr("commercial");
    match ParseBucket(bucketText)
    case None => Failure(UnknownBucket(bucketText))
    case Some(bucket) =>
      Lift(NewIntentAnalysis(bucket, Moderate, data.propensityScore.GetOr(90), entities := data.detectedEntities.GetOr([]),
        category := data.commercialOpportunity, reasoning := Some(data.reasoning.GetOr("Visual analysis")),
        isSafe := data.isSafeForAds.GetOr(true)))
  }

  function MultimodalAnalysis(reply: Generated, loads: string -> Decoded): IntentAnalysis {
    Recover(MULTIMODAL_ERROR,
      match ReplyFields(reply, loads)
      case Failure(f) => Failure(f)
      case Success(data) => MultimodalOutcome(data))
  }

  // ---------------------------------------------------------------------
  // Dispatch (specification)
  // ---------------------------------------------------------------------

  function LastMessage(messages: seq<Message>): Option<Message> {
    if |messages| > 0 then Some(messages[|messages| - 1]) else None
  }

  predicate HasImage(image: Option<string>) {
    image.Some? && image.value != ""
  }

  /** `analyze`: an image selects the multimodal strategy; otherwise fewer than
      three messages select the quick one and longer histories the pattern one. */
  function Analysis(messages: seq<Message>, image: Option<string>, demo: bool, reply: Generated, loads: string -> Decoded): IntentAnalysis {
    if HasImage(image) then MultimodalAnalysis(reply, loads)
    else if |messages| < 3 then QuickAnalysis(LastMessage(messages), demo, reply, loads)
    else PatternAnalysis(reply, loads)
  }

  // ---------------------------------------------------------------------
  // The transcript for the pattern prompt (specification)
  // ---------------------------------------------------------------------

  function RoleLabel(role: string): string {
    if role == "user" then "USER" else "ASSISTANT"
  }

  function TranscriptLine(number: nat, m: Message): string {
    "[" + NatToString(number) + "] " + RoleLabel(m.role) + ": " + PyPrefix(m.content, CONTENT_LIMIT)
  }

  /** The lines for `window`, numbered from 1. */
  function NumberedLines(window: seq<Message>): (r: seq<string>)
    ensures |r| == |window|
  {
    if window == [] then []
    else NumberedLines(window[..|window| - 1]) + [TranscriptLine(|window|, window[|window| - 1])]
  }

  function TranscriptLines(messages: seq<Message>): seq<string> {
    NumberedLines(PySliceFrom(messages, -TRANSCRIPT_WINDOW))
  }

  function Transcript(messages: seq<Message>): string {
    if messages == [] then "[No messages]" else Join(TranscriptLines(messages), "\n")
  }

  // ---------------------------------------------------------------------
  // The strategies as the source runs them
  // ---------------------------------------------------------------------

  /** `_format_conversation`: numbers the last twenty messages from 1. */
  method FormatConversation(messages: seq<Message>) returns (s: string)
    ensures s == Transcript(messages)
  {
    if messages == [] {
      return "[No messages]";
    }
    var window := PySliceFrom(messages, -TRANSCRIPT_WINDOW);
    var formatted: seq<string> := [];
    for i := 0 to |window|
      invariant formatted == NumberedLines(window[..i])
    {
      var msg := window[i];
      var role := if msg.role == "user" then "USER" else "ASSISTANT";
      formatted := formatted + ["[" + NatToString(i + 1) + "] " + role + ": " + PyPrefix(msg.content, CONTENT_LIMIT)];
      assert window[..i + 1][..i] == window[..i];
    }
    assert window[..|window|] == window;
    s := Join(formatted, "\n");
  }

  const PATTERN_BOOSTS: map<string, int> :=
    map["GRINDING" := 25, "URGENT" := 20, "LEARNING" := 10, "SHOPPING" := 30, "BROWSING" := 0]

  /** `_calculate_pattern_propensity`: adds the bonuses to the base step by step.
      The `>= 3` test after the threshold test can never hold. */
  method CalculatePatternPropensity(data: Reply) returns (score: int)
    ensures score == ReplyPatternScore(data)
  {
    var baseScore := data.propensityScore.GetOr(30);
    var topicCount := data.topicRepeatCount.GetOr(0);
    var pattern := data.usagePattern.GetOr("BROWSING");
    var isHomework := data.isHomeworkPattern.GetOr(false);
    if topicCount >= REPEATED_QUERY_THRESHOLD {
      baseScore := baseScore + 50;
    } else if topicCount >= 3 {
      baseScore := baseScore + 30;
    } else if topicCount >= 2 {
      baseScore := baseScore + 15;
    }
    baseScore := baseScore + (if pattern in PATTERN_BOOSTS then PATTERN_BOOSTS[pattern] else 0);
    if isHomework {
      baseScore := baseScore + 15;
    }
    score := Min(baseScore, 100);
  }

  /** `_quick_analyze`. */
  method QuickAnalyze(message: Option<Message>, demo: bool, reply: Generated, loads: string -> Decoded) returns (a: IntentAnalysis)
    ensures a == QuickAnalysis(message, demo, reply, loads)
  {
    if message.None? {
      return DefaultAnalysis("");
    }
    var fields := ReplyFields(reply, loads);
    if fields.Failure? {
      return DefaultAnalysis(QUICK_ERROR + Describe(fields.error));
    }
    var data := fields.value;
    var content := message.value.content;
    var hasStrongIntent := HasStrongIntent(content);
    var bucketText := data.intentBucket.GetOr("educational");
    var parsed := ParseBucket(bucketText);
    if parsed.None? {
      return DefaultAnalysis(QUICK_ERROR + Describe(UnknownBucket(bucketText)));
    }
    var intent := parsed.value;
    var struggle: StruggleState;
    var propensity: int;
    if hasStrongIntent || IsCommercialOrTransactional(intent) {
      struggle := Mild;
      propensity := 75;
      if intent == Educational {
        intent := Commercial;
      }
    } else {
      struggle := NoStruggle;
      propensity := 10;
    }
    if demo && IsCommercialOrTransactional(intent) {
      propensity := 99;
      struggle := High;
    }
    var isSafe := data.isSafeForAds.GetOr(true);
    if !isSafe {
      propensity := 0;
    }
    var built := NewIntentAnalysis(intent, struggle, propensity, entities := data.detectedEntities.GetOr([]),
      reasoning := Some("Quick analysis - heuristics applied"), isSafe := isSafe, safetyReason := data.safetyReason);
    a := Recover(QUICK_ERROR, Lift(built));
  }

  /** `_pattern_analyze`, with `search` the response the search gateway gives
      for the grounding query. */
  method PatternAnalyze(messages: seq<Message>, reply: Generated, loads: string -> Decoded, search: SerpClient.SearchResponse)
    returns (a: IntentAnalysis)
    ensures a == PatternAnalysis(reply, loads)
  {
    var conversation := FormatConversation(messages);  // the text of the reasoner prompt
    var fields := ReplyFields(reply, loads);
    if fields.Failure? {
      return DefaultAnalysis(PATTERN_ERROR + Describe(fields.error));
    }
    var data := fields.value;
    var propensity := CalculatePatternPropensity(data);
    var struggle := PatternToStruggle(data.usagePattern.GetOr("BROWSING"));
    var intent := PatternToIntent(data.topicRepeatCount.GetOr(0), data.usagePattern.GetOr("BROWSING"), data.commercialOpportunity.Some?);
    var groundingDigest: Option<SerpClient.Digest> := None;
    if propensity >= GROUNDING_SCORE || IsCommercialOrTransactional(intent) {
      var opportunity := data.commercialOpportunity.GetOr("");
      var subjects := data.detectedSubjects.GetOr([]);
      var query: Option<string>;
      if opportunity != "" {
        query := Some("buy " + opportunity);
      } else if |subjects| > 0 {
        query := Some("buy " + subjects[0]);
      } else {
        query := None;
      }
      assert query == ReplyGroundingQuery(data);
      if query.Some? {
        var digest := SerpClient.ExtractShoppingData(search, SerpClient.DEFAULT_CHAR_LIMIT);
        groundingDigest := Some(digest);
      }
    }
    assert groundingDigest.Some? <==> ReplyGroundingQuery(data).Some?;
    var isSafe := data.isSafeForAds.GetOr(true);
    if !isSafe {
      propensity := 0;
      groundingDigest := None;
    }
    var grounding := if groundingDigest.Some? then GroundingRecord else NoGrounding;
    var built := NewIntentAnalysis(intent, struggle, propensity, data.detectedSubjects.GetOr([]),
      data.commercialOpportunity, grounding, Some(data.reasoning.GetOr("")), isSafe, data.safetyReason);
    assert Lift(built) == PatternOutcome(data);
    a := Recover(PATTERN_ERROR, Lift(built));
  }

  /** `_multimodal_analyze`. */
  method MultimodalAnalyze(reply: Generated, loads: string -> Decoded) returns (a: IntentAnalysis)
    ensures a == MultimodalAnalysis(reply, loads)
  {
    var fields := ReplyFields(reply, loads);
    if fields.Failure? {
      return DefaultAnalysis(MULTIMODAL_ERROR + Describe(fields.error));
    }
    var data := fields.value;
    var bucketText := data.intentBucket.GetOr("commercial");
    var bucket := ParseBucket(bucketText);
    if bucket.None? {
      return DefaultAnalysis(MULTIMODAL_ERROR + Describe(UnknownBucket(bucketText)));
    }
    var built := NewIntentAnalysis(bucket.value, Moderate, data.propensityScore.GetOr(90), entities := data.detectedEntities.GetOr([]),
      category := data.commercialOpportunity, reasoning := Some(data.reasoning.GetOr("Visual analysis")),
      isSafe := data.isSafeForAds.GetOr(true));
    a := Recover(MULTIMODAL_ERROR, Lift(built));
  }

  /** `analyze`. */
  method Analyze(messages: seq<Message>, image: Option<string>, demo: bool, reply: Generated,
                 loads: string -> Decoded, search: SerpClient.SearchResponse) returns (a: IntentAnalysis)
    ensures a == Analysis(messages, image, demo, reply, loads)
  {
    if HasImage(image) {
      a := MultimodalAnalyze(reply, loads);
    } else if |messages| < 3 {
      a := QuickAnalyze(LastMessage(messages), demo, reply, loads);
    } else {
      a := PatternAnalyze(messages, reply, loads, search);
    }
  }
}
