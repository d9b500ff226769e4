/**
  One conversation turn through the whole decision pipeline: the classifier
  reads the history, the trigger decides whether a nudge is looked for, the
  resolver finds one, and the synthesizer's gate decides whether it reaches
  the prompt. The reasoner's verdict, the search response and the reasoner's
  answers are inputs.
*/
module Pipeline {
  import opened Basics
  import opened Models
  import SerpClient
  import opened PulseMonitor
  import opened AxonRegistry
  import opened Synthesizer
  import PulseProperties
  import AxonProperties
  import SynthesizerProperties

  /** The nudge a turn resolves: one is looked for only when the analysis triggers. */
  function TurnNudge(
    messages: seq<Message>, image: Option<string>, demo: bool, verdict: Generated, loads: string -> Decoded,
    apiKey: string, network: SerpClient.SearchResponse): Option<Nudge>
  {
    var a := Analysis(messages, image, demo, verdict, loads);
    if ShouldTriggerNudge(a) then NudgeFor(a, apiKey, network) else None
  }

  /** A turn as the chat endpoint runs it: analyse, check the trigger, find a
      nudge, and generate the response with it. */
  method Turn(
    messages: seq<Message>, image: Option<string>, demo: bool, verdict: Generated, loads: string -> Decoded,
    grounding: SerpClient.SearchResponse, apiKey: string, network: SerpClient.SearchResponse,
    userMessage: string, context: string, answer: Generated, fallback: Generated)
    returns (a: IntentAnalysis, nudge: Option<Nudge>, prompt: string, response: string)
    ensures a == Analysis(messages, image, demo, verdict, loads)
    ensures nudge == TurnNudge(messages, image, demo, verdict, loads, apiKey, network)
    ensures prompt == Prompt(userMessage, context, nudge)
    ensures response == ResponseText(answer, fallback)
  {
    a := Analyze(messages, image, demo, verdict, loads, grounding);
    nudge := None;
    if ShouldTriggerNudge(a) {
      nudge := FindNudge(a, apiKey, network);
    }
    prompt, response := GenerateResponse(userMessage, context, nudge, answer, fallback);
  }

  // ---------------------------------------------------------------------
  // Safety across the pipeline
  // ---------------------------------------------------------------------

  /** An analysis that is not safe for ads never brings a nudge into the prompt. */
  lemma UnsafeAnalysisShowsNoNudge(
    messages: seq<Message>, image: Option<string>, demo: bool, verdict: Generated, loads: string -> Decoded,
    apiKey: string, network: SerpClient.SearchResponse)
    requires !Analysis(messages, image, demo, verdict, loads).isSafeForAds
    ensures TurnNudge(messages, image, demo, verdict, loads, apiKey, network) == None
    ensures NudgeSection(TurnNudge(messages, image, demo, verdict, loads, apiKey, network)) == NO_NUDGE
  {
  }

  /** A verdict that calls the topic unsafe for ads keeps every nudge out of
      the prompt, whichever strategy answered. */
  lemma UnsafeVerdictShowsNoNudge(
    messages: seq<Message>, image: Option<string>, demo: bool, verdict: Generated, loads: string -> Decoded,
    apiKey: string, network: SerpClient.SearchResponse)
    requires ReplyFields(verdict, loads).Success?
    requires ReplyFields(verdict, loads).value.isSafeForAds == Some(false)
    ensures TurnNudge(messages, image, demo, verdict, loads, apiKey, network) == None
    ensures NudgeSection(TurnNudge(messages, image, demo, verdict, loads, apiKey, network)) == NO_NUDGE
  {
    PulseProperties.UnsafeVerdictNeverTriggers(messages, image, demo, verdict, loads);
  }

  /** When the reasoner fails, the turn has no nudge. */
  lemma FailedVerdictShowsNoNudge(
    messages: seq<Message>, image: Option<string>, demo: bool, detail: string, loads: string -> Decoded,
    apiKey: string, network: SerpClient.SearchResponse)
    ensures TurnNudge(messages, image, demo, GenerationFailed(detail), loads, apiKey, network) == None
  {
    PulseProperties.FailedReasonerNeverTriggers(messages, image, demo, detail, loads);
  }

  // ---------------------------------------------------------------------
  // The gate after the trigger
  // ---------------------------------------------------------------------

  /** A nudge the turn finds reaches the prompt exactly when the analysis is
      commercial or transactional or its struggle is at least moderate. */
  lemma FoundNudgeIncludedIff(
    messages: seq<Message>, image: Option<string>, demo: bool, verdict: Generated, loads: string -> Decoded,
    apiKey: string, network: SerpClient.SearchResponse)
    requires TurnNudge(messages, image, demo, verdict, loads, apiKey, network).Some?
    ensures
      var a := Analysis(messages, image, demo, verdict, loads);
      NudgeSection(TurnNudge(messages, image, demo, verdict, loads, apiKey, network)) != NO_NUDGE
      <==> IsCommercialOrTransactional(a.intentBucket) || a.struggleState == Moderate || a.struggleState == High
  {
    var a := Analysis(messages, image, demo, verdict, loads);
    var nudge := TurnNudge(messages, image, demo, verdict, loads, apiKey, network);
    AxonProperties.FoundNudgeRelevance(a, apiKey, network);
    AxonProperties.RelevanceValues(a.intentBucket, a.struggleState);
    SynthesizerProperties.GateIsInclusiveThreshold(nudge);
  }

  /** An analysis that triggers on its score alone, with an educational or
      navigational intent and at most mild struggle, finds a nudge of
      relevance 0.60 that the gate then drops. */
  lemma ScoreOnlyTriggerIsDropped(
    messages: seq<Message>, image: Option<string>, demo: bool, verdict: Generated, loads: string -> Decoded,
    apiKey: string, network: SerpClient.SearchResponse)
    requires
      var a := Analysis(messages, image, demo, verdict, loads);
      !IsCommercialOrTransactional(a.intentBucket) && (a.struggleState == NoStruggle || a.struggleState == Mild)
    ensures
      var nudge := TurnNudge(messages, image, demo, verdict, loads, apiKey, network);
      && (nudge.Some? ==> nudge.value.relevanceScore == 60)
      && NudgeSection(nudge) == NO_NUDGE
  {
    var a := Analysis(messages, image, demo, verdict, loads);
    var nudge := TurnNudge(messages, image, demo, verdict, loads, apiKey, network);
    AxonProperties.FoundNudgeRelevance(a, apiKey, network);
    SynthesizerProperties.GateIsInclusiveThreshold(nudge);
  }

  // ---------------------------------------------------------------------
  // Longer conversations
  // ---------------------------------------------------------------------

  /** A turn with three or more messages and no image never finds a nudge.
      A pattern analysis triggers only when it is safe and its score reaches
      70 or its intent is commercial or transactional; a score of 60 or
      either intent already makes it look for grounding. A safe analysis
      survives validation only when no grounding query arises, that is, with
      no commercial opportunity and no detected subjects; without subjects it
      has no entities, and `find_nudge` returns nothing. */
  lemma PatternTurnNeverNudges(
    messages: seq<Message>, image: Option<string>, demo: bool, verdict: Generated, loads: string -> Decoded,
    apiKey: string, network: SerpClient.SearchResponse)
    requires !HasImage(image) && |messages| >= 3
    ensures TurnNudge(messages, image, demo, verdict, loads, apiKey, network) == None
  {
    var a := Analysis(messages, image, demo, verdict, loads);
    assert a == PatternAnalysis(verdict, loads);
    var fields := ReplyFields(verdict, loads);
    if fields.Failure? || PatternOutcome(fields.value).Failure? {
      var f := if fields.Failure? then fields.error else PatternOutcome(fields.value).error;
      PulseProperties.DefaultNeverTriggers(PATTERN_ERROR + Describe(f));
    } else if ShouldTriggerNudge(a) {
      var data := fields.value;
      PulseProperties.PatternOutcomeSucceeds(data);
      assert a.detectedEntities == data.detectedSubjects.GetOr([]);
      assert a.detectedEntities == [];
    }
  }
}
