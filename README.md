# AXON nudge decision pipeline in Dafny

This project models the part of Project AXON that decides, on each
conversation turn, whether a product recommendation (a "nudge") goes into
the assistant's reply, and which one. It covers five components:

- **Pulse monitor** (`pulse_monitor.dfy`). The intent classifier.
  - It has three strategies: quick, pattern and multimodal.
  - The pattern-propensity scorer, the usage-pattern tables and the grounding query.
  - The safety zeroing, the JSON fence stripping, and the default analysis on every failure.
  - The nudge trigger.
- **AXON registry** (`axon_registry.dfy`). The nudge resolver.
  - It builds the shopping query, picks the result and computes relevance additively.
  - It writes the nudge sentence with a percent-encoded Markdown link.
  - It falls back to an offline catalogue routed by keywords.
- **Models** (`models.dfy`).
  - The enums, and the record bounds that construction enforces.
  - The conversation state, whose message list only grows.
- **Search client** (`serp_client.dfy`). The missing-key short cut of `search`, and the bounded text digest `extract_shopping_data`.
- **Synthesizer** (`synthesizer.dfy`). The 0.70 relevance gate, the nudge section of the prompt, the optional conversation context, and the fallbacks when the reasoner fails.

`pipeline.dfy` composes the components for one turn:
analyse → trigger → resolve → gate.

Some things sit outside the model and become inputs:

- The language model ("reasoner") answer is a `Generated` value: a text or a failure.
- `json.loads` is an arbitrary total function `loads` from text to `NotJson`, a JSON object of optional fields, or another JSON value.
- The search API's answer is a `SearchResponse`.

Functions state what each operation computes. The source's step-by-step
code becomes methods proved equal to those functions:

- the propensity calculation, the transcript loop and the three strategies;
- the nudge text, the nudge record and `find_nudge`;
- the digest loop, the nudge section and `generate_response`;
- `add_message`.

The `*_properties.dfy` files prove what the source promises about them.

Relevance is held in integer hundredths, so 0.75 is `75`. The two
configuration thresholds are `Config.CONVERSION_THRESHOLD` (70) and
`Config.MIN_RELEVANCE_SCORE` (70 hundredths), from `backend/config.py` lines 32-33.

### Where the code departs from its own comments and tests (the model follows the code)

- **Multimodal safety.** `tests/test_safety.py` lines 62-64 require the score to be 0 whenever an analysis is unsafe for ads. The pattern and quick strategies do this. The multimodal strategy does not: it keeps the reasoner's score, default 90 (`MultimodalKeepsUnsafeScore`). The trigger still refuses such an analysis, because it checks safety first.
- **Grounding.** The comment at `backend/pulse_monitor.py` line 230 says a commercial opportunity or a high score makes the pattern strategy ground itself with a search. The code then passes the digest dictionary to a text-typed field, so validation fails. A safe, grounded pattern analysis therefore becomes the default analysis (`GroundedPatternFallsBack`). No analysis ever carries grounding (`NoAnalysisCarriesGrounding`).
- **Longer conversations never nudge without an image.** Every pattern analysis that would trigger also looks for grounding, and so fails as above. From three messages on, the pattern strategy is used, and a turn without an image finds no nudge at all (`PatternTurnNeverNudges`). `backend/main.py` line 141 appends the assistant's reply each turn, so this holds from the second user turn on. `tests/reproduce_issue.py` walks through the same three-turn conversation.
- **Trigger rule.** The docstring of `should_trigger_nudge` (`backend/pulse_monitor.py` line 405) asks for commercial intent with moderate or higher struggle. The code at lines 412-420 accepts commercial or transactional intent with any struggle other than none (`TriggerRequiresSafety`).
- **Empty search results.** The comment at `backend/axon_registry.py` line 54 says the catalogue is the fallback when the API fails or is not configured. The code uses the catalogue only on an error or an entirely empty response. Any other response without shopping results gives no nudge (`FirstShoppingResultWins`).
- **Empty source.** The call to action at `backend/axon_registry.py` line 104 is "Check it out at " plus the source as given. A present but empty source therefore yields "Check it out at " with nothing after it.

## Model

| member | source | states |
|---|---|---|
| `Models.ParseBucket` | backend/models.py:12-17 | `IntentBucket(s)` succeeds exactly for the four bucket values, and the value it returns is the one parsed |
| `Models.ParseBucketRoundTrip` | backend/models.py:12-17 | parsing a bucket's value gives the bucket back |
| `Models.NewIntentAnalysis` | backend/models.py:35-45 | an analysis is built iff the score is in 0..100 and the grounding is not a structured record; every field is then as given, and an omitted field takes the record's default |
| `Models.RequiredFieldsOnly` | backend/models.py:40-45 | given only bucket, struggle and score, the analysis has no entities, category, grounding, reasoning or safety reason, and is safe for ads |
| `Models.NewNudge` | backend/models.py:48-56 | a nudge is built iff the relevance is in 0.00..1.00; every field is then as given |
| `Models.ConversationState.constructor` | backend/models.py:59-66 | a fresh session has no messages, no current intent, no nudges shown and zero revenue |
| `Models.ConversationState.AddMessage` | backend/models.py:68-70 | exactly one message with the given role and content is appended at the end; the earlier messages are unchanged |
| `Models.ConversationState.GetRecentMessages` | backend/models.py:72-74 | the last min(n, len) messages in order for n ≥ 1; the whole list for n = 0; Python's slice rule for negative n |
| `SerpClient.Search` | backend/serp_client.py:28-29 | without an API key the result is the error map "SERP_API_KEY not configured"; with a key it is the network's response |
| `SerpClient.ShoppingLines` | backend/serp_client.py:64-82 | one line per item, line k being the k-th item's formatted line |
| `SerpClient.OrganicLines` | backend/serp_client.py:85-89 | one "- title: snippet" line per organic item, in order |
| `SerpClient.ExtractShoppingData` | backend/serp_client.py:51-94 | the loop's text and images equal the digest specification |
| `SerpClient.ThumbnailsAreItemThumbnails` | backend/serp_client.py:70-73 | every collected image is the non-empty thumbnail of some item, and there are no more images than items |
| `SerpClient.DigestBounds` | backend/serp_client.py:91-94 | the text is at most the character limit; there are at most 2 images, each the thumbnail of one of the first 3 shopping results |
| `SerpClient.ErrorGivesEmptyDigest` | backend/serp_client.py:56-57 | an error response gives empty text and no images |
| `SerpClient.ShoppingTakesPrecedence` | backend/serp_client.py:63-89 | when shopping results are present the organic results make no difference |
| `SerpClient.DigestLineCount` | backend/serp_client.py:63-89 | one line for each of the first 3 shopping (or else organic) results; organic results give no images |
| `SerpClient.ShoppingLineDefaults` | backend/serp_client.py:65-80 | absent keys show "Unknown Product", "N/A" and "Unknown Seller", and a falsy rating adds no suffix |
| `PulseMonitor.ParseJson` | backend/pulse_monitor.py:376-386 | parsing fails exactly when fence stripping fails; otherwise a decode error yields the empty object, and any decoded object is returned unchanged |
| `PulseMonitor.DefaultAnalysisUsesDefaults` | backend/pulse_monitor.py:388-396 | the default analysis is the record built from educational, no struggle, score 0, no entities and the given reason (or "Default analysis"), every other field at its default; it is safe and carries no grounding |
| `PulseMonitor.FencedReplyUnwrapped` | backend/pulse_monitor.py:378-381 | a reply fenced as ```tag newline body ``` is cleaned to exactly its body |
| `PulseMonitor.UnfencedReplyOnlyStripped` | backend/pulse_monitor.py:378-379 | a reply that does not open with a fence is only stripped |
| `PulseMonitor.RepeatBonus` | backend/pulse_monitor.py:311-317 | the repeat bonus is 0, 15 or 50; the `elif >= 3` branch never fires |
| `PulseMonitor.NumberedLines` | backend/pulse_monitor.py:369-372 | one transcript line per message of the window |
| `PulseMonitor.FormatConversation` | backend/pulse_monitor.py:364-374 | the loop's output equals the transcript specification |
| `PulseMonitor.CalculatePatternPropensity` | backend/pulse_monitor.py:301-333 | the step-by-step score equals the pattern score of the reply's fields |
| `PulseMonitor.QuickAnalyze` | backend/pulse_monitor.py:150-204 | the quick strategy as written equals its specification |
| `PulseMonitor.PatternAnalyze` | backend/pulse_monitor.py:206-271 | the pattern strategy as written equals its specification, whatever the grounding search returns |
| `PulseMonitor.MultimodalAnalyze` | backend/pulse_monitor.py:273-299 | the multimodal strategy as written equals its specification |
| `PulseMonitor.Analyze` | backend/pulse_monitor.py:134-148 | the dispatcher as written equals the dispatch specification |
| `PulseProperties.ImageIgnoresHistoryAndDemo` | backend/pulse_monitor.py:139-141 | with an image the multimodal strategy answers, whatever the history and the demo flag |
| `PulseProperties.DemoOnlyAffectsQuick` | backend/pulse_monitor.py:139-148 | the demo flag makes no difference with an image or with 3 or more messages |
| `PulseProperties.NoHistoryGivesDefault` | backend/pulse_monitor.py:143-153 | an empty history without an image gives the default analysis, with reasoning "Default analysis" |
| `PulseProperties.TriggerExamples` | backend/pulse_monitor.py:398-420 | 69/educational/none does not trigger; 70 does; 69/commercial/mild does; 69/commercial/none does not; an unsafe analysis never does |
| `PulseProperties.TriggerRequiresSafety` | backend/pulse_monitor.py:407-420 | a nudge triggers iff the analysis is safe and (score ≥ 70, or commercial/transactional with some struggle) |
| `PulseProperties.DefaultNeverTriggers` | backend/pulse_monitor.py:388-396 | the default analysis has score 0 and no grounding, and never triggers |
| `PulseProperties.RecoverIsDefaultOnFailure` | backend/pulse_monitor.py:203-204 | any failure in a strategy becomes the default analysis with the error as its reason, and it never triggers |
| `PulseProperties.FailedReasonerNeverTriggers` | backend/pulse_monitor.py:155-204 | when the reasoner call fails, every strategy gives score 0 and no trigger |
| `PulseProperties.FencedReplyDecodesBody` | backend/pulse_monitor.py:376-386 | a fenced JSON object reply decodes to the body's fields |
| `PulseProperties.FenceWithoutNewlineFails` | backend/pulse_monitor.py:379-380 | a reply that opens with a fence but has no newline fails |
| `PulseProperties.UndecodableReplyIsEmptyObject` | backend/pulse_monitor.py:383-386 | text that is not JSON reads as the empty object |
| `PulseProperties.QuickFailsOnlyOnUnknownBucket` | backend/pulse_monitor.py:171 | the quick strategy fails exactly when the bucket string is not one of the four values |
| `PulseProperties.QuickHeuristics` | backend/pulse_monitor.py:166-202 | keyword or commercial/transactional: score 75, mild, educational upgraded to commercial; otherwise 10 and none; demo with commercial/transactional forces 99 and high; unsafe forces 0 after all of this |
| `PulseProperties.OpeningNeedIsStrongIntent` | backend/pulse_monitor.py:167-169 | a message that opens with "i need", in any case, has strong intent |
| `PulseProperties.KeywordLiftsEducational` | backend/pulse_monitor.py:174-178 | a keyword message with an educational verdict becomes commercial, mild, 75, and triggers |
| `PulseProperties.PatternScoreExamples` | backend/pulse_monitor.py:306-333 | (30, 4, GRINDING, homework) gives 100; (20, 1, BROWSING) gives 20; (30, 2, LEARNING) gives 55; (40, 3, SHOPPING) gives 100 |
| `PulseProperties.PatternScoreBounds` | backend/pulse_monitor.py:312-333 | the score is at most 100 and at least min(base, 100); without repeats, boost or homework it is min(base, 100) |
| `PulseProperties.PatternScoreMonotoneInRepeats` | backend/pulse_monitor.py:312-317 | more topic repeats never lower the score |
| `PulseProperties.PatternStruggleTable` | backend/pulse_monitor.py:335-344 | GRINDING and URGENT map to high, LEARNING to moderate, SHOPPING to mild, and anything else to none |
| `PulseProperties.PatternBoostTable` | backend/pulse_monitor.py:320-327 | the pattern boost is the table's entry, 0 for an unknown pattern, and at most 30 |
| `PulseProperties.PatternIntentTable` | backend/pulse_monitor.py:346-362 | commercial iff repeats ≥ 3 with an opportunity key; else transactional iff SHOPPING; never navigational |
| `PulseProperties.GroundingQueryShape` | backend/pulse_monitor.py:234-243 | a query exists iff there is a non-empty opportunity or a subject; it is "buy " + the opportunity, else "buy " + the first subject |
| `PulseProperties.PatternOutcomeSucceeds` | backend/pulse_monitor.py:221-266 | the pattern analysis is built iff the verdict is unsafe or no grounding query arises; its struggle, bucket and score (0 when unsafe) follow the tables |
| `PulseProperties.ShoppingOpportunityIsGrounded` | backend/pulse_monitor.py:230-243 | a SHOPPING verdict with a non-empty commercial opportunity asks for grounding with the query "buy " + the opportunity |
| `PulseProperties.GroundedPatternFallsBack` | backend/pulse_monitor.py:245-271 | a safe verdict with a score in range that leads to a grounding query fails validation on `grounding_data` and ends as the default analysis, which does not trigger |
| `PulseProperties.RunningShoesFallBack` | backend/pulse_monitor.py:230-271 | a safe SHOPPING verdict about "running shoes" ends as the default analysis |
| `PulseProperties.MultimodalFields` | backend/pulse_monitor.py:289-297 | the multimodal analysis is built iff the bucket parses and the score is in range; struggle is always moderate and the score defaults to 90 |
| `PulseProperties.MultimodalKeepsUnsafeScore` | backend/pulse_monitor.py:289-297 | an unsafe multimodal verdict keeps score 90, yet does not trigger |
| `PulseProperties.UnsafeVerdictNeverTriggers` | backend/pulse_monitor.py:189-192 | an unsafe verdict never triggers a nudge, whichever strategy answers |
| `PulseProperties.UnsafeScoresZeroWithoutImage` | backend/pulse_monitor.py:250-254 | without an image, an unsafe analysis has score 0 |
| `PulseProperties.NoAnalysisCarriesGrounding` | backend/pulse_monitor.py:248-262 | no analysis the classifier returns carries grounding data |
| `PulseProperties.OutcomesCarryNoGrounding` | backend/pulse_monitor.py:248-262 | whenever the quick, pattern or multimodal record is built, its grounding field is empty |
| `PulseProperties.NumberedLinesAt` | backend/pulse_monitor.py:370-372 | the k-th transcript line is numbered k + 1 and shows the k-th message |
| `PulseProperties.TranscriptShowsLastTwenty` | backend/pulse_monitor.py:364-374 | the transcript has min(len, 20) lines, numbered from 1 over the last 20 messages, with role USER or ASSISTANT and at most 500 characters of content |
| `PulseProperties.EmptyTranscript` | backend/pulse_monitor.py:366-367 | an empty history gives "[No messages]" |
| `AxonRegistry.GenerateNudgeText` | backend/axon_registry.py:108-154 | the sentence built clause by clause equals the nudge text specification |
| `AxonRegistry.CreateNudge` | backend/axon_registry.py:71-106 | the accumulated relevance and the record equal the nudge specification |
| `AxonRegistry.FindNudge` | backend/axon_registry.py:20-69 | `find_nudge` as written equals the selection specification; its unreachable "high" test changes nothing |
| `AxonProperties.ModifierCases` | backend/axon_registry.py:41-46 | " best buy" iff moderate struggle outside an educational intent; tutoring iff educational or high; nothing otherwise |
| `AxonProperties.QueryUsesFirstThreeEntities` | backend/axon_registry.py:39 | only the first three entities, space-separated, start the query |
| `AxonProperties.RelevanceValues` | backend/axon_registry.py:77-90 | relevance is one of 0.60, 0.70, 0.75, 0.85, 0.90, at most 0.90, and at least 0.70 iff commercial/transactional or moderate/high struggle |
| `AxonProperties.RelevanceExamples` | backend/axon_registry.py:78-90 | 0.6 + 0.15 + 0.10 = 0.85, and three other combinations |
| `AxonProperties.NudgeFromAlwaysBuilds` | backend/axon_registry.py:93-106 | the record always passes validation, with the chosen link, the default names and the call to action |
| `AxonProperties.NudgeTextParts` | backend/axon_registry.py:141-152 | the sentence is the prefix clause, the optional price and rating clauses, and the closing, in that order |
| `AxonProperties.ClosingEndsWithStop` | backend/axon_registry.py:149-152 | the closing clause ends with "." |
| `AxonProperties.NudgeTextShape` | backend/axon_registry.py:110-154 | the sentence opens with the struggle prefix, contains the product reference, and ends with "." |
| `AxonProperties.SafeLinkAppearsVerbatim` | backend/axon_registry.py:113-117 | a link made only of safe characters appears verbatim as the target of `[**title**](link)` |
| `AxonProperties.LinkTargetIsSafe` | backend/axon_registry.py:113-117 | the quoted target holds only safe characters, so no ")" can close the link early |
| `AxonProperties.NoEntitiesNoNudge` | backend/axon_registry.py:35-36 | with no entities there is no nudge |
| `AxonProperties.MissingKeyUsesCatalogue` | backend/axon_registry.py:50-56 | without an API key the catalogue record for the query makes the nudge |
| `AxonProperties.FirstShoppingResultWins` | backend/axon_registry.py:53-65 | with shopping results the first one alone makes the nudge; an empty shopping list, or a non-empty response without shopping results, gives none |
| `AxonProperties.FoundNudgeRelevance` | backend/axon_registry.py:78-101 | a found nudge carries the analysis's relevance, at most 0.90 |
| `AxonProperties.MockRoutingOrder` | backend/axon_registry.py:156-200 | plumbing words win, then tutoring words, then laptop words; the generic record keeps the literal `{query}` link |
| `AxonProperties.TutoringModifierIsLowerCase` | backend/axon_registry.py:44 | the tutoring modifier is already lower case |
| `AxonProperties.TutoringModifierHasTutoring` | backend/axon_registry.py:44 | the tutoring modifier contains "tutoring" |
| `AxonProperties.ModifierMentionsTutoring` | backend/axon_registry.py:44 | any query ending in the tutoring modifier mentions a tutoring word |
| `AxonProperties.TutoringQueryGetsBrilliant` | backend/axon_registry.py:42-44 | an educational or high-struggle query without plumbing words gets the Brilliant record |
| `AxonProperties.FaucetQuery` | tests/test_clickable_nudge.py:15-21 | a transactional, mildly struggling analysis with entities faucet, repair, kit searches for "faucet repair kit" |
| `AxonProperties.FaucetOpeningIsPlumbing` | backend/axon_registry.py:160-162 | a query opening with "faucet" is a plumbing query |
| `AxonProperties.FaucetQueryIsLowerCase` | backend/axon_registry.py:160 | "faucet repair kit" is unchanged by lower-casing and opens with "faucet" |
| `AxonProperties.DeltaPieceIsSafe` | backend/axon_registry.py:169 | each piece of the Delta store address consists of safe characters |
| `AxonProperties.LinkSafeConcat` | backend/axon_registry.py:116 | joining two safe texts gives a safe text |
| `AxonProperties.DeltaLinkIsSafe` | backend/axon_registry.py:169 | the Delta store address needs no quoting |
| `AxonProperties.FaucetQueryOpensWithFaucet` | tests/test_clickable_nudge.py:15-21 | that analysis's query, lower-cased, opens with "faucet" |
| `AxonProperties.FaucetQueryGetsDelta` | backend/axon_registry.py:53-56 | without an API key a faucet query makes its nudge from the Delta record |
| `AxonProperties.PlainSafeLinkNudge` | backend/axon_registry.py:93-117 | a record with only a safe plain link yields a nudge linking its title to that address verbatim |
| `AxonProperties.FaucetQueryNudge` | backend/axon_registry.py:53-56 | without an API key a faucet query gets the Delta kit nudge, with the store link shown verbatim |
| `AxonProperties.ClickableFaucetNudge` | tests/test_clickable_nudge.py:33-34 | that analysis, without an API key and whatever the network would answer, gets the Delta kit at relevance 0.75 with the store link, and its sentence contains `[**name**](link)` verbatim |
| `Synthesizer.FormatNudgeSection` | backend/synthesizer.py:97-113 | the lines list, built by appends, joins to the section specification |
| `Synthesizer.GenerateResponse` | backend/synthesizer.py:50-95 | the prompt built is the prompt specification, and the response is the stripped answer, else the fallback's answer |
| `SynthesizerProperties.SectionOpening` | backend/synthesizer.py:99-101 | a section opens with the header line, then the product line |
| `SynthesizerProperties.GateIsInclusiveThreshold` | backend/synthesizer.py:68-71 | the section is other than "No nudge to include." iff a nudge is present with relevance ≥ 0.70; it then opens with the header |
| `SynthesizerProperties.GateBoundary` | backend/synthesizer.py:68 | relevance 0.69 is dropped and 0.70 is kept |
| `SynthesizerProperties.SectionLayout` | backend/synthesizer.py:99-111 | header, Product, Vendor, Relevance (as a percentage) and Suggested phrasing in order, then local availability and call to action, each only when non-empty |
| `SynthesizerProperties.LineInitials` | backend/synthesizer.py:99-111 | only the local-availability line starts with "L", and only the call-to-action line starts with "C" |
| `SynthesizerProperties.OptionalLinesOnlyWhenSet` | backend/synthesizer.py:107-111 | a local-availability or call-to-action line is present iff that field is non-empty |
| `SynthesizerProperties.SectionShowsEveryLine` | backend/synthesizer.py:113 | every line occurs in the joined section of an included nudge |
| `SynthesizerProperties.PercentExamples` | backend/synthesizer.py:103 | 0.70, 0.75 and 1.00 show as "70%", "75%" and "100%" |
| `SynthesizerProperties.ContextOnlyPrefixes` | backend/synthesizer.py:79-80 | the prompt opens with "CONVERSATION CONTEXT:" iff the context is non-empty, and the context only prefixes the context-free prompt |
| `SynthesizerProperties.BodyCarriesMessageAndSection` | backend/synthesizer.py:31-38 | the filled template contains the user message, the section and the instruction, in that order |
| `SynthesizerProperties.PromptCarriesMessageAndSection` | backend/synthesizer.py:73-80 | the prompt, with or without context, contains the user message, the section and the instruction |
| `SynthesizerProperties.ResponseCases` | backend/synthesizer.py:82-124 | an answer comes back trimmed and taken from the answer; on failure the fallback's answer comes back unstripped; if both fail, the apology |
| `Text.StripTrims` | backend/synthesizer.py:91 | a stripped text neither starts nor ends with whitespace and occurs in the original |
| `Text.JoinContainsEach` | backend/synthesizer.py:113 | every element of a join occurs in the joined text |
| `Text.QuoteKeepsSafeLink` | backend/axon_registry.py:116 | quoting leaves a text of safe characters unchanged |
| `Text.QuoteOutputIsSafe` | backend/axon_registry.py:116 | every character of a quoted text is a safe one |
| `Pipeline.Turn` | backend/main.py:115-139 | one turn runs analyse, trigger, resolve and synthesise; each result equals its specification |
| `Pipeline.UnsafeAnalysisShowsNoNudge` | backend/pulse_monitor.py:407-409 | an analysis unsafe for ads gets no nudge, and the prompt says "No nudge to include." |
| `Pipeline.UnsafeVerdictShowsNoNudge` | backend/pulse_monitor.py:189-192 | an unsafe verdict keeps every nudge out of the prompt |
| `Pipeline.FailedVerdictShowsNoNudge` | backend/pulse_monitor.py:203-204 | a failed reasoner call yields no nudge |
| `Pipeline.FoundNudgeIncludedIff` | tests/reproduce_issue.py:42-56 | a found nudge reaches the prompt iff the analysis is commercial/transactional or its struggle is moderate or high; the gate is one of two causes of a missing nudge, the other being `PatternTurnNeverNudges` |
| `Pipeline.ScoreOnlyTriggerIsDropped` | tests/reproduce_issue.py:42-56 | an educational or navigational analysis with at most mild struggle finds only 0.60 nudges, which the gate drops (on pattern turns no nudge is found to begin with) |
| `Pipeline.PatternTurnNeverNudges` | backend/pulse_monitor.py:143-148 | from three messages on, a turn without an image never finds a nudge, whatever the reasoner replies |

## Left out

- The reasoner calls. The HTTP request inside `search`, and the reasoner calls in the classifier and the synthesizer, are not modelled. Their results are inputs. The prompt texts, temperatures and token limits are not modelled, nor are the prompt texts sent to the classifier's reasoner.
- The grounding search result. In `PatternAnalyze` it is an input. For every well-formed reply it cannot change the outcome, as explained above.
- Search items. Each item field (`title`, `price`, `source`, `snippet`) is present or absent, and text when present. JSON `null` or a value of another type is not modelled.
- The search location. It only parametrises the network call, so it plays no part.
- `json.loads`. It is a parameter. JSON `null` and values of the wrong type in the reasoner's reply are not modelled. Each reply field is present or absent, with the type the source expects.
- Errors raised while building the nudge record. An exception inside `find_nudge`'s `try` block returns `None` in the source. The model builds records from typed fields, which cannot raise, so that handler is never reached.
- Exception message texts. A failure's description (`PulseMonitor.Describe`) stands in for Python's exception text. Only the prefix of the default analysis's reasoning is exact.
- Ratings. A rating is a flag "float(rating) ≥ 4.5" plus how it prints; float parsing is not modelled.
- Relevance. It is held in hundredths, not as a binary float. `:.0%` formatting is rendered as the decimal of the hundredths followed by "%".
- Case and text. Lower-casing and title-casing map ASCII letters only. Other characters are unchanged.
- Percent-encoding. `urllib.parse.quote` is modelled character by character with a UTF-8 encoding. Surrogate code points cannot occur in a Dafny `string`.
- Timestamps. Message timestamps and the session creation time are not modelled.
- `backend/main.py` is not part of this model beyond the order of the four steps in `Pipeline.Turn`. This covers session bookkeeping, revenue, analytics and the recent-message context string it builds.
- Async scheduling, printing and traceback logging are not modelled.
