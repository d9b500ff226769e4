/**
  What the synthesizer promises: the relevance gate is inclusive at 0.70 and
  otherwise leaves the fixed "no nudge" line, the section has its five fixed
  lines in order followed by the optional ones, the context only ever
  prefixes the prompt, and the returned text is the trimmed answer, the
  fallback's answer, or the apology.
*/
module SynthesizerProperties {
  import opened Basics
  import opened Text
  import opened Models
  import Config
  import SerpClient
  import opened PulseMonitor
  import opened Synthesizer

  // ---------------------------------------------------------------------
  // The relevance gate
  // ---------------------------------------------------------------------

  /** A section built from a nudge opens with the header line and the product line. */
  lemma SectionOpening(n: Nudge)
    ensures StartsWith(Join(SectionLines(n), "\n"), SECTION_HEADER + "\n" + "Product: " + n.productName + "\n")
  {
    var lines := SectionLines(n);
    var rest := Join(lines[2..], "\n");
    assert lines[1..][1..] == lines[2..];
    assert Join(lines, "\n") == SECTION_HEADER + "\n" + ("Product: " + n.productName + "\n" + rest);
  }

  /** The section differs from the "no nudge" line exactly when a nudge is
      present and its relevance is at least 0.70. */
  lemma GateIsInclusiveThreshold(nudge: Option<Nudge>)
    ensures NudgeSection(nudge) != NO_NUDGE <==> nudge.Some? && nudge.value.relevanceScore >= 70
    ensures NudgeSection(nudge) != NO_NUDGE ==> StartsWith(NudgeSection(nudge), SECTION_HEADER + "\n")
  {
    if Included(nudge) {
      var section := NudgeSection(nudge);
      SectionOpening(nudge.value);
      assert section[0] == 'A';
      assert NO_NUDGE[0] == 'N';
      assert section[..|SECTION_HEADER + "\n"|] == (SECTION_HEADER + "\n" + "Product: " + nudge.value.productName + "\n")[..|SECTION_HEADER + "\n"|];
    }
  }

  /** At the boundary: 0.69 is dropped, 0.70 is kept. */
  lemma GateBoundary(n: Nudge)
    ensures n.relevanceScore == 69 ==> NudgeSection(Some(n)) == NO_NUDGE
    ensures n.relevanceScore == 70 ==> NudgeSection(Some(n)) != NO_NUDGE
  {
    GateIsInclusiveThreshold(Some(n));
  }

  // ---------------------------------------------------------------------
  // The layout of the section
  // ---------------------------------------------------------------------

  /** Five fixed lines in order, then local availability and the call to
      action, each present exactly when its field is non-empty. */
  lemma SectionLayout(n: Nudge)
    ensures
      var lines := SectionLines(n);
      var local := SerpClient.Truthy(n.localAvailability);
      var cta := SerpClient.Truthy(n.callToAction);
      && |lines| == 5 + (if local then 1 else 0) + (if cta then 1 else 0)
      && lines[0] == "AXON NUDGE TO INCLUDE:"
      && lines[1] == "Product: " + n.productName
      && lines[2] == "Vendor: " + n.vendorName
      && lines[3] == "Relevance: " + NatToString(n.relevanceScore) + "%"
      && lines[4] == "Suggested phrasing: " + n.nudgeText
      && (local ==> lines[5] == "Local availability: " + n.localAvailability.value)
      && (cta ==> lines[|lines| - 1] == "Call to action: " + n.callToAction.value)
  {
  }

  /** The first character of each line tells which line it is. */
  lemma LineInitials(n: Nudge)
    ensures
      var lines := SectionLines(n);
      forall k :: 0 <= k < |lines| ==>
        (&& |lines[k]| > 0
         && (lines[k][0] == 'L' <==> k == 5 && SerpClient.Truthy(n.localAvailability))
         && (lines[k][0] == 'C' <==> k == |lines| - 1 && SerpClient.Truthy(n.callToAction)))
  {
    var lines := SectionLines(n);
    assert lines[0][0] == 'A';
    assert lines[1][0] == 'P';
    assert lines[2][0] == 'V';
    assert lines[3][0] == 'R';
    assert lines[4][0] == 'S';
  }

  /** A line about local availability, or a call to action, is in the section
      exactly when that field is non-empty. */
  lemma OptionalLinesOnlyWhenSet(n: Nudge)
    ensures (exists k :: 0 <= k < |SectionLines(n)| && StartsWith(SectionLines(n)[k], "Local availability: "))
      <==> SerpClient.Truthy(n.localAvailability)
    ensures (exists k :: 0 <= k < |SectionLines(n)| && StartsWith(SectionLines(n)[k], "Call to action: "))
      <==> SerpClient.Truthy(n.callToAction)
  {
    var lines := SectionLines(n);
    LineInitials(n);
    forall k | 0 <= k < |lines| && StartsWith(lines[k], "Local availability: ")
      ensures SerpClient.Truthy(n.localAvailability)
    {
      assert lines[k][0] == 'L';
    }
    forall k | 0 <= k < |lines| && StartsWith(lines[k], "Call to action: ")
      ensures SerpClient.Truthy(n.callToAction)
    {
      assert lines[k][0] == 'C';
    }
    if SerpClient.Truthy(n.localAvailability) {
      assert StartsWith(lines[5], "Local availability: ");
    }
    if SerpClient.Truthy(n.callToAction) {
      assert StartsWith(lines[|lines| - 1], "Call to action: ");
    }
  }

  /** Every line of an included nudge's section reaches the prompt's section. */
  lemma SectionShowsEveryLine(n: Nudge)
    requires n.relevanceScore >= Config.MIN_RELEVANCE_SCORE
    ensures forall k :: 0 <= k < |SectionLines(n)| ==> Contains(NudgeSection(Some(n)), SectionLines(n)[k])
  {
    forall k | 0 <= k < |SectionLines(n)|
      ensures Contains(NudgeSection(Some(n)), SectionLines(n)[k])
    {
      JoinContainsEach(SectionLines(n), "\n", k);
    }
  }

  lemma PercentExamples()
    ensures Percent(70) == "70%" && Percent(75) == "75%" && Percent(100) == "100%"
  {
  }

  // ---------------------------------------------------------------------
  // The prompt
  // ---------------------------------------------------------------------

  /** The context header opens the prompt exactly when there is context, and
      then the context only prefixes the prompt made without it. */
  lemma ContextOnlyPrefixes(userMessage: string, context: string, nudge: Option<Nudge>)
    ensures StartsWith(Prompt(userMessage, context, nudge), CONTEXT_HEADER) <==> context != ""
    ensures context != "" ==>
      Prompt(userMessage, context, nudge) == "CONVERSATION CONTEXT:\n" + context + "\n\n" + Prompt(userMessage, "", nudge)
  {
    var body := PromptBody(userMessage, NudgeSection(nudge));
    assert body[0] == '\n';
    if context != "" {
      assert (CONTEXT_HEADER + context + "\n\n" + body)[..|CONTEXT_HEADER|] == CONTEXT_HEADER;
    } else {
      assert CONTEXT_HEADER[0] == 'C';
    }
  }

  /** A text wrapped in two line breaks occurs in the wrapped text. */
  lemma WrappedContains(part: string)
    ensures Contains("\n" + part + "\n", part)
  {
    ContainsAt(part, part, 0);
    ContainsInConcat("\n", part, "\n", part);
  }

  /** The filled template holds the user message, the section and the
      instruction, in that order. */
  lemma BodyCarriesMessageAndSection(userMessage: string, section: string)
    ensures Contains(PromptBody(userMessage, section),
      MESSAGE_HEADER + userMessage + "\n\n" + section + "\n\n" + INSTRUCTION)
  {
    WrappedContains(MessageBlock(userMessage, section));
  }

  /** The prompt carries the user message followed by the section and the instruction. */
  lemma PromptCarriesMessageAndSection(userMessage: string, context: string, nudge: Option<Nudge>)
    ensures Contains(Prompt(userMessage, context, nudge),
      MESSAGE_HEADER + userMessage + "\n\n" + NudgeSection(nudge) + "\n\n" + INSTRUCTION)
  {
    var section := NudgeSection(nudge);
    var part := MESSAGE_HEADER + userMessage + "\n\n" + section + "\n\n" + INSTRUCTION;
    var body := PromptBody(userMessage, section);
    BodyCarriesMessageAndSection(userMessage, section);
    var head := if context != "" then CONTEXT_HEADER + context + "\n\n" else "";
    assert Prompt(userMessage, context, nudge) == head + body + "";
    ContainsInConcat(head, body, "", part);
  }

  // ---------------------------------------------------------------------
  // The response
  // ---------------------------------------------------------------------

  /** An answer is returned trimmed and taken from the answer; when the
      reasoner fails the fallback's answer is returned as it is, and when both
      fail the apology, whatever the failures were. */
  lemma ResponseCases(reply: Generated, fallback: Generated)
    ensures reply.Generated? ==>
      var r := ResponseText(reply, fallback);
      && (r == "" || (!IsSpace(r[0]) && !IsSpace(r[|r| - 1])))
      && Contains(reply.text, r)
    ensures reply.GenerationFailed? && fallback.Generated? ==> ResponseText(reply, fallback) == fallback.text
    ensures reply.GenerationFailed? && fallback.GenerationFailed? ==>
      ResponseText(reply, fallback) == "I apologize, but I'm having trouble generating a response right now. Please try again."
  {
    if reply.Generated? {
      StripTrims(reply.text);
    }
  }
}
