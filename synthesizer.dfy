/**
  The synthesizer's deterministic part: the relevance gate that decides
  whether a nudge reaches the reasoner, the layout of the nudge section, the
  assembly of the prompt with its optional conversation context, and the
  choice of the text returned when the reasoner or its fallback fails.

  The reasoner is outside the model: its answer to the prompt and its answer
  to the fallback request are the `Generated` inputs.
*/
module Synthesizer {
  import opened Basics
  import opened Text
  import opened Models
  import Config
  import SerpClient

  const NO_NUDGE: string := "No nudge to include."
  const SECTION_HEADER: string := "AXON NUDGE TO INCLUDE:"
  const CONTEXT_HEADER: string := "CONVERSATION CONTEXT:\n"
  const MESSAGE_HEADER: string := "USER MESSAGE:\n"
  const INSTRUCTION: string :=
    "Provide a helpful response to the user. If a nudge is included above, naturally incorporate it at the end of your response."
  const APOLOGY: string :=
    "I apologize, but I'm having trouble generating a response right now. Please try again."

  // ---------------------------------------------------------------------
  // Specification
  // ---------------------------------------------------------------------

  /** The relevance gate: a nudge is shown to the reasoner when there is one
      and its relevance reaches the minimum, inclusive. */
  predicate Included(nudge: Option<Nudge>) {
    nudge.Some? && nudge.value.relevanceScore >= Config.MIN_RELEVANCE_SCORE
  }

  /** A relevance rendered as a whole percentage, "75%" for 0.75. */
  function Percent(relevance: Hundredths): string {
    NatToString(relevance) + "%"
  }

  /** The five lines every nudge section opens with. */
  function FixedLines(n: Nudge): seq<string> {
    [SECTION_HEADER,
     "Product: " + n.productName,
     "Vendor: " + n.vendorName,
     "Relevance: " + Percent(n.relevanceScore),
     "Suggested phrasing: " + n.nudgeText]
  }

  /** The lines for local availability and the call to action, each only when non-empty. */
  function OptionalLines(n: Nudge): seq<string> {
    (if SerpClient.Truthy(n.localAvailability) then ["Local availability: " + n.localAvailability.value] else [])
    + (if SerpClient.Truthy(n.callToAction) then ["Call to action: " + n.callToAction.value] else [])
  }

  function SectionLines(n: Nudge): seq<string> {
    FixedLines(n) + OptionalLines(n)
  }

  /** The nudge section of the prompt. */
  function NudgeSection(nudge: Option<Nudge>): string {
    if Included(nudge) then Join(SectionLines(nudge.value), "\n") else NO_NUDGE
  }

  /** The lines of the prompt template between its opening and closing line breaks. */
  function MessageBlock(userMessage: string, section: string): string {
    MESSAGE_HEADER + userMessage + "\n\n" + section + "\n\n" + INSTRUCTION
  }

  /** The prompt template filled with the user message and the section. */
  function PromptBody(userMessage: string, section: string): string {
    "\n" + MessageBlock(userMessage, section) + "\n"
  }

  /** The prompt sent to the reasoner, behind the context when there is any. */
  function Prompt(userMessage: string, context: string, nudge: Option<Nudge>): string {
    var body := PromptBody(userMessage, NudgeSection(nudge));
    if context != "" then CONTEXT_HEADER + context + "\n\n" + body else body
  }

  /** The text the fallback request yields: its answer, or the apology when it fails too. */
  function FallbackText(fallback: Generated): string {
    match fallback
    case Generated(text) => text
    case GenerationFailed(_) => APOLOGY
  }

  /** The returned text: the reasoner's answer stripped, else the fallback's. */
  function ResponseText(reply: Generated, fallback: Generated): string {
    match reply
    case Generated(text) => Strip(text)
    case GenerationFailed(_) => FallbackText(fallback)
  }

  // ---------------------------------------------------------------------
  // The synthesizer as the source runs it
  // ---------------------------------------------------------------------

  /** `_format_nudge_section`: the fixed lines, then the optional ones appended in place. */
  method FormatNudgeSection(n: Nudge) returns (section: string)
    ensures section == Join(SectionLines(n), "\n")
  {
    var lines := [
      SECTION_HEADER,
      "Product: " + n.productName,
      "Vendor: " + n.vendorName,
      "Relevance: " + Percent(n.relevanceScore),
      "Suggested phrasing: " + n.nudgeText];
    if SerpClient.Truthy(n.localAvailability) {
      lines := lines + ["Local availability: " + n.localAvailability.value];
    }
    if SerpClient.Truthy(n.callToAction) {
      lines := lines + ["Call to action: " + n.callToAction.value];
    }
    assert lines == SectionLines(n);
    section := Join(lines, "\n");
  }

  /** `generate_response`, with the reasoner's answers as inputs; the prompt it
      would send is returned beside the response. */
  method GenerateResponse(userMessage: string, context: string, nudge: Option<Nudge>, reply: Generated, fallback: Generated)
    returns (prompt: string, response: string)
    ensures prompt == Prompt(userMessage, context, nudge)
    ensures response == ResponseText(reply, fallback)
  {
    var section: string;
    if nudge.Some? && nudge.value.relevanceScore >= Config.MIN_RELEVANCE_SCORE {
      section := FormatNudgeSection(nudge.value);
    } else {
      section := NO_NUDGE;
    }
    prompt := PromptBody(userMessage, section);
    if context != "" {
      prompt := CONTEXT_HEADER + context + "\n\n" + prompt;
    }
    match reply {
      case Generated(text) =>
        response := Strip(text);
      case GenerationFailed(_) =>
        match fallback {
          case Generated(text) =>
            response := text;
          case GenerationFailed(_) =>
            response := APOLOGY;
        }
    }
  }
}
