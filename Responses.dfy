/**
 * The records the skill hands back to the voice platform
 * (`buildSpeechletResponse`, `buildResponse`).
 */
module Responses {
  import opened Wrappers

  /** Plain-text speech; the reprompt's text may be null. */
  datatype OutputSpeech = OutputSpeech(kind: string, text: Option<string>)

  datatype Card = Card(kind: string, title: string, content: string)

  datatype Reprompt = Reprompt(outputSpeech: OutputSpeech)

  datatype SpeechletResponse = SpeechletResponse(
    outputSpeech: OutputSpeech,
    card: Card,
    reprompt: Reprompt,
    shouldEndSession: bool)

  type SessionAttributes = map<string, string>

  datatype ResponseEnvelope = ResponseEnvelope(
    version: string,
    sessionAttributes: SessionAttributes,
    response: SpeechletResponse)

  /**
   * The shape every built response has: plain-text speech that says exactly
   * what the simple card shows, and a plain-text reprompt.
   */
  predicate WellFormed(r: SpeechletResponse) {
    && r.outputSpeech == OutputSpeech("PlainText", Some(r.card.content))
    && r.card.kind == "Simple"
    && r.reprompt.outputSpeech.kind == "PlainText"
  }

  /** What a caller chooses when building a response. */
  datatype Fields = Fields(title: string, output: string, repromptText: Option<string>, shouldEndSession: bool)

  function FieldsOf(r: SpeechletResponse): Fields {
    Fields(r.card.title, r.card.content, r.reprompt.outputSpeech.text, r.shouldEndSession)
  }

  /**
   * `buildSpeechletResponse`: the output goes both into the speech and onto
   * the card; title, reprompt and end flag are passed through unchanged.
   */
  function BuildSpeechletResponse(title: string, output: string, repromptText: Option<string>, shouldEndSession: bool)
    : (r: SpeechletResponse)
    ensures WellFormed(r)
    ensures FieldsOf(r) == Fields(title, output, repromptText, shouldEndSession)
  {
    SpeechletResponse(
      OutputSpeech("PlainText", Some(output)),
      Card("Simple", title, output),
      Reprompt(OutputSpeech("PlainText", repromptText)),
      shouldEndSession)
  }

  /** Every well-formed response is the one built from its own fields. */
  lemma BuildFromFields(r: SpeechletResponse)
    requires WellFormed(r)
    ensures var f := FieldsOf(r);
      BuildSpeechletResponse(f.title, f.output, f.repromptText, f.shouldEndSession) == r
  {
  }

  /** `buildResponse`: the envelope of version "1.0". */
  function BuildResponse(sessionAttributes: SessionAttributes, speechletResponse: SpeechletResponse)
    : (env: ResponseEnvelope)
    ensures env.version == "1.0"
    ensures env.sessionAttributes == sessionAttributes && env.response == speechletResponse
  {
    ResponseEnvelope("1.0", sessionAttributes, speechletResponse)
  }
}
