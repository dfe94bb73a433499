/**
 * The skill's request handling: the train query (`getNextTrains`), the fixed
 * welcome and farewell answers, the intent dispatch (`onIntent`) and the
 * dispatch on the request type (`handler`).
 *
 * The arrivals service is a parameter: a function from the request sent to
 * the list of departures it answers with.
 */
module Skill {
  import opened Wrappers
  import opened Text
  import opened Stations
  import opened Upstream
  import opened Arrivals
  import opened Composer
  import opened Responses

  const RepromptText: string := "Please tell me the name of a green line station."
  const NotRecognized: string := "I don't recognize that station. Please try again."
  const TitlePrefix: string := "Train Times - "

  /** A slot as the platform sends it; its value can be missing. */
  datatype Slot = Slot(value: Option<string>)

  /** An intent: its name and, when present, its slots by name. */
  datatype Intent = Intent(name: string, slots: Option<map<string, Slot>>)

  /** The request of an event: its type and, for intent requests, the intent. */
  datatype Request = Request(kind: string, intent: Option<Intent>)

  /** The arrivals service: the departures it answers for each request. */
  type Service = Get -> seq<Departure>

  /**
   * What goes wrong. The first five are exceptions thrown while the request
   * is handled; the last two happen inside the promises of the train query.
   */
  datatype Fault =
    | InvalidIntent        // an intent name the skill does not handle
    | MissingIntent        // an intent request without an intent
    | MissingSlots         // an intent without slots
    | MissingStationValue  // a Station slot without a value
    | UnknownStation       // a phrase the directory does not know: no codes to read
    | NoArrivals           // a direction's answer is empty: the joined promise rejects
    | TooFewArrivals       // a direction has a single departure: reading the second throws

  /** Thrown while handling: the handler catches it and reports it to the platform. */
  predicate Thrown(f: Fault) {
    f != NoArrivals && f != TooFewArrivals
  }

  /** What the platform gets back from the handler. */
  datatype Outcome =
    | Replied(envelope: ResponseEnvelope)  // callback(null, response)
    | Raised(fault: Fault)                 // callback(error)
    | Unanswered(fault: Fault)             // a rejected promise nobody handles: no callback
    | Acknowledged                         // callback() for a session-ended request
    | Ignored                              // an unknown request type: no callback

  /** `getWelcomeResponse`: keeps the session open and reprompts for a station. */
  function WelcomeResponse(): (r: SpeechletResponse)
    ensures WellFormed(r) && !r.shouldEndSession
    ensures r.card.title == "Metro" && r.reprompt.outputSpeech.text == Some(RepromptText)
  {
    BuildSpeechletResponse("Metro", "Ask Me which station you would like the train times for.",
                           Some(RepromptText), false)
  }

  /** `handleSessionEndRequest`: ends the session without a reprompt. */
  function SessionEndResponse(): (r: SpeechletResponse)
    ensures WellFormed(r) && r.shouldEndSession
    ensures r.card.title == "Metro Session Ended" && r.reprompt.outputSpeech.text.None?
  {
    BuildSpeechletResponse("Metro Session Ended", "Thank You for using Metro", None, true)
  }

  /** The answer when the intent has no Station slot; the session still ends. */
  function NotRecognizedResponse(): (r: SpeechletResponse)
    ensures WellFormed(r) && r.shouldEndSession
    ensures r.card.title == TitlePrefix && r.card.content == NotRecognized
    ensures r.reprompt.outputSpeech.text == Some(RepromptText)
  {
    BuildSpeechletResponse(TitlePrefix, NotRecognized, Some(RepromptText), true)
  }

  /** The departures the service answers for one direction of a station. */
  function Departures(service: Service, d: Direction, codes: Codes): seq<Departure> {
    service(ArrivalsRequest(d, codes))
  }

  /**
   * `getNextTrains`: look the spoken station up, ask the service for both
   * directions, keep at most two departures each and speak about them.
   */
  function NextTrains(intent: Intent, service: Service): (r: Result<SpeechletResponse, Fault>)
    ensures r.Success? ==> WellFormed(r.value) && r.value.shouldEndSession
    ensures r.Failure? ==> r.error != InvalidIntent && r.error != MissingIntent
    ensures intent.slots.None? ==> r == Failure(MissingSlots)
    ensures intent.slots.Some? && "Station" !in intent.slots.value ==>
      r == Success(BuildSpeechletResponse(TitlePrefix, NotRecognized, Some(RepromptText), true))
    ensures intent.slots.Some? && "Station" in intent.slots.value && intent.slots.value["Station"].value.None? ==>
      r == Failure(MissingStationValue)
  {
    if intent.slots.None? then Failure(MissingSlots)
    else if "Station" !in intent.slots.value then Success(NotRecognizedResponse())
    else
      var slot := intent.slots.value["Station"];
      if slot.value.None? then Failure(MissingStationValue)
      else
        var phrase := slot.value.value;
        var key := StationName(phrase);
        if key !in StationCodes then Failure(UnknownStation)
        else
          var codes := StationCodes[key];
          match Aggregate(Departures(service, Eastbound, codes), Departures(service, Westbound, codes))
          case None => Failure(NoArrivals)
          case Some((east, west)) =>
            match Speech(phrase, east, west)
            case None => Failure(TooFewArrivals)
            case Some(speech) => Success(BuildSpeechletResponse(TitlePrefix + phrase, speech, None, true))
  }

  /** An intent whose Station slot holds `phrase`. */
  predicate AsksFor(intent: Intent, phrase: string) {
    && intent.slots.Some?
    && "Station" in intent.slots.value
    && intent.slots.value["Station"] == Slot(Some(phrase))
  }

  /**
   * A known station whose two directions each have at least two departures
   * is answered with the eastbound and the westbound sentence about the
   * first two of each; the card is titled with the phrase as spoken and
   * there is no reprompt.
   */
  lemma QueryAnswered(intent: Intent, phrase: string, service: Service)
    requires AsksFor(intent, phrase)
    requires ToLower(phrase) in Phrases
    requires var codes := StationCodes[StationName(phrase)];
      |Departures(service, Eastbound, codes)| >= 2 && |Departures(service, Westbound, codes)| >= 2
    ensures var codes := StationCodes[StationName(phrase)];
      var east, west := Departures(service, Eastbound, codes), Departures(service, Westbound, codes);
      NextTrains(intent, service) == Success(BuildSpeechletResponse(
        TitlePrefix + phrase,
        Sentence(Eastbound, phrase, east[0], east[1]) + Sentence(Westbound, phrase, west[0], west[1]),
        None, true))
  {
    StationNameResult(phrase);
  }

  /**
   * A non-empty phrase the directory does not know is not answered with a
   * reprompt: reading its codes throws.
   */
  lemma UnknownPhraseThrows(intent: Intent, phrase: string, service: Service)
    requires AsksFor(intent, phrase)
    requires ToLower(phrase) !in Phrases
    ensures NextTrains(intent, service) == Failure(UnknownStation)
  {
    StationNameResult(phrase);
  }

  /**
   * All or nothing: when either direction's answer is empty the query fails,
   * whatever the other direction holds.
   */
  lemma EmptyDirectionFails(intent: Intent, phrase: string, service: Service)
    requires AsksFor(intent, phrase)
    requires ToLower(phrase) in Phrases
    requires var codes := StationCodes[StationName(phrase)];
      |Departures(service, Eastbound, codes)| == 0 || |Departures(service, Westbound, codes)| == 0
    ensures NextTrains(intent, service) == Failure(NoArrivals)
  {
    StationNameResult(phrase);
  }

  /**
   * A direction with a single departure passes the cut but cannot be spoken
   * about: the query fails when the second departure is read.
   */
  lemma SingleDepartureFails(intent: Intent, phrase: string, service: Service)
    requires AsksFor(intent, phrase)
    requires ToLower(phrase) in Phrases
    requires var codes := StationCodes[StationName(phrase)];
      var e, w := |Departures(service, Eastbound, codes)|, |Departures(service, Westbound, codes)|;
      e > 0 && w > 0 && (e == 1 || w == 1)
    ensures NextTrains(intent, service) == Failure(TooFewArrivals)
  {
    StationNameResult(phrase);
  }

  /**
   * Phrases that differ only in case ask the service the same questions and
   * so succeed or fail alike; only the station name spoken back differs.
   */
  lemma QueryIgnoresCase(intent: Intent, phrase: string, intent': Intent, phrase': string, service: Service)
    requires AsksFor(intent, phrase) && AsksFor(intent', phrase')
    requires ToLower(phrase) == ToLower(phrase')
    ensures NextTrains(intent, service).Success? <==> NextTrains(intent', service).Success?
    ensures NextTrains(intent, service).Failure? ==> NextTrains(intent', service) == NextTrains(intent, service)
  {
    StationNameCaseInsensitive(phrase, phrase');
  }

  /**
   * A known station whose service answers two countdowns each way: the
   * answer spells out both sentences, the westbound one ending in ". " like
   * the eastbound one.
   */
  lemma CountdownQuery(intent: Intent, phrase: string, service: Service, e1: nat, e2: nat, w1: nat, w2: nat)
    requires AsksFor(intent, phrase)
    requires ToLower(phrase) in Phrases
    requires var codes := StationCodes[StationName(phrase)];
      && Departures(service, Eastbound, codes) == [MinutesAway(e1), MinutesAway(e2)]
      && Departures(service, Westbound, codes) == [MinutesAway(w1), MinutesAway(w2)]
    ensures NextTrains(intent, service) == Success(BuildSpeechletResponse(
      TitlePrefix + phrase,
      Header(Eastbound, phrase) + "in " + Decimal(e1) + " minutes" + " and " + "in " + Decimal(e2) + " minutes" + ". "
      + (Header(Westbound, phrase) + "in " + Decimal(w1) + " minutes" + " and " + "in " + Decimal(w2) + " minutes" + ". "),
      None, true))
  {
    QueryAnswered(intent, phrase, service);
    CountdownSpeech(phrase, e1, e2, w1, w2);
  }

  predicate Handled(name: string) {
    name in {"TrainQuery", "AMAZON.HelpIntent", "AMAZON.StopIntent", "AMAZON.CancelIntent"}
  }

  /**
   * `onIntent`: the train query, help (the welcome answer), stop or cancel
   * (the farewell), and an error for any other intent name. Help is the only
   * answer that keeps the session open.
   */
  function OnIntent(intent: Intent, service: Service): (r: Result<SpeechletResponse, Fault>)
    ensures r == Failure(InvalidIntent) <==> !Handled(intent.name)
    ensures r.Success? ==> WellFormed(r.value)
    ensures r.Success? && !r.value.shouldEndSession <==> intent.name == "AMAZON.HelpIntent"
    ensures intent.name == "AMAZON.HelpIntent" ==> r.value.reprompt.outputSpeech.text == Some(RepromptText)
    ensures intent.name in {"AMAZON.StopIntent", "AMAZON.CancelIntent"} ==>
      r.Success? && r.value.reprompt.outputSpeech.text.None?
    ensures intent.name == "TrainQuery" ==> r == NextTrains(intent, service)
    ensures intent.name == "AMAZON.HelpIntent" ==> r == Success(WelcomeResponse())
    ensures intent.name in {"AMAZON.StopIntent", "AMAZON.CancelIntent"} ==> r == Success(SessionEndResponse())
  {
    if intent.name == "TrainQuery" then NextTrains(intent, service)
    else if intent.name == "AMAZON.HelpIntent" then Success(WelcomeResponse())
    else if intent.name == "AMAZON.StopIntent" || intent.name == "AMAZON.CancelIntent" then Success(SessionEndResponse())
    else Failure(InvalidIntent)
  }

  /**
   * `handler`: launch gives the welcome answer, an intent request goes to
   * `onIntent`, a session-ended request is acknowledged without a response,
   * and any other request type gets no answer at all.
   */
  function Handle(request: Request, service: Service): (o: Outcome)
    ensures o.Replied? ==> o.envelope.version == "1.0" && o.envelope.sessionAttributes == map[]
    ensures o.Replied? ==> WellFormed(o.envelope.response)
    ensures o.Replied? ==>
      (!o.envelope.response.shouldEndSession <==> o.envelope.response == WelcomeResponse())
    ensures o.Raised? ==> Thrown(o.fault)
    ensures o.Unanswered? ==> !Thrown(o.fault)
    ensures o == Acknowledged <==> request.kind == "SessionEndedRequest"
    ensures o == Ignored <==> request.kind !in {"LaunchRequest", "IntentRequest", "SessionEndedRequest"}
    ensures request.kind == "LaunchRequest" ==> o == Replied(BuildResponse(map[], WelcomeResponse()))
    ensures request.kind == "IntentRequest" && request.intent.None? ==> o == Raised(MissingIntent)
    ensures request.kind == "IntentRequest" && request.intent.Some? ==>
      match OnIntent(request.intent.value, service)
      case Success(response) => o == Replied(BuildResponse(map[], response))
      case Failure(f) => o == (if Thrown(f) then Raised(f) else Unanswered(f))
  {
    if request.kind == "LaunchRequest" then Replied(BuildResponse(map[], WelcomeResponse()))
    else if request.kind == "IntentRequest" then
      if request.intent.None? then Raised(MissingIntent)
      else
        match OnIntent(request.intent.value, service)
        case Success(response) => Replied(BuildResponse(map[], response))
        case Failure(f) => if Thrown(f) then Raised(f) else Unanswered(f)
    else if request.kind == "SessionEndedRequest" then Acknowledged
    else Ignored
  }

  /** A train query as the platform sends it. */
  function TrainQueryRequest(intent: Intent): Request {
    Request("IntentRequest", Some(Intent("TrainQuery", intent.slots)))
  }

  /**
   * A phrase the directory does not know reaches the platform as a reported
   * error, not as an answer.
   */
  lemma UnknownPhraseReported(intent: Intent, phrase: string, service: Service)
    requires AsksFor(intent, phrase)
    requires ToLower(phrase) !in Phrases
    ensures Handle(TrainQueryRequest(intent), service) == Raised(UnknownStation)
  {
    var query := Intent("TrainQuery", intent.slots);
    UnknownPhraseThrows(query, phrase, service);
  }

  /**
   * A direction with a single departure leaves the platform without any
   * answer: the failure happens inside the promise and nobody handles it.
   */
  lemma SingleDepartureUnanswered(intent: Intent, phrase: string, service: Service)
    requires AsksFor(intent, phrase)
    requires ToLower(phrase) in Phrases
    requires var codes := StationCodes[StationName(phrase)];
      var e, w := |Departures(service, Eastbound, codes)|, |Departures(service, Westbound, codes)|;
      e > 0 && w > 0 && (e == 1 || w == 1)
    ensures Handle(TrainQueryRequest(intent), service) == Unanswered(TooFewArrivals)
  {
    var query := Intent("TrainQuery", intent.slots);
    SingleDepartureFails(query, phrase, service);
  }

  /** The same for a direction whose answer is empty. */
  lemma EmptyDirectionUnanswered(intent: Intent, phrase: string, service: Service)
    requires AsksFor(intent, phrase)
    requires ToLower(phrase) in Phrases
    requires var codes := StationCodes[StationName(phrase)];
      |Departures(service, Eastbound, codes)| == 0 || |Departures(service, Westbound, codes)| == 0
    ensures Handle(TrainQueryRequest(intent), service) == Unanswered(NoArrivals)
  {
    var query := Intent("TrainQuery", intent.slots);
    EmptyDirectionFails(query, phrase, service);
  }
}
