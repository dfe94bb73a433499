# Metro green-line train times, modelled in Dafny

This project models the voice skill in `lambda/MetroSkill.js`. The skill tells
a user when the next two light-rail trains leave a Green Line station in each
direction.

- **Station directory.** The station directory (`STATION_CODES`) maps a station key to its eastbound and westbound stop codes. `getStationName` maps what the user said to a key, ignoring case (module `Stations`).
- **Arrivals request.** For each direction the skill asks the transit agency's arrivals service at host `svc.metrotransit.org`. The path is `/nextrip/902/` followed by the direction number, a slash, the stop code and `?format=json` (module `Upstream`). Direction 2 goes with the `e` code and direction 3 with the `w` code.
- **Truncation.** An empty answer rejects that direction and makes the whole query fail. Otherwise at most the first two departures are kept (module `Arrivals`).
- **Spoken answer.** Each departure becomes a phrase: "in 14 minutes" for a countdown, "at 9:47" for a clock time. Each direction becomes a sentence about its first two departures, and the answer is the eastbound sentence followed by the westbound one (module `Composer`). `ComposeMessages` builds the answer step by step as the source does, and is proved to give the `Speech` function's result.
- **Responses.** `buildSpeechletResponse` and `buildResponse` build the records returned to the voice platform (module `Responses`).
- **Dispatch.** The module `Skill` covers:
  - the train query, `getNextTrains`;
  - the welcome and farewell answers;
  - intent dispatch, `onIntent`;
  - request-type dispatch, `handler`.

The arrivals service is a function parameter (`Skill.Service`), from the request
sent to the departures it answers with. The handler's outcome tells apart:

- a reply (`callback(null, response)`);
- an exception caught by the handler and reported (`callback(err)`);
- a failure inside the query's promises, after which the platform gets no callback at all;
- the bare acknowledgement of a session-ended request;
- silence for an unknown request type.

Behaviour of the code that a reader might not expect:

- A non-empty phrase the directory does not know is not answered with "I don't recognize that station". `getStationName` gives `""`, reading `STATION_CODES[""].e` throws, and the handler reports the error (`Skill.UnknownPhraseThrows`, `Skill.UnknownPhraseReported`). The "I don't recognize" answer is given only when the intent has no `Station` slot at all.
- That answer carries a reprompt but still ends the session (`Skill.NextTrains`, `Skill.NotRecognizedResponse`).
- Every sentence ends with ". " (with a trailing space), except a westbound sentence whose second departure is a clock time, which ends with a bare "." (`Composer.SpeechShape`). So an answer about countdowns ends with a trailing space. `Composer.CountdownSpeech` and `Skill.CountdownQuery` spell the answer out for countdowns of any number of minutes: for the phrase "Target Field" with eastbound countdowns of 2 and 12 minutes and westbound ones of 5 and 15, it ends "... is in 5 minutes and in 15 minutes. ".
- A direction with exactly one departure passes the cut to two but cannot be spoken about. Reading the second departure throws inside the promise, so the platform never gets an answer (`Skill.SingleDepartureFails`, `Skill.SingleDepartureUnanswered`). The same holds for an empty direction (`Skill.EmptyDirectionUnanswered`).

## Model

| member | source | states |
|---|---|---|
| Text.ToLower | lambda/MetroSkill.js:111 | lower-casing keeps the length, maps every upper-case letter to its lower-case letter and leaves every other character alone; the result has no upper-case letter |
| Text.ToLowerIdempotent | lambda/MetroSkill.js:111 | lower-casing a lower-cased text changes nothing |
| Text.ToLowerOfUpper | lambda/MetroSkill.js:111 | upper-casing a text first does not change its lower-case form |
| Text.IndexOf | lambda/MetroSkill.js:210 | the result is -1 or a position where the pattern occurs, and the pattern occurs nowhere before it (nowhere at all when -1) |
| Text.ReplaceFirst | lambda/MetroSkill.js:211 | a text without the pattern is returned unchanged; otherwise the length changes by the difference of the two patterns' lengths |
| Text.ReplaceFirstSplit | lambda/MetroSkill.js:211 | with the first occurrence at `i`, the result is the text before `i`, the replacement, and the text after the occurrence |
| Text.ReplaceFirstAbsent | lambda/MetroSkill.js:211 | a text without the pattern is returned unchanged |
| Text.ReplaceFirstKeepsLower | lambda/MetroSkill.js:211 | replacing inside a lower-case text with a lower-case replacement gives a lower-case text |
| Text.MinutesReplaced | lambda/MetroSkill.js:211 | in a count without "m" followed by " min", "min" is found and replaced by "minutes" |
| Text.Decimal | lambda/MetroSkill.js:85 | the decimal text of a direction number is non-empty, all digits, and has no leading zero |
| Text.DecimalRoundTrip | lambda/MetroSkill.js:85 | reading the decimal text back gives the number |
| Text.DecimalInjective | lambda/MetroSkill.js:85 | different numbers have different decimal texts |
| Stations.StationCodes | lambda/MetroSkill.js:7-31 | the table of the 23 station keys with their eastbound and westbound stop codes; `Stations.DistinctDirectionCodes` and `Stations.SwitchReachesTable` state its shape |
| Stations.StationName | lambda/MetroSkill.js:110-161 | the key of the lower-cased phrase; `Stations.StationNameResult` states that it is "" exactly for unknown phrases and a table key otherwise, and `Stations.StationNameCaseInsensitive` that case does not matter |
| Stations.KeyOf | lambda/MetroSkill.js:111-160 | the `switch` on the lower-cased phrase; `Stations.SwitchReachesTable` states that it reaches every table key but "Snelling" and gives only table keys or "" |
| Stations.StationNameResult | lambda/MetroSkill.js:110-161 | a phrase gives "" exactly when its lower-case form is not a known phrase; it gives a key of the station table exactly when it is; no phrase gives "Snelling" |
| Stations.SwitchReachesTable | lambda/MetroSkill.js:110-161 | every key of the station table except "Snelling" is reached by some phrase of the switch, and every key the switch gives is in the table |
| Stations.StationNameCaseInsensitive | lambda/MetroSkill.js:111 | two phrases with the same lower-case form give the same key |
| Stations.StationNameIgnoresUpperCase | lambda/MetroSkill.js:111 | the upper-cased phrase gives the same key as the phrase |
| Stations.HennepinAvenueAlias | lambda/MetroSkill.js:116-117 | "Hennepin Avenue" gives "WarehouseDistrict" |
| Stations.WarehouseDistrictPhrase | lambda/MetroSkill.js:114-115 | "Warehouse District" gives "WarehouseDistrict" |
| Stations.DistinctDirectionCodes | lambda/MetroSkill.js:7-31 | exactly TargetField, WarehouseDistrict and USBankStadium have different eastbound and westbound codes |
| Upstream.RequestPath | lambda/MetroSkill.js:85 | the base path, the direction number, a slash, the stop code and the format argument; `Upstream.RequestPathInjective` states that the path determines both number and code |
| Upstream.ArrivalsRequest | lambda/MetroSkill.js:81-85 | the request goes to the agency's host; eastbound asks "/nextrip/902/2/" with the `e` code, westbound "/nextrip/902/3/" with the `w` code, both followed by "?format=json" |
| Upstream.RequestPathInjective | lambda/MetroSkill.js:85 | equal paths have equal direction numbers and equal stop codes |
| Upstream.DirectionsAskDifferently | lambda/MetroSkill.js:175-193 | the eastbound and westbound requests of a station always differ, even when both codes are the same |
| Upstream.StopCodesAskDifferently | lambda/MetroSkill.js:85 | in one direction, different stop codes give different requests |
| Arrivals.Truncate | lambda/MetroSkill.js:178-190 | an empty answer rejects; otherwise the kept list is the first min(N, 2) departures in their original order |
| Arrivals.TruncateIdempotent | lambda/MetroSkill.js:184-188 | cutting down a kept list again changes nothing |
| Arrivals.Aggregate | lambda/MetroSkill.js:178-206 | the two directions join only when both answers are non-empty, and then give the two kept lists; an empty answer in either direction fails the whole query |
| Composer.Phrase | lambda/MetroSkill.js:210-213 | a phrase starts with "in " exactly when the lower-cased departure text contains "min", and with "at " otherwise |
| Composer.CountdownPhrase | lambda/MetroSkill.js:210-211 | a countdown phrase is "in ", the lower-cased text up to its first "min", "minutes", and the rest of the text |
| Composer.PhraseIsLowerCase | lambda/MetroSkill.js:210-213 | every phrase is lower case |
| Composer.PhraseIgnoresCase | lambda/MetroSkill.js:210-213 | departure texts equal up to case give the same phrase |
| Composer.MinutesPhrase | lambda/MetroSkill.js:210-211 | a count without "m" followed by " min" (in any case) is spoken as "in ", the count and " minutes" |
| Composer.MinutesFromNow | lambda/MetroSkill.js:210-211 | the service's countdown text for `n` minutes is a countdown spoken as "in `n` minutes" |
| Composer.CountdownExample | lambda/MetroSkill.js:210-211 | "14 Min" is spoken as "in 14 minutes" |
| Composer.ClockExample | lambda/MetroSkill.js:212-213 | "9:47" is spoken as "at 9:47" |
| Composer.Header | lambda/MetroSkill.js:209 | the opening of a direction's sentence with the station as spoken; `Composer.SpeechShape` states that the answer starts with the eastbound one |
| Composer.Ending | lambda/MetroSkill.js:219-238 | ". " after every sentence except a westbound one whose second departure is a clock time, which gets "."; `Composer.SpeechShape` states how the answer ends accordingly |
| Composer.Sentence | lambda/MetroSkill.js:209-238 | header, first phrase, " and ", second phrase and ending; `Composer.CountdownSentence` spells it out for two countdowns and `Composer.ComposeMessages` proves the step-by-step messages equal to it |
| Composer.Speech | lambda/MetroSkill.js:206-241 | there is an answer exactly when each direction has at least two departures |
| Composer.ComposeMessages | lambda/MetroSkill.js:209-241 | building the two messages step by step gives exactly the answer `Speech` describes, and none when a departure is missing |
| Composer.SpeechReadsTwo | lambda/MetroSkill.js:209-241 | only the first two departures of each direction matter |
| Composer.SpeechShape | lambda/MetroSkill.js:209-241 | the answer opens with the eastbound header; it ends with ". " when the second westbound departure is a countdown and with "." otherwise |
| Composer.CountdownSentence | lambda/MetroSkill.js:209-222 | the sentence about two countdowns is the header, "in a minutes", " and ", "in b minutes" and ". " |
| Composer.CountdownSpeech | lambda/MetroSkill.js:209-241 | with two countdowns each way the answer is the eastbound sentence and then the westbound one, both ending in ". " |
| Responses.BuildSpeechletResponse | lambda/MetroSkill.js:35-54 | the output goes both into the plain-text speech and onto the simple card; title, reprompt text and end flag are passed through unchanged |
| Responses.BuildFromFields | lambda/MetroSkill.js:35-54 | every response of that shape is the one built from its own title, output, reprompt and end flag |
| Responses.BuildResponse | lambda/MetroSkill.js:56-62 | the envelope has version "1.0" and carries the given session attributes and response unchanged |
| Skill.WelcomeResponse | lambda/MetroSkill.js:67-79 | a well-formed answer titled "Metro" that keeps the session open and reprompts for a green-line station |
| Skill.SessionEndResponse | lambda/MetroSkill.js:102-108 | a well-formed answer titled "Metro Session Ended" that ends the session without a reprompt |
| Skill.NotRecognizedResponse | lambda/MetroSkill.js:248-252 | a well-formed answer titled "Train Times - " saying "I don't recognize that station. Please try again.", with the green-line reprompt, that ends the session |
| Skill.NextTrains | lambda/MetroSkill.js:163-254 | every answer is well formed and ends the session; missing slots and a missing slot value fail; a missing Station slot gives "I don't recognize that station. Please try again." titled "Train Times - " with the green-line reprompt |
| Skill.QueryAnswered | lambda/MetroSkill.js:172-246 | a known station with two or more departures each way gets the eastbound and then the westbound sentence, titled "Train Times - " and the phrase as spoken, with no reprompt |
| Skill.UnknownPhraseThrows | lambda/MetroSkill.js:173-176 | a phrase the directory does not know fails with an error instead of an answer |
| Skill.EmptyDirectionFails | lambda/MetroSkill.js:178-206 | an empty answer in either direction fails the query, whatever the other direction holds |
| Skill.SingleDepartureFails | lambda/MetroSkill.js:206-241 | a direction with a single departure fails the query when the second one is read |
| Skill.QueryIgnoresCase | lambda/MetroSkill.js:173-204 | phrases equal up to case succeed or fail alike, with the same failure |
| Skill.CountdownQuery | lambda/MetroSkill.js:163-246 | two countdowns each way give the answer spelled out in full, ending in ". " |
| Skill.UnknownPhraseReported | lambda/MetroSkill.js:173-176 | a train query for a phrase the directory does not know reaches the platform as a reported error |
| Skill.SingleDepartureUnanswered | lambda/MetroSkill.js:206-241 | a train query where a direction has a single departure gets no answer at all |
| Skill.EmptyDirectionUnanswered | lambda/MetroSkill.js:178-206 | a train query where a direction's answer is empty gets no answer at all |
| Skill.OnIntent | lambda/MetroSkill.js:279-295 | a train query goes to the query, help gets the welcome answer, stop and cancel get the farewell, and exactly the other intent names fail with the invalid-intent error; only help keeps the session open |
| Skill.Handle | lambda/MetroSkill.js:311-348 | a launch gets the welcome answer; an intent request without an intent is reported as an error; an intent request gets the answer of `onIntent` wrapped in an envelope of version "1.0" with empty session attributes, or, when `onIntent` fails, a reported error for a thrown fault and no answer for a failure inside the promises; a session-ended request is acknowledged; any other request type is ignored; only the welcome answer keeps the session open |

## Left out

- The HTTP transport and `JSON.parse` in `httpGet` (lambda/MetroSkill.js:83-98) are left out. The service is a function parameter. Network errors, malformed JSON and a payload that is not a list of records with a string `DepartureText` are not modelled.
- Timing and interleaving of the two requests and their promises are left out. Both requests are always sent. A `resolve` after a `reject` has no effect, so it is not modelled.
- The `console.log` calls, `onSessionStarted` and `onSessionEnded` are left out because they only log. `onLaunch` is folded into `Skill.Handle`.
- The `session` object is left out: the application-id log line, the `new` flag, and the error a missing session would raise. `getNextTrains` never reads it.
- The template conversion of the card title and content (`${title}`) is left out. Titles and outputs are always strings here.
- Fields of the departure records other than `DepartureText` are left out.
- Text.ToLower: ASCII only. The letters A-Z map to a-z and every other character is kept, whereas JavaScript's `toLowerCase` also maps non-ASCII letters.
- The "Target Field" answer for 2, 12, 5 and 15 minutes is not stated as a literal of its own. It is the instance of `Skill.CountdownQuery`, which is stated for countdowns of any number of minutes.
