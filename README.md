# Gabbi intake agent for Tona Law — a Dafny model

Gabbi is a voice receptionist for the Tona Law firm. It sits behind a voice-call platform, and its logic lives in `retell_bridge.py`. The platform sends one request per event of a call. The agent keeps a small record per call, and on a "response required" event it answers the caller's last utterance. To do that it runs an intake dialogue, then makes the reply sound spoken.

The dialogue runs in three phases:

1. It classifies the matter as personal injury, no-fault collection, outside the practice, or unknown.
2. It fills a fixed sequence of slots for the caller's track: the case type, name and phone confirmation, then three questions per track.
3. It hands a qualified caller over to a colleague. When no dialogue rule applies, it falls back to a table of frequently asked questions.

The spoken reply passes through three rewrites in turn:

- conversational markers: pauses after sentences, and an encouraging closing phrase on long replies;
- an empathy opener chosen from the last two transcript messages;
- the emotional-intelligence wrapper, which picks an emotion detected in those messages by keyword.

The project has six modules:

- `Text` (`text.dfy`): the string operations retell_bridge.py relies on — lower-casing, substring search, replace-all, join and the last `n` entries of a list — with the lemmas the rest of the model needs about them.
- `KnowledgeBase` (`knowledge_base.dfy`): the FAQ table, and the fallback that returns the answer of the first question contained in the lower-cased utterance, or else the "please repeat" default.
- `Personality` (`personality.dfy`): the empathy pass and the conversational-markers pass.
- `Flow` (`flow.dfy`):
  - the case-type classifier;
  - the dialogue as a pure step function, `Step`, on a `Session` (a state and a slot record), together with the invariant `SessionOk` that describes every session reachable from a fresh call;
  - the `ConversationFlow` class, which holds the two per-call maps and updates them in place, one rule method per state that has rules.
- `VoiceEngine` (`voice_engine.dfy`): emotion detection (four tests in a row, each appending its emotion, proved against `DetectedEmotions`), the emotional-intelligence wrapper, the voice-presence pipeline, and the `Engine` class that owns the dialogue.
- `Agent` (`agent.dfy`): the `IntakeAgent` class. It holds the call records and the transcript memory, handles a platform request by its interaction type, and removes a call's entries when its connection closes.

Each dialogue state is paired with the slot records it can hold. `SessionOk` states this pairing:

| state | slots held |
|---|---|
| `initial_greeting`, `identifying_caller`, `outside_practice_area` | no slots |
| `collecting_info` | the first one or two slots of a track |
| `qualifying_*` | three to five slots of its own track |
| `qualified_ready_transfer` | all six slots of either track |
| `not_qualified` | all six personal-injury slots |

The following behaviours of the code are modelled as written:

- **`identifying_caller` traps the call.** A caller lands in `identifying_caller` when the greeting did not settle the matter: an unknown topic, or a personal-injury keyword that is not one of "accident", "injured", "car" or "truck". The dialogue has no rule for that state. Such a call stays there for good, and every later utterance gets only an FAQ answer or the default (`Flow.FallbackStatesAbsorb`). The greeting's reply asks what the matter is, but no rule ever reads the answer.
- **The "case type missing" branch is unreachable.** Every path into `collecting_info` records a personal-injury or no-fault `case_type`, so the branch of `collecting_info` that classifies a case with no `case_type` can never run. It is modelled all the same, and `SessionOk` rules it out for reachable sessions.
- **The duplicate check misses the second phrase.** The markers pass checks for an encouraging phrase already present by comparing the lower-cased text with the phrases as written. The second phrase starts with a capital "I", so it is never found (`Personality.SecondPhraseNeverDetected`).
- **The clean-up at call end is partial.** It drops the call's record and memory, but leaves the call's dialogue state and slots in place.
- **Any interaction type registers the call.** A request of any type, recognised or not, records the call on first sight.

## Model

| member | source | states |
|---|---|---|
| `Flow.IdentifyCaseType` | retell_bridge.py:134-153 | The result is personal injury iff a personal-injury keyword occurs in the lower-cased input. It is no-fault iff none of those occurs but a no-fault keyword does, and outside the practice iff neither list but the outside-practice list matches. It is unknown iff no keyword of any list occurs. |
| `Flow.CaseTypeIgnoresCase` | retell_bridge.py:134-136 | Classifying the lower-cased input gives the same label as classifying the input. |
| `Flow.PersonalInjuryPersists` | retell_bridge.py:134-153 | An input classified as personal injury stays so when more text is added before or after it. |
| `Flow.MentionMeansPersonalInjury` | retell_bridge.py:170-172 | Every input that contains one of the greeting's "already named" words is classified as personal injury, so that test only ever refines the personal-injury branch. |
| `Flow.StateCode` | retell_bridge.py:117-126 | Each of the eight states is coded by an integer below 8. |
| `Flow.StateCodeInjective` | retell_bridge.py:117-126 | No two states share a code. |
| `Flow.Step` | retell_bridge.py:155-255 | The rules of one utterance, as a value: the next session and the rule's reply, if any. No rule ever leads back to the greeting state. Its properties are the `Step*`, `*StepOk`, `LeavesInitialGreeting` and `FallbackStates*` lemmas below. |
| `Flow.Respond` | retell_bridge.py:155-255 | The unenhanced reply to one utterance: the rule's reply, or else the FAQ fallback. `FallbackStatesOnlyAnswer` and `KnowledgeBase.FallbackAnswers` state what that fallback gives. |
| `Flow.ConversationFlow.constructor` | retell_bridge.py:116-129 | The dialogue starts with no call known: both per-call maps are empty, and the invariant holds. |
| `Flow.ConversationFlow.GetInitialGreeting` | retell_bridge.py:131-132 | Returns the fixed greeting. |
| `Flow.ConversationFlow.GetNextResponse` | retell_bridge.py:155-255 | The call's session, fresh if the call is unseen and the stored one otherwise, takes exactly one `Step`. Only that call's entries in the two maps change. The reply is the rule's reply, or else the FAQ fallback. The invariant that every stored session is reachable is kept. |
| `Flow.ConversationFlow.GreetingRule` | retell_bridge.py:166-186 | The greeting state's rules, applied in place. The call's entries become the state and record of `Step`, and the rule's reply is returned. |
| `Flow.ConversationFlow.CollectingRule` | retell_bridge.py:188-215 | The collecting state's rules, applied in place, with the same contract as the greeting rules. |
| `Flow.ConversationFlow.QualifyingPersonalInjuryRule` | retell_bridge.py:217-234 | The personal-injury questions, applied in place, with the same contract. |
| `Flow.ConversationFlow.QualifyingNoFaultRule` | retell_bridge.py:236-247 | The no-fault questions, applied in place, with the same contract. |
| `Flow.LeavesInitialGreeting` | retell_bridge.py:166-186 | The first utterance always leaves the greeting state, for identifying the caller, collecting information or outside the practice. It goes to collecting iff a mention word occurs or the input is classified no-fault, and to outside the practice iff the input is classified so. `case_type` is recorded (with the track's label) iff the call moves to collecting; otherwise the record stays empty. |
| `Flow.StepKeepsSessionOk` | retell_bridge.py:155-255 | From a reachable session, one utterance leads to a reachable session. |
| `Flow.StepOnlyAddsSlots` | retell_bridge.py:188-247 | No slot is removed or overwritten by one utterance, and at most one slot is added. |
| `Flow.CollectingStepOk` | retell_bridge.py:188-215 | In a reachable collecting session, each utterance adds exactly one new slot and keeps the others. |
| `Flow.QualifyingPersonalInjuryStepOk` | retell_bridge.py:217-234 | In a reachable personal-injury qualifying session, each utterance adds exactly one new slot and keeps the others. |
| `Flow.QualifyingNoFaultStepOk` | retell_bridge.py:236-247 | In a reachable no-fault qualifying session, each utterance adds exactly one new slot and keeps the others. |
| `Flow.StepFillsNextSlot` | retell_bridge.py:188-247 | While a track's slots are being collected and the first `n` are filled, the utterance is stored under the track's next slot, and exactly the first `n + 1` are then filled. |
| `Flow.InjuriesDecideQualification` | retell_bridge.py:225-234 | Recording the injuries answer moves a personal-injury caller to ready-for-transfer iff the answer mentions an injury word, and to not-qualified otherwise. The answer is stored under `injuries`. |
| `Flow.OutstandingAmountQualifies` | retell_bridge.py:244-247 | Recording the outstanding amount always makes a no-fault caller ready for transfer. |
| `Flow.FallbackStatesOnlyAnswer` | retell_bridge.py:249-255 | In the terminal states and in identifying-the-caller, the session does not change. The reply is the answer of the first FAQ question in the lower-cased input, or the default. |
| `Flow.FallbackStatesAbsorb` | retell_bridge.py:249-255 | A session in those states never changes, whatever the caller says afterwards. |
| `Flow.RunKeepsSessionOk` | retell_bridge.py:155-255 | Across any sequence of utterances, a reachable session stays reachable. |
| `Flow.RunOnlyAddsSlots` | retell_bridge.py:188-247 | Across any sequence of utterances, the slot record only grows, and a slot keeps its first value. |
| `Flow.PersonalInjuryOpening` | retell_bridge.py:170-174 | An opening that names a personal-injury matter moves to collecting with only `case_type` recorded. |
| `Flow.NoFaultOpening` | retell_bridge.py:178-181 | An opening classified no-fault moves to collecting with only `case_type` recorded. |
| `Flow.StepRecordsName` | retell_bridge.py:202-204 | With the case type recorded and no name, the utterance is stored as the name. |
| `Flow.StepRecordsPhone` | retell_bridge.py:206-215 | The utterance is stored as the phone confirmation, and the call moves to its track's qualifying state. |
| `Flow.StepRecordsSituation` | retell_bridge.py:219-221 | The first personal-injury answer is stored as the situation. |
| `Flow.StepRecordsLocationTime` | retell_bridge.py:222-224 | The next personal-injury answer is stored as the location and time. |
| `Flow.StepRecordsInjuries` | retell_bridge.py:225-234 | The injuries answer is stored, and it decides between transfer and not-qualified. |
| `Flow.StepRecordsProviderType` | retell_bridge.py:238-240 | The first no-fault answer is stored as the provider type. |
| `Flow.StepRecordsAcceptsNoFault` | retell_bridge.py:241-243 | The next no-fault answer is stored as whether the practice accepts no-fault insurance. |
| `Flow.StepRecordsOutstandingAmount` | retell_bridge.py:244-247 | The last no-fault answer is stored as the outstanding amount, and the call is ready for transfer. |
| `Flow.PersonalInjuryIntake` | retell_bridge.py:166-234 | A complete six-utterance personal-injury intake. The record reached after each utterance is given exactly. The last answer decides between transfer and not-qualified by the injury words. |
| `Flow.NoFaultIntake` | retell_bridge.py:166-247 | A complete six-utterance no-fault intake. The record reached after each utterance is given exactly, and the intake ends ready for transfer. |
| `KnowledgeBase.FaqFromFirstMatch` | retell_bridge.py:249-252 | The lookup from index `i` finds nothing iff no later question occurs in the input. Otherwise it gives the topic of the first question that occurs. |
| `KnowledgeBase.FallbackAnswers` | retell_bridge.py:249-255 | With no question in the input, the reply is the default. Otherwise it is the answer of the first question in table order that occurs. |
| `KnowledgeBase.Fallback` | retell_bridge.py:249-255 | The reply is the default or one of the table's answers. `FallbackAnswers` states which one. |
| `KnowledgeBase.FindAnswer` | retell_bridge.py:249-255 | The loop over the FAQ table (the table itself is at retell_bridge.py:46-52) returns the fallback reply. |
| `Personality.AddEmpathyMarkers` | retell_bridge.py:68-88 | Whatever the hash, the text is kept intact at the end. A context with an empathy trigger gets one of the four empathy phrases as opener. Without one, a severity trigger gets the severity opener. The text is unchanged iff neither list occurs in the lower-cased context. |
| `Personality.Pauses` | retell_bridge.py:94-97 | The two replacements of the markers pass. `PausesOnlyInsertDots` states what they do. |
| `Personality.PausesOnlyInsertDots` | retell_bridge.py:93-97 | The "I'm" rewrite changes nothing, so the pass only replaces ". " with "... ". It never shortens the text, and leaves a text without ". " as it is. |
| `Personality.ConversationalMarkers` | retell_bridge.py:90-111 | The paused text is kept as a prefix. Something is appended iff the paused text is longer than 80 characters and contains none of the encouraging phrases. What is appended is " And " plus the phrase chosen by the length modulo 3. |
| `Personality.AddConversationalMarkers` | retell_bridge.py:90-111 | The step-by-step pass computes `ConversationalMarkers`. |
| `Personality.ShortPlainTextUnchanged` | retell_bridge.py:90-111 | A text of at most 80 characters without ". " comes back unchanged. |
| `Personality.SecondPhraseNeverDetected` | retell_bridge.py:106-109 | The second encouraging phrase is never found in the lower-cased text, so it never blocks a further encouragement. |
| `VoiceEngine.DetectedEmotions` | retell_bridge.py:300-321 | An emotion is listed iff one of its words occurs in the lower-cased content. The list is in the order trauma, frustration, confusion, urgency, without repeats, and has at most four entries. |
| `VoiceEngine.ShownAmongOrdered` | retell_bridge.py:300-321 | Filtering an ordered list of emotions keeps exactly the shown ones, in increasing order. |
| `VoiceEngine.DetectEmotions` | retell_bridge.py:300-321 | The four tests in a row, each appending its emotion when one of its words occurs, return `DetectedEmotions`. |
| `VoiceEngine.Wrap` | retell_bridge.py:289-296 | A wrapped text is strictly longer than the text and holds it intact after the opening sentence. |
| `VoiceEngine.WrapByPrecedence` | retell_bridge.py:289-296 | The trauma/frustration/confusion/urgency chain of wrappers. `PrecedencePicksFirst` states which wrapper it applies. |
| `VoiceEngine.PrecedencePicksFirst` | retell_bridge.py:289-296 | On a list in detection order, the trauma/frustration/confusion/urgency precedence wraps for the first emotion listed, and does nothing on an empty list. |
| `VoiceEngine.AddEmotionalIntelligence` | retell_bridge.py:281-298 | The emotional-intelligence pass. `EmotionalIntelligenceWrapsOnce` states what it does. |
| `VoiceEngine.EmotionalIntelligenceWrapsOnce` | retell_bridge.py:281-298 | With no context, the text is returned unchanged. Otherwise exactly the wrapper of the first detected emotion is applied. The text is unchanged iff the context is empty or no emotion is detected. |
| `VoiceEngine.RecentContent` | retell_bridge.py:273 | The contents of the last two messages joined by a space (also at retell_bridge.py:286). `RecentContentSeesLastTwo` and `RecentContentIgnoresOlder` state what it keeps. |
| `VoiceEngine.RecentContentSeesLastTwo` | retell_bridge.py:272-273 | A word in either of the last two transcript messages occurs in the recent context. |
| `VoiceEngine.RecentContentIgnoresOlder` | retell_bridge.py:286 | Messages older than the last two do not affect the recent context. |
| `VoiceEngine.EnhanceWithVoicePresence` | retell_bridge.py:265-279 | The voice-presence pipeline: markers, then empathy with a context, then emotional intelligence. `VoicePresenceKeepsReply` states what it keeps. |
| `VoiceEngine.VoicePresenceKeepsReply` | retell_bridge.py:265-279 | Without a context, only the conversational markers apply. In every case, the marked reply occurs whole in the spoken reply. |
| `VoiceEngine.Engine.constructor` | retell_bridge.py:260-263 | The engine owns a fresh dialogue with no calls. |
| `VoiceEngine.Engine.GenerateResponse` | retell_bridge.py:323-336 | The call's dialogue takes one step. The spoken reply is the dialogue's reply after voice presence against the given history. |
| `Agent.InteractionOf` | retell_bridge.py:349-395 | Each recognised kind is chosen iff the interaction type is exactly its string. Any other value, or none, is unhandled. |
| `Agent.NewCallRecord` | retell_bridge.py:354-359 | The record of a newly seen call. `ProcessRetellRequest` states when it is made. |
| `Agent.KeepOpen` | retell_bridge.py:377-382 | The shape of every reply (also at retell_bridge.py:388-393 and 401-406). `ProcessRetellRequest` states when each is sent. |
| `Agent.IntakeAgent.constructor` | retell_bridge.py:341-344 | A new agent knows no calls and has no memory, and its engine has no dialogue state. Its invariant holds: the dialogue is valid, and only recorded calls have memory. |
| `Agent.IntakeAgent.ProcessRetellRequest` | retell_bridge.py:346-408 | The call is recorded with status "in_progress" the first time it is seen, and never re-recorded. The behaviour by interaction type: **update:** no reply, and a non-empty transcript's last ten messages are remembered. **response required:** one dialogue step on the last message's content, or the greeting for an empty transcript. **reminder:** the reminder sentence. **anything else:** no reply. Every reply echoes the response id, is complete, does not end the call and carries the voice-presence form of its text. Only a dialogue turn changes the dialogue, and only an update changes the memory. |
| `Agent.IntakeAgent.EndCall` | retell_bridge.py:484-485 | The call's memory and record are removed if present, and every other entry is kept. The invariant that only recorded calls have memory is kept. |
| `Text.Lower` | retell_bridge.py:136 | Lower-casing keeps the length and maps each upper-case letter to its lower-case form, 32 code points on. Every other character is kept. |
| `Text.Contains` | retell_bridge.py:250-251 | Python's substring test `w in s`. `AnyOccursIff`, `ContainsInConcat` and `JoinContainsParts` state its properties. |
| `Text.AnyOccurs` | retell_bridge.py:138-153 | Python's `any(w in s for w in words)`. `AnyOccursIff` states that it holds iff some word of the list occurs. |
| `Text.AnyOccursIff` | retell_bridge.py:138-153 | The list test holds iff some word of the list occurs in the string. |
| `Text.Replace` | retell_bridge.py:94-97 | Python's `str.replace`. `ReplaceSelf`, `ReplaceAbsent` and `ReplaceNeverShortens` state its properties. |
| `Text.ReplaceSelf` | retell_bridge.py:94 | Replacing a pattern by itself changes nothing. |
| `Text.ReplaceAbsent` | retell_bridge.py:97 | Replacing a pattern that does not occur changes nothing. |
| `Text.Join` | retell_bridge.py:273 | Python's `' '.join(...)`. `JoinContainsParts` states that a word in any part occurs in the joined string. |
| `Text.JoinContainsParts` | retell_bridge.py:273 | A word in any part occurs in the joined string. |
| `Text.LastN` | retell_bridge.py:364 | The last `n` entries of a list, or all of it when it is shorter, as a suffix. |
| `Text.ReplaceNeverShortens` | retell_bridge.py:97 | Replacing a pattern with one at least as long never shortens a string. |

## Left out

- The web service around the agent is not modelled: the HTTP app, the websocket receive/send loop, JSON decoding and encoding, the health and statistics endpoints, server start-up, environment parsing and logging. It is transport and I/O.
- `async` is dropped; request handling does not suspend, so it is a sequential method.
- The wall-clock start time of a call is a parameter, `now`, of `ProcessRetellRequest`. It is an integer, where retell_bridge.py uses a floating-point time.
- Python's salted string hash, which picks the empathy phrase, is a parameter `hash: string -> int` of the engine. The index is `hash(context) % 4`, which both Python and Dafny keep in `[0, 4)`.
- `Text.Lower` maps only the ASCII letters A-Z. Python's `str.lower` also folds other Unicode letters.
- Requests and messages are typed records: an absent `interaction_type` or `response_id` is `None`, and a message without content reads as "". An absent or null transcript is the empty list. retell_bridge.py treats a null transcript like an empty one (lines 272, 283, 363, 368).
- A message whose content is present but null is not modelled. retell_bridge.py raises on it, at the lower-casing of line 163 or in the joins of lines 273 and 286.
- The `conversation_history` argument of `get_next_response` is never used in retell_bridge.py. It is dropped from `GetNextResponse`, while `GenerateResponse` keeps it for the voice-presence pass.
- The engine's knowledge-base and personality instances hold no state and are modelled as modules.
- The constants that no logic reads (personality traits, company information, the list of case types) are left out.
- The session metadata's `client_type` and `qualification_status` are never updated in retell_bridge.py, and the transcript memory is never read back. They are modelled only as stored.
