# Visitor-interaction orchestrator of the check-in kiosk

The kiosk watches its camera for a face and greets whoever stands in front of it. It then runs
a spoken dialogue: it speaks a question, listens, decides the answer is complete after one second
of silence, and has the answer classified. The classification moves the conversation through
its stages (here for a visit?, which floor?, which room?, properties, confirmation). This project
models that logic from `App.tsx` in Dafny and proves properties of it.

- `optional.dfy` (`Optional`): the `Option` type that stands for the source's `null`.
- `presence.dfy` (`Presence`): the face-observation map (`detectedFaces`), the upsert of a
  detection batch, and the aging rule of the tick. It uses the 1000 ms `TIMER_VISITOR_DECTION_RATE`.
- `dialogue.dfy` (`Dialogue`): the live stages 0-6 with their numeric codes, the prompts, the
  classifier's result (intents and entities), the first-match lookups done with `find`, and
  `Decide`. `Decide` is the per-stage switch of `processVoiceRecognition`, written as a pure
  function from (stage, result) to an `Effect`. An `Effect` says whether to pause, the next
  stage, the floor or room to record, and the sentence to speak.
- `property_options.dfy` (`PropertyOptions`): the two id-keyed lists of chosen visitor
  properties, and `insertUpdateSimplePropertyOption` and `getPropertyOptionLabelValue` as pure
  functions over them.
- `orchestrator.dfy` (`Orchestrator`): class `Kiosk` holds the shared session state (the
  `globalAny.*` fields, the floor, the room and the property lists). It has one method per event:
  a face batch, a clock tick, a speech result, the end of a spoken sentence, the classifier's
  answer or failure, and the end of the pause timer. Speaking appends to `spoken`. Calling the
  classifier appends to `classifierInputs`, and `inFlight` counts calls not yet answered.
  `Kiosk.Valid()` is the session invariant every event preserves:
  - the silence timer runs only while listening;
  - presence is asserted only while a face is tracked;
  - a pause always has a resume timer pending;
  - the confirmation stages are never reached.
- `scenarios.dfy` (`Scenarios`): client code that drives one `Kiosk` through whole visits,
  using nothing but the methods' contracts.

Time is integer milliseconds, and a `moment` difference is a subtraction. Confidences and
accuracies are `real`, and only their comparisons with 0.9 are modelled.

The model follows the code as written, including these points:
- Presence loss stops listening. It does not reset the stage or the visitor record.
- Only the first intent with a given label, and only the first `ordinal` entity, is examined.
  A later entry that would qualify is ignored.
- `isAllInfoAcquired` is constantly false. So `WHAT_ROOM` moves silently to `GET_ALL_PROPERTIES`,
  and `IS_INFO_GOOD` and `MODIFY_INFO` are never reached (`Kiosk.Valid`, `Dialogue.Decide`).
- `GET_ALL_PROPERTIES` and `MODIFY_INFO` never change the stage.
- In the floor and room stages the "unsure" test is strict (`> 0.9`).
- `stopEverythingAndPause` clears the floor and both lists, but keeps the room.
- A classifier failure is only logged: no prompt is spoken and the pending text is kept.
- `globalAny.departementMsg` is never created, because its set-up (App.tsx:415-417) is commented
  out. The `replayAsync` call on it (App.tsx:773, 796) therefore throws. The throw lands in the
  promise's `.catch` (App.tsx:915-918), so that branch has no effect.
- A face id reported twice in one batch is first inserted and then updated, so it leaves the
  batch with `lastSeen = now`.
- `askQuestion(NEED_NUMBER)` speaks the `NEED_NAME` sentence.

## Model

| member | source | states |
|---|---|---|
| `Presence.Upsert` | App.tsx:982-991 | one reported face: the key set gains the id, every other entry is unchanged |
| `Presence.Observe` | App.tsx:983-991 | the batch loop of `onFacesDetected`, one upsert per face in order: no tracked face is dropped, and every face new to the map is first seen `now`; `Presence.ObserveEffect` gives its full per-face result |
| `Presence.ObserveEffect` | App.tsx:982-993 | after a batch: every reported id is tracked; a known id keeps firstSeen and gets lastSeen = now; a new id gets firstSeen = now and lastSeen null unless repeated in the batch; unreported entries unchanged |
| `Presence.Confirms` | App.tsx:481-485 | a face that raises presence has been seen again (lastSeen not null) and is not one the tick removes |
| `Presence.Sweep` | App.tsx:478-483 | the tick removes a face exactly when now - firstSeen >= 1000 and (lastSeen null or now - lastSeen > 1000); values of kept faces unchanged; a face younger than 1000 ms, or seen within the last 1000 ms, is kept |
| `Presence.RaiseKeepsAFace` | App.tsx:478-498 | when some face confirms presence, the map is not empty after the sweep, so one tick never raises and clears presence together |
| `Presence.SingleSightingNeverRaises` | App.tsx:484 | a map of faces each seen only once can never raise presence |
| `Dialogue.Stage.Code` | App.tsx:693-702 | each live stage has its code 0-6; only the idle stage has code 0 |
| `Dialogue.QuestionFor` | App.tsx:927-976 | askQuestion speaks a known prompt for every stage code 1-6, and for nothing outside 1-6 and 100-103 |
| `Dialogue.FindIntent` | App.tsx:742 | `find` on labels: none exactly when no intent has the label, otherwise the first one with it |
| `Dialogue.FindEntity` | App.tsx:761 | `find` on entity types: none exactly when no entity has the type, otherwise the first one with it |
| `Dialogue.AtLeast` | App.tsx:742-744 | `intent && intent.value >= t` holds exactly when the first intent with the label exists and scores at least t |
| `Dialogue.Above` | App.tsx:771-772 | the strict variant used for `confirmation.unsure`: the first intent with the label scores above t |
| `Dialogue.OrdinalValue` | App.tsx:761-762 | a value is returned exactly when the first ordinal entity has accuracy >= 0.9 and subtype integer, and it is that entity's strValue |
| `Dialogue.Say` | App.tsx:709-714 | `askQuestionToUser(q)` with the default stage 0: speaks `q`, leaves the stage, records nothing, does not pause |
| `Dialogue.Ask` | App.tsx:709-714 | `askQuestionToUser(q, s)` with `s > 0`: moves to `s` and speaks `q`, records nothing, does not pause |
| `Dialogue.IsAllInfoAcquired` | App.tsx:715-717 | is constantly false, so the branches that would move to the confirmation stage never run |
| `Dialogue.Decide` | App.tsx:739-914 | the stage table: greeting accepts at >= 0.9 positive (to floor, floor question), else pauses at >= 0.9 negative, else asks to repeat; floor/room record a floor or room exactly when the first ordinal qualifies, and then its strValue, and advance (room silently to properties), else do nothing on unsure > 0.9, else ask to repeat; properties stays; confirmation pauses and thanks, or moves to modify on negative/unsure, else repeats; idle and modify do nothing; a stage change that is not a pause speaks exactly once, unless it is the silent move to properties (declining the greeting pauses back to idle and speaks nothing); the confirmation stages are unreachable; fields are recorded only from a qualifying entity |
| `PropertyOptions.FindIndex` | App.tsx:616 | `findIndex`: -1 exactly when the id is absent, otherwise the first position holding it |
| `PropertyOptions.UpsertOption` | App.tsx:614-628 | absent id: one entry appended with the property's text and the value; present id: same length, first entry with that id gets the new value, all others unchanged |
| `PropertyOptions.UpsertOptionText` | App.tsx:630-643 | the same on the text list, an update setting both the value's label and its id |
| `PropertyOptions.InsertUpdateSimplePropertyOption` | App.tsx:614-644 | the upsert on both lists: afterwards both hold the property's id; the option list grows by one exactly for a new id; the text list's entry for the property carries the label just chosen |
| `PropertyOptions.GetPropertyOptionLabelValue` | App.tsx:646-653 | '' when the id is absent, otherwise the label of the first entry with that id |
| `PropertyOptions.UpsertOptionIds` | App.tsx:614-628 | an upsert adds the property's id to the ids held and lengthens the list by one exactly for a new id |
| `PropertyOptions.UpsertOptionTextIds` | App.tsx:630-643 | after an upsert the text list holds the property's id |
| `PropertyOptions.UpsertOptionIdempotent` | App.tsx:614-628 | repeating the same upsert changes nothing |
| `PropertyOptions.LabelValueAfterUpsert` | App.tsx:614-653 | after an upsert the property is found: its existing label, or the property's text when it was new |
| `PropertyOptions.LabelValueEmptyIffAbsent` | App.tsx:646-653 | when no entry's label is empty, the lookup answers '' exactly when the id is absent |
| `PropertyOptions.LabelValueEchoesPropertyText` | App.tsx:646-653 | as written, a newly chosen property displays its own text, not the chosen value's label |
| `PropertyOptions.LabelValueCounterexample` | App.tsx:1037-1039 | property "Étage" with chosen value "Deuxième" displays "Étage" |
| `PropertyOptions.SelectedValueLabel` | App.tsx:646-653 | corrected lookup: '' when absent, otherwise the chosen value's label of the first entry |
| `PropertyOptions.SelectedValueLabelAfterUpsert` | App.tsx:630-643 | after an upsert the corrected lookup shows the label just chosen |
| `Orchestrator.PausedRecord` | App.tsx:608-610 | the pause clears the floor and both property lists and keeps the room |
| `Orchestrator.Recorded` | App.tsx:762-786 | an answer overwrites the floor or room only when it recorded one; the lists are untouched |
| `Orchestrator.Kiosk.constructor` | App.tsx:469-474 | empty face map, nobody detected, not listening, stage 0, active, empty record and logs; the invariant holds |
| `Orchestrator.Kiosk.OnFacesDetected` | App.tsx:982-993 | the map becomes the batch's upsert, with the per-face rule stated outright; nothing else changes |
| `Orchestrator.Kiosk.MoveToStage` | App.tsx:921-925 | sets the stage and speaks askQuestion's prompt for its code |
| `Orchestrator.Kiosk.SweepFaces` | App.tsx:478-490 | the map becomes the sweep; presence is raised when some face confirms; in that case the stage becomes 1 and the greeting is spoken exactly once, otherwise stage and log are unchanged |
| `Orchestrator.Kiosk.StopListening` | App.tsx:569-572 | listening false and lastSpoke null |
| `Orchestrator.Kiosk.ProcessVoiceRecognition` | App.tsx:723-729 | stops listening, then hands the pending text to the classifier once, unless the engine is not ready |
| `Orchestrator.Kiosk.Tick` | App.tsx:476-504 | while paused nothing changes; otherwise sweep and raise as above; presence is cleared (and listening stopped) exactly when it was asserted and no face is left; never raise and clear together; finalise exactly when not cleared and 1000 ms passed since the last chunk; after finalising lastSpoke is null, so the next tick cannot finalise again without a new chunk |
| `Orchestrator.Kiosk.OnSpeechResults` | App.tsx:554-560 | the first transcript is stored and lastSpoke stamped exactly when it is non-empty and the kiosk is listening; otherwise nothing changes |
| `Orchestrator.Kiosk.OnTTSFinish` | App.tsx:518-530 | listening starts exactly when the kiosk is active and the recognizer started; nothing else changes |
| `Orchestrator.Kiosk.StopEverythingAndPause` | App.tsx:599-612 | inactive with one more resume pending, empty map, nobody detected, not listening, lastSpoke null, stage and follow-up 0, floor and lists cleared |
| `Orchestrator.Kiosk.Resume` | App.tsx:611 | the pending timer fires and the kiosk is active again |
| `Orchestrator.Kiosk.ApplyEffect` | App.tsx:739-914 | a pausing decision resets presence, listening and both stages, clears the record except its room and leaves a resume timer pending; any other decision keeps presence and listening, moves to its next stage and records its floor or room; its sentence, if any, is spoken last; the invariant holds |
| `Orchestrator.Kiosk.OnClassification` | App.tsx:729-918 | the pending text is dropped and the decision for the current stage is applied: a pause resets the session, otherwise stage, floor and room follow the decision; the decision's sentence is spoken; the invariant holds |
| `Orchestrator.Kiosk.OnClassificationFailed` | App.tsx:915-918 | a failed classification only settles the call |
| `Orchestrator.Kiosk.InsertUpdateSimplePropertyOption` | App.tsx:614-644 | both session lists become their upserts; floor and room unchanged |
| `Scenarios.GreetsConfirmedFace` | App.tsx:476-490 | a face seen at 0 and 1200 ms is confirmed at the 1200 ms tick, which greets once; a later tick does not greet again |
| `Scenarios.FlickerIsIgnored` | App.tsx:478-483 | a face seen once is dropped after 1000 ms and never raises presence |
| `Scenarios.Hear` | App.tsx:518-560 | after the greeting the recognizer starts and the answer is recorded with its time |
| `Scenarios.GreetAndHear` | App.tsx:500-502 | the answer is finalised after 1000 ms of silence and handed to the classifier exactly once |
| `Scenarios.AcceptsVisit` | App.tsx:740-746 | "oui" at 0.95 moves to the floor stage and asks the floor question |
| `Scenarios.AnswerFloor` | App.tsx:518-560 | after the floor question the recognizer restarts and the new answer is recorded with its time |
| `Scenarios.HearFloor` | App.tsx:500-502 | a second answer is finalised at the next quiet tick |
| `Scenarios.RecordsFloor` | App.tsx:760-769 | an integer ordinal "2" at 0.95 records floor "2" and asks for the room |
| `Scenarios.FirstOrdinalDecides` | App.tsx:761-781 | an inaccurate first ordinal hides an accurate second one: no floor, repeat prompt |
| `Scenarios.UnclearAnswerIsRepeated` | App.tsx:748-756 | low confidence on every intent: "please repeat" spoken once, stage unchanged |
| `Scenarios.DeclinesVisit` | App.tsx:749-752 | "non" at 0.97 ends the session: presence and stage reset, nothing more spoken, one resume timer pending |
| `Scenarios.DeclinedVisitPauses` | App.tsx:476-477 | while paused a tick neither sweeps nor greets; the timer then resumes the kiosk |
| `Scenarios.VisitorLeaves` | App.tsx:484-498 | the last face swept: presence cleared, listening stopped, stage kept, nothing sent to the classifier |

## Left out

- The NLP engine's setup, training and `nlp.process` (App.tsx:143-269, 729) are a foreign library.
  The classifier's response is an input of `OnClassification`. Whether the engine is trained yet
  is the `engineReady` parameter of `Tick`.
- Confidences are `real`. Floating-point behaviour is not modelled.
- Networking is not modelled: the axios setup, the floor and settings fetch, and `registerVisitor`
  (App.tsx:24-45, 271-311, 655-691). `registerVisitor` has no live caller.
- Permissions, audio modes, and TTS engine and voice selection are platform configuration
  (App.tsx:93-125, 318-340, 448-454).
- Recognizer start and stop are modelled as flag changes. `OnTTSFinish` is one atomic event:
  its parameter says whether switching the audio mode and starting the recognizer both succeeded.
  The gap between the TTS finish and the recognizer's start is not modelled. Neither is the
  asynchronous result of `Voice.stop`.
- `onTTSStart`, `onTTSCancel`, `handleSpeechStart`, `handleSpeechEnd` and `handleSpeechError`
  do nothing or only log. `handleSpeechStart` and `handleSpeechEnd` have their log calls commented
  out (App.tsx:548-553). None of them is an event of the model.
- The `setInterval` and `setTimeout(…, 5000)` timers become the `Tick(now)` and `Resume()`
  events. The kiosk does not check that ticks come 1000 ms apart or that time increases.
- `onFacesDetected` reads the clock once per face. The model stamps a whole batch with one `now`.
- The order of `detectedFaces` (insertion order in JavaScript) is not modelled. The tick's
  outcome does not depend on it: it only deletes entries and greets at most once.
- React state mirrors, their asynchronous updates and stale closures are not modelled. All
  rendering is UI (App.tsx:1028-1206). Floor, room and the lists change at once in the model.
- Property values (`any` in the source) are strings.
- `Kiosk.InsertUpdateSimplePropertyOption`: App.tsx never calls `insertUpdateSimplePropertyOption`
  (App.tsx:614 is its only occurrence). The method models an event the program never raises, and
  in the running program both lists only ever hold `[]` (App.tsx:80-81, 609-610).
- The commented-out `YOUR_NAME`, `YOUR_PHONE_NUMBER` and `MODIFY_INFO` routing and the audio-file
  loading (App.tsx:342-446, 818-864, 890-907) are not live code.

## Findings

| source | as written | input that shows it | evidently intended | confidence | as-written member | corrected member |
|---|---|---|---|---|---|---|
| App.tsx:646-653 | latent, in a function nothing calls yet: `getPropertyOptionLabelValue` returns the entry's `label`, which `insertUpdateSimplePropertyOption` fills with the property's own text (App.tsx:619). Once entries are inserted, the screen (App.tsx:1037-1039) would show the property's name twice. As the code stands the lists stay empty and it shows "Étage: " | once inserted, property "Étage" chosen with value label "Deuxième" would display "Étage: Étage" | show the label of the chosen value, kept in the text list's `value` field | medium, not executed | `PropertyOptions.LabelValueEchoesPropertyText` | `PropertyOptions.SelectedValueLabelAfterUpsert` |
