/**
 * The kiosk's shared session state (the source's `globalAny.*` fields and the visitor-record
 * state) as one object, with one method per event the source reacts to: a face-detection
 * batch, a clock tick, a speech-recognition result, the end of a spoken sentence, the
 * classifier's answer (or its failure), and the end of the 5000 ms pause.
 * Speaking is an append to `spoken`; handing text to the classifier is an append to
 * `classifierInputs`, and `inFlight` counts the classifier calls not yet answered.
 */
module Orchestrator {
  import opened Optional
  import opened Presence
  import opened Dialogue
  import opened PropertyOptions

  /** What the session has collected: visitingFloor, visitingRoom and the two property lists. */
  datatype VisitorRecord = VisitorRecord(floor: Option<string>, room: Option<string>,
                                         options: seq<RequestOption>, optionTexts: seq<RequestOptionText>)

  const EmptyRecord: VisitorRecord := VisitorRecord(None, None, [], [])

  /** The record after stopEverythingAndPause: floor and both lists cleared, the room kept. */
  function PausedRecord(v: VisitorRecord): (r: VisitorRecord)
    ensures r.floor.None? && r.options == [] && r.optionTexts == [] && r.room == v.room
  {
    v.(floor := None, options := [], optionTexts := [])
  }

  /** The record after an answer recorded a floor or a room. */
  function Recorded(v: VisitorRecord, d: Effect): (r: VisitorRecord)
    ensures r.options == v.options && r.optionTexts == v.optionTexts
    ensures r.floor == (if d.floor.Some? then d.floor else v.floor)
    ensures r.room == (if d.room.Some? then d.room else v.room)
  {
    var w := if d.floor.Some? then v.(floor := d.floor) else v;
    if d.room.Some? then w.(room := d.room) else w
  }

  /** The tick asserts presence: it was not asserted and some tracked face confirms it. */
  predicate Raised(wasDetected: bool, m: Faces, now: int)
  {
    !wasDetected && RaisesPresence(m, now)
  }

  /** The tick clears presence: it was asserted and no face survives the sweep. */
  predicate Cleared(wasDetected: bool, m: Faces, now: int)
  {
    wasDetected && Sweep(m, now) == map[]
  }

  /** At least 1000 ms have passed since the last speech chunk. */
  predicate SilenceElapsed(lastSpoke: Option<int>, now: int)
  {
    lastSpoke.Some? && now - lastSpoke.value >= DetectionRate
  }

  class Kiosk {
    var faces: Faces                         // detectedFaces
    var detectedSomeone: bool
    var lastSpoke: Option<int>
    var listening: bool                      // listeningForAnswer
    var pendingText: Option<string>          // voiceRecognitionResult
    var atStage: Stage
    var followUpStage: Stage
    var aiActive: bool
    var record: VisitorRecord
    var spoken: seq<string>                  // every Tts.speak, in order
    var classifierInputs: seq<Option<string>>  // every text handed to nlp.process, in order
    var inFlight: nat                        // nlp.process calls not yet settled
    var pendingResumes: nat                  // 5000 ms timers not yet fired

    /**
     * The session invariant: the silence timer only runs while listening; presence is only
     * asserted while some face is tracked; a pause always has a resume timer pending; and
     * the conversation never reaches the confirmation stages.
     */
    ghost predicate Valid()
      reads this
    {
      (lastSpoke.Some? ==> listening) &&
      (detectedSomeone ==> faces != map[]) &&
      (!aiActive ==> pendingResumes > 0) &&
      Reachable(atStage)
    }

    /** The state the mount effect sets up. */
    constructor ()
      ensures Valid()
      ensures faces == map[] && !detectedSomeone && lastSpoke.None? && !listening && pendingText.None?
      ensures atStage == Idle && followUpStage == Idle && aiActive && record == EmptyRecord
      ensures spoken == [] && classifierInputs == [] && inFlight == 0 && pendingResumes == 0
    {
      faces := map[];
      detectedSomeone := false;
      lastSpoke := None;
      listening := false;
      pendingText := None;
      atStage := Idle;
      followUpStage := Idle;
      aiActive := true;
      record := EmptyRecord;
      spoken := [];
      classifierInputs := [];
      inFlight := 0;
      pendingResumes := 0;
    }

    /** onFacesDetected: upsert every face of the batch, in order. */
    method OnFacesDetected(ids: seq<FaceId>, now: int)
      requires Valid()
      modifies this`faces
      ensures Valid()
      ensures faces == Observe(old(faces), ids, now)
      ensures faces.Keys == old(faces).Keys + (set k | k in ids)
      ensures forall k :: k in old(faces) && k !in ids ==> faces[k] == old(faces)[k]
      ensures forall k :: k in old(faces) && k in ids ==> faces[k] == FaceObs(old(faces)[k].firstSeen, Some(now))
      ensures forall k :: k !in old(faces) && k in ids ==>
        faces[k] == FaceObs(now, if multiset(ids)[k] > 1 then Some(now) else None)
    {
      var i := 0;
      while i < |ids|
        invariant 0 <= i <= |ids|
        invariant faces == Observe(old(faces), ids[..i], now)
        invariant old(faces).Keys <= faces.Keys
      {
        assert ids[..i + 1][..i] == ids[..i];
        faces := Upsert(faces, ids[i], now);
        i := i + 1;
      }
      assert ids[..i] == ids;
      ObserveEffect(old(faces), ids, now);
    }

    /** moveToStage: set the stage and speak its question, if it has one. */
    method MoveToStage(s: Stage)
      modifies this`atStage, this`spoken
      ensures atStage == s && spoken == old(spoken) + QuestionFor(s.Code()).ToSeq()
    {
      atStage := s;
      var q := QuestionFor(s.Code());
      if q.Some? {
        spoken := spoken + [q.value];
      }
    }

    /** The loop of the tick: delete every face gone at `now`; the first confirming face raises presence. */
    method SweepFaces(now: int)
      modifies this`faces, this`detectedSomeone, this`atStage, this`spoken
      ensures faces == Sweep(old(faces), now)
      ensures detectedSomeone == (old(detectedSomeone) || RaisesPresence(old(faces), now))
      ensures var raised := !old(detectedSomeone) && RaisesPresence(old(faces), now);
        atStage == (if raised then HereForAVisit else old(atStage)) &&
        spoken == old(spoken) + (if raised then [Greeting] else [])
    {
      var todo := faces.Keys;
      while todo != {}
        invariant todo <= old(faces).Keys
        invariant faces == map k | k in old(faces) && (k in todo || !Gone(old(faces)[k], now)) :: old(faces)[k]
        invariant detectedSomeone ==
          (old(detectedSomeone) || exists k :: k in old(faces) && k !in todo && Confirms(old(faces)[k], now))
        invariant atStage == (if detectedSomeone && !old(detectedSomeone) then HereForAVisit else old(atStage))
        invariant spoken == old(spoken) + (if detectedSomeone && !old(detectedSomeone) then [Greeting] else [])
        decreases todo
      {
        assert exists k :: k in todo by {
          if forall k :: k !in todo {
            assert false;
          }
        }
        var k :| k in todo;
        var o := faces[k];
        if now - o.firstSeen >= DetectionRate {
          if o.lastSeen.None? || now - o.lastSeen.value > DetectionRate {
            faces := faces - {k};
          } else if now - o.lastSeen.value < DetectionRate && !detectedSomeone {
            detectedSomeone := true;
            MoveToStage(HereForAVisit);
          }
        }
        todo := todo - {k};
      }
    }

    /** stopListening: the microphone is off and the silence timer is cleared. */
    method StopListening()
      modifies this`listening, this`lastSpoke
      ensures !listening && lastSpoke.None?
    {
      listening := false;
      lastSpoke := None;
    }

    /**
     * processVoiceRecognition up to its asynchronous classifier call: stop listening, then hand
     * the pending text to the classifier, unless the engine is not trained yet (the call then
     * fails synchronously and nothing is handed over).
     */
    method ProcessVoiceRecognition(engineReady: bool)
      modifies this`listening, this`lastSpoke, this`classifierInputs, this`inFlight
      ensures !listening && lastSpoke.None?
      ensures classifierInputs == old(classifierInputs) + (if engineReady then [pendingText] else [])
      ensures inFlight == old(inFlight) + (if engineReady then 1 else 0)
    {
      StopListening();
      if engineReady {
        classifierInputs := classifierInputs + [pendingText];
        inFlight := inFlight + 1;
      }
    }

    /**
     * The periodic tick. While paused it does nothing. Otherwise it sweeps the faces (raising
     * presence and greeting at most once), clears presence and stops listening when no face
     * is left, and finalises the utterance once 1000 ms have passed since the last chunk.
     */
    method Tick(now: int, engineReady: bool) returns (finalised: bool)
      requires Valid()
      modifies this
      ensures Valid()
      ensures !old(aiActive) ==> !finalised && unchanged(this)
      ensures old(aiActive) ==> aiActive && !(Raised(old(detectedSomeone), old(faces), now) && Cleared(old(detectedSomeone), old(faces), now))
      ensures old(aiActive) ==> faces == Sweep(old(faces), now)
      ensures old(aiActive) ==>
        (detectedSomeone <==> Raised(old(detectedSomeone), old(faces), now) ||
                              (old(detectedSomeone) && !Cleared(old(detectedSomeone), old(faces), now)))
      ensures old(aiActive) ==> atStage == (if Raised(old(detectedSomeone), old(faces), now) then HereForAVisit else old(atStage))
      ensures old(aiActive) ==> spoken == old(spoken) + (if Raised(old(detectedSomeone), old(faces), now) then [Greeting] else [])
      ensures old(aiActive) ==> finalised == (!Cleared(old(detectedSomeone), old(faces), now) && SilenceElapsed(old(lastSpoke), now))
      ensures old(aiActive) ==> listening == (old(listening) && !Cleared(old(detectedSomeone), old(faces), now) && !finalised)
      ensures old(aiActive) ==> lastSpoke == (if Cleared(old(detectedSomeone), old(faces), now) || finalised then None else old(lastSpoke))
      ensures classifierInputs == old(classifierInputs) + (if finalised && engineReady then [old(pendingText)] else [])
      ensures inFlight == old(inFlight) + (if finalised && engineReady then 1 else 0)
      ensures pendingText == old(pendingText) && record == old(record)
      ensures followUpStage == old(followUpStage) && pendingResumes == old(pendingResumes)
      ensures finalised ==> lastSpoke.None? && !listening
    {
      finalised := false;
      if aiActive {
        SweepFaces(now);
        if RaisesPresence(old(faces), now) {
          RaiseKeepsAFace(old(faces), now);
        }
        if faces == map[] && detectedSomeone {
          detectedSomeone := false;
          StopListening();
        }
        if listening && lastSpoke.Some? && now - lastSpoke.value >= DetectionRate {
          ProcessVoiceRecognition(engineReady);
          finalised := true;
        }
      }
    }

    /** handleSpeechResults: keep the first transcript and stamp the time, only while listening. */
    method OnSpeechResults(values: seq<string>, now: int)
      requires Valid()
      modifies this`pendingText, this`lastSpoke
      ensures Valid()
      ensures var recorded := |values| > 0 && values[0] != "" && listening;
        pendingText == (if recorded then Some(values[0]) else old(pendingText)) &&
        lastSpoke == (if recorded then Some(now) else old(lastSpoke))
    {
      if |values| > 0 && values[0] != "" && listening {
        pendingText := Some(values[0]);
        lastSpoke := Some(now);
      }
    }

    /**
     * onTTSFinish: when the kiosk is active, switch the audio to recording and start the
     * recognizer; `recognizerStarted` says whether both asynchronous steps succeeded.
     */
    method OnTTSFinish(recognizerStarted: bool)
      requires Valid()
      modifies this`listening
      ensures Valid()
      ensures listening == (old(listening) || (aiActive && recognizerStarted))
    {
      if aiActive && recognizerStarted {
        listening := true;
      }
    }

    /** stopEverythingAndPause: end the session and pause for 5000 ms. */
    method StopEverythingAndPause()
      modifies this`aiActive, this`faces, this`detectedSomeone, this`lastSpoke, this`atStage,
        this`followUpStage, this`listening, this`record, this`pendingResumes
      ensures Valid()
      ensures !aiActive && pendingResumes == old(pendingResumes) + 1
      ensures faces == map[] && !detectedSomeone && lastSpoke.None? && !listening
      ensures atStage == Idle && followUpStage == Idle
      ensures record == PausedRecord(old(record))
    {
      aiActive := false;
      faces := map[];
      detectedSomeone := false;
      lastSpoke := None;
      atStage := Idle;
      followUpStage := Idle;
      StopListening();
      record := PausedRecord(record);
      pendingResumes := pendingResumes + 1;
    }

    /** The 5000 ms timer of a pause fires. */
    method Resume()
      requires Valid() && pendingResumes > 0
      modifies this`aiActive, this`pendingResumes
      ensures Valid()
      ensures aiActive && pendingResumes == old(pendingResumes) - 1
    {
      aiActive := true;
      pendingResumes := pendingResumes - 1;
    }

    /** Apply one stage decision: pause the session, or record its answer and move on; then speak. */
    method ApplyEffect(d: Effect)
      requires Valid()
      requires d.pause ==> d.next.None? && d.floor.None? && d.room.None?
      requires !d.pause && d.next.Some? ==> Reachable(d.next.value)
      modifies this`aiActive, this`faces, this`detectedSomeone, this`lastSpoke, this`listening,
               this`atStage, this`followUpStage, this`record, this`pendingResumes, this`spoken
      ensures Valid()
      ensures spoken == old(spoken) + d.say.ToSeq()
      ensures d.pause ==>
        !aiActive && pendingResumes == old(pendingResumes) + 1
        && faces == map[] && !detectedSomeone && lastSpoke.None? && !listening
        && atStage == Idle && followUpStage == Idle && record == PausedRecord(old(record))
      ensures !d.pause ==>
        aiActive == old(aiActive) && pendingResumes == old(pendingResumes)
        && faces == old(faces) && detectedSomeone == old(detectedSomeone)
        && lastSpoke == old(lastSpoke) && listening == old(listening)
        && followUpStage == old(followUpStage)
        && atStage == d.next.GetOr(old(atStage)) && record == Recorded(old(record), d)
    {
      if d.pause {
        StopEverythingAndPause();
      } else {
        record := Recorded(record, d);
        if d.next.Some? {
          atStage := d.next.value;
        }
      }
      if d.say.Some? {
        spoken := spoken + [d.say.value];
      }
    }

    /** The classifier answers: forget the pending text and apply the current stage's decision. */
    method OnClassification(r: Classification)
      requires Valid() && inFlight > 0
      modifies this
      ensures Valid()
      ensures inFlight == old(inFlight) - 1 && pendingText.None? && classifierInputs == old(classifierInputs)
      ensures var d := Decide(old(atStage), r);
        && spoken == old(spoken) + d.say.ToSeq()
        && (d.pause ==>
              !aiActive && pendingResumes == old(pendingResumes) + 1
              && faces == map[] && !detectedSomeone && lastSpoke.None? && !listening
              && atStage == Idle && followUpStage == Idle && record == PausedRecord(old(record)))
        && (!d.pause ==>
              aiActive == old(aiActive) && pendingResumes == old(pendingResumes)
              && faces == old(faces) && detectedSomeone == old(detectedSomeone)
              && lastSpoke == old(lastSpoke) && listening == old(listening)
              && followUpStage == old(followUpStage)
              && atStage == d.next.GetOr(old(atStage)) && record == Recorded(old(record), d))
    {
      pendingText := None;
      inFlight := inFlight - 1;
      ApplyEffect(Decide(atStage, r));
    }

    /** The classifier's promise is rejected: only logged; the pending text is kept. */
    method OnClassificationFailed()
      requires Valid() && inFlight > 0
      modifies this`inFlight
      ensures Valid()
      ensures inFlight == old(inFlight) - 1
    {
      inFlight := inFlight - 1;
    }

    /** insertUpdateSimplePropertyOption applied to the session's two lists. */
    method InsertUpdateSimplePropertyOption(p: Property, value: string, lbl: string)
      requires Valid()
      modifies this`record
      ensures Valid()
      ensures record.floor == old(record).floor && record.room == old(record).room
      ensures (record.options, record.optionTexts) ==
        PropertyOptions.InsertUpdateSimplePropertyOption(old(record).options, old(record).optionTexts, p, value, lbl)
    {
      var r := PropertyOptions.InsertUpdateSimplePropertyOption(record.options, record.optionTexts, p, value, lbl);
      record := record.(options := r.0, optionTexts := r.1);
    }
  }
}
