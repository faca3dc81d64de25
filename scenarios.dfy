/**
 * Client code that drives one Kiosk through whole visits using only the methods' contracts:
 * what a caller can conclude about greeting, turn-taking, the dialogue and presence loss.
 */
module Scenarios {
  import opened Optional
  import opened Presence
  import opened Dialogue
  import opened Orchestrator

  /** A face seen at 0 ms and again at 1200 ms is confirmed by the 1200 ms tick, which greets once. */
  method GreetsConfirmedFace() returns (k: Kiosk)
    ensures fresh(k) && k.Valid() && k.detectedSomeone && k.atStage == HereForAVisit && k.spoken == [Greeting]
    ensures k.faces == map[7 := FaceObs(0, Some(1200))] && !k.listening && k.aiActive && k.pendingResumes == 0
    ensures k.inFlight == 0 && k.classifierInputs == [] && k.record == EmptyRecord
  {
    k := new Kiosk();
    k.OnFacesDetected([7], 0);
    k.OnFacesDetected([7], 1200);
    assert Confirms(k.faces[7], 1200);
    var f := k.Tick(1200, true);
    assert k.faces == map[7 := FaceObs(0, Some(1200))];
    var g := k.Tick(1500, true);
    assert !g && k.spoken == [Greeting];
  }

  /** A face reported once is dropped by the tick after 1000 ms without ever raising presence. */
  method FlickerIsIgnored() returns (k: Kiosk)
    ensures k.faces == map[] && !k.detectedSomeone && k.spoken == [] && k.atStage == Idle
  {
    k := new Kiosk();
    k.OnFacesDetected([3], 0);
    var f := k.Tick(500, true);
    assert k.faces == map[3 := FaceObs(0, None)] && !k.detectedSomeone;
    f := k.Tick(1000, true);
  }

  /** After the greeting the recognizer starts, the visitor says `word` at 1300 ms and is seen again at 2300 ms. */
  method Hear(word: string) returns (k: Kiosk)
    requires word != ""
    ensures fresh(k) && k.Valid() && k.atStage == HereForAVisit && k.spoken == [Greeting]
    ensures k.listening && k.lastSpoke == Some(1300) && k.pendingText == Some(word)
    ensures k.classifierInputs == [] && k.inFlight == 0
    ensures k.detectedSomeone && k.aiActive && k.record == EmptyRecord && k.pendingResumes == 0
    ensures k.faces == map[7 := FaceObs(0, Some(2300))]
  {
    k := GreetsConfirmedFace();
    k.OnTTSFinish(true);
    assert k.listening;
    k.OnSpeechResults([word], 1300);
    k.OnFacesDetected([7], 2300);
    assert k.faces == map[7 := FaceObs(0, Some(2300))];
  }

  /**
   * The 2300 ms tick finalises the answer and hands it to the classifier once; a later tick
   * does not hand it over again.
   */
  method GreetAndHear(word: string) returns (k: Kiosk)
    requires word != ""
    ensures fresh(k) && k.Valid() && k.atStage == HereForAVisit && k.spoken == [Greeting]
    ensures k.classifierInputs == [Some(word)] && k.inFlight == 1 && !k.listening && k.lastSpoke.None?
    ensures k.detectedSomeone && k.aiActive && k.record == EmptyRecord && k.pendingResumes == 0
    ensures k.faces == map[7 := FaceObs(0, Some(2300))]
  {
    k := Hear(word);
    assert !Gone(k.faces[7], 2300);
    assert Sweep(k.faces, 2300) == k.faces;
    var f := k.Tick(2300, true);
    assert f;
    assert Sweep(k.faces, 2400) == k.faces;
    var again := k.Tick(2400, true);
    assert !again;
  }

  /** "oui" with confidence 0.95 moves the greeting to the floor question. */
  method AcceptsVisit() returns (k: Kiosk)
    ensures fresh(k) && k.Valid() && k.atStage == WhatFloor && k.spoken == [Greeting, FloorQuestion]
    ensures k.inFlight == 0 && k.pendingText.None? && !k.listening && k.aiActive && k.detectedSomeone
    ensures k.classifierInputs == [Some("oui")]
    ensures k.faces == map[7 := FaceObs(0, Some(2300))] && k.record == EmptyRecord
  {
    k := GreetAndHear("oui");
    var yes := Classification([Intent(Positive, 0.95)], []);
    assert FirstLabelled(yes.classifications, Positive, 0);
    k.OnClassification(yes);
  }

  /** At the floor question the visitor answers "deuxième" at 2500 ms and is seen again at 3400 ms. */
  method AnswerFloor() returns (k: Kiosk)
    ensures fresh(k) && k.Valid() && k.atStage == WhatFloor && k.spoken == [Greeting, FloorQuestion]
    ensures k.classifierInputs == [Some("oui")] && k.inFlight == 0 && k.record == EmptyRecord
    ensures k.listening && k.lastSpoke == Some(2500) && k.pendingText == Some("deuxième")
    ensures k.detectedSomeone && k.aiActive && k.faces == map[7 := FaceObs(0, Some(3400))]
  {
    k := AcceptsVisit();
    k.OnTTSFinish(true);
    k.OnSpeechResults(["deuxième"], 2500);
    k.OnFacesDetected([7], 3400);
    assert k.faces == map[7 := FaceObs(0, Some(3400))];
  }

  /** The 3500 ms tick hands the floor answer to the classifier. */
  method HearFloor() returns (k: Kiosk)
    ensures fresh(k) && k.Valid() && k.atStage == WhatFloor && k.spoken == [Greeting, FloorQuestion]
    ensures k.classifierInputs == [Some("oui"), Some("deuxième")] && k.inFlight == 1 && k.record == EmptyRecord
  {
    k := AnswerFloor();
    assert Sweep(k.faces, 3500) == k.faces;
    var f := k.Tick(3500, true);
    assert f;
  }

  /** An integer ordinal "2" at accuracy 0.95 records floor "2" and asks for the room. */
  method RecordsFloor() returns (k: Kiosk)
    ensures k.record.floor == Some("2") && k.atStage == WhatRoom
    ensures k.spoken == [Greeting, FloorQuestion, RoomQuestion]
  {
    k := HearFloor();
    var answer := Classification([], [Entity(Ordinal, 0.95, IntegerSubtype, "2")]);
    assert FirstOfType(answer.entities, Ordinal, 0);
    assert OrdinalAnswer(answer.entities, "2");
    k.OnClassification(answer);
  }

  /** Only the first ordinal entity is examined: an inaccurate first one hides an accurate second one. */
  method FirstOrdinalDecides() returns (k: Kiosk)
    ensures k.record.floor.None? && k.atStage == WhatFloor
    ensures k.spoken == [Greeting, FloorQuestion, Repeat]
  {
    k := HearFloor();
    var answer := Classification([], [Entity(Ordinal, 0.5, IntegerSubtype, "3"), Entity(Ordinal, 0.95, IntegerSubtype, "2")]);
    assert FirstOfType(answer.entities, Ordinal, 0);
    assert FindIntent(answer.classifications, Unsure).None?;
    k.OnClassification(answer);
  }

  /** An unclear answer to the greeting is met with one "please repeat" and no change of stage. */
  method UnclearAnswerIsRepeated() returns (k: Kiosk)
    ensures k.atStage == HereForAVisit && k.spoken == [Greeting, Repeat]
  {
    k := GreetAndHear("hmm");
    var unclear := Classification([Intent(Positive, 0.5), Intent(Negative, 0.3)], []);
    assert FirstLabelled(unclear.classifications, Positive, 0);
    assert FirstLabelled(unclear.classifications, Negative, 1);
    k.OnClassification(unclear);
  }

  /** "Non" to the greeting ends the session: everything is reset and a resume timer is pending. */
  method DeclinesVisit() returns (k: Kiosk)
    ensures fresh(k) && k.Valid() && !k.aiActive && k.pendingResumes == 1 && k.atStage == Idle
    ensures k.faces == map[] && !k.detectedSomeone && k.spoken == [Greeting]
  {
    k := GreetAndHear("non");
    var no := Classification([Intent(Negative, 0.97)], []);
    assert FirstLabelled(no.classifications, Negative, 0);
    assert FindIntent(no.classifications, Positive).None?;
    k.OnClassification(no);
  }

  /** While paused, a face is tracked but never greeted; the timer then resumes the kiosk. */
  method DeclinedVisitPauses() returns (k: Kiosk)
    ensures k.aiActive && k.pendingResumes == 0 && k.atStage == Idle && !k.detectedSomeone
    ensures k.faces == map[7 := FaceObs(2500, None)] && k.spoken == [Greeting]
  {
    k := DeclinesVisit();
    k.OnFacesDetected([7], 2500);
    var paused := k.Tick(4000, true);
    assert !paused && k.faces == map[7 := FaceObs(2500, None)];
    k.Resume();
  }

  /** The visitor walks away: once the last face is swept, presence is cleared and listening stops; the stage stays. */
  method VisitorLeaves() returns (k: Kiosk)
    ensures k.faces == map[] && !k.detectedSomeone && !k.listening && k.lastSpoke.None?
    ensures k.atStage == HereForAVisit && k.classifierInputs == []
  {
    k := GreetsConfirmedFace();
    k.OnTTSFinish(true);
    k.OnSpeechResults(["oui"], 1300);
    assert Gone(k.faces[7], 2300);
    assert Sweep(k.faces, 2300) == map[];
    var f := k.Tick(2300, true);
    assert !f;
  }
}
