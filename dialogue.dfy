/**
 * The dialogue stage machine: the live stages, the classifier's result as the kiosk reads it,
 * the first-match lookups the source does with `find`, and the per-stage decision taken when
 * a classification arrives (the body of the promise continuation in processVoiceRecognition).
 */
module Dialogue {
  import opened Optional

  /** The live stages 0-6. YOUR_NAME (3) and YOUR_PHONE_NUMBER (4) share WhatRoom's and GetAllProperties' codes. */
  datatype Stage = Idle | HereForAVisit | WhatFloor | WhatRoom | GetAllProperties | IsInfoGood | ModifyInfo
  {
    /** The numeric constant the source stores in atStage. */
    function Code(): (c: int)
      ensures 0 <= c <= 6
      ensures c == 0 <==> this == Idle
    {
      match this
      case Idle => 0
      case HereForAVisit => 1
      case WhatFloor => 2
      case WhatRoom => 3
      case GetAllProperties => 4
      case IsInfoGood => 5
      case ModifyInfo => 6
    }
  }

  const YourNameCode: int := 3
  const YourPhoneNumberCode: int := 4
  const CanYouRepeatCode: int := 100
  const ImListeningCode: int := 101
  const NeedNameCode: int := 102
  const NeedNumberCode: int := 103

  const Greeting: string := "Bonjour, vous venez pour une visite?"
  const FloorQuestion: string := "Sur quel étage allez-vous?"
  const RoomQuestion: string := "Quel Chambre?"
  const NameQuestion: string := "Puis-je avoir votre nom?"
  const PhoneQuestion: string := "Puis-je avoir un numéro de téléphone?"
  const InfoQuestion: string := "Est-ce que l'information est exacte?"
  const ModifyQuestion: string := "Quel élément voulez-vous modifier?"
  const Repeat: string := "Pouvez-vous répéter?"
  const Listening: string := "J'écoute!"
  const NeedName: string := "J'ai besoin d'un nom,"
  const ThankYou: string := "Merci, vous êtes enregistré."

  /** Every sentence the kiosk can speak. */
  const Prompts: set<string> := {Greeting, FloorQuestion, RoomQuestion, NameQuestion, PhoneQuestion,
    InfoQuestion, ModifyQuestion, Repeat, Listening, NeedName, ThankYou}

  /**
   * askQuestion: the sentence spoken for a question code, first matching case of its switch;
   * none for an unknown code. NEED_NUMBER speaks the NEED_NAME sentence, as written.
   */
  function QuestionFor(code: int): (q: Option<string>)
    ensures 1 <= code <= 6 ==> q.Some?
    ensures q.Some? ==> q.value in Prompts
    ensures q.Some? ==> 1 <= code <= 6 || 100 <= code <= 103
  {
    if code == Stage.HereForAVisit.Code() then Some(Greeting)
    else if code == Stage.WhatFloor.Code() then Some(FloorQuestion)
    else if code == YourNameCode then Some(NameQuestion)
    else if code == YourPhoneNumberCode then Some(PhoneQuestion)
    else if code == Stage.IsInfoGood.Code() then Some(InfoQuestion)
    else if code == Stage.ModifyInfo.Code() then Some(ModifyQuestion)
    else if code == CanYouRepeatCode then Some(Repeat)
    else if code == ImListeningCode then Some(Listening)
    else if code == NeedNameCode then Some(NeedName)
    else if code == NeedNumberCode then Some(NeedName)
    else None
  }

  /** A classification: a label (`label` in the response) with its confidence (`classifications` in the classifier's response). */
  datatype Intent = Intent(name: string, value: real)

  /** An extracted entity: its type, accuracy, resolution subtype and resolved string value. */
  datatype Entity = Entity(entity: string, accuracy: real, subtype: string, strValue: string)

  /** The classifier's response to one utterance. */
  datatype Classification = Classification(classifications: seq<Intent>, entities: seq<Entity>)

  const Threshold: real := 0.9
  const Positive: string := "confirmation.positive"
  const Negative: string := "confirmation.negative"
  const Unsure: string := "confirmation.unsure"
  const Ordinal: string := "ordinal"
  const IntegerSubtype: string := "integer"

  /** xs[i] is the first intent labelled `lbl`. */
  ghost predicate FirstLabelled(xs: seq<Intent>, lbl: string, i: int)
  {
    0 <= i < |xs| && xs[i].name == lbl && forall j :: 0 <= j < i ==> xs[j].name != lbl
  }

  /** es[i] is the first entity of type `kind`. */
  ghost predicate FirstOfType(es: seq<Entity>, kind: string, i: int)
  {
    0 <= i < |es| && es[i].entity == kind && forall j :: 0 <= j < i ==> es[j].entity != kind
  }

  /** Position of the first intent labelled `lbl`, or -1. */
  ghost function FirstIntentIndex(xs: seq<Intent>, lbl: string): (i: int)
    ensures -1 <= i < |xs|
    ensures i == -1 <==> forall j :: 0 <= j < |xs| ==> xs[j].name != lbl
    ensures i >= 0 ==> FirstLabelled(xs, lbl, i)
  {
    if xs == [] then -1
    else if xs[0].name == lbl then 0
    else var k := FirstIntentIndex(xs[1..], lbl); if k == -1 then -1 else k + 1
  }

  /** Position of the first entity of type `kind`, or -1. */
  ghost function FirstEntityIndex(es: seq<Entity>, kind: string): (i: int)
    ensures -1 <= i < |es|
    ensures i == -1 <==> forall j :: 0 <= j < |es| ==> es[j].entity != kind
    ensures i >= 0 ==> FirstOfType(es, kind, i)
  {
    if es == [] then -1
    else if es[0].entity == kind then 0
    else var k := FirstEntityIndex(es[1..], kind); if k == -1 then -1 else k + 1
  }

  /** `find(element => element.label === lbl)` over the classifications. */
  function FindIntent(xs: seq<Intent>, lbl: string): (r: Option<Intent>)
    ensures r.None? <==> forall i :: 0 <= i < |xs| ==> xs[i].name != lbl
    ensures forall i :: FirstLabelled(xs, lbl, i) ==> r == Some(xs[i])
  {
    if xs == [] then None
    else if xs[0].name == lbl then Some(xs[0])
    else FindIntent(xs[1..], lbl)
  }

  /** `find(element => element.entity === kind)` over the entities. */
  function FindEntity(es: seq<Entity>, kind: string): (r: Option<Entity>)
    ensures r.None? <==> forall i :: 0 <= i < |es| ==> es[i].entity != kind
    ensures forall i :: FirstOfType(es, kind, i) ==> r == Some(es[i])
  {
    if es == [] then None
    else if es[0].entity == kind then Some(es[0])
    else FindEntity(es[1..], kind)
  }

  /** The first intent labelled `lbl` exists and scores at least `t` (the source's `intent && intent.value >= t`). */
  ghost predicate ScoresAtLeast(xs: seq<Intent>, lbl: string, t: real)
  {
    exists i :: FirstLabelled(xs, lbl, i) && xs[i].value >= t
  }

  /** The same with the strict comparison the floor and room stages use for `confirmation.unsure`. */
  ghost predicate ScoresAbove(xs: seq<Intent>, lbl: string, t: real)
  {
    exists i :: FirstLabelled(xs, lbl, i) && xs[i].value > t
  }

  /** The first ordinal entity is accurate enough and an integer, and resolves to `v`. */
  ghost predicate OrdinalAnswer(es: seq<Entity>, v: string)
  {
    exists i :: FirstOfType(es, Ordinal, i) && es[i].accuracy >= Threshold &&
      es[i].subtype == IntegerSubtype && es[i].strValue == v
  }

  /** The first ordinal entity does not qualify (absent, inaccurate, or not an integer). */
  ghost predicate NoOrdinalAnswer(es: seq<Entity>)
  {
    forall v :: !OrdinalAnswer(es, v)
  }

  /**
   * What one classification does: run the pause reset first, then record floor and room,
   * then move to `next`, then speak `say`.
   */
  datatype Effect = Effect(pause: bool, next: Option<Stage>, floor: Option<string>, room: Option<string>, say: Option<string>)

  const NoEffect: Effect := Effect(false, None, None, None, None)

  /** askQuestionToUser(q): speak without moving. */
  function Say(q: string): (e: Effect)
    ensures e.say == Some(q) && e.next.None? && !e.pause && e.floor.None? && e.room.None?
  {
    Effect(false, None, None, None, Some(q))
  }

  /** askQuestionToUser(q, s) with s > 0: move to `s` and speak. */
  function Ask(s: Stage, q: string): (e: Effect)
    ensures e.say == Some(q) && e.next == Some(s) && !e.pause && e.floor.None? && e.room.None?
  {
    Effect(false, Some(s), None, None, Some(q))
  }

  /** isAllInfoAcquired: constant in the source, so every confirmation branch is dead. */
  function IsAllInfoAcquired(): (acquired: bool)
    ensures !acquired
  {
    false
  }

  /** A qualifying entity found by find, as a value. */
  function OrdinalValue(r: Classification): (v: Option<string>)
    ensures v.Some? <==> OrdinalAnswer(r.entities, v.GetOr(""))
    ensures v.None? <==> NoOrdinalAnswer(r.entities)
  {
    var e := FindEntity(r.entities, Ordinal);
    assert e.Some? ==> FirstOfType(r.entities, Ordinal, FirstEntityIndex(r.entities, Ordinal));
    if e.Some? && e.value.accuracy >= Threshold && e.value.subtype == IntegerSubtype
    then Some(e.value.strValue) else None
  }

  /** `intent && intent.value >= t` for the first intent labelled `lbl`. */
  function AtLeast(xs: seq<Intent>, lbl: string, t: real): (b: bool)
    ensures b <==> ScoresAtLeast(xs, lbl, t)
  {
    var i := FindIntent(xs, lbl);
    assert i.Some? ==> FirstLabelled(xs, lbl, FirstIntentIndex(xs, lbl));
    i.Some? && i.value.value >= t
  }

  /** `intent && intent.value > t` for the first intent labelled `lbl`. */
  function Above(xs: seq<Intent>, lbl: string, t: real): (b: bool)
    ensures b <==> ScoresAbove(xs, lbl, t)
  {
    var i := FindIntent(xs, lbl);
    assert i.Some? ==> FirstLabelled(xs, lbl, FirstIntentIndex(xs, lbl));
    i.Some? && i.value.value > t
  }

  /** The stages the conversation can be at; the confirmation stages need isAllInfoAcquired. */
  predicate Reachable(s: Stage)
  {
    s != IsInfoGood && s != ModifyInfo
  }

  /** The switch on atStage in the continuation of processVoiceRecognition. */
  function Decide(stage: Stage, r: Classification): (d: Effect)
    // greeting stage
    ensures stage == HereForAVisit ==>
      d == (if ScoresAtLeast(r.classifications, Positive, Threshold) then Ask(WhatFloor, FloorQuestion)
            else if ScoresAtLeast(r.classifications, Negative, Threshold) then Effect(true, None, None, None, None)
            else Say(Repeat))
    // floor and room stages
    ensures stage == WhatFloor ==>
      d == (if !NoOrdinalAnswer(r.entities) then Effect(false, Some(WhatRoom), d.floor, None, Some(RoomQuestion))
            else if ScoresAbove(r.classifications, Unsure, Threshold) then NoEffect
            else Say(Repeat))
    ensures stage == WhatRoom ==>
      d == (if !NoOrdinalAnswer(r.entities) then Effect(false, Some(GetAllProperties), None, d.room, None)
            else if ScoresAbove(r.classifications, Unsure, Threshold) then NoEffect
            else Say(Repeat))
    ensures d.floor.Some? <==> stage == WhatFloor && OrdinalAnswer(r.entities, d.floor.GetOr(""))
    ensures d.room.Some? <==> stage == WhatRoom && OrdinalAnswer(r.entities, d.room.GetOr(""))
    ensures forall v :: stage == WhatFloor && OrdinalAnswer(r.entities, v) ==> d.floor == Some(v)
    ensures forall v :: stage == WhatRoom && OrdinalAnswer(r.entities, v) ==> d.room == Some(v)
    // confirmation stage
    ensures stage == IsInfoGood ==>
      d == (if ScoresAtLeast(r.classifications, Positive, Threshold) then Effect(true, None, None, None, Some(ThankYou))
            else if ScoresAtLeast(r.classifications, Negative, Threshold) ||
                    ScoresAtLeast(r.classifications, Unsure, Threshold) then Ask(ModifyInfo, ModifyQuestion)
            else Say(Repeat))
    // stages that do nothing with an answer
    ensures stage == GetAllProperties ==> d == Effect(false, Some(GetAllProperties), None, None, None)
    ensures stage == Idle || stage == ModifyInfo ==> d == NoEffect
    // whole-machine facts
    ensures d.pause ==> d.next.None? && d.floor.None? && d.room.None?
    ensures d.say.Some? ==> d.say.value in Prompts
    ensures Reachable(stage) && !d.pause ==> Reachable(d.next.GetOr(stage))
    ensures d.next.Some? && d.next.value != stage ==> (d.say.Some? <==> d.next.value != GetAllProperties)
  {
    var xs := r.classifications;
    match stage
    case HereForAVisit =>
      if AtLeast(xs, Positive, Threshold) then Ask(WhatFloor, FloorQuestion)
      else if AtLeast(xs, Negative, Threshold) then Effect(true, None, None, None, None)
      else Say(Repeat)
    case WhatFloor =>
      var v := OrdinalValue(r);
      if v.Some? then
        if IsAllInfoAcquired() then Effect(false, Some(IsInfoGood), v, None, Some(InfoQuestion))
        else Effect(false, Some(WhatRoom), v, None, Some(RoomQuestion))
      else if Above(xs, Unsure, Threshold) then NoEffect
      else Say(Repeat)
    case WhatRoom =>
      var v := OrdinalValue(r);
      if v.Some? then
        if IsAllInfoAcquired() then Effect(false, Some(IsInfoGood), None, v, Some(InfoQuestion))
        else Effect(false, Some(GetAllProperties), None, v, None)
      else if Above(xs, Unsure, Threshold) then NoEffect
      else Say(Repeat)
    case GetAllProperties =>
      if IsAllInfoAcquired() then Ask(IsInfoGood, InfoQuestion)
      else Effect(false, Some(GetAllProperties), None, None, None)
    case IsInfoGood =>
      if AtLeast(xs, Positive, Threshold) then Effect(true, None, None, None, Some(ThankYou))
      else if AtLeast(xs, Negative, Threshold) || AtLeast(xs, Unsure, Threshold) then Ask(ModifyInfo, ModifyQuestion)
      else Say(Repeat)
    case ModifyInfo => NoEffect
    case Idle => NoEffect
  }
}
