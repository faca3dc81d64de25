/**
 * The two id-keyed lists of visitor properties chosen during a session: newRequestOptions
 * (property id, property text, chosen value id) and newRequestOptionsText (the same plus the
 * chosen value's label). Both are rebuilt as new lists by insertUpdateSimplePropertyOption.
 */
module PropertyOptions {

  /** A configurable visitor property: its id (`_id`) and display text. */
  datatype Property = Property(id: string, text: string)

  /** An entry of newRequestOptions; `text` is the entry's `label` field, copied from the property's text. */
  datatype RequestOption = RequestOption(id: string, text: string, value: string)

  /** An entry of newRequestOptionsText; `valueLabel` is its `value` field, the chosen value's label. */
  datatype RequestOptionText = RequestOptionText(id: string, text: string, valueLabel: string, valueId: string)

  function OptionIds(opts: seq<RequestOption>): (ids: seq<string>)
    ensures |ids| == |opts| && forall j :: 0 <= j < |opts| ==> ids[j] == opts[j].id
  {
    seq(|opts|, j requires 0 <= j < |opts| => opts[j].id)
  }

  function TextIds(texts: seq<RequestOptionText>): (ids: seq<string>)
    ensures |ids| == |texts| && forall j :: 0 <= j < |texts| ==> ids[j] == texts[j].id
  {
    seq(|texts|, j requires 0 <= j < |texts| => texts[j].id)
  }

  /** `findIndex(o => o._id === id)`: the first position holding `id`, or -1. */
  function FindIndex(ids: seq<string>, id: string): (i: int)
    ensures -1 <= i < |ids|
    ensures i == -1 <==> id !in ids
    ensures i >= 0 ==> ids[i] == id && forall j :: 0 <= j < i ==> ids[j] != id
  {
    if ids == [] then -1
    else if ids[0] == id then 0
    else var k := FindIndex(ids[1..], id); if k == -1 then -1 else k + 1
  }

  /** The first half of insertUpdateSimplePropertyOption: append a new entry, or replace the value of the first one with that id. */
  function UpsertOption(opts: seq<RequestOption>, p: Property, value: string): (r: seq<RequestOption>)
    ensures p.id !in OptionIds(opts) ==> r == opts + [RequestOption(p.id, p.text, value)]
    ensures p.id in OptionIds(opts) ==>
      var i := FindIndex(OptionIds(opts), p.id);
      |r| == |opts| && r[i] == opts[i].(value := value) &&
      forall j :: 0 <= j < |r| && j != i ==> r[j] == opts[j]
  {
    var i := FindIndex(OptionIds(opts), p.id);
    if i == -1 then opts + [RequestOption(p.id, p.text, value)]
    else opts[..i] + [opts[i].(value := value)] + opts[i + 1..]
  }

  /** The second half: the same upsert on the text list, where an update sets both the label and the value id. */
  function UpsertOptionText(texts: seq<RequestOptionText>, p: Property, value: string, lbl: string): (r: seq<RequestOptionText>)
    ensures p.id !in TextIds(texts) ==> r == texts + [RequestOptionText(p.id, p.text, lbl, value)]
    ensures p.id in TextIds(texts) ==>
      var i := FindIndex(TextIds(texts), p.id);
      |r| == |texts| && r[i] == texts[i].(valueLabel := lbl, valueId := value) &&
      forall j :: 0 <= j < |r| && j != i ==> r[j] == texts[j]
  {
    var i := FindIndex(TextIds(texts), p.id);
    if i == -1 then texts + [RequestOptionText(p.id, p.text, lbl, value)]
    else texts[..i] + [texts[i].(valueLabel := lbl, valueId := value)] + texts[i + 1..]
  }

  /** insertUpdateSimplePropertyOption(property, value, label), on both lists. */
  function InsertUpdateSimplePropertyOption(opts: seq<RequestOption>, texts: seq<RequestOptionText>,
                                            p: Property, value: string, lbl: string)
    : (r: (seq<RequestOption>, seq<RequestOptionText>))
    ensures p.id in OptionIds(r.0) && p.id in TextIds(r.1)
    ensures |r.0| == |opts| + (if p.id in OptionIds(opts) then 0 else 1)
    ensures SelectedValueLabel(r.1, p) == lbl
  {
    UpsertOptionIds(opts, p, value);
    UpsertOptionTextIds(texts, p, value, lbl);
    SelectedValueLabelAfterUpsert(texts, p, value, lbl);
    (UpsertOption(opts, p, value), UpsertOptionText(texts, p, value, lbl))
  }

  /** getPropertyOptionLabelValue(property): the `label` of the first entry with that id, or '' when there is none. */
  function GetPropertyOptionLabelValue(opts: seq<RequestOption>, p: Property): (r: string)
    ensures p.id !in OptionIds(opts) ==> r == ""
    ensures forall i :: 0 <= i < |opts| && opts[i].id == p.id && (forall j :: 0 <= j < i ==> opts[j].id != p.id) ==>
      r == opts[i].text
  {
    var i := FindIndex(OptionIds(opts), p.id);
    if i == -1 then "" else opts[i].text
  }

  /** The label of the value chosen for a property, found in the text list, or '' when none was chosen. */
  function SelectedValueLabel(texts: seq<RequestOptionText>, p: Property): (r: string)
    ensures p.id !in TextIds(texts) ==> r == ""
    ensures forall i :: 0 <= i < |texts| && texts[i].id == p.id && (forall j :: 0 <= j < i ==> texts[j].id != p.id) ==>
      r == texts[i].valueLabel
  {
    var i := FindIndex(TextIds(texts), p.id);
    if i == -1 then "" else texts[i].valueLabel
  }

  /** Every entry carries a non-empty property text. */
  predicate TextsNonEmpty(opts: seq<RequestOption>)
  {
    forall j :: 0 <= j < |opts| ==> opts[j].text != ""
  }

  /** The ids held after an upsert are those held before plus the property's, and the length grows by one exactly for a new id. */
  lemma UpsertOptionIds(opts: seq<RequestOption>, p: Property, value: string)
    ensures var r := UpsertOption(opts, p, value);
      (set x | x in OptionIds(r)) == (set x | x in OptionIds(opts)) + {p.id} &&
      |r| == |opts| + (if p.id in OptionIds(opts) then 0 else 1)
  {
    var r := UpsertOption(opts, p, value);
    if p.id in OptionIds(opts) {
      var i := FindIndex(OptionIds(opts), p.id);
      assert forall j :: 0 <= j < |r| ==> OptionIds(r)[j] == OptionIds(opts)[j];
      assert OptionIds(r) == OptionIds(opts);
    } else {
      assert OptionIds(r) == OptionIds(opts) + [p.id];
    }
  }

  /** The text list after an upsert holds the property's id. */
  lemma UpsertOptionTextIds(texts: seq<RequestOptionText>, p: Property, value: string, lbl: string)
    ensures p.id in TextIds(UpsertOptionText(texts, p, value, lbl))
  {
    var r := UpsertOptionText(texts, p, value, lbl);
    if p.id !in TextIds(texts) {
      assert TextIds(r)[|texts|] == p.id;
    } else {
      var i := FindIndex(TextIds(texts), p.id);
      assert TextIds(r)[i] == p.id;
    }
  }

  /** Upserting the same choice twice is the same as upserting it once. */
  lemma UpsertOptionIdempotent(opts: seq<RequestOption>, p: Property, value: string)
    ensures UpsertOption(UpsertOption(opts, p, value), p, value) == UpsertOption(opts, p, value)
  {
    var r := UpsertOption(opts, p, value);
    var r2 := UpsertOption(r, p, value);
    if p.id in OptionIds(opts) {
      var i := FindIndex(OptionIds(opts), p.id);
      assert forall j :: 0 <= j < |r| ==> OptionIds(r)[j] == OptionIds(opts)[j];
      assert OptionIds(r) == OptionIds(opts);
      assert r2[i] == r[i];
    } else {
      assert OptionIds(r) == OptionIds(opts) + [p.id];
      assert FindIndex(OptionIds(r), p.id) == |opts|;
      assert r2[|opts|] == r[|opts|];
    }
    assert forall j :: 0 <= j < |r| ==> r2[j] == r[j];
  }

  /** After an upsert the property is found, with its first entry's text, or the property's text when it was new. */
  lemma LabelValueAfterUpsert(opts: seq<RequestOption>, p: Property, value: string)
    ensures GetPropertyOptionLabelValue(UpsertOption(opts, p, value), p) ==
      if p.id in OptionIds(opts) then opts[FindIndex(OptionIds(opts), p.id)].text else p.text
  {
    var r := UpsertOption(opts, p, value);
    if p.id !in OptionIds(opts) {
      assert OptionIds(r) == OptionIds(opts) + [p.id];
      assert FindIndex(OptionIds(r), p.id) == |opts|;
    } else {
      var i := FindIndex(OptionIds(opts), p.id);
      assert forall j :: 0 <= j < |r| ==> OptionIds(r)[j] == OptionIds(opts)[j];
      assert OptionIds(r) == OptionIds(opts);
      assert FindIndex(OptionIds(r), p.id) == i;
      assert r[i].text == opts[i].text;
    }
  }

  /** getPropertyOptionLabelValue answers '' exactly when the id is absent, provided no entry has an empty text. */
  lemma LabelValueEmptyIffAbsent(opts: seq<RequestOption>, p: Property)
    requires TextsNonEmpty(opts)
    ensures GetPropertyOptionLabelValue(opts, p) == "" <==> p.id !in OptionIds(opts)
  {
    if p.id in OptionIds(opts) {
      var i := FindIndex(OptionIds(opts), p.id);
      assert opts[i].text != "";
    }
  }

  /**
   * As written, getPropertyOptionLabelValue never shows the chosen value's label: for a property
   * chosen for the first time it answers the property's own text.
   */
  lemma LabelValueEchoesPropertyText(opts: seq<RequestOption>, texts: seq<RequestOptionText>,
                                     p: Property, value: string, lbl: string)
    requires p.id !in OptionIds(opts)
    ensures var r := InsertUpdateSimplePropertyOption(opts, texts, p, value, lbl);
      GetPropertyOptionLabelValue(r.0, p) == p.text
  {
    LabelValueAfterUpsert(opts, p, value);
  }

  /** A concrete instance: the floor property labelled "Étage", chosen value "Deuxième", displays "Étage". */
  lemma LabelValueCounterexample()
    ensures var p := Property("floor", "Étage");
      var r := InsertUpdateSimplePropertyOption([], [], p, "2", "Deuxième");
      GetPropertyOptionLabelValue(r.0, p) == "Étage" != "Deuxième"
  {
    var p := Property("floor", "Étage");
    LabelValueEchoesPropertyText([], [], p, "2", "Deuxième");
  }

  /** The corrected lookup shows the label most recently chosen for the property. */
  lemma SelectedValueLabelAfterUpsert(texts: seq<RequestOptionText>, p: Property, value: string, lbl: string)
    ensures SelectedValueLabel(UpsertOptionText(texts, p, value, lbl), p) == lbl
  {
    var r := UpsertOptionText(texts, p, value, lbl);
    if p.id !in TextIds(texts) {
      assert TextIds(r) == TextIds(texts) + [p.id];
      assert FindIndex(TextIds(r), p.id) == |texts|;
    } else {
      var i := FindIndex(TextIds(texts), p.id);
      assert TextIds(r) == TextIds(texts);
    }
  }
}
