/**
 * `RadioField`: how each option of a radio question becomes a button, which string a click
 * submits, and which button shows as checked.
 */
module RadioField {
  import opened Wrappers
  import opened QuizData
  import opened ScoringTally

  /** The caption: the string itself, or the record's label. */
  function OptionLabel(o: OptionItem): string {
    match o
    case PlainOption(t) => t
    case Choice(l, _, _) => l
  }

  /** The submitted value: the string itself, or the record's value, falling back to its label
      when the value is missing. */
  function OptionValue(o: OptionItem): (v: string)
    ensures o.PlainOption? ==> v == o.text
    ensures o.Choice? && o.value != "" ==> v == o.value
    ensures o.Choice? && o.value == "" ==> v == o.labelText
  {
    match o
    case PlainOption(t) => t
    case Choice(l, v, _) => if v != "" then v else l
  }

  /** A falsy option (the empty string) renders nothing; a record always renders. */
  predicate Renders(o: OptionItem) {
    !(o.PlainOption? && o.text == "")
  }

  /** The button is checked exactly when the field's current value is the option's value;
      an unset field (`undefined`) checks nothing here. In the source, a record with neither
      value nor label also has the value `undefined` and so shows checked on an unset field;
      stored options always have both, so that case is not modelled. */
  predicate IsSelected(current: Option<string>, o: OptionItem) {
    current == Some(OptionValue(o))
  }

  /** One rendered button: its caption, the value it submits, and whether it is checked. */
  datatype RadioButton = RadioButton(caption: string, value: string, checked: bool)

  /** The element `field.options?.map(...)` produces for one option: nothing for a falsy one. */
  function Button(o: OptionItem, current: Option<string>): (r: Option<RadioButton>)
    ensures r.Some? <==> Renders(o)
    ensures r.Some? ==> r.value.caption == OptionLabel(o) && r.value.value == OptionValue(o)
    ensures r.Some? ==> (r.value.checked <==> current == Some(r.value.value))
  {
    if Renders(o) then Some(RadioButton(OptionLabel(o), OptionValue(o), IsSelected(current, o)))
    else None
  }

  /** The buttons of a field, position by position; a field without options renders none. */
  function Buttons(options: Option<seq<OptionItem>>, current: Option<string>): (r: seq<Option<RadioButton>>)
    ensures options.None? ==> r == []
    ensures options.Some? ==> |r| == |options.value|
    ensures options.Some? ==> forall i :: 0 <= i < |r| ==> r[i] == Button(options.value[i], current)
  {
    if options.None? then [] else seq(|options.value|, i requires 0 <= i < |options.value| => Button(options.value[i], current))
  }

  /** Clicking a button submits its value, and with that value as the field's, it is checked;
      any other button is checked exactly when it carries the same value. */
  lemma ClickChecksButton(options: seq<OptionItem>, current: Option<string>, k: nat, i: nat)
    requires k < |options| && i < |options|
    requires Buttons(Some(options), current)[k].Some?
    ensures var v := Buttons(Some(options), current)[k].value.value;
      var after := Buttons(Some(options), Some(v));
      after[k].Some? && after[k].value.checked
      && (after[i].Some? ==> (after[i].value.checked <==> OptionValue(options[i]) == v))
  {
  }

  /** Two buttons are checked together only when they carry the same value. */
  lemma CheckedButtonsShareValue(options: seq<OptionItem>, current: Option<string>, i: nat, j: nat)
    requires i < |options| && j < |options|
    requires Buttons(Some(options), current)[i].Some? && Buttons(Some(options), current)[i].value.checked
    requires Buttons(Some(options), current)[j].Some? && Buttons(Some(options), current)[j].value.checked
    ensures OptionValue(options[i]) == OptionValue(options[j])
  {
  }

  /** The value a button submits reaches the scorer, whose matcher compares an answer against
      both label and value: it always finds an option, the clicked one or an earlier one, and
      the clicked one when no earlier option carries the same string. */
  lemma ScorerFindsChosenOption(options: seq<OptionItem>, k: nat)
    requires k < |options|
    ensures OptionMatches(options[k], OptionValue(options[k]))
    ensures FindOption(options, OptionValue(options[k])).Some?
    ensures FindOption(options, OptionValue(options[k])).value <= k
    ensures (forall j :: 0 <= j < k ==> !OptionMatches(options[j], OptionValue(options[k])))
      ==> FindOption(options, OptionValue(options[k])) == Some(k)
  {
  }

  /** With two records where one's value is the other's label, both buttons are checked at once
      and the scorer credits the first for either click. */
  lemma CollidingOptions()
    ensures var first := Choice("Beach", "Mountains", Some([("adventurer", Number(3))]));
      var second := Choice("Mountains", "", Some([("nomad", Number(3))]));
      var options := [first, second];
      && OptionValue(second) == OptionValue(first)
      && IsSelected(Some(OptionValue(second)), first) && IsSelected(Some(OptionValue(second)), second)
      && FindOption(options, OptionValue(second)) == Some(0)
  {
    var first := Choice("Beach", "Mountains", Some([("adventurer", Number(3))]));
    var second := Choice("Mountains", "", Some([("nomad", Number(3))]));
    assert OptionMatches(first, OptionValue(second));
  }

  /** A non-falsy option always submits a non-empty value when it is a plain string; a record
      submits an empty one only when both its value and its label are missing, and the scorer
      then counts the question as unanswered. */
  lemma SubmittedValueNonEmpty(o: OptionItem)
    requires Renders(o)
    ensures OptionValue(o) == "" <==> o.Choice? && o.value == "" && o.labelText == ""
  {
  }
}
