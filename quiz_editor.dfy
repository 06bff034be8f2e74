/**
 * `QuizEditor`: the admin form that edits a quiz's title and its nested list of steps and
 * inputs, checks the form before saving, and edits an input's options as lines of text.
 */
module QuizEditor {
  import opened Wrappers
  import opened QuizData
  import opened Text

  const TitleRequired: string := "Please enter a quiz title"
  const StepRequired: string := "Please add at least one step"

  // ---------------------------------------------------------------------------------------------
  // List operations

  /** `filter((_, index) => index !== i)`, element by element. */
  function FilterOutIndex<T>(s: seq<T>, i: int): (r: seq<T>)
    ensures 0 <= i < |s| ==> r == s[..i] + s[i + 1..]
    ensures !(0 <= i < |s|) ==> r == s
  {
    if s == [] then []
    else
      var init := FilterOutIndex(s[..|s| - 1], i);
      var r := if i == |s| - 1 then init else init + [s[|s| - 1]];
      assert s == s[..|s| - 1] + [s[|s| - 1]];
      r
  }

  /** Where `splice(start, ...)` begins on a list of length `n`: a negative start counts from the
      end, and a start beyond the end is the end. */
  function SpliceStart(n: nat, start: int): (k: nat)
    ensures k <= n
    ensures 0 <= start <= n ==> k == start
  {
    if start < 0 then (if n + start < 0 then 0 else n + start)
    else if start > n then n
    else start
  }

  /** `splice(start, 1)`: the element at the resolved start goes, when there is one. */
  function SpliceOut<T>(s: seq<T>, start: int): (r: seq<T>)
    ensures SpliceStart(|s|, start) < |s| ==> |r| == |s| - 1
    ensures SpliceStart(|s|, start) < |s| ==> r == s[..SpliceStart(|s|, start)] + s[SpliceStart(|s|, start) + 1..]
    ensures SpliceStart(|s|, start) == |s| ==> r == s
  {
    var k := SpliceStart(|s|, start);
    if k < |s| then s[..k] + s[k + 1..] else s
  }

  // ---------------------------------------------------------------------------------------------
  // Input fields

  /** The `[field]: value` of `updateInput`: which field of the input is written, and with what. */
  datatype InputField =
    | LabelField(labelText: string)
    | KindField(kind: string)
    | NameField(name: string)
    | RequiredField(required: bool)
    | OptionsField(options: seq<OptionItem>)

  /** `{...input, [field]: value}`. */
  function SetField(input: Input, f: InputField): (r: Input)
    ensures f.LabelField? ==> r == input.(labelText := f.labelText)
    ensures f.KindField? ==> r == input.(kind := f.kind)
    ensures f.NameField? ==> r == input.(name := f.name)
    ensures f.RequiredField? ==> r == input.(required := f.required)
    ensures f.OptionsField? ==> r == input.(options := Some(f.options))
  {
    match f
    case LabelField(l) => input.(labelText := l)
    case KindField(k) => input.(kind := k)
    case NameField(n) => input.(name := n)
    case RequiredField(b) => input.(required := b)
    case OptionsField(o) => input.(options := Some(o))
  }

  /** Writing the same field twice keeps the second value. */
  lemma SetFieldTwice(input: Input, f: InputField, g: InputField)
    requires f.LabelField? == g.LabelField? && f.KindField? == g.KindField? && f.NameField? == g.NameField?
    requires f.RequiredField? == g.RequiredField? && f.OptionsField? == g.OptionsField?
    ensures SetField(SetField(input, f), g) == SetField(input, g)
  {
  }

  /** The input `addInput` appends; `now` is the clock reading that makes its name unique. */
  function NewInput(now: int): (r: Input)
    ensures r.labelText == "New Input" && r.kind == "text" && !r.required && r.options.None?
    ensures r.name == "input_" + IntToString(now)
  {
    Input("New Input", "text", "input_" + IntToString(now), false, None)
  }

  /** Inputs added at different instants get different names. */
  lemma NewInputNamesDistinct(t1: int, t2: int)
    requires t1 != t2
    ensures NewInput(t1).name != NewInput(t2).name
  {
    var p := "input_";
    if NewInput(t1).name == NewInput(t2).name {
      assert IntToString(t1) == NewInput(t1).name[|p|..] == NewInput(t2).name[|p|..] == IntToString(t2);
      IntToStringInjective(t1, t2);
    }
  }

  // ---------------------------------------------------------------------------------------------
  // Options as lines of text

  /** How an option appears in the textarea: a string as itself; a record as JavaScript prints
      an object. */
  function OptionText(o: OptionItem): string {
    if o.PlainOption? then o.text else "[object Object]"
  }

  /** `input.options?.join('\n') || ''`. */
  function OptionsText(options: Option<seq<OptionItem>>): string {
    if options.None? then ""
    else Join(seq(|options.value|, i requires 0 <= i < |options.value| => OptionText(options.value[i])), "\n")
  }

  /** `filter(opt => opt.trim())`: the lines that are not blank, in order, untrimmed. A line's
      trim is empty exactly when the line is all white space (`TrimEmptyIffAllSpace`). */
  function NonBlank(lines: seq<string>): (r: seq<string>)
    ensures |r| <= |lines|
    ensures forall k :: 0 <= k < |r| ==> !AllSpace(r[k])
    ensures forall k :: 0 <= k < |r| ==> r[k] in lines
    ensures forall l :: l in lines && !AllSpace(l) ==> l in r
  {
    if lines == [] then []
    else if !AllSpace(lines[0]) then [lines[0]] + NonBlank(lines[1..])
    else NonBlank(lines[1..])
  }

  /** Filtering a concatenation filters each part and keeps them in order. */
  lemma {:induction false} NonBlankAppend(a: seq<string>, b: seq<string>)
    ensures NonBlank(a + b) == NonBlank(a) + NonBlank(b)
  {
    if a == [] {
      assert a + b == b;
    } else {
      assert (a + b)[0] == a[0] && (a + b)[1..] == a[1..] + b;
      NonBlankAppend(a[1..], b);
      if !AllSpace(a[0]) {
        assert NonBlank(a + b) == [a[0]] + (NonBlank(a[1..]) + NonBlank(b));
      }
    }
  }

  /** A list without blank lines is left as it is. */
  lemma {:induction false} NonBlankKeepsAll(lines: seq<string>)
    requires forall k :: 0 <= k < |lines| ==> !AllSpace(lines[k])
    ensures NonBlank(lines) == lines
  {
    if lines != [] {
      NonBlankKeepsAll(lines[1..]);
    }
  }

  /** The textarea's `onChange`: split on line feeds and keep the lines that are not blank. */
  function ParseOptionLines(text: string): (r: seq<OptionItem>)
    ensures forall k :: 0 <= k < |r| ==> r[k].PlainOption? && !AllSpace(r[k].text) && '\n' !in r[k].text
    ensures forall k :: 0 <= k < |r| ==> r[k].text in Split(text, '\n')
    ensures forall l :: l in Split(text, '\n') && !AllSpace(l) ==> PlainOption(l) in r
  {
    var lines := NonBlank(Split(text, '\n'));
    var r := seq(|lines|, i requires 0 <= i < |lines| => PlainOption(lines[i]));
    assert forall l :: l in lines ==> PlainOption(l) in r by {
      forall l | l in lines ensures PlainOption(l) in r {
        var i :| 0 <= i < |lines| && lines[i] == l;
        assert r[i] == PlainOption(l);
      }
    }
    r
  }

  /** Text made of two parts joined by a line feed parses into the options of the first part
      followed by those of the second. */
  lemma ParseOptionLinesAppend(a: string, b: string)
    ensures ParseOptionLines(a + "\n" + b) == ParseOptionLines(a) + ParseOptionLines(b)
  {
    SplitAppend(a, '\n', b);
    var la, lb := NonBlank(Split(a, '\n')), NonBlank(Split(b, '\n'));
    NonBlankAppend(Split(a, '\n'), Split(b, '\n'));
    assert NonBlank(Split(a + "\n" + b, '\n')) == la + lb;
    var r := ParseOptionLines(a + "\n" + b);
    var ra, rb := ParseOptionLines(a), ParseOptionLines(b);
    assert |r| == |ra| + |rb|;
    forall k | 0 <= k < |r| ensures r[k] == (ra + rb)[k] {
      if k < |ra| {
        assert r[k] == PlainOption((la + lb)[k]) && (la + lb)[k] == la[k];
      } else {
        assert r[k] == PlainOption((la + lb)[k]) && (la + lb)[k] == lb[k - |ra|];
      }
    }
  }

  /** One line becomes one option, unless it is blank. */
  lemma ParseOptionLine(l: string)
    requires '\n' !in l
    ensures ParseOptionLines(l) == if AllSpace(l) then [] else [PlainOption(l)]
  {
    SplitNoSeparator(l, '\n');
    assert NonBlank([l]) == (if AllSpace(l) then [] else [l]) + NonBlank([l][1..]);
    assert [l][1..] == [];
  }

  /** Showing options in the textarea and reading them back gives the same options, as long as
      each is a non-blank string on one line. */
  lemma OptionsTextRoundTrip(options: seq<OptionItem>)
    requires forall k :: 0 <= k < |options| ==>
      options[k].PlainOption? && !AllSpace(options[k].text) && '\n' !in options[k].text
    ensures ParseOptionLines(OptionsText(Some(options))) == options
  {
    if options == [] {
      assert Split(OptionsText(Some(options)), '\n') == [""];
      assert NonBlank([""]) == NonBlank([""][1..]);
      return;
    }
    var texts := seq(|options|, i requires 0 <= i < |options| => OptionText(options[i]));
    SplitJoin(texts, '\n');
    assert Split(OptionsText(Some(options)), '\n') == texts;
    NonBlankKeepsAll(texts);
  }

  /** Blank lines typed between options are dropped. */
  lemma {:induction false} BlankLinesDropped(a: string, b: string)
    requires !AllSpace(a) && !AllSpace(b) && '\n' !in a && '\n' !in b
    ensures ParseOptionLines(a + "\n\n" + b) == [PlainOption(a), PlainOption(b)]
  {
    var text := a + "\n\n" + b;
    assert Split(text, '\n') == [a, "", b] by {
      assert text == a + ['\n'] + ("" + ['\n'] + b);
      SplitAfter(a, '\n', "" + ['\n'] + b);
      SplitAfter("", '\n', b);
      SplitNoSeparator(b, '\n');
    }
    assert NonBlank([a, "", b]) == [a, b] by {
      assert [a, "", b][1..] == ["", b];
      assert ["", b][1..] == [b];
      assert NonBlank([b]) == [b] + NonBlank([b][1..]);
      assert [b][1..] == [];
    }
  }

  // ---------------------------------------------------------------------------------------------
  // Saving

  datatype SaveOutcome = Rejected(alert: string) | Saved(quiz: Quiz)

  /** `handleSave()`: a blank title, then an empty step list, is refused with an alert; otherwise
      `onSave` receives the trimmed title and the steps. */
  function HandleSave(title: string, steps: seq<Step>): (r: SaveOutcome)
    ensures r.Saved? <==> !AllSpace(title) && steps != []
    ensures AllSpace(title) ==> r == Rejected(TitleRequired)
    ensures !AllSpace(title) && steps == [] ==> r == Rejected(StepRequired)
    ensures r.Saved? ==> r.quiz.title == Trim(title) && r.quiz.title != "" && r.quiz.steps == steps
  {
    TrimEmptyIffAllSpace(title);
    if AllSpace(title) then Rejected(TitleRequired)
    else if |steps| == 0 then Rejected(StepRequired)
    else Saved(Quiz(Trim(title), steps))
  }

  /** A saved quiz saves again unchanged. */
  lemma SaveIdempotent(title: string, steps: seq<Step>)
    requires HandleSave(title, steps).Saved?
    ensures HandleSave(HandleSave(title, steps).quiz.title, steps) == HandleSave(title, steps)
  {
    var t := Trim(title);
    TrimIdempotent(title, WhiteSpace);
    TrimEmptyIffAllSpace(t);
  }

  // ---------------------------------------------------------------------------------------------
  // The component

  class Editor {
    var title: string
    var steps: seq<Step>

    /** The form starts from the quiz being edited, or empty for a new one. */
    constructor (quiz: Option<Quiz>)
      ensures quiz.Some? ==> title == quiz.value.title && steps == quiz.value.steps
      ensures quiz.None? ==> title == "" && steps == []
    {
      if quiz.Some? {
        title := quiz.value.title;
        steps := quiz.value.steps;
      } else {
        title := "";
        steps := [];
      }
    }

    /** The title field's `onChange`. */
    method SetTitle(t: string)
      modifies this
      ensures title == t && steps == old(steps)
    {
      title := t;
    }

    /** `addStep()`: a new last step titled after its position, with no inputs. */
    method AddStep()
      modifies this
      ensures title == old(title)
      ensures |steps| == |old(steps)| + 1 && steps[..|old(steps)|] == old(steps)
      ensures steps[|steps| - 1] == Step("Step " + NatToString(|steps|), [])
    {
      steps := steps + [Step("Step " + NatToString(|steps| + 1), [])];
    }

    /** `removeStep(i)`: exactly step `i` goes, the others keep their order; an index that
        names no step changes nothing. */
    method RemoveStep(i: int)
      modifies this
      ensures title == old(title)
      ensures steps == FilterOutIndex(old(steps), i)
      ensures 0 <= i < |old(steps)| ==> |steps| == |old(steps)| - 1
      ensures 0 <= i < |old(steps)| ==> forall k :: 0 <= k < i ==> steps[k] == old(steps)[k]
      ensures 0 <= i < |old(steps)| ==> forall k :: i <= k < |steps| ==> steps[k] == old(steps)[k + 1]
    {
      steps := FilterOutIndex(steps, i);
    }

    /** `updateStepTitle(i, t)`. A missing step makes the assignment throw, so nothing changes. */
    method UpdateStepTitle(i: int, t: string)
      modifies this
      ensures title == old(title) && |steps| == |old(steps)|
      ensures 0 <= i < |steps| ==> steps == old(steps)[i := old(steps)[i].(title := t)]
      ensures !(0 <= i < |steps|) ==> steps == old(steps)
    {
      if 0 <= i < |steps| {
        steps := steps[i := steps[i].(title := t)];
      }
    }

    /** `addInput(i)` at clock reading `now`: the new input goes last in step `i` only. */
    method AddInput(i: int, now: int)
      modifies this
      ensures title == old(title) && |steps| == |old(steps)|
      ensures 0 <= i < |steps| ==>
        steps == old(steps)[i := old(steps)[i].(inputs := old(steps)[i].inputs + [NewInput(now)])]
      ensures !(0 <= i < |steps|) ==> steps == old(steps)
    {
      if 0 <= i < |steps| {
        var inputs := steps[i].inputs + [NewInput(now)];
        steps := steps[i := steps[i].(inputs := inputs)];
      }
    }

    /** `removeInput(i, j)`: `splice(j, 1)` on step `i`'s inputs. */
    method RemoveInput(i: int, j: int)
      modifies this
      ensures title == old(title) && |steps| == |old(steps)|
      ensures 0 <= i < |steps| ==>
        steps == old(steps)[i := old(steps)[i].(inputs := SpliceOut(old(steps)[i].inputs, j))]
      ensures 0 <= i < |steps| && 0 <= j < |old(steps)[i].inputs| ==>
        |steps[i].inputs| == |old(steps)[i].inputs| - 1
        && steps[i].inputs == old(steps)[i].inputs[..j] + old(steps)[i].inputs[j + 1..]
      ensures !(0 <= i < |steps|) ==> steps == old(steps)
    {
      if 0 <= i < |steps| {
        var inputs := SpliceOut(steps[i].inputs, j);
        steps := steps[i := steps[i].(inputs := inputs)];
      }
    }

    /** `updateInput(i, j, field, value)`: one field of one input changes. Indices that name no
        input change nothing. */
    method UpdateInput(i: int, j: int, f: InputField)
      modifies this
      ensures title == old(title) && |steps| == |old(steps)|
      ensures 0 <= i < |steps| && 0 <= j < |old(steps)[i].inputs| ==>
        steps == old(steps)[i := old(steps)[i].(inputs := old(steps)[i].inputs[j := SetField(old(steps)[i].inputs[j], f)])]
      ensures !(0 <= i < |steps| && 0 <= j < |old(steps)[i].inputs|) ==> steps == old(steps)
    {
      if 0 <= i < |steps| && 0 <= j < |steps[i].inputs| {
        var inputs := steps[i].inputs[j := SetField(steps[i].inputs[j], f)];
        steps := steps[i := steps[i].(inputs := inputs)];
      }
    }

    /** The textarea of an input with options: its text parsed into the input's options. */
    method UpdateOptionsText(i: int, j: int, text: string)
      modifies this
      ensures title == old(title) && |steps| == |old(steps)|
      ensures 0 <= i < |steps| && 0 <= j < |old(steps)[i].inputs| ==>
        steps == old(steps)[i := old(steps)[i].(inputs := old(steps)[i].inputs[j :=
          old(steps)[i].inputs[j].(options := Some(ParseOptionLines(text)))])]
      ensures !(0 <= i < |steps| && 0 <= j < |old(steps)[i].inputs|) ==> steps == old(steps)
    {
      UpdateInput(i, j, OptionsField(ParseOptionLines(text)));
    }

    /** The save button. */
    function Save(): (r: SaveOutcome)
      reads this
      ensures r == HandleSave(title, steps)
    {
      HandleSave(title, steps)
    }
  }
}
