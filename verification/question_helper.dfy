/** `PlatformQuestionHelper`: the question helper that honours `--yes` and
    `--no`, offers a numbered choice among the values of an associative
    array, and asks for free text with an optional suggested default.

    The terminal is an oracle: each operation takes `ask`, the answer the
    terminal gives to the question it is shown. */
module QuestionHelper {
  import opened Wrappers

  /** The Symfony questions handed to the terminal. */
  datatype ConfirmationQuestion = ConfirmationQuestion(text: string, default: bool)

  /** The default of a choice question: none given, given but not among the
      values (`array_search` returned false), or the index of the value. */
  datatype DefaultIndex = NoDefault | NotFound | Index(i: nat)

  datatype ChoiceQuestion = ChoiceQuestion(text: string, choices: seq<string>, default: DefaultIndex, maxAttempts: nat)

  datatype InputQuestion = InputQuestion(text: string, default: Option<string>)

  /** What `askInput` does: the question it asks and the answer it returns. */
  datatype InputAnswer = InputAnswer(asked: InputQuestion, answer: string)

  /** What `confirm` does: its answer, the line it writes when it answers on
      the operator's behalf, and the question it asks otherwise. */
  datatype Confirmation = Confirmation(answer: bool, written: Option<string>, asked: Option<ConfirmationQuestion>)

  const YesHint := "[Y/n]"
  const NoHint := "[y/N]"

  /** How many times a choice question accepts an invalid answer. */
  const ChoiceAttempts := 5

  /** The confirmation prompt: the text, then the hint that shows the
      default, then a space. */
  function ConfirmPrompt(text: string, default: bool): string
  {
    text + " <question>" + (if default then YesHint else NoHint) + "</question> "
  }

  /** The prompt shows both the text and the default: no two (text, default)
      pairs give the same prompt. */
  lemma ConfirmPromptInjective(text: string, default: bool, text': string, default': bool)
    requires ConfirmPrompt(text, default) == ConfirmPrompt(text', default')
    ensures text == text' && default == default'
  {
    var p := ConfirmPrompt(text, default);
    assert |p| == |text| + 28 && |ConfirmPrompt(text', default')| == |text'| + 28;
    assert p[..|text|] == text;
    assert ConfirmPrompt(text', default')[..|text'|] == text';
    assert p[|text| + 12] == (if default then 'Y' else 'y');
    assert ConfirmPrompt(text', default')[|text'| + 12] == (if default' then 'Y' else 'y');
  }

  /** The option `name` is defined for the command and set. */
  predicate OptionOn(options: map<string, bool>, name: string)
  {
    name in options && options[name]
  }

  /** `confirm`: with --yes alone it answers yes and with --no alone it
      answers no, writing the prompt followed by the answer; with both or
      neither it asks the terminal, with the given default. */
  function Confirm(text: string, options: map<string, bool>, default: bool, ask: ConfirmationQuestion -> bool): (r: Confirmation)
    ensures r.written.Some? <==> r.asked.None?
    ensures r.asked.None? <==> OptionOn(options, "yes") != OptionOn(options, "no")
    ensures r.asked.None? ==> r.answer == OptionOn(options, "yes")
    ensures r.written.Some? ==> r.written.value == ConfirmPrompt(text, default) + (if r.answer then "y" else "n")
    ensures r.asked.Some? ==> r.asked.value == ConfirmationQuestion(ConfirmPrompt(text, default), default) &&
                              r.answer == ask(r.asked.value)
  {
    var prompt := ConfirmPrompt(text, default);
    var yes := OptionOn(options, "yes");
    var no := OptionOn(options, "no");
    if yes && !no then Confirmation(true, Some(prompt + "y"), None)
    else if no && !yes then Confirmation(false, Some(prompt + "n"), None)
    else
      var question := ConfirmationQuestion(prompt, default);
      Confirmation(ask(question), None, Some(question))
  }

  /** When exactly one of --yes and --no is set, the terminal is not
      consulted: any two terminals give the same confirmation. */
  lemma ConfirmShortCircuit(text: string, options: map<string, bool>, default: bool,
                            ask: ConfirmationQuestion -> bool, ask': ConfirmationQuestion -> bool)
    requires OptionOn(options, "yes") != OptionOn(options, "no")
    ensures Confirm(text, options, default, ask) == Confirm(text, options, default, ask')
  {
  }

  /** The written line can be read back: it is the prompt for this text and
      default followed by the answer given. */
  lemma ConfirmEchoReadsBack(text: string, options: map<string, bool>, default: bool, ask: ConfirmationQuestion -> bool)
    requires Confirm(text, options, default, ask).written.Some?
    ensures var r := Confirm(text, options, default, ask);
            var line := r.written.value;
            && |line| == |ConfirmPrompt(text, default)| + 1
            && line[..|line| - 1] == ConfirmPrompt(text, default)
            && (line[|line| - 1] == 'y' <==> r.answer)
  {
    var r := Confirm(text, options, default, ask);
    var line := r.written.value;
    assert line[..|line| - 1] == ConfirmPrompt(text, default);
  }

  /** The values of an associative array, in order (`array_values`). */
  function Values<K>(items: seq<(K, string)>): (r: seq<string>)
    ensures |r| == |items|
    ensures forall i :: 0 <= i < |items| ==> r[i] == items[i].1
  {
    if items == [] then [] else [items[0].1] + Values(items[1..])
  }

  /** The first position of `x` in `s` (`array_search` on a list). */
  function IndexOf(x: string, s: seq<string>): (r: Option<nat>)
    ensures r.None? <==> x !in s
    ensures r.Some? ==> r.value < |s| && s[r.value] == x
    ensures r.Some? ==> forall j :: 0 <= j < r.value ==> s[j] != x
  {
    if s == [] then None
    else if s[0] == x then Some(0)
    else match IndexOf(x, s[1..])
      case None => None
      case Some(i) => Some(i + 1)
  }

  /** The position of the first item whose value is `v`. */
  function ItemPosition<K>(items: seq<(K, string)>, v: string): (r: Option<nat>)
    ensures r.None? <==> forall i :: 0 <= i < |items| ==> items[i].1 != v
    ensures r.Some? ==> r.value < |items| && items[r.value].1 == v
    ensures r.Some? ==> forall j :: 0 <= j < r.value ==> items[j].1 != v
  {
    if items == [] then None
    else if items[0].1 == v then Some(0)
    else match ItemPosition(items[1..], v)
      case None => None
      case Some(i) => Some(i + 1)
  }

  /** The first key whose value is `v` (`array_search` on an associative
      array). */
  function KeyOf<K>(items: seq<(K, string)>, v: string): Option<K>
  {
    match ItemPosition(items, v)
    case None => None
    case Some(i) => Some(items[i].0)
  }

  /** Looking the answer up in the array finds the key at the position the
      answer has in the list of values. */
  lemma KeyOfAgreesWithValues<K>(items: seq<(K, string)>, v: string)
    ensures ItemPosition(items, v) == IndexOf(v, Values(items))
    ensures KeyOf(items, v).None? <==> v !in Values(items)
  {
    var vs := Values(items);
    var byItem, byValue := ItemPosition(items, v), IndexOf(v, vs);
    if byValue.Some? {
      assert items[byValue.value].1 == v;
      var p := byItem.value;
      assert vs[p] == v;
      assert !(p < byValue.value) && !(byValue.value < p);
    }
  }

  /** The default index of a choice question, for a default given as a value. */
  function DefaultIndexOf(default: Option<string>, values: seq<string>): (r: DefaultIndex)
    ensures default.None? <==> r.NoDefault?
    ensures r.NotFound? <==> default.Some? && default.value !in values
    ensures r.Index? ==> default.Some? && r.i < |values| && values[r.i] == default.value
  {
    match default
    case None => NoDefault
    case Some(d) =>
      match IndexOf(d, values)
      case None => NotFound
      case Some(i) => Index(i)
  }

  /** The question `choose` puts to the terminal. */
  function ChoiceAsked<K>(items: seq<(K, string)>, text: string, default: Option<string>): ChoiceQuestion
  {
    var itemList := Values(items);
    ChoiceQuestion(text, itemList, DefaultIndexOf(default, itemList), ChoiceAttempts)
  }

  /** The choices are the item values in order, the default index is the
      first position of the default among them (or says there is none, or
      that it is missing), and five attempts are allowed. */
  lemma ChoiceQuestionShape<K>(items: seq<(K, string)>, text: string, default: Option<string>)
    ensures var q := ChoiceAsked(items, text, default);
            && |q.choices| == |items| && (forall i :: 0 <= i < |items| ==> q.choices[i] == items[i].1)
            && q.maxAttempts == 5
            && (default.None? <==> q.default.NoDefault?)
            && (q.default.NotFound? <==> default.Some? && forall i :: 0 <= i < |items| ==> items[i].1 != default.value)
            && (q.default.Index? ==> q.default.i < |items| && items[q.default.i].1 == default.value &&
                                     forall j :: 0 <= j < q.default.i ==> items[j].1 != default.value)
  {
    var q := ChoiceAsked(items, text, default);
    if default.Some? {
      KeyOfAgreesWithValues(items, default.value);
    }
  }

  /** `choose`: a single item is chosen without asking; otherwise the
      terminal's answer must be one of the values, and the result is the
      first key holding it, or the error "Invalid value: <answer>". */
  function Choose<K>(items: seq<(K, string)>, text: string, default: Option<string>, ask: ChoiceQuestion -> string): (r: Result<K, string>)
    ensures |items| == 1 ==> r == Success(items[0].0)
    ensures |items| != 1 ==>
              var choice := ask(ChoiceAsked(items, text, default));
              && (r.Failure? <==> choice !in Values(items))
              && (r.Failure? ==> r.error == "Invalid value: " + choice)
              && (r.Success? ==> exists i :: 0 <= i < |items| && items[i].0 == r.value && items[i].1 == choice)
  {
    if |items| == 1 then Success(items[0].0)
    else
      var choice := ask(ChoiceAsked(items, text, default));
      match KeyOf(items, choice)
      case None => Failure("Invalid value: " + choice)
      case Some(key) => Success(key)
  }

  /** The key `choose` returns is the first one holding the answer: every
      earlier item holds a different value. */
  lemma ChooseFirstMatch<K>(items: seq<(K, string)>, text: string, default: Option<string>, ask: ChoiceQuestion -> string)
    requires |items| != 1 && Choose(items, text, default, ask).Success?
    ensures var choice := ask(ChoiceAsked(items, text, default));
            var i := IndexOf(choice, Values(items)).value;
            && Choose(items, text, default, ask).value == items[i].0
            && forall j :: 0 <= j < i ==> items[j].1 != choice
  {
    KeyOfAgreesWithValues(items, ask(ChoiceAsked(items, text, default)));
  }

  /** The free-text prompt: the text, then the suggested default when there
      is one, then a colon and a space. */
  function AskInputPrompt(text: string, default: Option<string>): string
  {
    text + (if default.Some? then " <question>[" + default.value + "]</question>" else "") + ": "
  }

  /** The prompt starts with the text and ends with ": "; it shows the
      default exactly when there is one, and different defaults give
      different prompts. */
  lemma AskInputPromptShape(text: string, default: Option<string>)
    ensures var p := AskInputPrompt(text, default);
            && |p| >= |text| + 2 && p[..|text|] == text && p[|p| - 2..] == ": "
            && (default.None? <==> |p| == |text| + 2)
            && (default.Some? ==> p[|text|..|p| - 2] == " <question>[" + default.value + "]</question>")
  {
    var p := AskInputPrompt(text, default);
    assert p[..|text|] == text;
    assert p[|p| - 2..] == ": ";
    if default.Some? {
      assert p[|text|..|p| - 2] == " <question>[" + default.value + "]</question>";
    }
  }

  lemma AskInputPromptInjective(text: string, default: Option<string>, default': Option<string>)
    requires AskInputPrompt(text, default) == AskInputPrompt(text, default')
    ensures default == default'
  {
    AskInputPromptShape(text, default);
    AskInputPromptShape(text, default');
    if default.Some? && default'.Some? {
      var p := AskInputPrompt(text, default);
      var mid := p[|text|..|p| - 2];
      assert mid[12..|mid| - 12] == default.value;
      assert mid[12..|mid| - 12] == default'.value;
    }
  }

  /** `askInput`: the question put to the terminal, whose text is the
      formatted prompt and whose default is the given one, and the
      terminal's answer to it, which is returned. */
  function AskInput(text: string, default: Option<string>, ask: InputQuestion -> string): (r: InputAnswer)
    ensures r.asked.text == AskInputPrompt(text, default) && r.asked.default == default
    ensures r.answer == ask(r.asked)
  {
    var question := InputQuestion(AskInputPrompt(text, default), default);
    InputAnswer(question, ask(question))
  }

  /** The question asked by `askInput` shows its default in its text exactly
      when it has one, and two calls with the same text but different
      defaults ask different questions. */
  lemma AskInputShowsDefault(text: string, default: Option<string>, default': Option<string>, ask: InputQuestion -> string)
    ensures var q := AskInput(text, default, ask).asked;
            default.Some? ==> q.text[|text|..|q.text| - 2] == " <question>[" + default.value + "]</question>"
    ensures default != default' ==> AskInput(text, default, ask).asked.text != AskInput(text, default', ask).asked.text
  {
    AskInputPromptShape(text, default);
    if AskInputPrompt(text, default) == AskInputPrompt(text, default') {
      AskInputPromptInjective(text, default, default');
    }
  }
}
