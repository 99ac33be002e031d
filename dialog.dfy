/**
  The dialogs of ui/dialog.py: a message box that waits for one key, and the
  two line-input dialogs `prompt_input` (one attempt) and `process_keys`
  (re-prompts until it gets a usable value).
 */
module Dialog {
  import opened Wrappers
  import opened PyText
  import opened Terminal
  import opened UiUtils
  import Menu

  /** How a message box is coloured and marked. */
  datatype Style = ErrorStyle | SuccessStyle | WarningStyle | InfoStyle

  /** The `type_config` lookup: the four known message types, anything else styled as info. */
  function StyleOf(messageType: string): (st: Style)
    ensures messageType == "error" <==> st == ErrorStyle
    ensures messageType == "success" <==> st == SuccessStyle
    ensures messageType == "warning" <==> st == WarningStyle
    ensures messageType !in {"error", "success", "warning"} <==> st == InfoStyle
  {
    if messageType == "error" then ErrorStyle
    else if messageType == "success" then SuccessStyle
    else if messageType == "warning" then WarningStyle
    else InfoStyle
  }

  /** Width and height of the message box for `message` on `screen`. */
  function MessageBox(screen: Screen, message: string): (b: Menu.Box)
    ensures var lines := Split(message, '\n');
      && b.width == Menu.Min(screen.width - 10, Menu.Max(Menu.Longest(lines) + 6, 40))
      && b.height == |lines| + 6
    ensures UsableScreen(screen) ==> b.height >= 7 && b.width <= screen.width - 10
    ensures screen.width >= 50 ==> b.width >= 40 && b.x >= 5 && b.x + b.width <= screen.width - 5
  {
    var lines := Split(message, '\n');
    var w := Menu.Min(screen.width - 10, Menu.Max(Menu.Longest(lines) + 6, 40));
    var h := |lines| + 6;
    Menu.Box((screen.width - w) / 2, (screen.height - h) / 2, w, h)
  }

  /** `display_dialog` reads exactly one key, whichever it is. */
  function DisplayDialog(inp: Input): (r: Next<()>)
    ensures r.Blocked? <==> inp.keys == []
    ensures r.Got? ==> r.rest == inp.(keys := inp.keys[1..])
  {
    if inp.keys == [] then Blocked else Got((), inp.(keys := inp.keys[1..]))
  }

  /** The `input_type` argument: the callers pass `str` or `int`. */
  datatype InputType = StrType | IntType

  /** A returned value: `None`, a string, or an integer. */
  datatype Answer = NoValue | Str(s: string) | Num(n: int)

  /** Width of the input box: `min(width - 10, max(60, len(prompt) + 10))`. */
  function PromptWidth(screen: Screen, prompt: string): (w: int)
    ensures w <= screen.width - 10
    ensures screen.width >= 70 ==> w >= 60
    ensures w == screen.width - 10 || w == 60 || w == |prompt| + 10
  {
    Menu.Min(screen.width - 10, Menu.Max(60, |prompt| + 10))
  }

  /** The characters `prompt_input` reads at most. */
  const PROMPT_LIMIT: nat := 30

  /** What `prompt_input` returns for one `getstr()` read. */
  function PromptDecision(r: Read, allowEmpty: bool, ty: InputType): (a: Answer)
    ensures r.Interrupted? ==> a == NoValue
    ensures r.Typed? ==>
      var u := Strip(PyPrefix(r.text, PROMPT_LIMIT));
      && (u == [] ==> a == (if allowEmpty then Str("") else NoValue))
      && (u != [] && ty == StrType ==> a == Str(u))
      && (u != [] && ty == IntType ==> a == if ParseInt(u).Some? then Num(ParseInt(u).value) else NoValue)
    ensures a.Str? ==> ty == StrType || a.s == []
    ensures a.Str? && a.s == [] ==> allowEmpty
    ensures a.Num? ==> ty == IntType
  {
    match ReadLine(r, PROMPT_LIMIT)
    case None => NoValue
    case Some(u) =>
      if !allowEmpty && u == [] then NoValue
      else if u != [] && ty != StrType then
        (match ParseInt(u) case Some(v) => Num(v) case None => NoValue)
      else if u != [] || allowEmpty then Str(u)
      else NoValue
  }

  /** `prompt_input`: one line read from the front of the input. */
  function PromptInput(inp: Input, allowEmpty: bool, ty: InputType): (r: Next<Answer>)
    ensures r.Blocked? <==> inp.texts == []
    ensures r.Got? ==> r.rest == inp.(texts := inp.texts[1..]) && r.value == PromptDecision(inp.texts[0], allowEmpty, ty)
  {
    if inp.texts == [] then Blocked
    else Got(PromptDecision(inp.texts[0], allowEmpty, ty), inp.(texts := inp.texts[1..]))
  }

  /** The characters `process_keys` reads at most. */
  const PROCESS_LIMIT: nat := 20

  /** `input_type()`: the default value of the type. */
  function DefaultOf(ty: InputType): Answer {
    match ty
    case StrType => Str("")
    case IntType => Num(0)
  }

  /**
    The retry loop of `process_keys`: an empty line (when empty is not
    allowed) or a failed conversion shows an error and waits for one key,
    then asks again.
   */
  function ProcessKeysRun(inp: Input, ty: InputType, allowEmpty: bool): Next<Answer>
    decreases |inp.texts|
  {
    if inp.texts == [] then Blocked
    else
      var after := inp.(texts := inp.texts[1..]);
      match ReadLine(inp.texts[0], PROCESS_LIMIT)
      case None => Got(NoValue, after)
      case Some(u) =>
        if !allowEmpty && u == [] then
          (if after.keys == [] then Blocked else ProcessKeysRun(after.(keys := after.keys[1..]), ty, allowEmpty))
        else if allowEmpty && u == [] then Got(DefaultOf(ty), after)
        else match ty
          case StrType => Got(Str(u), after)
          case IntType =>
            match ParseInt(u)
            case Some(v) => Got(Num(v), after)
            case None =>
              if after.keys == [] then Blocked else ProcessKeysRun(after.(keys := after.keys[1..]), ty, allowEmpty)
  }

  /** Whether the first line read makes `process_keys` show an error, wait for a key and ask again. */
  predicate Retries(inp: Input, ty: InputType, allowEmpty: bool)
    requires inp.texts != []
  {
    match ReadLine(inp.texts[0], PROCESS_LIMIT)
    case None => false
    case Some(u) => (!allowEmpty && u == []) || (u != [] && ty == IntType && ParseInt(u).None?)
  }

  /** The input a retry continues with: one line and one key fewer. */
  function RetryInput(inp: Input): Input
    requires inp.texts != [] && inp.keys != []
  {
    Input(inp.keys[1..], inp.texts[1..])
  }

  lemma {:induction false} ProcessKeysUnfold(inp: Input, ty: InputType, allowEmpty: bool)
    requires inp.texts != []
    ensures Retries(inp, ty, allowEmpty) && inp.keys != [] ==>
      ProcessKeysRun(inp, ty, allowEmpty) == ProcessKeysRun(RetryInput(inp), ty, allowEmpty)
    ensures Retries(inp, ty, allowEmpty) && inp.keys == [] ==> ProcessKeysRun(inp, ty, allowEmpty).Blocked?
    ensures !Retries(inp, ty, allowEmpty) ==> ProcessKeysRun(inp, ty, allowEmpty) == Got(
      match ReadLine(inp.texts[0], PROCESS_LIMIT)
        case None => NoValue
        case Some(u) =>
          if u == [] then DefaultOf(ty)
          else if ty == StrType then Str(u) else Num(ParseInt(u).value),
      inp.(texts := inp.texts[1..]))
  {
  }

  /** `process_keys` reads only from the front of its input, and at least one line when it returns. */
  lemma {:induction false} ProcessKeysConsumes(inp: Input, ty: InputType, allowEmpty: bool)
    ensures var r := ProcessKeysRun(inp, ty, allowEmpty);
      r.Got? ==> Consumed(inp, r.rest) && |r.rest.texts| < |inp.texts|
    decreases |inp.texts|
  {
    if inp.texts != [] {
      ProcessKeysUnfold(inp, ty, allowEmpty);
      if Retries(inp, ty, allowEmpty) && inp.keys != [] {
        var next := RetryInput(inp);
        ProcessKeysConsumes(next, ty, allowEmpty);
        var r := ProcessKeysRun(next, ty, allowEmpty);
        if r.Got? {
          ConsumedLineAndKey(inp);
          ConsumedTrans(inp, next, r.rest);
        }
      } else if !Retries(inp, ty, allowEmpty) {
        ConsumedLine(inp);
      }
    }
  }

  /**
    What `process_keys` can return: `None` only after a Ctrl+C, an empty
    string only when empty is allowed, a string only for `str` and a number
    only for `int`.
   */
  lemma {:induction false} ProcessKeysValue(inp: Input, ty: InputType, allowEmpty: bool)
    ensures var r := ProcessKeysRun(inp, ty, allowEmpty);
      && (r.Got? && r.value.Str? ==> ty == StrType && (r.value.s == [] ==> allowEmpty))
      && (r.Got? && r.value.Num? ==> ty == IntType)
      && (r.Got? && r.value.NoValue? ==> exists i :: 0 <= i < |inp.texts| && inp.texts[i].Interrupted?)
    decreases |inp.texts|
  {
    if inp.texts != [] {
      ProcessKeysUnfold(inp, ty, allowEmpty);
      if Retries(inp, ty, allowEmpty) && inp.keys != [] {
        var next := RetryInput(inp);
        ProcessKeysValue(next, ty, allowEmpty);
        var r := ProcessKeysRun(next, ty, allowEmpty);
        if r.Got? && r.value.NoValue? {
          var i :| 0 <= i < |next.texts| && next.texts[i].Interrupted?;
          assert inp.texts[i + 1] == next.texts[i];
        }
      } else if !Retries(inp, ty, allowEmpty) && !inp.texts[0].Interrupted? {
        if ty == IntType && Strip(PyPrefix(inp.texts[0].text, PROCESS_LIMIT)) != [] {
          assert ParseInt(Strip(PyPrefix(inp.texts[0].text, PROCESS_LIMIT))).Some?;
        }
      }
    }
  }

  /** An empty line when empty is not allowed costs one key and asks again. */
  lemma {:induction false} EmptyInputReprompts(inp: Input, ty: InputType)
    requires inp.texts != [] && inp.keys != []
    requires inp.texts[0].Typed? && AllSpace(PyPrefix(inp.texts[0].text, PROCESS_LIMIT))
    ensures ProcessKeysRun(inp, ty, false) == ProcessKeysRun(Input(inp.keys[1..], inp.texts[1..]), ty, false)
  {
    assert Strip(PyPrefix(inp.texts[0].text, PROCESS_LIMIT)) == [];
  }

  /** An empty line when empty is allowed returns `input_type()`. */
  lemma {:induction false} EmptyInputGivesDefault(inp: Input, ty: InputType)
    requires inp.texts != []
    requires inp.texts[0].Typed? && AllSpace(PyPrefix(inp.texts[0].text, PROCESS_LIMIT))
    ensures ProcessKeysRun(inp, ty, true) == Got(DefaultOf(ty), inp.(texts := inp.texts[1..]))
  {
    assert Strip(PyPrefix(inp.texts[0].text, PROCESS_LIMIT)) == [];
  }

  /** A line `int()` rejects asks again after one key instead of returning. */
  lemma BadNumberReprompts(inp: Input, allowEmpty: bool)
    requires inp.texts != [] && inp.keys != []
    requires inp.texts[0].Typed?
    requires Strip(PyPrefix(inp.texts[0].text, PROCESS_LIMIT)) != []
    requires ParseInt(Strip(PyPrefix(inp.texts[0].text, PROCESS_LIMIT))).None?
    ensures ProcessKeysRun(inp, IntType, allowEmpty) == ProcessKeysRun(Input(inp.keys[1..], inp.texts[1..]), IntType, allowEmpty)
  {
  }

  /** `process_keys` as the loop it is. */
  method ProcessKeys(inp: Input, ty: InputType, allowEmpty: bool) returns (out: Next<Answer>)
    ensures out == ProcessKeysRun(inp, ty, allowEmpty)
    ensures out.Got? && out.value.Str? && out.value.s == [] ==> allowEmpty
  {
    ProcessKeysValue(inp, ty, allowEmpty);
    var keys := inp.keys;
    var texts := inp.texts;
    while true
      invariant ProcessKeysRun(Input(keys, texts), ty, allowEmpty) == ProcessKeysRun(inp, ty, allowEmpty)
      decreases |texts|
    {
      if texts == [] {
        return Blocked;
      }
      var line := ReadLine(texts[0], PROCESS_LIMIT);
      texts := texts[1..];
      if line.None? {
        return Got(NoValue, Input(keys, texts));
      }
      var u := line.value;
      if !allowEmpty && u == [] {
        if keys == [] {
          return Blocked;
        }
        keys := keys[1..];
        continue;
      }
      if allowEmpty && u == [] {
        return Got(DefaultOf(ty), Input(keys, texts));
      }
      if ty == StrType {
        return Got(Str(u), Input(keys, texts));
      }
      var v := ParseInt(u);
      if v.Some? {
        return Got(Num(v.value), Input(keys, texts));
      }
      if keys == [] {
        return Blocked;
      }
      keys := keys[1..];
    }
  }
}
