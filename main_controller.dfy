/**
  The workflow of controllers/main_controller.py: the main menu, the
  first-run settings, and the way an order goes from its mode's records
  through the editor, the configuration file, the payload generator and
  the confirmation box to the sender and the history.
 */
module MainController {
  import opened Wrappers
  import opened PyText
  import opened PyDict
  import opened Terminal
  import opened UiUtils
  import opened Defaults
  import opened Dialog
  import Menu
  import Form
  import OrderController
  import XmlGenerator
  import OrderSender
  import History
  import ConfigStore

  // The fallback indenter `_basic_xml_formatting`

  /** A stripped line that starts with `</`. */
  predicate Closes(l: string) {
    StartsWith(l, "</")
  }

  /** A stripped line that opens an element: it starts with `<` but is neither a closing nor a self-closing tag. */
  predicate Opens(l: string) {
    StartsWith(l, "<") && !StartsWith(l, "</") && !EndsWith(l, "/>")
  }

  /** The indent level a line is written at: one less for a closing tag, never below zero. */
  function LevelBefore(level: nat, l: string): (k: nat)
    ensures Closes(l) ==> k == if level > 0 then level - 1 else 0
    ensures !Closes(l) ==> k == level
  {
    if Closes(l) && level > 0 then level - 1 else level
  }

  /** The indent level after a line: one more for an opening tag. */
  function LevelAfter(level: nat, l: string): (k: nat)
    ensures Opens(l) ==> k == LevelBefore(level, l) + 1
    ensures !Opens(l) ==> k == LevelBefore(level, l)
  {
    LevelBefore(level, l) + if Opens(l) then 1 else 0
  }

  /** Every line of `parts` stripped, as the loop strips it before looking at it. */
  function StripAll(parts: seq<string>): (r: seq<string>)
    ensures |r| == |parts|
    ensures forall i :: 0 <= i < |r| ==> r[i] == Strip(parts[i])
  {
    seq(|parts|, i requires 0 <= i < |parts| => Strip(parts[i]))
  }

  /** What the indenter produces for the stripped lines `ls` from indent level `level`. */
  function Formatted(ls: seq<string>, level: nat): seq<string>
    decreases |ls|
  {
    if ls == [] then []
    else if ls[0] == "" then Formatted(ls[1..], level)
    else [Spaces(4 * LevelBefore(level, ls[0])) + ls[0]] + Formatted(ls[1..], LevelAfter(level, ls[0]))
  }

  /** The lines that are not blank, in order. */
  function NonBlank(ls: seq<string>): (r: seq<string>)
    ensures forall i :: 0 <= i < |r| ==> r[i] != ""
    decreases |ls|
  {
    if ls == [] then []
    else if ls[0] == "" then NonBlank(ls[1..])
    else [ls[0]] + NonBlank(ls[1..])
  }

  /** A line of four-space indent steps followed by `l`. */
  predicate IndentedLine(out: string, l: string) {
    && |out| >= |l|
    && (|out| - |l|) % 4 == 0
    && out == Spaces(|out| - |l|) + l
  }

  lemma {:induction false} IndentedSpaces(k: nat, l: string)
    ensures IndentedLine(Spaces(4 * k) + l, l)
  {
    var out := Spaces(4 * k) + l;
    assert |out| - |l| == 4 * k;
  }

  /**
    Blank lines are dropped and every other line comes out behind a
    multiple of four spaces, in the order of the input.
   */
  lemma {:induction false} FormattedShape(ls: seq<string>, level: nat)
    ensures |Formatted(ls, level)| == |NonBlank(ls)|
    ensures forall i :: 0 <= i < |NonBlank(ls)| ==> IndentedLine(Formatted(ls, level)[i], NonBlank(ls)[i])
    decreases |ls|
  {
    if ls != [] {
      var l := ls[0];
      if l == "" {
        FormattedShape(ls[1..], level);
      } else {
        var k := LevelBefore(level, l);
        var after := LevelAfter(level, l);
        FormattedShape(ls[1..], after);
        var out := Formatted(ls, level);
        var nb := NonBlank(ls);
        var out' := Formatted(ls[1..], after);
        var nb' := NonBlank(ls[1..]);
        assert out == [Spaces(4 * k) + l] + out';
        assert nb == [l] + nb';
        IndentedSpaces(k, l);
        forall i | 1 <= i < |nb|
          ensures IndentedLine(out[i], nb[i])
        {
          assert out[i] == out'[i - 1];
          assert nb[i] == nb'[i - 1];
        }
      }
    }
  }

  /** An element opened on one line and closed on the next: both lines get the same indent. */
  lemma {:induction false} OpenCloseAligned(a: string, b: string, level: nat)
    requires Opens(a) && Closes(b)
    ensures Formatted([a, b], level) == [Spaces(4 * level) + a, Spaces(4 * level) + b]
  {
    assert a != "" && b != "";
    assert LevelAfter(level, a) == level + 1;
    assert LevelBefore(level, a) == level;
    assert LevelBefore(level + 1, b) == level;
    assert [a, b][1..] == [b];
    assert [b][1..] == [];
    assert Formatted([b], level + 1) == [Spaces(4 * level) + b];
  }

  /** A self-closing or text line leaves the indent as it was for the next line. */
  lemma {:induction false} LeafKeepsLevel(a: string, b: string, level: nat)
    requires a != "" && !Closes(a) && !Opens(a)
    requires b != "" && !Closes(b)
    ensures Formatted([a, b], level) == [Spaces(4 * level) + a, Spaces(4 * level) + b]
  {
    assert LevelAfter(level, a) == level;
    assert LevelBefore(level, a) == level;
    assert LevelBefore(level, b) == level;
    assert [a, b][1..] == [b];
    assert [b][1..] == [];
    assert Formatted([b], level) == [Spaces(4 * level) + b];
  }

  /** One step of the indenter: the line at `i` and what follows it. */
  lemma {:induction false} FormattedStep(ls: seq<string>, i: nat, level: nat)
    requires i < |ls|
    ensures ls[i] == "" ==> Formatted(ls[i..], level) == Formatted(ls[i + 1..], level)
    ensures ls[i] != "" ==>
      Formatted(ls[i..], level) == [Spaces(4 * LevelBefore(level, ls[i])) + ls[i]] + Formatted(ls[i + 1..], LevelAfter(level, ls[i]))
  {
    assert ls[i..][0] == ls[i];
    assert ls[i..][1..] == ls[i + 1..];
  }

  /** `_basic_xml_formatting`: the loop over `xml.split("\n")` with its `indent_level` counter. */
  method BasicXmlFormatting(xml: string) returns (lines: seq<string>)
    ensures lines == Formatted(StripAll(Split(xml, '\n')), 0)
  {
    var parts := Split(xml, '\n');
    ghost var ls := StripAll(parts);
    lines := [];
    var level: nat := 0;
    var i := 0;
    while i < |parts|
      invariant 0 <= i <= |parts|
      invariant lines + Formatted(ls[i..], level) == Formatted(ls, 0)
    {
      var line := Strip(parts[i]);
      FormattedStep(ls, i, level);
      if line != "" {
        lines := lines + [Spaces(4 * LevelBefore(level, line)) + line];
        level := LevelAfter(level, line);
      }
      i := i + 1;
    }
    assert ls[|ls|..] == [];
  }

  // The key loop of `_show_xml_confirmation_dialog`

  predicate IsYesKey(k: Key) {
    k == Ord('y') || k == Ord('Y')
  }

  predicate IsNoKey(k: Key) {
    k == Ord('n') || k == Ord('N') || k == ESCAPE
  }

  predicate Decisive(k: Key) {
    IsYesKey(k) || IsNoKey(k)
  }

  /** How the confirmation ends: send or not, with the keys left; or still waiting for a key. */
  datatype Decision = Decided(send: bool, rest: seq<Key>) | Undecided

  function ConfirmRun(keys: seq<Key>): Decision
    decreases |keys|
  {
    if keys == [] then Undecided
    else if IsYesKey(keys[0]) then Decided(true, keys[1..])
    else if IsNoKey(keys[0]) then Decided(false, keys[1..])
    else ConfirmRun(keys[1..])
  }

  /** Where the first `y`, `Y`, `n`, `N` or Esc is. */
  function FirstDecisive(keys: seq<Key>): (r: Option<nat>)
    ensures r.Some? ==> r.value < |keys| && Decisive(keys[r.value])
    ensures r.Some? ==> forall j :: 0 <= j < r.value ==> !Decisive(keys[j])
    ensures r.None? ==> forall j :: 0 <= j < |keys| ==> !Decisive(keys[j])
    decreases |keys|
  {
    if keys == [] then None
    else if Decisive(keys[0]) then Some(0)
    else match FirstDecisive(keys[1..])
      case None => None
      case Some(j) => Some(j + 1)
  }

  /**
    The loop answers at the first decisive key and at no other: `True`
    for `y`/`Y`, `False` for `n`/`N`/Esc; every other key is ignored.
   */
  lemma {:induction false} ConfirmAnswersFirstDecisive(keys: seq<Key>)
    ensures FirstDecisive(keys).None? ==> ConfirmRun(keys) == Undecided
    ensures FirstDecisive(keys).Some? ==>
      var j := FirstDecisive(keys).value;
      ConfirmRun(keys) == Decided(IsYesKey(keys[j]), keys[j + 1..])
    decreases |keys|
  {
    if keys != [] && !Decisive(keys[0]) {
      ConfirmAnswersFirstDecisive(keys[1..]);
      if FirstDecisive(keys).Some? {
        var j := FirstDecisive(keys).value;
        assert keys[1..][j - 1] == keys[j];
        assert keys[1..][j..] == keys[j + 1..];
      }
    }
  }

  /** The `while True` loop over `getch()`. */
  method ConfirmLoop(keys: seq<Key>) returns (d: Decision)
    ensures d == ConfirmRun(keys)
  {
    var i := 0;
    while i < |keys|
      invariant 0 <= i <= |keys|
      invariant ConfirmRun(keys[i..]) == ConfirmRun(keys)
    {
      assert keys[i..][1..] == keys[i + 1..];
      if IsYesKey(keys[i]) {
        return Decided(true, keys[i + 1..]);
      } else if IsNoKey(keys[i]) {
        return Decided(false, keys[i + 1..]);
      }
      i := i + 1;
    }
    assert keys[i..] == [];
    return Undecided;
  }

  // The main menu

  /** The entries of the main menu: the five order modes, then four tools. */
  datatype MainItem = OrderItem(mode: Mode) | ViewHistory | CancelOrders | ConfigureOsr | ConfigureServer

  const MAIN_ITEMS: seq<MainItem> := [
    OrderItem(PickStandard), OrderItem(PickManual), OrderItem(Inventory), OrderItem(GoodsIn), OrderItem(GoodsAdd),
    ViewHistory, CancelOrders, ConfigureOsr, ConfigureServer
  ]

  /** What the main loop does with a menu result: leave, open an entry, or fail on a bad index. */
  datatype MainChoice = Leave | Open(item: MainItem) | MenuCrash

  /**
    `modes[selected_idx]`: `None` leaves the loop, an index picks its
    entry, and Python's negative indexing turns the refresh result `-2`
    into "Configure OSR ID" and the back result `-3` into "Cancel Orders".
   */
  function MainMenuChoice(r: Menu.MenuResult): (c: MainChoice)
    ensures r.NoneResult? <==> c == Leave
    ensures r.Index? && 0 <= r.i < |ORDER_TYPES| ==> c == Open(OrderItem(ORDER_TYPES[r.i]))
    ensures r == Menu.Index(5) ==> c == Open(ViewHistory)
    ensures r == Menu.Index(6) ==> c == Open(CancelOrders)
    ensures r == Menu.Index(7) ==> c == Open(ConfigureOsr)
    ensures r == Menu.Index(8) ==> c == Open(ConfigureServer)
    ensures r == Menu.Index(Menu.REFRESH) ==> c == Open(ConfigureOsr)
    ensures r == Menu.Index(Menu.BACK) ==> c == Open(CancelOrders)
  {
    match r
    case NoneResult => Leave
    case Index(i) =>
      (match PyIndex(MAIN_ITEMS, i)
       case Some(it) => Open(it)
       case None => MenuCrash)
    case Selection(_) => MenuCrash
  }

  /** Every result the single-choice main menu can give is handled without an IndexError. */
  lemma MainMenuNeverCrashes(r: Menu.MenuResult)
    requires Menu.ValidResult(|MAIN_ITEMS|, false, r)
    ensures MainMenuChoice(r) != MenuCrash
  {
  }

  // Server type and first-run settings

  /** A server-type menu's effect: keep the setting, set it, or fail on an out-of-range index. */
  datatype ServerChoice = KeepServer | SetServer(serverType: string) | ServerCrash

  /**
    `SERVER_TYPES[selected_idx]` when there is a result: `-2` wraps round
    to "Live" and `-3` is an IndexError.
   */
  function ServerTypeChoice(r: Menu.MenuResult): (c: ServerChoice)
    ensures r.NoneResult? <==> c == KeepServer
    ensures r == Menu.Index(0) || r == Menu.Index(Menu.REFRESH) ==> c == SetServer(LIVE)
    ensures r == Menu.Index(1) ==> c == SetServer(TEST)
    ensures r == Menu.Index(Menu.BACK) ==> c == ServerCrash
    ensures c.SetServer? ==> c.serverType in SERVER_TYPES
  {
    match r
    case NoneResult => KeepServer
    case Index(i) =>
      (match PyIndex(SERVER_TYPES, i)
       case Some(s) => SetServer(s)
       case None => ServerCrash)
    case Selection(_) => ServerCrash
  }

  /** `_intro_menu`'s server type: the chosen one, "Live" when the menu is left. */
  function IntroServerType(r: Menu.MenuResult): (s: Option<string>)
    ensures r.NoneResult? ==> s == Some(LIVE)
    ensures s.Some? ==> s.value in SERVER_TYPES
    ensures ServerTypeChoice(r).SetServer? ==> s == Some(ServerTypeChoice(r).serverType)
    ensures ServerTypeChoice(r) == ServerCrash <==> s.None?
  {
    match ServerTypeChoice(r)
    case KeepServer => Some(LIVE)
    case SetServer(t) => Some(t)
    case ServerCrash => None
  }

  /** `_intro_menu`'s name: what was typed, or "src" when nothing was. */
  function IntroName(a: Answer): (n: string)
    ensures a.Str? && a.s != "" ==> n == a.s
    ensures !(a.Str? && a.s != "") ==> n == "src"
    ensures n != ""
  {
    if a.Str? && a.s != "" then a.s else "src"
  }

  /** `_configure_server_type`: a chosen type is stored and the configuration saved. */
  method ConfigureServerType(config: Config, r: Menu.MenuResult, cm: ConfigStore.ConfigManager, writable: bool)
    returns (updated: Config, crashed: bool)
    modifies cm
    ensures ServerTypeChoice(r) == KeepServer ==> updated == config && !crashed && cm.file == old(cm.file)
    ensures ServerTypeChoice(r) == ServerCrash ==> crashed && cm.file == old(cm.file)
    ensures ServerTypeChoice(r).SetServer? ==>
      && updated == Put(config, "server_type", Text(ServerTypeChoice(r).serverType))
      && (crashed <==> !writable)
      && cm.file == if writable then ConfigStore.Parsed(updated) else old(cm.file)
  {
    match ServerTypeChoice(r)
    case KeepServer =>
      return config, false;
    case ServerCrash =>
      return config, true;
    case SetServer(t) =>
      updated := Put(config, "server_type", Text(t));
      crashed := cm.Save(updated, writable);
  }

  /**
    The capacity specs `_intro_menu` collects: each compartment name with
    the answer to its quantity prompt, a later answer for the same name
    replacing an earlier one, and a dismissed prompt skipped.
   */
  function SpecsOf(answers: seq<(string, Answer)>): Dict<int>
    decreases |answers|
  {
    if answers == [] then []
    else
      var specs := SpecsOf(answers[..|answers| - 1]);
      var (name, a) := answers[|answers| - 1];
      if a.Num? then Put(specs, name, a.n) else specs
  }

  predicate Answered(answers: seq<(string, Answer)>, name: string) {
    exists i :: 0 <= i < |answers| && answers[i].0 == name && answers[i].1.Num?
  }

  predicate AnsweredWith(answers: seq<(string, Answer)>, name: string, n: int) {
    exists i :: 0 <= i < |answers| && answers[i] == (name, Num(n))
  }

  /** A name has a spec exactly when one of its prompts was answered with a number, and it holds one of those numbers. */
  lemma {:induction false} SpecsOfAnswered(answers: seq<(string, Answer)>, name: string)
    ensures HasKey(SpecsOf(answers), name) <==> Answered(answers, name)
    ensures HasKey(SpecsOf(answers), name) ==> AnsweredWith(answers, name, Get(SpecsOf(answers), name).value)
    decreases |answers|
  {
    if answers != [] {
      var front := answers[..|answers| - 1];
      var j := |answers| - 1;
      var last := answers[j];
      SpecsOfAnswered(front, name);
      var s := SpecsOf(front);
      assert forall i :: 0 <= i < |front| ==> front[i] == answers[i];
      if last.0 == name && last.1.Num? {
        assert SpecsOf(answers) == Put(s, name, last.1.n);
        assert answers[j] == (name, Num(last.1.n));
      } else {
        assert Get(SpecsOf(answers), name) == Get(s, name);
        if Answered(answers, name) {
          var i :| 0 <= i < |answers| && answers[i].0 == name && answers[i].1.Num?;
          assert i < |front|;
          assert Answered(front, name);
        }
        if HasKey(s, name) {
          var i :| 0 <= i < |front| && front[i] == (name, Num(Get(s, name).value));
          assert answers[i] == (name, Num(Get(s, name).value));
        }
      }
    }
  }

  /** The loop of `_intro_menu` that fills `capacity_specs`. */
  method CollectCapacitySpecs(answers: seq<(string, Answer)>) returns (specs: Dict<int>)
    ensures specs == SpecsOf(answers)
  {
    specs := [];
    var i := 0;
    while i < |answers|
      invariant 0 <= i <= |answers|
      invariant specs == SpecsOf(answers[..i])
    {
      assert answers[..i + 1][..i] == answers[..i];
      var (name, a) := answers[i];
      if a.Num? {
        specs := Put(specs, name, a.n);
      }
      i := i + 1;
    }
    assert answers[..i] == answers;
  }

  // Name stamping

  /** `config.get("name", "SRC")`. */
  function NameOf(config: Config): string {
    match Get(config, "name")
    case Some(v) => ConfigStore.TextOf(v)
    case None => "SRC"
  }

  /** The records with the operator's name written into each; nothing else in them changes. */
  function Stamped(records: seq<Dict<string>>, name: string): (r: seq<Dict<string>>)
    ensures |r| == |records|
    ensures forall i :: 0 <= i < |r| ==> Get(r[i], "name") == Some(name)
    ensures forall i, k :: 0 <= i < |r| && k != "name" ==> Get(r[i], k) == Get(records[i], k)
    ensures forall i :: 0 <= i < |r| ==> r[i] == Put(records[i], "name", name)
  {
    seq(|records|, i requires 0 <= i < |records| => Put(records[i], "name", name))
  }

  /** `for v in values: v["name"] = ...`. */
  method StampNames(records: seq<Dict<string>>, name: string) returns (r: seq<Dict<string>>)
    ensures r == Stamped(records, name)
  {
    r := [];
    var i := 0;
    while i < |records|
      invariant 0 <= i <= |records|
      invariant r == Stamped(records, name)[..i]
    {
      r := r + [Put(records[i], "name", name)];
      i := i + 1;
    }
  }

  // Order creation: `_handle_order_creation` and `_edit_order`

  /** The two modes whose records are edited as a list of lines. */
  predicate IsPickMode(m: Mode) {
    m == PickStandard || m == PickManual
  }

  /** How the editing step ends. */
  datatype CreationStatus = Accepted | NotAccepted | CreationWaiting | CreationCrashed

  /**
    The editing step: how it ended, the configuration in memory afterwards,
    the order data handed to the generator when the editor accepted, and the
    input left.
   */
  datatype Creation = Creation(status: CreationStatus, config: Config, order: Option<XmlGenerator.OrderData>, rest: Input)

  /**
    `_handle_order_creation` up to the generator. The mode's entry gets the
    operator's name; a pick mode then edits copies of its records and a
    single mode edits its record in place, so that the edits of a single
    mode stay in the configuration in memory even when the form is left.
    An entry of the wrong kind, or a missing one, raises.
   */
  function CreationRun(config: Config, m: Mode, inp: Input): (c: Creation)
    ensures c.status == Accepted <==> c.order.Some?
    ensures c.order.Some? ==> c.order.value.mode == ModeName(m)
    ensures c.status == CreationCrashed ==> c.config == config
  {
    var key := ModeName(m);
    var name := NameOf(config);
    match Get(config, key)
    case None => Creation(CreationCrashed, config, None, inp)
    case Some(v) =>
      if IsPickMode(m) then
        if !v.Records? then Creation(CreationCrashed, config, None, inp)
        else
          var stamped := Stamped(v.records, name);
          var cfg := Put(config, key, Records(stamped));
          var run := OrderController.EditPickLinesRun(key, stamped, inp);
          match run.status
          case Accepted =>
            Creation(Accepted, Put(cfg, key, Records(run.lines)),
              Some(XmlGenerator.OrderData(key, XmlGenerator.Many(stamped), Some(run.lines))), run.rest)
          case Declined => Creation(NotAccepted, cfg, None, run.rest)
          case EditorWaiting => Creation(CreationWaiting, cfg, None, run.rest)
          case EditorCrashed => Creation(CreationCrashed, config, None, run.rest)
      else if !v.Record? then Creation(CreationCrashed, config, None, inp)
      else
        var run := Form.EditFormRun(FieldOrder(m), false, OrderController.NO_LOOKUP, Put(v.record, "name", name), inp);
        var cfg := Put(config, key, Record(run.values));
        match run.status
        case Saved =>
          Creation(Accepted, cfg, Some(XmlGenerator.OrderData(key, XmlGenerator.One(run.values), None)), run.rest)
        case Waiting => Creation(CreationWaiting, cfg, None, run.rest)
        case _ => Creation(NotAccepted, cfg, None, run.rest)
  }

  /**
    An accepted pick order: the configuration keeps the edited lines, but
    the payload's records are the stamped records as they were before the
    editor ran, every one carrying the operator's name.
   */
  lemma {:induction false} PickPayloadIsStale(config: Config, m: Mode, records: seq<Dict<string>>, inp: Input)
    requires IsPickMode(m) && Get(config, ModeName(m)) == Some(Records(records))
    requires CreationRun(config, m, inp).status == Accepted
    ensures var c := CreationRun(config, m, inp);
      var edited := OrderController.EditPickLinesRun(ModeName(m), Stamped(records, NameOf(config)), inp).lines;
      && Get(c.config, ModeName(m)) == Some(Records(edited))
      && c.order.value.values == XmlGenerator.Many(Stamped(records, NameOf(config)))
      && (forall i :: 0 <= i < |c.order.value.values.records| ==> Get(c.order.value.values.records[i], "name") == Some(NameOf(config)))
  {
    var key := ModeName(m);
    var stamped := Stamped(records, NameOf(config));
    var run := OrderController.EditPickLinesRun(key, stamped, inp);
    assert run.status == OrderController.Accepted;
    var c := CreationRun(config, m, inp);
    assert c.config == Put(Put(config, key, Records(stamped)), key, Records(run.lines));
    assert c.order.value.values == XmlGenerator.Many(stamped);
  }

  /** So the payload of an accepted pick order is the one the unedited stamped records give, whatever was edited. */
  lemma {:induction false} PickPayloadIgnoresEdits(config: Config, m: Mode, records: seq<Dict<string>>, inp: Input, generatorConfig: Config)
    requires IsPickMode(m) && Get(config, ModeName(m)) == Some(Records(records))
    requires CreationRun(config, m, inp).status == Accepted
    ensures XmlGenerator.Generate(CreationRun(config, m, inp).order.value, generatorConfig)
         == XmlGenerator.Generate(XmlGenerator.OrderData(ModeName(m), XmlGenerator.Many(Stamped(records, NameOf(config))), None), generatorConfig)
  {
    var order := CreationRun(config, m, inp).order.value;
    PickPayloadIsStale(config, m, records, inp);
    XmlGenerator.GenerateIgnoresLines(order, None, generatorConfig);
  }

  /** A pick editor left without sending: the entry holds the stamped records and none of the edits. */
  lemma {:induction false} PickDeclineDiscardsEdits(config: Config, m: Mode, records: seq<Dict<string>>, inp: Input)
    requires IsPickMode(m) && Get(config, ModeName(m)) == Some(Records(records))
    requires CreationRun(config, m, inp).status == NotAccepted || CreationRun(config, m, inp).status == CreationWaiting
    ensures Get(CreationRun(config, m, inp).config, ModeName(m)) == Some(Records(Stamped(records, NameOf(config))))
  {
    var key := ModeName(m);
    var stamped := Stamped(records, NameOf(config));
    var run := OrderController.EditPickLinesRun(key, stamped, inp);
    assert run.status == OrderController.Declined || run.status == OrderController.EditorWaiting;
    assert CreationRun(config, m, inp).config == Put(config, key, Records(stamped));
  }

  /**
    A single-mode form, accepted or not: the entry in memory holds what the
    form wrote, starting from the record with the operator's name.
   */
  lemma {:induction false} SingleEditsStayInMemory(config: Config, m: Mode, record: Dict<string>, inp: Input)
    requires !IsPickMode(m) && Get(config, ModeName(m)) == Some(Record(record))
    ensures var run := Form.EditFormRun(FieldOrder(m), false, OrderController.NO_LOOKUP, Put(record, "name", NameOf(config)), inp);
      && CreationRun(config, m, inp).status != CreationCrashed
      && CreationRun(config, m, inp).config == Put(config, ModeName(m), Record(run.values))
      && Get(CreationRun(config, m, inp).config, ModeName(m)) == Some(Record(run.values))
      && (CreationRun(config, m, inp).status == Accepted <==> run.status == Form.Saved)
  {
    var key := ModeName(m);
    var run := Form.EditFormRun(FieldOrder(m), false, OrderController.NO_LOOKUP, Put(record, "name", NameOf(config)), inp);
    var cfg := Put(config, key, Record(run.values));
    assert CreationRun(config, m, inp).config == cfg;
  }

  /** The configuration a pick editor leaves: the original, the one with stamped records, or the one with the edited lines. */
  lemma {:induction false} PickConfigs(config: Config, m: Mode, records: seq<Dict<string>>, inp: Input)
    requires IsPickMode(m) && Get(config, ModeName(m)) == Some(Records(records))
    ensures var key := ModeName(m);
      var stamped := Stamped(records, NameOf(config));
      var cfg := Put(config, key, Records(stamped));
      var run := OrderController.EditPickLinesRun(key, stamped, inp);
      var c := CreationRun(config, m, inp).config;
      c == config || c == cfg || c == Put(cfg, key, Records(run.lines))
  {
    var key := ModeName(m);
    var stamped := Stamped(records, NameOf(config));
    var cfg := Put(config, key, Records(stamped));
    var run := OrderController.EditPickLinesRun(key, stamped, inp);
    var c := CreationRun(config, m, inp);
    match run.status
    case Accepted => assert c.config == Put(cfg, key, Records(run.lines));
    case Declined => assert c.config == cfg;
    case EditorWaiting => assert c.config == cfg;
    case EditorCrashed => assert c.config == config;
  }

  lemma PutOther(d: Config, key: string, v: ConfigValue, k: string)
    requires k != key
    ensures Get(Put(d, key, v), k) == Get(d, k)
  {
  }

  /** Editing touches no entry of the configuration but the mode's own. */
  lemma {:induction false} CreationKeepsOtherEntries(config: Config, m: Mode, inp: Input, k: string)
    requires k != ModeName(m)
    ensures Get(CreationRun(config, m, inp).config, k) == Get(config, k)
  {
    var key := ModeName(m);
    match Get(config, key)
    case None =>
    case Some(v) =>
      if IsPickMode(m) && v.Records? {
        var stamped := Stamped(v.records, NameOf(config));
        var cfg := Put(config, key, Records(stamped));
        var run := OrderController.EditPickLinesRun(key, stamped, inp);
        PickConfigs(config, m, v.records, inp);
        PutOther(config, key, Records(stamped), k);
        PutOther(cfg, key, Records(run.lines), k);
      } else if !IsPickMode(m) && v.Record? {
        var run := Form.EditFormRun(FieldOrder(m), false, OrderController.NO_LOOKUP, Put(v.record, "name", NameOf(config)), inp);
        SingleEditsStayInMemory(config, m, v.record, inp);
        PutOther(config, key, Record(run.values), k);
      }
  }

  /** The pick branch of `_handle_order_creation`: the stamped records are edited as a line list. */
  method CreatePickOrder(screen: Screen, config: Config, m: Mode, records: seq<Dict<string>>, inp: Input,
                         cm: ConfigStore.ConfigManager, writable: bool)
    returns (c: Creation, saveFailed: bool)
    requires IsPickMode(m) && Get(config, ModeName(m)) == Some(Records(records))
    modifies cm
    ensures c == CreationRun(config, m, inp)
    ensures saveFailed <==> c.status == Accepted && !writable
    ensures cm.file == if c.status == Accepted && writable then ConfigStore.Parsed(c.config) else old(cm.file)
  {
    var key := ModeName(m);
    var stamped := StampNames(records, NameOf(config));
    var cfg := Put(config, key, Records(stamped));
    var lines := new OrderController.LineList(stamped);
    var status, rest := OrderController.EditPickLines(screen, key, lines, inp);
    saveFailed := false;
    match status {
      case Accepted =>
        cfg := Put(cfg, key, Records(lines.items));
        saveFailed := cm.Save(cfg, writable);
        c := Creation(Accepted, cfg, Some(XmlGenerator.OrderData(key, XmlGenerator.Many(stamped), Some(lines.items))), rest);
      case Declined =>
        c := Creation(NotAccepted, cfg, None, rest);
      case EditorWaiting =>
        c := Creation(CreationWaiting, cfg, None, rest);
      case EditorCrashed =>
        c := Creation(CreationCrashed, config, None, rest);
    }
  }

  /** `CreationRun` for a single mode, by the form's outcome. */
  lemma {:induction false} SingleCreation(config: Config, m: Mode, record: Dict<string>, inp: Input)
    requires !IsPickMode(m) && Get(config, ModeName(m)) == Some(Record(record))
    ensures var key := ModeName(m);
      var run := Form.EditFormRun(FieldOrder(m), false, OrderController.NO_LOOKUP, Put(record, "name", NameOf(config)), inp);
      CreationRun(config, m, inp) == Creation(
        if run.status == Form.Saved then Accepted else if run.status == Form.Waiting then CreationWaiting else NotAccepted,
        Put(config, key, Record(run.values)),
        if run.status == Form.Saved then Some(XmlGenerator.OrderData(key, XmlGenerator.One(run.values), None)) else None,
        run.rest)
  {
    var key := ModeName(m);
    var run := Form.EditFormRun(FieldOrder(m), false, OrderController.NO_LOOKUP, Put(record, "name", NameOf(config)), inp);
    var cfg := Put(config, key, Record(run.values));
    var c := CreationRun(config, m, inp);
    match run.status
    case Saved =>
      assert c == Creation(Accepted, cfg, Some(XmlGenerator.OrderData(key, XmlGenerator.One(run.values), None)), run.rest);
    case Waiting =>
      assert c == Creation(CreationWaiting, cfg, None, run.rest);
    case Cancelled =>
      assert c == Creation(NotAccepted, cfg, None, run.rest);
    case NoFields =>
      assert c == Creation(NotAccepted, cfg, None, run.rest);
  }

  /** The single-record branch of `_handle_order_creation`: the record is edited in place by the form. */
  method CreateSingleOrder(screen: Screen, config: Config, m: Mode, record: Dict<string>, inp: Input,
                           cm: ConfigStore.ConfigManager, writable: bool)
    returns (c: Creation, saveFailed: bool)
    requires !IsPickMode(m) && Get(config, ModeName(m)) == Some(Record(record))
    modifies cm
    ensures c == CreationRun(config, m, inp)
    ensures saveFailed <==> c.status == Accepted && !writable
    ensures cm.file == if c.status == Accepted && writable then ConfigStore.Parsed(c.config) else old(cm.file)
  {
    var key := ModeName(m);
    SingleCreation(config, m, record, inp);
    var rec := new Form.Record(Put(record, "name", NameOf(config)));
    var result, status, rest := Form.EditForm(screen, rec, FieldOrder(m), false, OrderController.NO_LOOKUP, inp);
    var cfg := Put(config, key, Record(rec.entries));
    saveFailed := false;
    if result != None {
      saveFailed := cm.Save(cfg, writable);
      c := Creation(Accepted, cfg, Some(XmlGenerator.OrderData(key, XmlGenerator.One(rec.entries), None)), rest);
    } else if status == Form.Waiting {
      c := Creation(CreationWaiting, cfg, None, rest);
    } else {
      c := Creation(NotAccepted, cfg, None, rest);
    }
  }

  /**
    `_handle_order_creation` up to the generator: the configuration file is
    written only when the editor accepted (a ConfigurationError when it
    cannot be written ends the program, `saveFailed`).
   */
  method HandleOrderCreation(screen: Screen, config: Config, m: Mode, inp: Input, cm: ConfigStore.ConfigManager, writable: bool)
    returns (c: Creation, saveFailed: bool)
    modifies cm
    ensures c == CreationRun(config, m, inp)
    ensures saveFailed <==> c.status == Accepted && !writable
    ensures cm.file == if c.status == Accepted && writable then ConfigStore.Parsed(c.config) else old(cm.file)
  {
    var entry := Get(config, ModeName(m));
    if entry.None? {
      return Creation(CreationCrashed, config, None, inp), false;
    }
    var v := entry.value;
    if IsPickMode(m) {
      if !v.Records? {
        return Creation(CreationCrashed, config, None, inp), false;
      }
      c, saveFailed := CreatePickOrder(screen, config, m, v.records, inp, cm, writable);
    } else {
      if !v.Record? {
        return Creation(CreationCrashed, config, None, inp), false;
      }
      c, saveFailed := CreateSingleOrder(screen, config, m, v.record, inp, cm, writable);
    }
  }

  // Sending: `_confirm_and_send_order` and `_send_order`

  /** `config.get("server_type", "Live")`. */
  function ServerTypeOf(config: Config): string {
    match Get(config, "server_type")
    case Some(v) => ConfigStore.TextOf(v)
    case None => LIVE
  }

  /**
    What `_send_order` comes to: no OSR id configured, the sender raised,
    or the order went out (or would have, in a dry run) with the status the
    history records and whether the sandbox commands are offered next.
   */
  datatype Delivery = NoOsr | SendFailed(error: OrderSender.SendError) | Delivered(status: string, postOrder: bool)

  function DeliveryFor(xml: string, config: Config, envOsrId: Option<string>, dryRun: bool, orb: OrderSender.Orb): (d: Delivery)
    ensures d == NoOsr <==> ConfigStore.ResolveOsr(config, envOsrId) == ""
    ensures d.SendFailed? ==> OrderSender.Send(xml, dryRun, orb) == Some(d.error)
    ensures d.Delivered? ==> d.status == (if dryRun then "dry_run" else "sent")
    ensures d.Delivered? ==> (d.postOrder <==> ServerTypeOf(config) == TEST)
  {
    if ConfigStore.ResolveOsr(config, envOsrId) == "" then NoOsr
    else match OrderSender.Send(xml, dryRun, orb)
      case Some(e) => SendFailed(e)
      case None => Delivered(if dryRun then "dry_run" else "sent", ServerTypeOf(config) == TEST)
  }

  /**
    An order is recorded exactly when an OSR id is configured, the payload
    is not blank and it is a dry run or the ORB delivers; the sandbox step
    follows only such a delivery, on a Test server.
   */
  lemma {:induction false} DeliveredIff(xml: string, config: Config, envOsrId: Option<string>, dryRun: bool, orb: OrderSender.Orb)
    ensures DeliveryFor(xml, config, envOsrId, dryRun, orb).Delivered? <==>
      ConfigStore.ResolveOsr(config, envOsrId) != "" && !AllSpace(xml) && (dryRun || orb.Delivers?)
    ensures (DeliveryFor(xml, config, envOsrId, dryRun, orb).Delivered? && DeliveryFor(xml, config, envOsrId, dryRun, orb).postOrder) <==>
      ConfigStore.ResolveOsr(config, envOsrId) != "" && !AllSpace(xml) && (dryRun || orb.Delivers?) && ServerTypeOf(config) == TEST
  {
    OrderSender.SendSucceedsIff(xml, dryRun, orb);
  }

  /** The history entry a delivery adds: the payload's order id and type, the OSR id, the status and the time. */
  function DeliveryRecord(xml: string, config: Config, envOsrId: Option<string>, status: string, now: string): History.Order {
    History.NewRecord(OrderSender.ExtractOrderId(xml), OrderSender.GetOrderType(xml), ConfigStore.ResolveOsr(config, envOsrId), status, now)
  }

  /** `_send_order`: the history changes only after a delivery. */
  method SendOrder(xml: string, config: Config, envOsrId: Option<string>, dryRun: bool, orb: OrderSender.Orb,
                   store: History.HistoryStore, now: string, writable: bool)
    returns (d: Delivery)
    modifies store
    ensures d == DeliveryFor(xml, config, envOsrId, dryRun, orb)
    ensures store.file == if d.Delivered? && writable
      then History.Stored(History.Added(old(store.Orders()), DeliveryRecord(xml, config, envOsrId, d.status, now)))
      else old(store.file)
  {
    var osrid := ConfigStore.ResolveOsr(config, envOsrId);
    if osrid == "" {
      return NoOsr;
    }
    var error := OrderSender.Send(xml, dryRun, orb);
    if error.Some? {
      return SendFailed(error.value);
    }
    var orderId := OrderSender.ExtractOrderId(xml);
    var orderType := OrderSender.GetOrderType(xml);
    var status := if dryRun then "dry_run" else "sent";
    store.AddOrder(orderId, orderType, osrid, status, now, writable);
    d := Delivered(status, ServerTypeOf(config) == TEST);
  }

  /** How the confirmation step ends. */
  datatype Review = PayloadEmpty | NotConfirmed(rest: seq<Key>) | Confirmed(rest: seq<Key>) | ReviewWaiting

  /** `_confirm_and_send_order` before sending: a blank payload is refused, otherwise the key loop decides. */
  function ReviewRun(xml: string, keys: seq<Key>): (r: Review)
    ensures AllSpace(xml) <==> r == PayloadEmpty
    ensures !AllSpace(xml) && ConfirmRun(keys) == Undecided ==> r == ReviewWaiting
    ensures !AllSpace(xml) && ConfirmRun(keys).Decided? ==>
      r == if ConfirmRun(keys).send then Confirmed(ConfirmRun(keys).rest) else NotConfirmed(ConfirmRun(keys).rest)
  {
    if AllSpace(xml) then PayloadEmpty
    else match ConfirmRun(keys)
      case Undecided => ReviewWaiting
      case Decided(send, rest) => if send then Confirmed(rest) else NotConfirmed(rest)
  }

  /** Only a payload that is not blank and a first decisive key `y`/`Y` lead to sending. */
  lemma {:induction false} ConfirmedIff(xml: string, keys: seq<Key>)
    ensures ReviewRun(xml, keys).Confirmed? <==>
      !AllSpace(xml) && FirstDecisive(keys).Some? && IsYesKey(keys[FirstDecisive(keys).value])
  {
    ConfirmAnswersFirstDecisive(keys);
  }

  /**
    `_confirm_and_send_order`: the payload is shown (with the fallback
    indenter), and sent only once confirmed.
   */
  method ConfirmAndSendOrder(xml: string, keys: seq<Key>, config: Config, envOsrId: Option<string>, dryRun: bool,
                             orb: OrderSender.Orb, store: History.HistoryStore, now: string, writable: bool)
    returns (review: Review, delivery: Option<Delivery>)
    modifies store
    ensures review == ReviewRun(xml, keys)
    ensures delivery.Some? <==> review.Confirmed?
    ensures delivery.Some? ==> delivery.value == DeliveryFor(xml, config, envOsrId, dryRun, orb)
    ensures store.file == if delivery.Some? && delivery.value.Delivered? && writable
      then History.Stored(History.Added(old(store.Orders()), DeliveryRecord(xml, config, envOsrId, delivery.value.status, now)))
      else old(store.file)
  {
    if AllSpace(xml) {
      return PayloadEmpty, None;
    }
    var shown := BasicXmlFormatting(xml);
    var d := ConfirmLoop(keys);
    if d.Undecided? {
      return ReviewWaiting, None;
    }
    if !d.send {
      return NotConfirmed(d.rest), None;
    }
    review := Confirmed(d.rest);
    var out := SendOrder(xml, config, envOsrId, dryRun, orb, store, now, writable);
    delivery := Some(out);
  }

  // The whole of `_handle_order_creation`

  /** The collaborators of sending: the `OSR_ID` variable, `--dry-run`, the ORB, the clock and whether history can be written. */
  datatype SendContext = SendContext(envOsrId: Option<string>, dryRun: bool, orb: OrderSender.Orb, now: string, historyWritable: bool)

  /**
    Where an order creation ends: in the editor, in a failed save, in a
    generator exception (the caller does not catch it), or after review.
   */
  datatype Flow =
    | Edited(status: CreationStatus)
    | SaveCrash
    | GenerationCrash(error: XmlGenerator.GenError)
    | Reviewed(review: Review, delivery: Option<Delivery>)

  /** What the generator makes of the order the editor accepted; `None` when it did not accept. */
  function GeneratedFor(config: Config, m: Mode, inp: Input): (g: Option<XmlGenerator.Generated>)
    ensures g.Some? <==> CreationRun(config, m, inp).status == Accepted
  {
    var c := CreationRun(config, m, inp);
    if c.order.Some? then Some(XmlGenerator.Generate(c.order.value, c.config)) else None
  }

  /**
    `_handle_order_creation` for mode `m`: edit, save on acceptance,
    generate, confirm, send. The configuration file changes only when the
    editor accepted, the history only after a delivery, and the
    configuration in memory only in the mode's own entry.
   */
  method CreateOrder(screen: Screen, config: Config, m: Mode, inp: Input, cm: ConfigStore.ConfigManager, configWritable: bool,
                     store: History.HistoryStore, ctx: SendContext)
    returns (flow: Flow, updated: Config)
    modifies cm, store
    ensures flow.Edited? <==> CreationRun(config, m, inp).status != Accepted
    ensures flow.Edited? ==> flow.status == CreationRun(config, m, inp).status
    ensures cm.file != old(cm.file) ==> CreationRun(config, m, inp).status == Accepted && configWritable
    ensures store.file != old(store.file) ==> flow.Reviewed? && flow.delivery.Some? && flow.delivery.value.Delivered?
    ensures forall k :: k != ModeName(m) ==> Get(updated, k) == Get(config, k)
    ensures cm.file == if CreationRun(config, m, inp).status == Accepted && configWritable
      then ConfigStore.Parsed(CreationRun(config, m, inp).config) else old(cm.file)
    ensures flow == SaveCrash <==> CreationRun(config, m, inp).status == Accepted && !configWritable
    ensures flow.GenerationCrash? <==>
      CreationRun(config, m, inp).status == Accepted && configWritable && GeneratedFor(config, m, inp).value.xml.Err?
    ensures flow.GenerationCrash? ==> flow.error == GeneratedFor(config, m, inp).value.xml.error
    ensures flow.Reviewed? <==>
      CreationRun(config, m, inp).status == Accepted && configWritable && GeneratedFor(config, m, inp).value.xml.Ok?
    ensures flow.Reviewed? ==>
      var xml := GeneratedFor(config, m, inp).value.xml.value;
      && flow.review == ReviewRun(xml, CreationRun(config, m, inp).rest.keys)
      && (flow.delivery.Some? <==> flow.review.Confirmed?)
      && (flow.delivery.Some? ==> flow.delivery.value == DeliveryFor(xml, updated, ctx.envOsrId, ctx.dryRun, ctx.orb))
    ensures store.file == if flow.Reviewed? && flow.delivery.Some? && flow.delivery.value.Delivered? && ctx.historyWritable
      then History.Stored(History.Added(old(store.Orders()), DeliveryRecord(GeneratedFor(config, m, inp).value.xml.value,
        updated, ctx.envOsrId, flow.delivery.value.status, ctx.now)))
      else old(store.file)
    ensures updated == if CreationRun(config, m, inp).status == Accepted && configWritable && !IsPickMode(m)
        && GeneratedFor(config, m, inp).value.values.One?
      then Put(CreationRun(config, m, inp).config, ModeName(m), Record(GeneratedFor(config, m, inp).value.values.record))
      else CreationRun(config, m, inp).config
  {
    var c, saveFailed := HandleOrderCreation(screen, config, m, inp, cm, configWritable);
    updated := c.config;
    forall k | k != ModeName(m)
      ensures Get(updated, k) == Get(config, k)
    {
      CreationKeepsOtherEntries(config, m, inp, k);
    }
    if c.status != Accepted {
      return Edited(c.status), updated;
    }
    if saveFailed {
      return SaveCrash, updated;
    }
    var g := XmlGenerator.GenerateOrder(c.order.value, c.config);
    if !IsPickMode(m) && g.values.One? {
      updated := Put(updated, ModeName(m), Record(g.values.record));
    }
    if g.xml.Err? {
      return GenerationCrash(g.xml.error), updated;
    }
    var review, delivery := ConfirmAndSendOrder(g.xml.value, c.rest.keys, updated, ctx.envOsrId, ctx.dryRun, ctx.orb,
                                                store, ctx.now, ctx.historyWritable);
    flow := Reviewed(review, delivery);
  }
}
