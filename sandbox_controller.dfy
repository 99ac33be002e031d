/**
  The Test-server sandbox screens of controllers/sandbox_controller.py:
  after an order is sent, or from an order in the history, the user picks
  whether to see the insertion command (copied to the clipboard) or both
  commands, and names the workflow element.
 */
module SandboxController {
  import opened Wrappers
  import opened PyText
  import opened PyDict
  import Menu
  import Dialog
  import SandboxCommands

  /** A message box: its text, its title and its `display_dialog` type. */
  datatype Notice = Notice(text: string, title: string, kind: string)

  /** What a sandbox screen ends with. */
  datatype SandboxEnd =
    | NoOsrError           // the order has no OSR id: an error box, no commands
    | Skipped              // left at the menu, before the element prompt
    | Shown(box: Option<Notice>)  // the element was asked for; the box shown, if any

  /**
    `_get_custom_element`: the stripped answer, or the default element for
    no answer or a blank one. The prompt reads strings, so it never
    answers with a number.
   */
  function CustomElement(a: Dialog.Answer): (r: string)
    requires !a.Num?
    ensures r != []
    ensures a.NoValue? || Strip(a.s) == [] ==> r == SandboxCommands.DEFAULT_ELEMENT
    ensures a.Str? && Strip(a.s) != [] ==> r == Strip(a.s)
  {
    match a
    case NoValue => SandboxCommands.DEFAULT_ELEMENT
    case Str(s) => if s == [] || Strip(s) == [] then SandboxCommands.DEFAULT_ELEMENT else Strip(s)
  }

  /** The element is always stripped: stripping it again changes nothing. */
  lemma {:induction false} CustomElementTrimmed(a: Dialog.Answer)
    requires !a.Num?
    ensures Strip(CustomElement(a)) == CustomElement(a)
  {
    if a.NoValue? || Strip(a.s) == [] {
      SandboxCommands.DefaultElementTrimmed();
    } else {
      StripIdempotent(a.s);
    }
  }

  /**
    `_show_and_copy_command`: nothing for an empty command; otherwise a box
    holding the command, an information box when the clipboard took it and
    a warning to copy it by hand when it did not. `copied` is what
    `copy_to_clipboard` reports.
   */
  function ShowAndCopy(command: string, copied: bool): (r: Option<Notice>)
    ensures r.None? <==> command == []
    ensures r.Some? ==> Contains(r.value.text, command)
    ensures r.Some? ==> (r.value.kind == "info" <==> copied) && (r.value.kind == "warning" <==> !copied)
  {
    if command == [] then None
    else
      var head := if copied then "Command copied to clipboard:\n\n" else "Clipboard copy failed. Command:\n\n";
      var tail := if copied then "\n\nPaste and run in sandbox shell." else "\n\nCopy manually.";
      ContainsInside(head, command, tail, command);
      if copied then Some(Notice(head + command + tail, "Command Ready", "info"))
      else Some(Notice(head + command + tail, "Manual Copy Required", "warning"))
  }

  /** The usage lines that follow the two commands in `_show_all_commands`. */
  const USAGE_LINES: seq<string> := ["", "=== USAGE ===", "1. Run insertion command", "2. Use remove for cleanup", "",
    "Manually copy the command you want to use."]

  /** The lines of `_show_all_commands`, a missing command shown as `N/A`. */
  function AllCommandLines(commands: Dict<string>): (r: seq<string>)
    ensures |r| == 3 + |USAGE_LINES|
    ensures r[1] == "Insert: " + GetOr(commands, "insert_now", "N/A")
    ensures r[2] == "Remove: " + GetOr(commands, "remove_later", "N/A")
  {
    var insert := "Insert: " + GetOr(commands, "insert_now", "N/A");
    var remove := "Remove: " + GetOr(commands, "remove_later", "N/A");
    var r := ["=== INSERTION COMMANDS ===", insert, remove] + USAGE_LINES;
    assert r[1] == insert && r[2] == remove;
    r
  }

  /** `_show_all_commands`: one information box with both commands and nothing copied. */
  function ShowAll(commands: Dict<string>): Notice {
    Notice(Join("\n", AllCommandLines(commands)), "All Sandbox Commands", "info")
  }

  /** The branch after the element prompt: `0` shows and copies the insertion command, `1` shows both. */
  function Dispatch(r: Menu.MenuResult, commands: Dict<string>, copied: bool): Option<Notice> {
    if r == Menu.Index(0) then ShowAndCopy(GetOr(commands, "insert_now", ""), copied)
    else if r == Menu.Index(1) then Some(ShowAll(commands))
    else None
  }

  /** `selected_idx is None or selected_idx == 2`: leave before asking for the element. */
  predicate LeavesAtMenu(r: Menu.MenuResult) {
    r.NoneResult? || r == Menu.Index(2)
  }

  /**
    `handle_post_order` for the menu result `r` and the element prompt's
    answer; `tagMatches` stands for the element patterns of the carrier
    search. The `not element` guard never fires, as the element is never
    empty.
   */
  function PostOrder(xml: string, osrid: string, tagMatches: seq<Option<string>>, r: Menu.MenuResult, a: Dialog.Answer, copied: bool): (e: SandboxEnd)
    requires !a.Num?
    ensures e.Skipped? <==> LeavesAtMenu(r)
    ensures !e.NoOsrError?
    ensures r == Menu.Index(0) ==> e == Shown(ShowAndCopy(
      SandboxCommands.InsertCommand(osrid, CustomElement(a), SandboxCommands.CarrierFor(xml, tagMatches)), copied))
    ensures r == Menu.Index(1) ==> e == Shown(Some(ShowAll(SandboxCommands.InsertionCommands(osrid, xml, tagMatches, Some(CustomElement(a))))))
    ensures !LeavesAtMenu(r) && r != Menu.Index(0) && r != Menu.Index(1) ==> e == Shown(None)
  {
    if LeavesAtMenu(r) then Skipped
    else
      var element := CustomElement(a);
      if element == [] then Shown(None)
      else
        var commands := SandboxCommands.InsertionCommands(osrid, xml, tagMatches, Some(element));
        Shown(Dispatch(r, commands, copied))
  }

  /** The history screen's carrier: the one found in the stored payload, else `carrier_<order_id>`. */
  function HistoryCarrier(xml: string, tagMatches: seq<Option<string>>, orderId: string): (c: string)
    ensures c != []
    ensures SandboxCommands.ExtractCarrier(xml, tagMatches).Some? ==> c == SandboxCommands.ExtractCarrier(xml, tagMatches).value
    ensures SandboxCommands.ExtractCarrier(xml, tagMatches).None? ==> c == "carrier_" + orderId
  {
    match SandboxCommands.ExtractCarrier(xml, tagMatches)
    case Some(c) => c
    case None => "carrier_" + orderId
  }

  /** The two commands of the history screen, on the same element and carrier. */
  function HistoryCommands(osrid: string, element: string, carrier: string): (r: Dict<string>)
    ensures Keys(r) == ["insert_now", "remove_later"]
    ensures Get(r, "insert_now") == Some(SandboxCommands.InsertCommand(osrid, element, carrier))
    ensures Get(r, "remove_later") == Some(SandboxCommands.RemoveCommand(osrid, element, carrier))
  {
    Lookup2("insert_now", "remove_later", SandboxCommands.InsertCommand(osrid, element, carrier),
      SandboxCommands.RemoveCommand(osrid, element, carrier));
    [("insert_now", SandboxCommands.InsertCommand(osrid, element, carrier)),
     ("remove_later", SandboxCommands.RemoveCommand(osrid, element, carrier))]
  }

  /**
    `handle_order_history` for a history record: no OSR id in the record
    is an error before any menu; otherwise as after sending, with the
    carrier taken from the record's stored payload.
   */
  function OrderHistory(order: Dict<string>, tagMatches: seq<Option<string>>, r: Menu.MenuResult, a: Dialog.Answer, copied: bool): (e: SandboxEnd)
    requires !a.Num?
    ensures e.NoOsrError? <==> GetOr(order, "osrid", "") == []
    ensures e.Skipped? <==> GetOr(order, "osrid", "") != [] && LeavesAtMenu(r)
  {
    var orderId := GetOr(order, "order_id", "Unknown");
    var osrid := GetOr(order, "osrid", "");
    if osrid == [] then NoOsrError
    else if LeavesAtMenu(r) then Skipped
    else
      var element := CustomElement(a);
      if element == [] then Shown(None)
      else
        var carrier := HistoryCarrier(GetOr(order, "xml_content", ""), tagMatches, orderId);
        Shown(Dispatch(r, HistoryCommands(osrid, element, carrier), copied))
  }

  /**
    Index `0` always shows a box, because an insertion command is never
    empty, and the box holds that command.
   */
  lemma {:induction false} InsertChoiceShowsCommand(xml: string, osrid: string, tagMatches: seq<Option<string>>, a: Dialog.Answer, copied: bool)
    requires !a.Num?
    ensures var cmd := SandboxCommands.InsertCommand(osrid, CustomElement(a), SandboxCommands.CarrierFor(xml, tagMatches));
      var e := PostOrder(xml, osrid, tagMatches, Menu.Index(0), a, copied);
      e.Shown? && e.box.Some? && Contains(e.box.value.text, cmd)
  {
    var cmd := SandboxCommands.InsertCommand(osrid, CustomElement(a), SandboxCommands.CarrierFor(xml, tagMatches));
    var e := PostOrder(xml, osrid, tagMatches, Menu.Index(0), a, copied);
    assert e == Shown(ShowAndCopy(cmd, copied));
    assert cmd != [] by {
      InsertCommandNonEmpty(osrid, CustomElement(a), SandboxCommands.CarrierFor(xml, tagMatches));
    }
  }

  lemma {:induction false} InsertCommandNonEmpty(osrid: string, element: string, carrier: string)
    ensures SandboxCommands.InsertCommand(osrid, element, carrier) != []
  {
    var p := SandboxCommands.SimPrefix(osrid);
    assert |p| >= 6;
    assert |SandboxCommands.InsertCommand(osrid, element, carrier)| >= |p|;
  }

  /**
    From the history, index `0` shows and copies the insertion command on
    the record's OSR id and the carrier of its stored payload.
   */
  lemma {:induction false} HistoryInsertChoice(order: Dict<string>, tagMatches: seq<Option<string>>, a: Dialog.Answer, copied: bool)
    requires !a.Num?
    requires GetOr(order, "osrid", "") != []
    ensures var cmd := SandboxCommands.InsertCommand(GetOr(order, "osrid", ""), CustomElement(a),
        HistoryCarrier(GetOr(order, "xml_content", ""), tagMatches, GetOr(order, "order_id", "Unknown")));
      var e := OrderHistory(order, tagMatches, Menu.Index(0), a, copied);
      e == Shown(ShowAndCopy(cmd, copied)) && e.box.Some? && Contains(e.box.value.text, cmd)
  {
    var osrid := GetOr(order, "osrid", "");
    var element := CustomElement(a);
    var carrier := HistoryCarrier(GetOr(order, "xml_content", ""), tagMatches, GetOr(order, "order_id", "Unknown"));
    var cmd := SandboxCommands.InsertCommand(osrid, element, carrier);
    var commands := HistoryCommands(osrid, element, carrier);
    assert OrderHistory(order, tagMatches, Menu.Index(0), a, copied) == Shown(Dispatch(Menu.Index(0), commands, copied));
    assert GetOr(commands, "insert_now", "") == cmd;
    InsertCommandNonEmpty(osrid, element, carrier);
    DispatchInsert(commands, copied);
  }

  /** Index `0` shows and copies whatever non-empty insertion command the set holds. */
  lemma DispatchInsert(commands: Dict<string>, copied: bool)
    requires GetOr(commands, "insert_now", "") != []
    ensures var e := Dispatch(Menu.Index(0), commands, copied);
      e == ShowAndCopy(GetOr(commands, "insert_now", ""), copied) && e.Some? && Contains(e.value.text, GetOr(commands, "insert_now", ""))
  {
  }

  /** Index `1` shows both commands of the order's insertion set. */
  lemma {:induction false} AllChoiceShowsBoth(xml: string, osrid: string, tagMatches: seq<Option<string>>, a: Dialog.Answer, copied: bool)
    requires !a.Num?
    ensures var element := CustomElement(a);
      var carrier := SandboxCommands.CarrierFor(xml, tagMatches);
      var lines := AllCommandLines(SandboxCommands.InsertionCommands(osrid, xml, tagMatches, Some(element)));
      && PostOrder(xml, osrid, tagMatches, Menu.Index(1), a, copied) == Shown(Some(Notice(Join("\n", lines), "All Sandbox Commands", "info")))
      && lines[1] == "Insert: " + SandboxCommands.InsertCommand(osrid, element, carrier)
      && lines[2] == "Remove: " + SandboxCommands.RemoveCommand(osrid, element, carrier)
  {
    var element := CustomElement(a);
    var carrier := SandboxCommands.CarrierFor(xml, tagMatches);
    var commands := SandboxCommands.InsertionCommands(osrid, xml, tagMatches, Some(element));
    assert PostOrder(xml, osrid, tagMatches, Menu.Index(1), a, copied) == Shown(Some(ShowAll(commands)));
    assert SandboxCommands.ElementOr(Some(element)) == element;
    LinesOf(commands, SandboxCommands.InsertCommand(osrid, element, carrier), SandboxCommands.RemoveCommand(osrid, element, carrier));
  }

  /** The listing shows the two commands the set holds. */
  lemma {:induction false} LinesOf(commands: Dict<string>, insert: string, remove: string)
    requires Get(commands, "insert_now") == Some(insert) && Get(commands, "remove_later") == Some(remove)
    ensures AllCommandLines(commands)[1] == "Insert: " + insert && AllCommandLines(commands)[2] == "Remove: " + remove
  {
    assert GetOr(commands, "insert_now", "N/A") == insert;
    assert GetOr(commands, "remove_later", "N/A") == remove;
  }
}
