# OSR Order GUI, modelled in Dafny

The OSR Order GUI is a curses console for warehouse operators. An
operator builds orders for an OSR (automated storage and retrieval)
system and sends them to the warehouse controller. The orders come in five
modes: standard and manual picks, inventory, goods-in and goods-add. A
transport mode builds a slot manifest. Each order is printed into an
XML template from `config/defaults.py` and handed to the sender, which
passes it to the OSR's service port over CORBA. Every sent order is kept in
`orders_history.json`. From that history the operator can browse orders,
cancel active ones through `send_cancel`, and, on a Test server, get the
sandbox `sim` commands that insert or remove the order's carrier.

This project models that core as Dafny functions, methods and classes and
proves what each part promises. There is one module per source file:

| module | source |
|---|---|
| `UiUtils`, `Menu`, `Dialog`, `Form` | `ui/utils.py`, `ui/menu.py`, `ui/dialog.py`, `ui/form.py` |
| `Defaults`, `Patterns` | `config/defaults.py` (templates, default values, tag patterns) |
| `ConfigStore` | `models/config.py` |
| `History` | `models/history.py` |
| `XmlGenerator` | `models/xml_generator.py` |
| `OrderSender` | `models/order_sender.py` |
| `SandboxCommands` | `models/sandbox_commands.py` |
| `OrderController`, `MainController`, `HistoryController`, `SandboxController`, `ConfigController` | the five files under `controllers/` |
| `CliTools` | `cleanup_history` and `clean_files` of `utils/cli_tools.py` |
| `Wrappers`, `PyText`, `PyDict`, `Terminal` | Python built-ins the core relies on: `Option`/`Result`, `str` methods and `int()`, insertion-ordered `dict`, and the terminal's input |

## How the terminal is modelled

A screen is its size, `Screen(height, width)`. Terminal input is two
streams, `Input(keys, texts)`:

- `keys` are the integer codes `getch` returns, in the curses numbering: Enter is 10, 13 or 343, Up is 259, Down is 258 and Escape is 27.
- `texts` are the lines `getstr` returns. Each is typed text, or `Interrupted` for a Ctrl+C.

Every interactive operation takes the input and returns what is left of
it. `Consumed(inp, rest)` says that `rest` is a suffix of both streams.
An operation whose input runs out before it finishes ends in a
"waiting" result, so the blocking read is not hidden.

Python dicts are modelled as insertion-ordered association lists, because
the forms and the XML depend on key order. The operations that change
objects in place are methods on classes:

- `History.HistoryStore` holds the history file.
- `ConfigStore.ConfigManager` holds the configuration file.
- `Form.Record` holds the `values` dict that `edit_form` fills in.
- `OrderController.LineList` holds the order lines that `edit_pick_lines` edits.

The loops of the source are `while` loops with invariants, each proved
against a function that specifies it.

## Behaviour kept as written

Each of the following is what the code does. The model keeps it and a
lemma states it:

- The menu's refresh and back results are -2 and -3. The main menu uses them as list indexes, so through Python's negative indexing they open entries counted from the end: "Configure OSR ID" and "Cancel Orders" (`MainController.MainMenuChoice`).
- The history view treats -1 as closing, but the menu never returns -1. `q` returns `None`, and `None >= len(...)` raises (`HistoryController.HistoryOnlyQuitCrashes`).
- Opening an order's details passes `allow_empty_selection`, which `display_menu` does not accept, so it crashes (`HistoryController.ViewDecidedByFirstNonReload`).
- In the cancel menu, -2 and -3 crash with a TypeError (`HistoryController.CancelMenuOutcomes`).
- The digit `0` never selects an option (`Menu.StepKeyBehaviour`).
- Enter in the line editor edits the highlighted line and never finishes the editor (`OrderController.EnterNeverFinishes`).
- A pick order's XML is built from the records as they were before the lines were edited, so edits to lines are stored but not sent (`MainController.PickPayloadIsStale`).
- The container-type lookup calls a database method that `models/database.py` does not define. The call always raises and the error is caught, so the lookup never changes the form (`Form.Lookup`, `Form.CONTAINER_QUERY`).
- The form's database lookup reads the OSR ID from the configuration key `osrid`, while the OSR ID dialog stores it as `osr_id` (`Form.Lookup`).
- `cleanup_history` expects `{"orders": [...]}`, but the history file is a bare list, so clean-up always fails on it (`CliTools.StoredHistoryNeverCleans`).
- A transport order's XML contains the inventory tag that `get_order_type` tests first, so it is classified as an inventory order (`OrderSender.TransportClassifiedAsInventory`).
- `truncate_text` with a width smaller than its suffix returns text longer than the width (`UiUtils.TruncateCanExceedWidth`).

## Model

| member | source | states |
|---|---|---|
| UiUtils.GetScreenSize | ui/utils.py:41-47 | the size is at least 10 rows by 40 columns; each dimension is the reported one unless that is below the floor; a failed query gives 24 x 80 |
| UiUtils.CenterString | ui/utils.py:50-55 | the result has exactly `width` characters; a text that does not fit is cut to its first `width` characters; otherwise it sits between two runs of spaces, the right one equal to the left or one longer |
| UiUtils.TruncateText | ui/utils.py:58-62 | a text that fits comes back unchanged; otherwise the result ends with the suffix, keeps a prefix of the text, and is exactly `max_width` long when the width is at least the suffix |
| UiUtils.TruncateCanExceedWidth | ui/utils.py:58-62 | with a width smaller than the suffix the "truncated" text is longer than the width (Python's negative slice keeps all but the last characters) |
| UiUtils.TitleColumn | ui/utils.py:103-106 | a title is drawn exactly when it is non-empty and `" title "` is narrower than `width - 2`; it is centred and stays inside the box's border |
| Menu.Toggle | ui/menu.py:122-127 | toggling a row flips whether that row is selected and leaves every other row as it was |
| Menu.StepKey | ui/menu.py:117-148 | one key keeps the highlighted row and the selection within range, and any result it returns is one the caller can receive |
| Menu.StepKeyBehaviour | ui/menu.py:117-148 | branch by branch: arrows and `j`/`k` move the row only within bounds; Space toggles in multi mode and does nothing otherwise; Enter returns the selection or the row; `1`-`9` pick or toggle an option that exists and ignore others; `0` does nothing; `r`/`R` always returns -2, `b`/`B` always -3; `q`/`Q` returns the selection or `None`, and `None` comes only from `q` in single mode |
| Menu.RunIsValid | ui/menu.py:31-148 | a finished run returns a valid result having read at least one key from the front; a run that waits for more keys keeps the state in range |
| Menu.NavigationNeverReturns | ui/menu.py:117-148 | keys that only navigate, Space in single mode, or `0` never end a single-choice menu |
| Menu.Longest | ui/menu.py:38 | the longest label: no option is longer, some option is that long, and 0 when there are none |
| Menu.MenuBox | ui/menu.py:34-42 | there is no box (the `max()` of an empty list raises) exactly when there are no options; width and height follow the source's formulas; on a usable screen the box sits at least two cells inside the screen and is at least 6 rows high |
| Menu.VisibleRows | ui/menu.py:48-52 | the drawn option rows are all options or as many as fit above the last three lines of the box, never more than there are options |
| Menu.DisplayMenu | ui/menu.py:18-148 | the loop returns no run exactly when there are no options; otherwise its run equals the key-by-key specification `Menu.Run`, and a chosen result is valid |
| Dialog.StyleOf | ui/dialog.py:34-40 | the four message types each get their own style, and anything outside error, success and warning is styled as info |
| Dialog.MessageBox | ui/dialog.py:25-28 | the box width and height follow the source's formula; on screens of usable size the box is at least 7 rows and fits with a 5-column margin |
| Dialog.DisplayDialog | ui/dialog.py:74-75 | the dialog waits exactly when no key is left, and otherwise consumes exactly one key |
| Dialog.PromptWidth | ui/dialog.py:85 | the input box is no wider than `width - 10`, at least 60 on a 70-column screen, and takes one of the three values the formula mentions |
| Dialog.PromptDecision | ui/dialog.py:131-149 | Ctrl+C gives `None`; a blank line gives `""` when empty is allowed and `None` otherwise; a `str` line gives the stripped line; an `int` line gives its number or `None` when `int()` fails; a string result only comes for `str` or empty, an empty one only when allowed, a number only for `int` |
| Dialog.PromptInput | ui/dialog.py:78-149 | it waits exactly when no line is left; otherwise it consumes exactly one line and answers as `PromptDecision` says |
| Dialog.ProcessKeysUnfold | ui/dialog.py:215-243 | one pass of the retry loop: an empty or non-numeric line that is not accepted costs one key and asks again; otherwise the first line decides the answer |
| Dialog.ProcessKeysConsumes | ui/dialog.py:225-243 | `process_keys` reads only from the front of its input and, when it returns, has read at least one line |
| Dialog.ProcessKeysValue | ui/dialog.py:225-243 | a string answer only for `str` (an empty one only when empty is allowed), a number only for `int`, and `None` only after some Ctrl+C in the lines read |
| Dialog.EmptyInputReprompts | ui/dialog.py:225-229 | a blank line when empty is not allowed costs one key and asks again |
| Dialog.EmptyInputGivesDefault | ui/dialog.py:231-232 | a blank line when empty is allowed returns the default value of the input type (`""` or `0`) |
| Dialog.BadNumberReprompts | ui/dialog.py:234-243 | a line `int()` rejects costs one key and asks again instead of returning |
| Dialog.ProcessKeys | ui/dialog.py:152-243 | the loop's answer equals the specification `ProcessKeysRun`, and an empty answer only comes when empty is allowed |
| Defaults.ModeOf | config/defaults.py:123-177 | a mode name is recognised exactly when it is the name of one of the six modes that have a template, and then names that mode |
| Defaults.FormatFailsIffMissing | models/xml_generator.py:55-63 | `str.format(**values)` succeeds exactly when every placeholder has a value; otherwise it raises KeyError naming the first placeholder without one |
| Defaults.FillableIffHoles | models/xml_generator.py:55-63 | a template can be filled exactly when every one of its placeholder names has a value |
| Defaults.FormatAppend | models/xml_generator.py:55 | formatting two templates one after the other is formatting their concatenation |
| Defaults.FormatContainsLit | models/xml_generator.py:55-63 | a formatted template contains each of its literal pieces |
| Defaults.FormatContainsValue | models/xml_generator.py:55-63 | a formatted template contains the value of each of its placeholders |
| Defaults.FormatReadsOnlyHoles | models/xml_generator.py:55-63 | formatting reads only the values of the template's own placeholders |
| Defaults.LineTemplate | config/defaults.py:180-199 | exactly the two pick modes and Transport have a line template |
| Defaults.DefaultKeys | config/defaults.py:9-65 | the keys of each mode's default record, in the source's order |
| Defaults.FieldOrderMatchesDefaults | config/defaults.py:9-120 | each mode's field order lists exactly the keys of its default record and `name` |
| Defaults.LineHolesAreDefaultKeys | config/defaults.py:180-199 | every line placeholder has a value in the mode's default record, so default lines always format |
| Defaults.PickStandardLayout | config/defaults.py:124-130 | the Pick Standard header's `order_number` is `{name}-pick-{Order Number}`, and it shows its `processing_mode` |
| Defaults.PickStandardHoles | config/defaults.py:124-130 | every placeholder of the Pick Standard header is a default key, `name` or a generator key |
| Defaults.PickManualLayout | config/defaults.py:131-137 | the Pick Manual header's `order_number` is `{name}-pick-manual-{Order Number}`, with `processing_mode="manual"` |
| Defaults.PickManualHoles | config/defaults.py:131-137 | every placeholder of the Pick Manual header is known |
| Defaults.InventoryLayout | config/defaults.py:138-144 | the Inventory header's order-number layout and processing mode |
| Defaults.InventoryHoles | config/defaults.py:138-144 | every placeholder of the Inventory header is known |
| Defaults.GoodsInLayout | config/defaults.py:145-155 | the Goods In header's order-number layout and processing mode |
| Defaults.GoodsInHoles | config/defaults.py:145-155 | every placeholder of the Goods In header is known |
| Defaults.GoodsAddLayout | config/defaults.py:156-166 | the Goods Add header's order-number layout and `processing_mode="renewal"` |
| Defaults.GoodsAddHoles | config/defaults.py:156-166 | every placeholder of the Goods Add header is known |
| Defaults.TransportLayout | config/defaults.py:167-176 | the Transport header's order-number layout and processing mode |
| Defaults.TransportHoles | config/defaults.py:167-176 | every placeholder of the Transport header is known |
| Defaults.TransportNamesKnown | config/defaults.py:167-176 | every Transport placeholder name is a default key, `name` or a generator key |
| Defaults.HeaderFacts | config/defaults.py:123-177 | for every mode: known placeholders, the order-number layout and a shown processing mode |
| Defaults.OrderNumberQuotedAll | config/defaults.py:123-177 | every header opens with a newline, the `<host2osr>` line and the mode's tag, and the piece after the order number closes the attribute with a quote |
| Defaults.ModesTellApart | config/defaults.py:123-177 | different modes have different order-number prefixes, and only Goods Add is a renewal |
| Defaults.TransportNotOffered | config/constants.py:27-33 | the main menu offers every mode except the added transport mode |
| Defaults.ModeEntry | config/defaults.py:9-65 | the modes with lines have a list holding their default record as their default entry, and the others the record itself |
| Defaults.DefaultsPerMode | config/defaults.py:9-65 | the default table has no repeated key; it holds each mode's entry, `first_run` true and `name` "src" |
| Defaults.ModeSlot | config/defaults.py:9-65 | each mode's entry is at a fixed place in the default table |
| Patterns.QuoteFrom | models/order_sender.py:115 | the first `"` at or after a position, with none before it |
| Patterns.MatchAt | models/order_sender.py:115 | a match at a position is the literal there, followed by a non-empty quote-free group and a closing quote |
| Patterns.Search | models/order_sender.py:115 | `re.search` finds the leftmost position where the pattern matches, and nothing exactly when there is no such position |
| Patterns.SearchAfter | models/order_sender.py:115 | after a quote-free prefix, the first attribute's value is what the search finds |
| History.Loaded | models/history.py:17-25 | a history file that is missing, unreadable or not JSON loads as the empty list; a stored one loads as its orders |
| History.NewRecord | models/history.py:43-49 | a new record has exactly the keys `order_id`, `type`, `osrid`, `status`, `created`, in that order, holding the given values |
| History.AddedShape | models/history.py:51-52 | the new record comes first, the older orders follow in their order, and the list is cut to 100 |
| History.Restamped | models/history.py:62-63 | the order gets the new status and the `updated` time and keeps every other entry |
| History.FirstWithId | models/history.py:60-64 | the position of the first order with the id, none before it having it (or the end of the list) |
| History.StatusUpdated | models/history.py:56-66 | updating a status keeps the number of orders |
| History.StatusUpdatedFirstOnly | models/history.py:60-64 | without a matching order nothing changes; otherwise only the first order with the id is restamped with the new status and time, every other entry of it and every other order staying as they were |
| History.OrdersForOsr | models/history.py:84-87 | an order is listed exactly when it is in the history and belongs to the OSR |
| History.ActiveOrders | models/history.py:69-81 | an order is listed exactly when it is in the history, belongs to the OSR and is sent, processing or pending |
| History.OrdersForOsrKeepsOrder | models/history.py:87 | the OSR filter keeps the history's order: filtering a concatenation is concatenating the filtered parts |
| History.ActiveOrdersKeepOrder | models/history.py:72-81 | the active filter keeps the history's order in the same way |
| History.ActiveAmongListed | models/history.py:69-87 | the active orders of an OSR are the active ones among that OSR's orders |
| History.ActiveOnlyAppend | models/history.py:75-80 | the status filter distributes over concatenation |
| History.LastOrder | models/history.py:90-103 | an empty history gives `{}`; otherwise the six fields of the newest order, `type` reported as `order_type` and missing ones as `None` |
| History.HistoryStore.Save | models/history.py:28-34 | the file holds the orders when it can be written; an IOError is swallowed and leaves it as it was |
| History.HistoryStore.AddOrder | models/history.py:37-53 | the file holds the loaded history with the new record added at the front, cut to 100, when it can be written |
| History.HistoryStore.UpdateStatus | models/history.py:56-66 | the file holds the loaded history with the first matching order restamped (the loop with its `break`), when it can be written |
| History.HistoryStore.GetActiveOrders | models/history.py:69-81 | the loaded history's active orders for the OSR |
| History.HistoryStore.GetOrdersForOsr | models/history.py:84-87 | the loaded history's orders for the OSR |
| History.HistoryStore.GetLastOrder | models/history.py:90-103 | the summary of the loaded history's newest order |
| ConfigStore.MergeKeepsFileEntries | models/config.py:26-28 | a key the file has keeps the file's value after merging |
| ConfigStore.MergeAddsDefaults | models/config.py:26-28 | every default key is present after merging, with the default value when the file lacks it |
| ConfigStore.MergeUnique | models/config.py:26-28 | merging never introduces a duplicate key |
| ConfigStore.MergeComplete | models/config.py:26-28 | a file that already has every default key is returned unchanged |
| ConfigStore.LoadedHasDefaults | models/config.py:20-31 | the loaded configuration has every default key, with the file's value when the file parsed and has it, the default value otherwise |
| ConfigStore.LoadedFromHasDefaults | models/config.py:20-31 | the same for any default table without repeated keys |
| ConfigStore.SaveThenLoad | models/config.py:20-39 | saving a configuration that has every default key and loading it again gives it back unchanged |
| ConfigStore.MergeDefaults | models/config.py:26-28 | the merge loop yields exactly `Merged` |
| ConfigStore.ConfigManager.Load | models/config.py:20-31 | loading yields `Loaded` of the file: the parsed contents merged with the defaults, or the defaults for a missing or broken file |
| ConfigStore.ConfigManager.Save | models/config.py:33-39 | a save raises ConfigurationError exactly when the file cannot be written; otherwise the file holds the configuration |
| ConfigStore.ResolveOsr | models/config.py:41-43 | the OSR ID is the configuration's `osr_id` when it has one, else the `OSR_ID` environment variable, else empty |
| XmlGenerator.SpecElements | models/xml_generator.py:87-89 | one `<capacity_spec .../>` element per configured spec, in the configuration's order |
| XmlGenerator.CapacitySpecsEmpty | models/xml_generator.py:82-91 | the capacity-spec text is empty exactly when no specs are configured |
| XmlGenerator.BuildCapacitySpecs | models/xml_generator.py:82-91 | the `for spec, max_qty in ...items()` loop yields exactly `CapacitySpecsXml` |
| XmlGenerator.GoodsInRecord | models/xml_generator.py:66-72 | the goods-in copy gets `cont_type` (the container type, "full" when missing) and the capacity specs, and keeps every other entry |
| XmlGenerator.GoodsInLeavesValues | models/xml_generator.py:68 | goods-in generation works on a copy and leaves the caller's values unchanged |
| XmlGenerator.Generate | models/xml_generator.py:16-41 | a mode without a template raises "Invalid or missing order mode"; empty values raise "Order values are required"; only Goods Add and Transport change the caller's values |
| XmlGenerator.LinesXmlOkIff | models/xml_generator.py:54-55 | formatting every line succeeds exactly when every record fills every placeholder of the line template |
| XmlGenerator.LinesXmlErrIsHole | models/xml_generator.py:54-55 | a line that fails names a placeholder of the line template |
| XmlGenerator.LinesXmlAppend | models/xml_generator.py:54-55 | the lines of two lists are the lines of the first followed by the lines of the second |
| XmlGenerator.LinesXmlSingle | models/xml_generator.py:54-55 | a single record's lines are the line template formatted from it |
| XmlGenerator.BuildLinesXml | models/xml_generator.py:51-55 | the `+=` loop over the records yields exactly `LinesXml`, stopping at the first KeyError |
| XmlGenerator.MissingFieldIsPlaceholder | models/xml_generator.py:38-39 | a "Missing required field" error always names a placeholder of the mode's header or line template |
| XmlGenerator.TransportMissingField | models/xml_generator.py:94-109 | for transport orders, a missing field is a placeholder of the header or the slot template |
| XmlGenerator.HeaderMissingField | models/xml_generator.py:58-79 | a header that fails to format names one of its own placeholders |
| XmlGenerator.PickMissingField | models/xml_generator.py:44-58 | for pick orders, a missing field is a placeholder of the header or the line template |
| XmlGenerator.GeneratedHeader | models/xml_generator.py:28-37 | a generated payload is the stripped header of its mode, formatted from the first record with only the generator's own keys (`lines`, `cont_type`, `capacity_specs`, `slot_contents`) added |
| XmlGenerator.InventoryHeader | models/xml_generator.py:61-63 | an inventory payload is the stripped inventory header formatted from the record itself |
| XmlGenerator.GoodsInHeader | models/xml_generator.py:66-72 | a goods-in payload is the stripped goods-in header formatted from `GoodsInRecord` |
| XmlGenerator.GoodsAddHeader | models/xml_generator.py:75-79 | a goods-add payload is the stripped header formatted from the record with `capacity_specs` written in |
| XmlGenerator.PickHeader | models/xml_generator.py:44-58 | a pick payload needs a non-empty list and is the header formatted from the first record with `lines` set to all the lines |
| XmlGenerator.TransportHeader | models/xml_generator.py:94-109 | a transport payload needs a non-empty list and is the header formatted from the first record with `slot_contents` set to all the slot lines |
| XmlGenerator.GenerateIgnoresLines | models/xml_generator.py:20-37 | the `lines` entry of the order data never affects the result: both helpers that take it ignore it |
| XmlGenerator.PickHeaderFromFirstRecord | models/xml_generator.py:57-58 | two pick lists with the same first record and the same lines give the same payload: only the first record fills the header |
| XmlGenerator.GoodsAddWritesSpecs | models/xml_generator.py:77-78 | goods-add generation writes `capacity_specs` into the caller's record and changes nothing else in it |
| XmlGenerator.TransportWritesSlots | models/xml_generator.py:104-108 | transport generation writes `slot_contents` into the caller's first record only, and changes nothing else |
| XmlGenerator.GenerateOrder | models/xml_generator.py:16-41 | the generator as the source's dispatch to its helpers yields exactly `Generate` |
| XmlGenerator.GeneratePickOrder | models/xml_generator.py:44-58 | the pick helper with its line loop yields exactly `PickOrder` |
| XmlGenerator.GenerateGoodsAddOrder | models/xml_generator.py:75-79 | the goods-add helper yields exactly `GoodsAddOrder` |
| XmlGenerator.GenerateTransportOrder | models/xml_generator.py:94-109 | the transport helper with its slot loop yields exactly `TransportOrder` |
| OrderSender.Send | models/order_sender.py:31-69 | a blank payload raises OrderValidationError; a dry run sends nothing and succeeds; without CORBA it raises "CORBA libraries not available"; a failing ORB raises "Failed to send order: ..." |
| OrderSender.SendSucceedsIff | models/order_sender.py:31-69 | sending succeeds exactly when the payload is not blank and it is a dry run or the ORB delivers |
| OrderSender.DryRunIgnoresOrb | models/order_sender.py:36-37 | a dry run's outcome does not depend on the ORB at all |
| OrderSender.CancelOrderOutcome | models/order_sender.py:78-110 | a cancellation succeeds exactly in a dry run or when `send_cancel` exits with 0; a dry run reports the dry-run message, a real success "Success", and a command that raises reports "Exception: " and its message |
| OrderSender.ExitFailureParts | models/order_sender.py:102-107 | a non-zero exit reports "Command failed (exit code N)", followed by the stripped stderr when there is any and ending with " \| stdout: " and the stripped stdout when there is any |
| OrderSender.ExtractOrderId | models/order_sender.py:113-116 | whenever some position matches `order_number="..."` with a non-empty, quote-free value, the id is the value of the leftmost such match; with no match it is "unknown"; it is never empty and holds no quote |
| OrderSender.IdAfter | models/order_sender.py:115 | in a payload whose first `order_number="` attribute holds a quote-free value, that value is the extracted id |
| OrderSender.GeneratedOrderId | models/order_sender.py:113-116 | the id read back from a generated order is the operator's name, the mode's prefix and the order number, when those contain no quote: extraction inverts the generator's header |
| OrderSender.GetOrderType | models/order_sender.py:119-131 | the type is one of five strings, decided in the source's precedence: "pick" exactly when `<pick_order` occurs; otherwise "goods_add" or "goods_in" for `<goods_in_order` by whether `processing_mode="renewal"` occurs; otherwise "inventory" for `<inventory_order`; otherwise "unknown" |
| OrderSender.InventoryTagKnown | models/order_sender.py:119-131 | a payload containing `<inventory_order` is never of unknown type |
| OrderSender.TransportClassifiedAsInventory | models/order_sender.py:119-131 | a generated transport order contains `<inventory_order` (through its line template), so it is recorded as an inventory order, since no transport branch exists |
| SandboxCommands.Normalize | models/sandbox_commands.py:24-28 | the stored OSR ID is lower case, starts with "osr", ends with the lowered input and adds at most those three letters; an ID that already starts with "osr" is only lowered |
| SandboxCommands.NormalizeKeepsNormal | models/sandbox_commands.py:24-28 | a lower-case ID starting with "osr" is kept as it is |
| SandboxCommands.NormalizeIdempotent | models/sandbox_commands.py:24-28 | normalising twice is normalising once |
| SandboxCommands.NormalizeSpaces | models/sandbox_commands.py:24-28 | normalising adds no space |
| SandboxCommands.SimPrefix | models/sandbox_commands.py:30-32 | the simulator prefix is lower case, starts with "simosr" and ends with the lowered ID |
| SandboxCommands.TypeFlag | models/sandbox_commands.py:73-105 | the type flag is `e`, `s` or `g`: the long and short names of each type, in any case, give its letter, and anything else gives `e` |
| SandboxCommands.TypeMapLookup | models/sandbox_commands.py:73-81 | the type map's keys in order and what each lookup gives, `e` for a missing key |
| SandboxCommands.CarrierCommandWords | models/sandbox_commands.py:34-58 | for space-free arguments the insert and remove commands split into exactly the prefix, `-i`/`-r`, the element and the carrier |
| SandboxCommands.ElementCommandWords | models/sandbox_commands.py:60-106 | for space-free arguments the enable and disable commands split into exactly the prefix, `--enable-element`/`--disable-element`, the type flag and the element |
| SandboxCommands.FirstSet | models/sandbox_commands.py:132-145 | the position of the first usable match, none before it usable |
| SandboxCommands.FirstUsableMeaning | models/sandbox_commands.py:132-145 | a carrier is found exactly when some pattern's match is usable, and a found carrier is non-empty and not a placeholder (`none`, `null`, `undefined`) |
| SandboxCommands.FirstUsableAppend | models/sandbox_commands.py:132-145 | trying the patterns of two lists in turn is trying the first list and, only when it gives nothing, the second |
| SandboxCommands.AttributeMatches | models/sandbox_commands.py:120-133 | the three attribute patterns are searched case-insensitively, in the source's priority order |
| SandboxCommands.ExtractCarrier | models/sandbox_commands.py:108-145 | a carrier found in the payload is non-empty and not a placeholder value |
| SandboxCommands.ExtractCarrierPriority | models/sandbox_commands.py:119-145 | a usable `container_id` wins; otherwise the first usable attribute match; only when none is usable do the tag patterns decide |
| SandboxCommands.ElementOr | models/sandbox_commands.py:172 | the element is the given default when it is non-empty, and "workflow.input.station.01" otherwise |
| SandboxCommands.CarrierFor | models/sandbox_commands.py:162-169 | the carrier is always non-empty and is the extracted one when there is one |
| SandboxCommands.CarrierFallback | models/sandbox_commands.py:163-169 | without an extracted carrier it is `carrier_` and the order number, or "carrier_test" when the payload has none |
| SandboxCommands.InsertionCommands | models/sandbox_commands.py:147-180 | the result has exactly the keys `insert_now` and `remove_later`, in that order, holding the insert and remove commands for the same element and carrier |
| Form.Lookup | ui/form.py:218-291 | a lookup reads keys only from the front and writes only `Container Type`, `Product Name` and `Product Code`; without a configured `osrid`, for another field, and for `Container Type` (whose query always raises, since `Database` has no `get_container_types`) it changes nothing; a product lookup keeps `Container Type` and either changes nothing or sets name and code from one returned row; a query that raises changes nothing |
| Form.LookupContainer | ui/form.py:235-257 | the container branch as written, for any answer of the query: only `Container Type` can change, and only to the first column of a returned row; a raising query, which is what the code gets, changes nothing |
| Form.LookupProduct | ui/form.py:259-282 | only the two product fields can change, and only together to the name and code of one returned row; a raising query changes nothing |
| Form.FormWritesOnlyFields | ui/form.py:141-215 | the editor never changes a key that is not one of its fields, other than the lookup fields when lookup is enabled |
| Form.FormConsumes | ui/form.py:31-215 | the editor only reads from the front of its keys and lines: what it leaves is a suffix of what it was given |
| Form.EnterStoresStripped | ui/form.py:156-208 | Enter followed by a typed line stores that line, cut to 40 characters and stripped (even when empty), in the highlighted field, and the loop carries on |
| Form.InterruptKeepsValues | ui/form.py:209-212 | Ctrl+C while retyping a field keeps the values and carries on |
| Form.LookupKeyIgnoredWhenOff | ui/form.py:152-155 | without lookup enabled `d`/`D` changes nothing |
| Form.BackEnds | ui/form.py:150-151 | `b`, `B` or `h` ends the editor as cancelled with the values it has |
| Form.BackKeepsEdits | ui/form.py:150-204 | leaving with `b` right after an edit returns `None` but the record keeps the edited value |
| Form.HandleDatabaseLookup | ui/form.py:218-291 | the method writes into the record exactly what `Lookup` computes, and nothing when it waits for input |
| Form.EditForm | ui/form.py:20-215 | the record ends as `EditFormRun` says, with status and remaining input; the method returns the record itself when saved and `None` otherwise |
| OrderController.Present | controllers/order_controller.py:170 | the schema fields the line has: a field is listed exactly when the mode's field order names it and the line has it |
| OrderController.Extras | controllers/order_controller.py:171 | the fallback fields: a key is listed exactly when the line has it and the schema part does not |
| OrderController.PresentDistinct | controllers/order_controller.py:170 | a schema without repeats gives a field list without repeats |
| OrderController.ExtrasDistinct | controllers/order_controller.py:171 | a line's keys, which a dict never repeats, give fallback fields without repeats |
| OrderController.FieldsFor | controllers/order_controller.py:170-171 | the editor's field list holds exactly the line's keys, the schema's fields first and the extra keys after them |
| OrderController.SchemaDistinct | config/defaults.py:68-120 | no mode's field order repeats a field |
| OrderController.FieldsArePermutation | controllers/order_controller.py:170-171 | the field list is a permutation of the line's keys: every key is offered for editing exactly once |
| OrderController.NewLine | controllers/order_controller.py:138-140 | `a` copies the last line when there is one (from the mode's default record otherwise) |
| OrderController.NeverEmpties | controllers/order_controller.py:146-156 | whatever keys are pressed, a list that has a line still has one when the editor stops: the last line cannot be deleted |
| OrderController.EditorConsumes | controllers/order_controller.py:34-164 | the line editor only reads from the front of its keys and lines |
| OrderController.OnlySendOrLeaveFinish | controllers/order_controller.py:157-164 | the editor returns `True` only right after `s`/`S` and `False` only right after `h`/`b`/`B`: editing a line with Enter never finishes it, because `_edit_single_line` always returns `None` |
| OrderController.FinishedByLater | controllers/order_controller.py:157-164 | a run that finished after reading some keys of a later input finished after reading some keys of the whole input |
| OrderController.AddCopiesLast | controllers/order_controller.py:136-142 | `a` appends a copy of the last line, keeps the earlier lines and highlights the new one |
| OrderController.DeleteRemovesHighlighted | controllers/order_controller.py:146-156 | `d` removes exactly the highlighted line and moves the highlight up by one (not below 0) when more than one line is left, and otherwise changes nothing |
| OrderController.EnterNeverFinishes | controllers/order_controller.py:157-178 | after Enter, whether the line's form was saved or left, the edited line replaces the highlighted one and the editor goes on from there |
| OrderController.EditPickLines | controllers/order_controller.py:27-164 | the method leaves the list as `EditPickLinesRun` says and returns its outcome and remaining input |
| MainController.LevelBefore | controllers/main_controller.py:279-280 | a closing tag is written one level further out, never below zero; any other line at the current level |
| MainController.LevelAfter | controllers/main_controller.py:285-290 | after an opening tag that is neither closing nor self-closing the level goes up by one; otherwise it stays where the line was written |
| MainController.StripAll | controllers/main_controller.py:274-275 | every line of the split payload, stripped, in order |
| MainController.NonBlank | controllers/main_controller.py:276-277 | the lines kept are the non-blank ones |
| MainController.FormattedShape | controllers/main_controller.py:270-292 | blank lines are dropped and every other line comes out, in input order, behind a multiple of four spaces |
| MainController.OpenCloseAligned | controllers/main_controller.py:279-290 | an element opened on one line and closed on the next gets the same indent on both lines |
| MainController.LeafKeepsLevel | controllers/main_controller.py:285-290 | a self-closing or text line leaves the indent of the next line as it was |
| MainController.BasicXmlFormatting | controllers/main_controller.py:270-292 | the loop with its `indent_level` counter yields exactly the specification `Formatted` of the stripped lines, starting at level 0 |
| MainController.FirstDecisive | controllers/main_controller.py:371-376 | the position of the first `y`, `Y`, `n`, `N` or Esc, with no decisive key before it; none when no key is decisive |
| MainController.ConfirmAnswersFirstDecisive | controllers/main_controller.py:371-376 | the confirmation answers at the first decisive key and at no other: `True` for `y`/`Y`, `False` for `n`/`N`/Esc; it waits when there is none |
| MainController.ConfirmLoop | controllers/main_controller.py:371-376 | the `while True` loop over `getch()` decides as `ConfirmRun` does |
| MainController.MainMenuChoice | controllers/main_controller.py:126-170 | `None` leaves the menu; an index picks its entry; through Python's negative indexing the refresh result -2 opens "Configure OSR ID" and the back result -3 opens "Cancel Orders" |
| MainController.MainMenuNeverCrashes | controllers/main_controller.py:143-152 | every result the nine-entry main menu can give is handled without an IndexError |
| MainController.ServerTypeChoice | controllers/main_controller.py:172-191 | `None` keeps the type; 0 and (through negative indexing) -2 choose "Live"; 1 chooses "Test"; -3 is an IndexError; a chosen type is one of the server types |
| MainController.IntroServerType | controllers/main_controller.py:72-82 | the first-run server type is the chosen type, and "Live" when the menu is left; it is always one of the server types unless the menu's back result crashes it |
| MainController.IntroName | controllers/main_controller.py:66-69 | the first-run name is what was typed, and "src" when the answer is empty or cancelled; never empty |
| MainController.ConfigureServerType | controllers/main_controller.py:172-191 | leaving the menu changes nothing; the -3 result crashes without saving; a chosen type is stored and the configuration saved, and a save that cannot write crashes |
| MainController.SpecsOfAnswered | controllers/main_controller.py:97-122 | a capacity spec is recorded for a name exactly when one of its quantity prompts was answered with a number, and it holds one of those numbers |
| MainController.CollectCapacitySpecs | controllers/main_controller.py:97-122 | the loop fills `capacity_specs` exactly as the specification `SpecsOf` says |
| MainController.Stamped | controllers/main_controller.py:199-204 | every record gets the operator's name and keeps every other entry |
| MainController.StampNames | controllers/main_controller.py:200-202 | the loop over the records yields exactly `Stamped` |
| MainController.CreationRun | controllers/main_controller.py:193-232 | an order is handed to the generator exactly when the editor accepted, with the chosen mode; a crash leaves the configuration as it was |
| MainController.PickPayloadIsStale | controllers/main_controller.py:207-216 | an accepted pick order stores the edited lines in the configuration, but the payload's records are the stamped records as they were before editing, each carrying the operator's name |
| MainController.PickPayloadIgnoresEdits | controllers/main_controller.py:207-216 | so the XML of an accepted pick order is the one the unedited stamped records give, whatever was edited |
| MainController.PickDeclineDiscardsEdits | controllers/main_controller.py:207-213 | a pick editor left without sending keeps the stamped records and none of the edits |
| MainController.SingleEditsStayInMemory | controllers/main_controller.py:218-232 | a single-mode form, saved or not, leaves in memory what it wrote, starting from the record with the operator's name; the order is accepted exactly when the form saved |
| MainController.PickConfigs | controllers/main_controller.py:197-214 | a pick editor leaves the configuration as it was, with the stamped records, or with the edited lines |
| MainController.CreationKeepsOtherEntries | controllers/main_controller.py:193-226 | creating an order touches no entry of the configuration other than the mode's own |
| MainController.CreatePickOrder | controllers/main_controller.py:207-217 | the pick branch ends as `CreationRun` says; the configuration file is written only when the editor accepted, and a save that cannot write fails |
| MainController.SingleCreation | controllers/main_controller.py:218-232 | for a single mode, the outcome follows the form: saved means accepted with the form's record as the order, otherwise not accepted or waiting, and the form's values stay in the configuration |
| MainController.CreateSingleOrder | controllers/main_controller.py:218-226 | the single-record branch ends as `CreationRun` says, and saves only after acceptance |
| MainController.HandleOrderCreation | controllers/main_controller.py:193-226 | order creation up to the generator ends as `CreationRun` says; the configuration file is written only when the editor accepted |
| MainController.DeliveryFor | controllers/main_controller.py:378-418 | there is no delivery exactly when no OSR ID resolves; a failed send carries the sender's error; a delivery is recorded as "dry_run" or "sent" and is followed by the sandbox step exactly on a Test server |
| MainController.DeliveredIff | controllers/main_controller.py:378-418 | an order is delivered exactly when an OSR ID resolves, the payload is not blank, and it is a dry run or the ORB accepts it; the sandbox step follows exactly such a delivery on a Test server |
| MainController.SendOrder | controllers/main_controller.py:378-418 | the delivery is as `DeliveryFor` says, and the history file gains the order's record only after a delivery it can write |
| MainController.ReviewRun | controllers/main_controller.py:234-251 | a blank payload is refused before any key is read; otherwise the key loop decides send, cancel or waiting |
| MainController.ConfirmedIff | controllers/main_controller.py:234-251 | an order is sent only when the payload is not blank and the first decisive key is `y`/`Y` |
| MainController.ConfirmAndSendOrder | controllers/main_controller.py:234-251 | the review is as `ReviewRun` says; there is a delivery exactly when it was confirmed, as `DeliveryFor` says; the history changes only after a delivery |
| MainController.CreateOrder | controllers/main_controller.py:193-251 | an order stops in the editor exactly when the editor did not accept; after acceptance the configuration file holds the edited configuration when it can be written, and a save that cannot write ends the flow; otherwise the generator's payload for the accepted order is reviewed as `ReviewRun` says, a generator error ends the flow, a confirmed payload is delivered as `DeliveryFor` says, and the history file gains that payload's record exactly after a delivery it can write; the configuration in memory changes only in the mode's own entry |
| HistoryController.Labels | controllers/history_controller.py:50-57 | one label `order_id - STATUS - created` per order, in order |
| HistoryController.HistoryOptions | controllers/history_controller.py:49-66 | the order labels followed by the blank entry, "Back to Main Menu" and "Refresh History" |
| HistoryController.BuildHistoryOptions | controllers/history_controller.py:49-66 | the loop building the history options yields exactly `HistoryOptions` |
| HistoryController.HistoryStepFor | controllers/history_controller.py:79-97 | -1 and -3 close the view; -2 reloads; an order's row opens its details; the blank row and the refresh row reload; the back row closes; `None` (from `q`) reaches `None >= len(...)` and raises |
| HistoryController.HistoryOnlyQuitCrashes | controllers/history_controller.py:79-97 | of the results the history menu can give, exactly `None` crashes the view |
| HistoryController.StatusLabel | controllers/history_controller.py:108-116 | each of the seven known statuses has its label; any other status is shown as `?` and the status in upper case |
| HistoryController.UnknownStatusMarked | controllers/history_controller.py:116 | an unknown status's label starts with `"? "` followed by the upper-cased status |
| HistoryController.ActionOptions | controllers/history_controller.py:155-168 | three actions, or four on a Test server with "Generate Sandbox Commands" third; "Resend", "Edit and Resend" first and "Back to History" last |
| HistoryController.DetailLines | controllers/history_controller.py:101-152 | the detail lines have the source's length: the "Updated" line appears exactly when it is set and differs from "Created", and a Test server adds a line; the status line uses `StatusLabel` |
| HistoryController.ActionFor | controllers/history_controller.py:181-205 | `None` leaves; 0 and 1 show their "not yet implemented" notices; the sandbox commands run exactly for 2 on a Test server |
| HistoryController.FirstNonReload | controllers/history_controller.py:36-97 | the first menu result that does not just reload, with every result before it a reload |
| HistoryController.ViewDecidedByFirstNonReload | controllers/history_controller.py:36-97 | with orders present, the view is decided by the first menu result that does not reload: closing ends the view, anything else crashes it, and with none it waits |
| HistoryController.ViewOrderHistoryMenu | controllers/history_controller.py:26-97 | without an OSR ID the view asks for one; otherwise it runs `ViewLoop` on the history's orders for that OSR |
| HistoryController.CancelLabel | controllers/history_controller.py:235-237 | an order has a cancel label exactly when it has `order_id`, `type` and `status` (otherwise the subscript raises KeyError) |
| HistoryController.CancelOptions | controllers/history_controller.py:233-238 | the options exist exactly when every order has a label, and then they are those labels in order |
| HistoryController.CancelMenuChoice | controllers/history_controller.py:249-254 | `None`, an empty selection and (through `not 0`) index 0 leave; a non-empty selection goes to cancellation; another index reaches `orders[i] for i in selected_indices` and raises |
| HistoryController.CancelMenuOutcomes | controllers/history_controller.py:241-254 | of the results the multi-choice menu can give, exactly -2 and -3 crash, and a selection only names listed orders |
| HistoryController.SelectedOrders | controllers/history_controller.py:258 | `[orders[i] for i in selected_indices]` succeeds exactly when every index is in Python's range, and then picks each index's order |
| HistoryController.CombineStep | controllers/history_controller.py:282-290 | tallying a list is tallying its first order and then the rest |
| HistoryController.CombineCrash | controllers/history_controller.py:283-285 | an order without `type` or `order_id` ends the loop with a KeyError after the orders before it |
| HistoryController.TallyCounts | controllers/history_controller.py:279-290 | no more outcomes than orders; the loop completes exactly when every order has `type` and `order_id`, and then every order is either cancelled or a failure |
| HistoryController.TallyHead | controllers/history_controller.py:282-288 | the first order's id is counted as cancelled exactly when its cancellation succeeds |
| HistoryController.AllCancelledIff | controllers/history_controller.py:282-299 | every selected order is reported cancelled exactly when every cancellation succeeds |
| HistoryController.NoneCancelledIff | controllers/history_controller.py:282-307 | no order is reported cancelled exactly when every cancellation fails |
| HistoryController.DryRunCancelsAll | controllers/history_controller.py:278-299 | in a dry run every selected order is cancelled |
| HistoryController.ListedOrdersCancel | controllers/history_controller.py:233-290 | orders that could be listed for cancellation never crash the cancellation loop |
| HistoryController.Report | controllers/history_controller.py:292-307 | success exactly when all were cancelled, partial success when some but not all, error when none; the failures are reported in the last two cases |
| HistoryController.AfterUpdates | controllers/history_controller.py:288 | a history file that cannot be written is left as it was |
| HistoryController.CancelRun | controllers/history_controller.py:256-307 | cancellation results are reported only after `y`/`Y`; any other first key aborts once the selection is valid |
| HistoryController.CancelEach | controllers/history_controller.py:279-290 | the loop's tally is the specification `TallyOf`, and the history marks exactly the cancelled ids, in order, as "cancelled" |
| HistoryController.ConfirmAndCancelOrders | controllers/history_controller.py:256-307 | the outcome is `CancelRun`, and the history changes only after `y`/`Y` on a valid selection |
| HistoryController.CancelOrdersMenu | controllers/history_controller.py:207-254 | each of the five screens is stated if and only if: no OSR ID; no active orders for it; the menu left; a crash on an unlabelled order or a crashing menu result; or a pick of labelled active orders, whose outcome is `CancelRun` on them; after a pick the history file holds the written statuses of the cancelled orders exactly when a `y`/`Y` confirmed a valid selection; on every other screen, and without that confirmation, the history file is unchanged |
| SandboxController.CustomElement | controllers/sandbox_controller.py:133-146 | the element is the stripped answer, or "workflow.input.station.01" when the answer is blank or cancelled; never empty |
| SandboxController.CustomElementTrimmed | controllers/sandbox_controller.py:143-146 | the element has no surrounding whitespace |
| SandboxController.ShowAndCopy | controllers/sandbox_controller.py:103-114 | an empty command shows nothing; otherwise the dialog contains the command and is "info" exactly when the clipboard copy succeeded, "warning" exactly when it failed |
| SandboxController.AllCommandLines | controllers/sandbox_controller.py:116-131 | the listing shows the insert and the remove command, "N/A" for a missing one, followed by the usage lines |
| SandboxController.PostOrder | controllers/sandbox_controller.py:19-52 | `None` and "Skip" leave without prompting; choice 0 shows the insert command for the entered element and the payload's carrier; choice 1 lists both commands; the negative results show nothing |
| SandboxController.InsertChoiceShowsCommand | controllers/sandbox_controller.py:49-50 | choosing the insertion command always shows a dialog containing it |
| SandboxController.AllChoiceShowsBoth | controllers/sandbox_controller.py:51-52 | choosing all commands shows the insert and remove commands for the same element and carrier |
| SandboxController.HistoryCarrier | controllers/sandbox_controller.py:88-91 | the carrier from a history record is the one found in its stored payload, or `carrier_` and its order id |
| SandboxController.HistoryCommands | controllers/sandbox_controller.py:93-96 | the commands for a history record are the insert and the remove command for the same element and carrier |
| SandboxController.OrderHistory | controllers/sandbox_controller.py:54-101 | a record without an OSR ID shows an error, exactly; otherwise `None` and "Back" leave |
| SandboxController.HistoryInsertChoice | controllers/sandbox_controller.py:98-99 | choosing the insertion command for a history record shows a dialog containing it |
| ConfigController.DialogWidth | controllers/config_controller.py:29 | the dialog is 70 columns wide, or `width - 8` on narrower screens |
| ConfigController.InputLimit | controllers/config_controller.py:100-122 | `getstr` reads at most `dialog_width - 9` characters, never more than 61, and at least 23 on any size `get_screen_size` gives |
| ConfigController.CurrentValue | controllers/config_controller.py:26-67 | the current OSR ID is shown in success colour when one resolves, the environment value in info colour when only that is set, and "(not configured)" as a warning otherwise |
| ConfigController.OsrUpdated | controllers/config_controller.py:126-133 | a non-empty entry sets `osr_id`; an empty one removes it; nothing else changes and no key is repeated |
| ConfigController.OsrMessage | controllers/config_controller.py:126-140 | the message is a warning exactly when the entry is empty and `OSR_ID` is unset, and a success otherwise |
| ConfigController.ConfiguredOsrResolves | controllers/config_controller.py:118-143 | the `getstr` length is at least 23 for every size query answer; after a successful entry the OSR ID that resolves is the stripped entry, or the environment's when the entry is empty, and the message warns exactly when nothing resolves |
| ConfigController.ConfigureOsrId | controllers/config_controller.py:18-150 | the screen size comes from `get_screen_size` of the `getmaxyx` answer; the outcome is the specification `ConfigureOsrRun`; the configuration file is written only after an entry (a save that cannot write raises), and a Ctrl+C leaves it as it was |
| CliTools.Cutoff | utils/cli_tools.py:80-98 | `all` cuts at now, `1d`/`1w`/`2w`/`1m` one, seven, fourteen and thirty days back, and any other time frame is read as a `YYYY-MM-DD` date, `None` when it is not one |
| CliTools.KeptSince | utils/cli_tools.py:103-107 | the filter keeps only orders of the list whose timestamp is at or after the cutoff, never more than there were |
| CliTools.KeptAndDropped | utils/cli_tools.py:103-111 | kept and dropped orders together are the original list as a multiset; every recent order is kept and every dropped one is not recent, so the removed count is the dropped count |
| CliTools.KeptSinceAppend | utils/cli_tools.py:103-107 | filtering a concatenation filters each part and concatenates, so order is kept |
| CliTools.FilterSince | utils/cli_tools.py:103-107 | the loop succeeds exactly when every timestamp parses, and then returns `KeptSince` |
| CliTools.CleanupRun | utils/cli_tools.py:60-136 | the file is written only when it held an object with a non-empty `orders` list, the time frame gave a cutoff and the file is writable; it then holds no orders for `all` and the recent ones otherwise, and original, removed and remaining counts add up |
| CliTools.CleanupGuards | utils/cli_tools.py:66-98 | a missing file or an empty order list succeeds without writing; an unknown time frame that is no date fails |
| CliTools.StoredHistoryNeverCleans | utils/cli_tools.py:71-74 | a history file holding a bare list, which is the format the application writes, always makes the clean-up fail |
| CliTools.AppRecordsUntimed | models/history.py:43-63 | neither a record `add_order` writes nor one `update_status` restamps has a `timestamp` key |
| CliTools.UntimedRecordsNeverClean | utils/cli_tools.py:102-109 | where `fromisoformat("")` raises, a non-empty `{"orders": [...]}` list of records without `timestamp` fails for every time frame but `all`: on the first record's timestamp, or before that on a time frame that is no date |
| CliTools.CleanupKeepsRecent | utils/cli_tools.py:100-111 | after a clean-up other than `all`, the written orders are exactly the original ones at or after the cutoff, and the removed count is the number of the others |
| CliTools.CleanupHistory | utils/cli_tools.py:60-136 | the method with the filter loop ends exactly as `CleanupRun` |
| CliTools.SourcesKept | utils/cli_tools.py:145-159 | a `.py` file that is not an editor lock file is never removed |
| CliTools.TempSuffixesRemoved | utils/cli_tools.py:145-159 | `.pyc`, `~`, `.bak` and `.swp` files are removed |

## Left out

- Drawing. `setup_colors`, `write_text` and `show_status` are not modelled, nor the drawing half of `draw_border`, `display_menu`, `display_dialog` and `edit_form`. Neither are `time.sleep`, `curses.error` on screens too small to draw on, or the arithmetic that places the line editor's box. Only the sizes the code computes and the keys it reads are modelled.
- Typed text. `getstr` is modelled as returning a whole typed line or a Ctrl+C (`Interrupted`), cut to the length it is given. The curses echo and cursor calls around it are not modelled. The one length that depends on the screen, in the OSR ID dialog, comes from the size `get_screen_size` gives, which is at least 40 columns wide, so the length is at least 23 (`ConfigController.InputLimit`); `ConfigController.ConfigureOsrId` takes the `getmaxyx` answer and derives the size the same way. `getstr` counts its limit in bytes, and the model counts characters. A limit that cuts a multi-byte UTF-8 character in half makes `.decode("utf-8")` raise UnicodeDecodeError; the model never raises there.
- The transport mode. As written, `config/defaults.py` reads `OrderMode.TRANSPORT` at lines 50, 106, 167 and 191, and `OrderMode` in `config/constants.py` defines no such member, so importing `config/defaults.py` raises AttributeError and the application cannot start. The model does not capture this failure. It adds the mode as `Defaults.Transport` under a name of its own choosing, `ModeName(Transport) == "Transport"`, which is a key of the default table (`Defaults.DefaultsPerMode`). The transport templates use the tag `transport_order` and the order-number prefix `-transport-`, not this name. As in the source, `Transport` is not in `ORDER_TYPES`, so the main menu never offers it (`Defaults.TransportNotOffered`).
- Unicode case mapping and digits. `PyText.Lower`, `PyText.Upper` and `PyText.ParseInt` map case and parse digits on ASCII only, while Python's `str.lower()`, `str.upper()`, `int()` and `re.IGNORECASE` work across Unicode; typed input is decoded as UTF-8. For a non-ASCII letter the model leaves the case unchanged (Python gives `"ä"` for `"Ä".lower()`), and for non-ASCII digits it gives ValueError (Python gives 12 for `int("١٢")`, where the model's prompt asks again as `Dialog.BadNumberReprompts` says). This reaches `SandboxCommands.Normalize`, `SandboxCommands.SimPrefix`, `SandboxCommands.TypeFlag`, the placeholder test of `SandboxCommands.FirstUsableMeaning` and `SandboxCommands.ExtractCarrier`, the case-insensitive search of `SandboxCommands.AttributeMatches`, `HistoryController.Labels`, `HistoryController.StatusLabel`, and the integer prompts of `Dialog.PromptDecision` and `Dialog.ProcessKeys`. `PyText.Strip` uses Python's full whitespace set and is not affected.
- Message dialogs. The key that dismisses a plain message dialog is read but not interpreted.
- Outside services. The CORBA service port is an `Orb` parameter that accepts or rejects a payload. `send_cancel` is a shell-result parameter; the subprocess and its timeout are not modelled. The clipboard is a `copied` flag.
- The warehouse database. `models/database.py` is not part of this model. The product query is a `DbAnswer` parameter: rows, or an exception. The container-type query is the constant `Form.CONTAINER_QUERY`, an exception, because `Database` has no `get_container_types`.
- Files. JSON parsing and writing are not modelled. The history file, the configuration file and the clean-up file are datatypes of what `json.load` yields, with a flag saying whether they can be written.
- The environment and the clock. `os.environ["OSR_ID"]` is an `envOsrId` parameter and `datetime.now()` is a `now` parameter. Times are whole seconds, and ISO timestamps are `string` values.
- Date parsing. `strptime` and `fromisoformat` are function parameters returning an `Option`. The TypeError from comparing a naive with an aware datetime is not modelled.
- Regular expressions. `extract_carrier_from_xml` tries ten patterns. The three attribute patterns `container_id="..."`, `tray_id="..."` and `carrier_id="..."` are modelled as searches (`Patterns`, `SandboxCommands.AttributeMatches`), and so is `order_number="..."`. The seven tag patterns (`<container[^>]*id="..."` and its `tray`/`carrier` forms, the three tag-content patterns, and `id="...".*(?:container|tray|carrier)`) are not modelled: they enter `SandboxCommands.ExtractCarrier`, `SandboxCommands.CarrierFor`, `SandboxCommands.InsertionCommands`, `SandboxController.PostOrder`, `SandboxController.HistoryCarrier` and `SandboxController.OrderHistory` only as the `tagMatches` parameter, a free list of first-match groups. What is proved about those members holds for any such list.
- Pretty-printing. `xml.dom.minidom` is not modelled. The source tries it first and uses the fallback indenter `_basic_xml_formatting` only when it raises. The model always formats with the fallback indenter (`MainController.BasicXmlFormatting`), and nothing else in the model depends on the text shown.
- Configuration value kinds. `ConfigStore.TextOf`, `XmlGenerator.CapacitySpecsOf` and `MainController.NameOf` assume that each configuration entry has the kind the application itself writes: a string for `osr_id`, `name` and `server_type`, and a dict of integers for `capacity_specs`. For an entry of another kind the model reads `""` or no specs. The source goes on with that value instead: a truthy `capacity_specs` that is not a dict raises AttributeError, which `generate` reports as "Error generating XML", and a dict of strings is formatted one element per entry.
- Other files. `main.py`, `__main__.py`, `build.py` and `cleanup.py` are not part of this model. Nor are `test_imports`, `build_zipapp`, `test_system_connections` and `show_server_info` of `utils/cli_tools.py`.
- Directory walking. `clean_files` is modelled by its name rules (`IsTempFile`, `IsTempDir`); the walk over the tree, removal failures and the printed counts are not modelled.
- Other JSON keys. `cleanup_history` also keeps top-level keys other than `orders`; the model's object has only that key.
- Set order. The order in which `list(selected)` visits a multi-choice selection is not fixed by the model. It is a `listing` parameter, which may be any sequence holding the selected indices.
- Sharing. The shallow copy of `DEFAULT_ORDER_VALUES` in the configuration, whose records are shared with the defaults, is not modelled. Every dict the controllers share with `edit_form` is a `Form.Record` or an `OrderController.LineList`; elsewhere the model passes dict values.
- Order actions. "Resend Same Order" and "Edit and Resend Order" only show a "not yet implemented" notice, in the source and in the model.
- The first-run prompts in `_intro_menu`. Their defaults are modelled (`MainController.IntroName`, `MainController.IntroServerType`); the order in which they are asked is not.
- The sandbox step after a send. It is flagged in the delivery (`postOrder`) and modelled on its own (`SandboxController.PostOrder`), not run as part of `MainController.SendOrder`.
- Ctrl+C at a key read. A Ctrl+C during `getch()` raises KeyboardInterrupt. In the history menus the handlers at `controllers/history_controller.py:76` and `:178` catch it. Everywhere else, among them the `display_menu` key loop and the `_confirm_send` loop (`controllers/main_controller.py:371-376`), nothing catches it before `main.py:287-289`, which ends the program. The model's key presses carry no interrupt, so the model takes neither path: no history menu is left by a Ctrl+C and the program never exits at a key read.
- HistoryController.AfterUpdates: only the case of a history file that cannot be written is stated; the statuses written in the other case are stated by `HistoryController.CancelEach`.
- History.StatusUpdated: the contract states only that the number of orders is kept; `History.StatusUpdatedFirstOnly` states which record changes and how.
