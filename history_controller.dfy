/**
  The history screens of controllers/history_controller.py: the order
  history view of the configured OSR with its menu-index mapping and
  order details, and the cancel screen that cancels the chosen active
  orders one by one and reports how many went through.
 */
module HistoryController {
  import opened Wrappers
  import opened PyText
  import opened PyDict
  import opened Terminal
  import opened Defaults
  import Menu
  import History
  import OrderSender
  import ConfigStore

  // The history view: options and index mapping

  /** One history row: `"<order_id> - <STATUS> - <created>"`, with the `.get` defaults. */
  function OrderLabel(o: History.Order): string {
    GetOr(o, "order_id", "unknown") + " - " + Upper(GetOr(o, "status", "unknown")) + " - " + GetOr(o, "created", "Unknown")
  }

  const BACK_OPTION := "< Back to Main Menu"
  const REFRESH_OPTION := "R Refresh History"

  /** The order rows of the history menu. */
  function Labels(orders: seq<History.Order>): (r: seq<string>)
    ensures |r| == |orders|
    ensures forall i :: 0 <= i < |orders| ==> r[i] == OrderLabel(orders[i])
  {
    seq(|orders|, i requires 0 <= i < |orders| => OrderLabel(orders[i]))
  }

  /** The options of the history menu: one row per order, then a blank row, Back and Refresh. */
  function HistoryOptions(orders: seq<History.Order>): (r: seq<string>)
    ensures |r| == |orders| + 3
    ensures forall i :: 0 <= i < |orders| ==> r[i] == OrderLabel(orders[i])
    ensures r[|orders|] == "" && r[|orders| + 1] == BACK_OPTION && r[|orders| + 2] == REFRESH_OPTION
  {
    Labels(orders) + ["", BACK_OPTION, REFRESH_OPTION]
  }

  /** The loop that appends one row per order, then the navigation rows. */
  method BuildHistoryOptions(orders: seq<History.Order>) returns (options: seq<string>)
    ensures options == HistoryOptions(orders)
  {
    options := [];
    var i := 0;
    while i < |orders|
      invariant 0 <= i <= |orders|
      invariant options == Labels(orders)[..i]
    {
      var row := OrderLabel(orders[i]);
      TakeOneMore(Labels(orders), i);
      options := options + [row];
      i := i + 1;
    }
    assert Labels(orders)[..i] == Labels(orders);
    options := options + ["", BACK_OPTION, REFRESH_OPTION];
  }

  /** What one menu result does in the history loop. */
  datatype HistoryStep = CloseView | Reload | OpenDetails(order: History.Order) | ViewCrash

  /**
    The history loop's reading of a menu result, `n` being the number of
    orders: the tests for `-1`, `-2` and `-3` first, then `selected_idx >=
    len(osr_orders)`, which raises TypeError for `None`.
   */
  function HistoryStepFor(orders: seq<History.Order>, r: Menu.MenuResult): (s: HistoryStep)
    ensures r == Menu.Index(-1) || r == Menu.Index(Menu.BACK) ==> s == CloseView
    ensures r == Menu.Index(Menu.REFRESH) ==> s == Reload
    ensures r.NoneResult? ==> s == ViewCrash
    ensures r.Index? && 0 <= r.i < |orders| ==> s == OpenDetails(orders[r.i])
    ensures r == Menu.Index(|orders|) || r == Menu.Index(|orders| + 2) ==> s == Reload
    ensures r == Menu.Index(|orders| + 1) ==> s == CloseView
  {
    match r
    case NoneResult => ViewCrash
    case Selection(_) => ViewCrash
    case Index(i) =>
      if i == -1 || i == Menu.BACK then CloseView
      else if i == Menu.REFRESH then Reload
      else if i >= |orders| then (if i - |orders| == 1 then CloseView else Reload)
      else match PyIndex(orders, i)
        case Some(o) => OpenDetails(o)
        case None => ViewCrash
  }

  /**
    Of the results the history menu can give, only `None` (the `q` key)
    makes the loop raise; the rest close, reload or open an order.
   */
  lemma HistoryOnlyQuitCrashes(orders: seq<History.Order>, r: Menu.MenuResult)
    requires Menu.ValidResult(|orders| + 3, false, r)
    ensures HistoryStepFor(orders, r) == ViewCrash <==> r.NoneResult?
  {
  }

  // Order details

  /** The seven statuses the details screen knows. */
  const KNOWN_STATUSES: set<string> := {"sent", "cancelled", "cancelled_dry_run", "completed", "failed", "processing", "pending"}

  /** The status shown in the details, marked with its symbol. */
  function StatusLabel(status: string): (r: string)
    ensures status == "sent" ==> r == "T SENT"
    ensures status == "cancelled" ==> r == "ERR CANCELLED"
    ensures status == "cancelled_dry_run" ==> r == "! CANCELLED (DRY RUN)"
    ensures status == "completed" ==> r == "OK COMPLETED"
    ensures status == "failed" ==> r == "ERR FAILED"
    ensures status == "processing" ==> r == "T PROCESSING"
    ensures status == "pending" ==> r == "T PENDING"
    ensures status !in KNOWN_STATUSES ==> r == "? " + Upper(status)
  {
    if status == "sent" then "T SENT"
    else if status == "cancelled" then "ERR CANCELLED"
    else if status == "cancelled_dry_run" then "! CANCELLED (DRY RUN)"
    else if status == "completed" then "OK COMPLETED"
    else if status == "failed" then "ERR FAILED"
    else if status == "processing" then "T PROCESSING"
    else if status == "pending" then "T PENDING"
    else "? " + Upper(status)
  }

  /** An unknown status is shown as itself in capitals behind `"? "`, so it never looks like a known one. */
  lemma {:induction false} UnknownStatusMarked(status: string)
    requires status !in KNOWN_STATUSES
    ensures StartsWith(StatusLabel(status), "? ")
    ensures StatusLabel(status)[2..] == Upper(status)
  {
    assert StatusLabel(status) == "? " + Upper(status);
  }

  /** The "Updated" line is shown when there is an update time and it differs from the creation time. */
  predicate ShowsUpdated(created: string, updated: string) {
    updated != "" && updated != created
  }

  /** The action menu: four entries on a Test server, three otherwise, Back always last. */
  function ActionOptions(serverType: string): (r: seq<string>)
    ensures |r| == if serverType == TEST then 4 else 3
    ensures r[0] == "Resend Same Order" && r[1] == "Edit and Resend Order" && r[|r| - 1] == "Back to History"
    ensures serverType == TEST ==> r[2] == "Generate Sandbox Commands"
  {
    if serverType == TEST then ["Resend Same Order", "Edit and Resend Order", "Generate Sandbox Commands", "Back to History"]
    else ["Resend Same Order", "Edit and Resend Order", "Back to History"]
  }

  /** The lines of the details screen. */
  function DetailLines(o: History.Order, serverType: string): (r: seq<string>)
    ensures var created := GetOr(o, "created", "Unknown");
      var updated := GetOr(o, "updated", "");
      && |r| == 10 + (if ShowsUpdated(created, updated) then 1 else 0) + (if serverType == TEST then 2 else 1)
      && r[3] == "S Status: " + StatusLabel(GetOr(o, "status", "unknown"))
      && (ShowsUpdated(created, updated) ==> r[6] == "@ Updated: " + updated)
      && (!ShowsUpdated(created, updated) ==> r[6] == "")
  {
    var created := GetOr(o, "created", "Unknown");
    var updated := GetOr(o, "updated", "");
    var head := [
      "# Order ID: " + GetOr(o, "order_id", "Unknown"),
      "T Type: " + GetOr(o, "type", "unknown"),
      "O OSR ID: " + GetOr(o, "osrid", "Unknown"),
      "S Status: " + StatusLabel(GetOr(o, "status", "unknown")),
      "",
      "@ Created: " + created
    ];
    var upd := if ShowsUpdated(created, updated) then ["@ Updated: " + updated] else [];
    var actions := ["", "Available Actions:", "1. > Resend Same Order", "2. = Edit and Resend Order"];
    var tail := if serverType == TEST then ["3. @ Generate Sandbox Commands", "4. < Back to History"] else ["3. < Back to History"];
    var r := head + (upd + (actions + tail));
    assert r[3] == head[3] && r[6] == (upd + (actions + tail))[0];
    r
  }

  /** What the details menu's result would lead to. */
  datatype DetailsAction = DetailsLeft | ResendNotice | EditResendNotice | SandboxCommands | BackToHistory

  /**
    The dispatch after the details menu. It is never reached: the menu is
    called with an `allow_empty_selection` argument `display_menu` does not
    take, so opening an order's details raises TypeError.
   */
  function ActionFor(serverType: string, r: Menu.MenuResult): (a: DetailsAction)
    ensures r.NoneResult? <==> a == DetailsLeft
    ensures a == SandboxCommands <==> serverType == TEST && r == Menu.Index(2)
    ensures r == Menu.Index(0) ==> a == ResendNotice
    ensures r == Menu.Index(1) ==> a == EditResendNotice
  {
    match r
    case NoneResult => DetailsLeft
    case Index(i) =>
      if i == 0 then ResendNotice
      else if i == 1 then EditResendNotice
      else if serverType == TEST && i == 2 then SandboxCommands
      else BackToHistory
    case Selection(_) => BackToHistory
  }

  // The history loop

  /** How the history view ends. */
  datatype ViewEnd = NeedsOsr | NoHistory | Closed | ViewCrashed | ViewWaiting

  /** The history loop over the menu results it gets; the orders are read afresh each time round and do not change. */
  function ViewLoop(orders: seq<History.Order>, results: seq<Menu.MenuResult>): ViewEnd
    decreases |results|
  {
    if orders == [] then NoHistory
    else if results == [] then ViewWaiting
    else match HistoryStepFor(orders, results[0])
      case Reload => ViewLoop(orders, results[1..])
      case CloseView => Closed
      case OpenDetails(_) => ViewCrashed
      case ViewCrash => ViewCrashed
  }

  /** The first menu result that does not just reload. */
  function FirstNonReload(orders: seq<History.Order>, results: seq<Menu.MenuResult>): (j: nat)
    ensures j <= |results|
    ensures j < |results| ==> HistoryStepFor(orders, results[j]) != Reload
    ensures forall i :: 0 <= i < j ==> HistoryStepFor(orders, results[i]) == Reload
    decreases |results|
  {
    if results == [] then 0
    else if HistoryStepFor(orders, results[0]) != Reload then 0
    else 1 + FirstNonReload(orders, results[1..])
  }

  /**
    Reloads are all the loop does until the first other result: that one
    closes the view (Back, its `-3` key or `-1`) or ends it in an exception
    (an order's details, or `q`).
   */
  lemma {:induction false} ViewDecidedByFirstNonReload(orders: seq<History.Order>, results: seq<Menu.MenuResult>)
    requires orders != []
    ensures var j := FirstNonReload(orders, results);
      && (j == |results| ==> ViewLoop(orders, results) == ViewWaiting)
      && (j < |results| ==> ViewLoop(orders, results) == if HistoryStepFor(orders, results[j]) == CloseView then Closed else ViewCrashed)
    decreases |results|
  {
    if results != [] && HistoryStepFor(orders, results[0]) == Reload {
      ViewDecidedByFirstNonReload(orders, results[1..]);
      var j := FirstNonReload(orders, results);
      if j < |results| {
        assert results[1..][j - 1] == results[j];
      }
    }
  }

  /** `view_order_history_menu`. Nothing in it writes to the history. */
  method ViewOrderHistoryMenu(config: Config, envOsrId: Option<string>, store: History.HistoryStore, results: seq<Menu.MenuResult>)
    returns (end: ViewEnd)
    ensures var osrid := ConfigStore.ResolveOsr(config, envOsrId);
      end == if osrid == "" then NeedsOsr else ViewLoop(History.OrdersForOsr(store.Orders(), osrid), results)
  {
    var osrid := ConfigStore.ResolveOsr(config, envOsrId);
    if osrid == "" {
      return NeedsOsr;
    }
    ghost var all := History.OrdersForOsr(store.Orders(), osrid);
    var i := 0;
    while true
      invariant 0 <= i <= |results|
      invariant ViewLoop(all, results[i..]) == ViewLoop(all, results)
      decreases |results| - i
    {
      var orders := store.GetOrdersForOsr(osrid);
      if orders == [] {
        return NoHistory;
      }
      var options := BuildHistoryOptions(orders);
      if i == |results| {
        return ViewWaiting;
      }
      assert results[i..][1..] == results[i + 1..];
      match HistoryStepFor(orders, results[i]) {
        case Reload =>
        case CloseView =>
          return Closed;
        case OpenDetails(_) =>
          return ViewCrashed;
        case ViewCrash =>
          return ViewCrashed;
      }
      i := i + 1;
    }
  }

  // Cancelling

  /** How the cancel menu's result is taken: leave, cancel a selection, or raise. */
  datatype CancelStart = CancelLeave | CancelPick(items: set<int>) | CancelMenuCrash

  /** One row of the cancel menu, `"<order_id> (<type>) - <status>"`; `None` for a KeyError. */
  function CancelLabel(o: History.Order): (r: Option<string>)
    ensures r.Some? <==> HasKey(o, "order_id") && HasKey(o, "type") && HasKey(o, "status")
  {
    match (Get(o, "order_id"), Get(o, "type"), Get(o, "status"))
    case (Some(id), Some(t), Some(st)) => Some(id + " (" + t + ") - " + st)
    case _ => None
  }

  /** The rows of the cancel menu; building them raises when a record lacks one of the three keys. */
  function CancelOptions(orders: seq<History.Order>): (r: Option<seq<string>>)
    ensures r.Some? <==> forall k :: 0 <= k < |orders| ==> CancelLabel(orders[k]).Some?
    ensures r.Some? ==> |r.value| == |orders| && forall k :: 0 <= k < |orders| ==> Some(r.value[k]) == CancelLabel(orders[k])
  {
    if forall k :: 0 <= k < |orders| ==> CancelLabel(orders[k]).Some? then
      Some(seq(|orders|, k requires 0 <= k < |orders| => CancelLabel(orders[k]).value))
    else None
  }

  /**
    `if selected_indices is None or not selected_indices: break`; a `-2`
    or `-3` from `r` or `b` is not caught there and raises when it is
    iterated as a list of indices (an index `0` is falsy and leaves).
   */
  function CancelMenuChoice(r: Menu.MenuResult): (c: CancelStart)
    ensures r.NoneResult? || r == Menu.Selection({}) || r == Menu.Index(0) ==> c == CancelLeave
    ensures r.Selection? && r.items != {} ==> c == CancelPick(r.items)
    ensures r.Index? && r.i != 0 ==> c == CancelMenuCrash
  {
    match r
    case NoneResult => CancelLeave
    case Selection(items) => if items == {} then CancelLeave else CancelPick(items)
    case Index(i) => if i == 0 then CancelLeave else CancelMenuCrash
  }

  /** Of what the multi-select menu gives, `r` and `b` raise, an empty selection leaves and any other selection goes on to confirmation. */
  lemma CancelMenuOutcomes(n: nat, r: Menu.MenuResult)
    requires Menu.ValidResult(n, true, r)
    ensures CancelMenuChoice(r) == CancelMenuCrash <==> r == Menu.Index(Menu.REFRESH) || r == Menu.Index(Menu.BACK)
    ensures CancelMenuChoice(r).CancelPick? ==> forall i :: i in CancelMenuChoice(r).items ==> 0 <= i < n
  {
  }

  /** `[orders[i] for i in selected_indices]`; `None` for an IndexError. */
  function SelectedOrders(orders: seq<History.Order>, indices: seq<int>): (r: Option<seq<History.Order>>)
    ensures r.Some? <==> forall k :: 0 <= k < |indices| ==> -|orders| <= indices[k] < |orders|
    ensures r.Some? ==> |r.value| == |indices| && forall k :: 0 <= k < |indices| ==> Some(r.value[k]) == PyIndex(orders, indices[k])
  {
    if forall k :: 0 <= k < |indices| ==> -|orders| <= indices[k] < |orders| then
      Some(seq(|indices|, k requires 0 <= k < |indices| => PyIndex(orders, indices[k]).value))
    else None
  }

  /** A record `cancel_order` can be called for: it has a `type` and an `order_id`. */
  predicate Cancellable(o: History.Order) {
    HasKey(o, "type") && HasKey(o, "order_id")
  }

  /** The result of trying to cancel one record. */
  function CancelOne(o: History.Order, dryRun: bool, shell: string -> OrderSender.ShellRun): (bool, string)
    requires Cancellable(o)
  {
    OrderSender.CancelOrder(dryRun, Get(o, "type").value, Get(o, "order_id").value, shell)
  }

  /**
    What the cancel loop collects: the ids cancelled (each one then marked
    `cancelled` in the history), the failure messages, and whether a
    record without `type` or `order_id` stopped it with a KeyError.
   */
  datatype Tally = Tally(cancelled: seq<string>, failures: seq<string>, crashed: bool)

  function TallyOf(selected: seq<History.Order>, dryRun: bool, shell: string -> OrderSender.ShellRun): Tally
    decreases |selected|
  {
    if selected == [] then Tally([], [], false)
    else
      var o := selected[0];
      if !Cancellable(o) then Tally([], [], true)
      else
        var rest := TallyOf(selected[1..], dryRun, shell);
        var id := Get(o, "order_id").value;
        var (ok, msg) := CancelOne(o, dryRun, shell);
        if ok then Tally([id] + rest.cancelled, rest.failures, rest.crashed)
        else Tally(rest.cancelled, [id + ": " + msg] + rest.failures, rest.crashed)
  }

  /** What the loop has collected before `rest`, followed by what `rest` gives. */
  function Combine(done: Tally, rest: Tally): Tally {
    Tally(done.cancelled + rest.cancelled, done.failures + rest.failures, rest.crashed)
  }

  /** What the loop has collected once it has also tried `o`. */
  function Absorb(done: Tally, o: History.Order, dryRun: bool, shell: string -> OrderSender.ShellRun): Tally
    requires Cancellable(o)
  {
    var id := Get(o, "order_id").value;
    var (ok, msg) := CancelOne(o, dryRun, shell);
    if ok then Tally(done.cancelled + [id], done.failures, done.crashed)
    else Tally(done.cancelled, done.failures + [id + ": " + msg], done.crashed)
  }

  /** Trying the next order moves it from what is left to what is done without changing the total. */
  lemma {:induction false} CombineStep(done: Tally, s: seq<History.Order>, dryRun: bool, shell: string -> OrderSender.ShellRun)
    requires s != [] && Cancellable(s[0])
    ensures Combine(done, TallyOf(s, dryRun, shell)) == Combine(Absorb(done, s[0], dryRun, shell), TallyOf(s[1..], dryRun, shell))
  {
    var rest := TallyOf(s[1..], dryRun, shell);
    var id := Get(s[0], "order_id").value;
    var r := CancelOne(s[0], dryRun, shell);
    var line := id + ": " + r.1;
    assert TallyOf(s, dryRun, shell) == if r.0 then Tally([id] + rest.cancelled, rest.failures, rest.crashed)
      else Tally(rest.cancelled, [line] + rest.failures, rest.crashed);
    assert Absorb(done, s[0], dryRun, shell) == if r.0 then Tally(done.cancelled + [id], done.failures, done.crashed)
      else Tally(done.cancelled, done.failures + [line], done.crashed);
    MoveFront(done, rest, r.0, id, line);
  }

  /** The list algebra behind `CombineStep`: one id or one failure line moves from the front of `rest` to the end of `done`. */
  lemma {:induction false} MoveFront(done: Tally, rest: Tally, ok: bool, id: string, line: string)
    ensures ok ==>
      Combine(done, Tally([id] + rest.cancelled, rest.failures, rest.crashed)) == Combine(Tally(done.cancelled + [id], done.failures, done.crashed), rest)
    ensures !ok ==>
      Combine(done, Tally(rest.cancelled, [line] + rest.failures, rest.crashed)) == Combine(Tally(done.cancelled, done.failures + [line], done.crashed), rest)
  {
    assert done.cancelled + ([id] + rest.cancelled) == done.cancelled + [id] + rest.cancelled;
    assert done.failures + ([line] + rest.failures) == done.failures + [line] + rest.failures;
  }

  /** A record without `type` or `order_id` ends the tally with what had been collected. */
  lemma {:induction false} CombineCrash(done: Tally, s: seq<History.Order>, dryRun: bool, shell: string -> OrderSender.ShellRun)
    requires s != [] && !Cancellable(s[0])
    ensures Combine(done, TallyOf(s, dryRun, shell)) == Tally(done.cancelled, done.failures, true)
  {
    assert done.cancelled + [] == done.cancelled && done.failures + [] == done.failures;
  }

  /** Without a KeyError every selected order is either cancelled or listed as failed. */
  lemma {:induction false} TallyCounts(selected: seq<History.Order>, dryRun: bool, shell: string -> OrderSender.ShellRun)
    ensures var t := TallyOf(selected, dryRun, shell);
      && |t.cancelled| + |t.failures| <= |selected|
      && (!t.crashed <==> forall k :: 0 <= k < |selected| ==> Cancellable(selected[k]))
      && (!t.crashed ==> |t.cancelled| + |t.failures| == |selected|)
    decreases |selected|
  {
    if selected != [] {
      TallyCounts(selected[1..], dryRun, shell);
      assert forall k :: 1 <= k < |selected| ==> selected[k] == selected[1..][k - 1];
    }
  }

  /** The first order's id leads the cancelled ids exactly when its cancel call succeeded. */
  lemma {:induction false} TallyHead(selected: seq<History.Order>, dryRun: bool, shell: string -> OrderSender.ShellRun)
    requires selected != [] && Cancellable(selected[0])
    ensures var t, rest := TallyOf(selected, dryRun, shell), TallyOf(selected[1..], dryRun, shell);
      t.cancelled == (if CancelOne(selected[0], dryRun, shell).0 then [Get(selected[0], "order_id").value] else []) + rest.cancelled
  {
    var rest := TallyOf(selected[1..], dryRun, shell);
    if !CancelOne(selected[0], dryRun, shell).0 {
      assert [] + rest.cancelled == rest.cancelled;
    }
  }

  /** Everything was cancelled exactly when every cancel call succeeded. */
  lemma {:induction false} AllCancelledIff(selected: seq<History.Order>, dryRun: bool, shell: string -> OrderSender.ShellRun)
    requires forall k :: 0 <= k < |selected| ==> Cancellable(selected[k])
    ensures |TallyOf(selected, dryRun, shell).cancelled| == |selected| <==>
      forall k :: 0 <= k < |selected| ==> CancelOne(selected[k], dryRun, shell).0
    decreases |selected|
  {
    if selected != [] {
      var tail := selected[1..];
      var ok := CancelOne(selected[0], dryRun, shell).0;
      assert forall k :: 0 <= k < |tail| ==> Cancellable(tail[k]) by {
        assert forall k :: 0 <= k < |tail| ==> tail[k] == selected[k + 1];
      }
      AllCancelledIff(tail, dryRun, shell);
      TallyCounts(tail, dryRun, shell);
      TallyHead(selected, dryRun, shell);
      if forall k :: 0 <= k < |selected| ==> CancelOne(selected[k], dryRun, shell).0 {
        forall k | 0 <= k < |tail|
          ensures CancelOne(tail[k], dryRun, shell).0
        {
          assert tail[k] == selected[k + 1];
        }
      }
      if ok && forall k :: 0 <= k < |tail| ==> CancelOne(tail[k], dryRun, shell).0 {
        forall k | 0 <= k < |selected|
          ensures CancelOne(selected[k], dryRun, shell).0
        {
          if k > 0 {
            assert selected[k] == tail[k - 1];
          }
        }
      }
    }
  }

  /** Nothing was cancelled exactly when every cancel call failed. */
  lemma {:induction false} NoneCancelledIff(selected: seq<History.Order>, dryRun: bool, shell: string -> OrderSender.ShellRun)
    requires forall k :: 0 <= k < |selected| ==> Cancellable(selected[k])
    ensures TallyOf(selected, dryRun, shell).cancelled == [] <==>
      forall k :: 0 <= k < |selected| ==> !CancelOne(selected[k], dryRun, shell).0
    decreases |selected|
  {
    if selected != [] {
      var tail := selected[1..];
      var ok := CancelOne(selected[0], dryRun, shell).0;
      assert forall k :: 0 <= k < |tail| ==> Cancellable(tail[k]) by {
        assert forall k :: 0 <= k < |tail| ==> tail[k] == selected[k + 1];
      }
      NoneCancelledIff(tail, dryRun, shell);
      TallyHead(selected, dryRun, shell);
      if forall k :: 0 <= k < |selected| ==> !CancelOne(selected[k], dryRun, shell).0 {
        forall k | 0 <= k < |tail|
          ensures !CancelOne(tail[k], dryRun, shell).0
        {
          assert tail[k] == selected[k + 1];
        }
      }
      if !ok && forall k :: 0 <= k < |tail| ==> !CancelOne(tail[k], dryRun, shell).0 {
        forall k | 0 <= k < |selected|
          ensures !CancelOne(selected[k], dryRun, shell).0
        {
          if k > 0 {
            assert selected[k] == tail[k - 1];
          }
        }
      }
    }
  }

  /** In a dry run every selected order counts as cancelled. */
  lemma {:induction false} DryRunCancelsAll(selected: seq<History.Order>, shell: string -> OrderSender.ShellRun)
    requires forall k :: 0 <= k < |selected| ==> Cancellable(selected[k])
    ensures |TallyOf(selected, true, shell).cancelled| == |selected|
  {
    forall k | 0 <= k < |selected|
      ensures CancelOne(selected[k], true, shell).0
    {
      var o := selected[k];
      OrderSender.CancelOrderOutcome(true, Get(o, "type").value, Get(o, "order_id").value, shell);
    }
    AllCancelledIff(selected, true, shell);
  }

  /**
    Orders that made it into the cancel menu all have `type` and
    `order_id`, so cancelling a selection of them never stops on a KeyError.
   */
  lemma {:induction false} ListedOrdersCancel(orders: seq<History.Order>, indices: seq<int>, dryRun: bool, shell: string -> OrderSender.ShellRun)
    requires CancelOptions(orders).Some? && SelectedOrders(orders, indices).Some?
    ensures !TallyOf(SelectedOrders(orders, indices).value, dryRun, shell).crashed
  {
    var selected := SelectedOrders(orders, indices).value;
    forall k | 0 <= k < |selected|
      ensures Cancellable(selected[k])
    {
      var i := indices[k];
      var j := if i >= 0 then i else |orders| + i;
      assert selected[k] == orders[j];
      assert CancelLabel(orders[j]).Some?;
    }
    TallyCounts(selected, dryRun, shell);
  }

  /** The message `_confirm_and_cancel_orders` ends with. */
  datatype CancelReport = AllCancelled(count: nat) | PartlyCancelled(count: nat, failures: seq<string>) | NoneCancelled(failures: seq<string>)

  /** Success when every selected order was cancelled, partial when some were, an error when none were. */
  function Report(count: nat, total: nat, failures: seq<string>): (r: CancelReport)
    ensures r.AllCancelled? <==> count == total
    ensures r.PartlyCancelled? <==> count != total && count > 0
    ensures r.NoneCancelled? <==> count != total && count == 0
    ensures r.PartlyCancelled? || r.NoneCancelled? ==> r.failures == failures
  {
    if count == total then AllCancelled(count)
    else if count > 0 then PartlyCancelled(count, failures)
    else NoneCancelled(failures)
  }

  /** The history file after marking `ids` cancelled one after another; each `update_status` reads the file afresh. */
  function AfterUpdates(f: History.HistoryFile, ids: seq<string>, now: string, writable: bool): (r: History.HistoryFile)
    ensures !writable ==> r == f
    decreases |ids|
  {
    if ids == [] || !writable then f
    else History.Stored(History.StatusUpdated(History.Loaded(AfterUpdates(f, ids[..|ids| - 1], now, writable)), ids[|ids| - 1], "cancelled", now))
  }

  /** How `_confirm_and_cancel_orders` ends. */
  datatype CancelEnd = SelectionCrash | KeyWaiting | Aborted | CancelCrashed | Reported(report: CancelReport)

  /** Python's `key not in (ord("y"), ord("Y"))`. */
  predicate ConfirmsCancel(k: Key) {
    k == Ord('y') || k == Ord('Y')
  }

  /** The outcome of `_confirm_and_cancel_orders` for the orders picked by `indices` and the keys pressed. */
  function CancelRun(orders: seq<History.Order>, indices: seq<int>, keys: seq<Key>, dryRun: bool, shell: string -> OrderSender.ShellRun): (e: CancelEnd)
    ensures e.Reported? ==> keys != [] && ConfirmsCancel(keys[0])
    ensures keys != [] && !ConfirmsCancel(keys[0]) && SelectedOrders(orders, indices).Some? ==> e == Aborted
  {
    match SelectedOrders(orders, indices)
    case None => SelectionCrash
    case Some(selected) =>
      if keys == [] then KeyWaiting
      else if !ConfirmsCancel(keys[0]) then Aborted
      else
        var t := TallyOf(selected, dryRun, shell);
        if t.crashed then CancelCrashed
        else Reported(Report(|t.cancelled|, |selected|, t.failures))
  }

  /**
    The loop of `_confirm_and_cancel_orders`: each order is cancelled in
    turn and each one that goes through is marked `cancelled` in the
    history; a record without `type` or `order_id` stops it.
   */
  method CancelEach(selected: seq<History.Order>, dryRun: bool, shell: string -> OrderSender.ShellRun,
                    store: History.HistoryStore, now: string, writable: bool)
    returns (t: Tally)
    modifies store
    ensures t == TallyOf(selected, dryRun, shell)
    ensures store.file == AfterUpdates(old(store.file), t.cancelled, now, writable)
  {
    ghost var f0 := store.file;
    ghost var whole := TallyOf(selected, dryRun, shell);
    var done := Tally([], [], false);
    var i := 0;
    while i < |selected|
      invariant 0 <= i <= |selected|
      invariant !done.crashed
      invariant Combine(done, TallyOf(selected[i..], dryRun, shell)) == whole
      invariant store.file == AfterUpdates(f0, done.cancelled, now, writable)
    {
      var o := selected[i];
      assert selected[i..][0] == o;
      assert selected[i..][1..] == selected[i + 1..];
      if !Cancellable(o) {
        CombineCrash(done, selected[i..], dryRun, shell);
        return Tally(done.cancelled, done.failures, true);
      }
      var orderId := Get(o, "order_id").value;
      var (ok, msg) := CancelOne(o, dryRun, shell);
      CombineStep(done, selected[i..], dryRun, shell);
      ghost var next := Absorb(done, o, dryRun, shell);
      if ok {
        assert (done.cancelled + [orderId])[..|done.cancelled|] == done.cancelled;
        store.UpdateStatus(orderId, "cancelled", now, writable);
        done := Tally(done.cancelled + [orderId], done.failures, false);
      } else {
        done := Tally(done.cancelled, done.failures + [orderId + ": " + msg], false);
      }
      assert done == next;
      i := i + 1;
    }
    assert selected[i..] == [];
    assert done.cancelled + [] == done.cancelled && done.failures + [] == done.failures;
    t := done;
  }

  /**
    `_confirm_and_cancel_orders`: after a `y`/`Y` the selected orders are
    cancelled; any other key cancels nothing.
   */
  method ConfirmAndCancelOrders(orders: seq<History.Order>, indices: seq<int>, keys: seq<Key>, dryRun: bool,
                                shell: string -> OrderSender.ShellRun, store: History.HistoryStore, now: string, writable: bool)
    returns (e: CancelEnd)
    modifies store
    ensures e == CancelRun(orders, indices, keys, dryRun, shell)
    ensures store.file == if keys != [] && ConfirmsCancel(keys[0]) && SelectedOrders(orders, indices).Some?
      then AfterUpdates(old(store.file), TallyOf(SelectedOrders(orders, indices).value, dryRun, shell).cancelled, now, writable)
      else old(store.file)
  {
    var picked := SelectedOrders(orders, indices);
    if picked.None? {
      return SelectionCrash;
    }
    var selected := picked.value;
    if keys == [] {
      return KeyWaiting;
    }
    if !ConfirmsCancel(keys[0]) {
      return Aborted;
    }
    var t := CancelEach(selected, dryRun, shell, store, now, writable);
    if t.crashed {
      return CancelCrashed;
    }
    e := Reported(Report(|t.cancelled|, |selected|, t.failures));
  }

  /** How the cancel screen ends. */
  datatype CancelScreen = CancelNeedsOsr | NoActiveOrders | CancelClosed | CancelScreenCrash | CancelDone(end: CancelEnd)

  /**
    `cancel_orders_menu`: no OSR id shows an error and stops, no active
    orders an information box; otherwise the multi-select menu's result
    decides. `listing` is the order in which Python iterates the selected
    set of indices.
   */
  method CancelOrdersMenu(config: Config, envOsrId: Option<string>, r: Menu.MenuResult, listing: seq<int>, keys: seq<Key>,
                          dryRun: bool, shell: string -> OrderSender.ShellRun, store: History.HistoryStore, now: string, writable: bool)
    returns (screen: CancelScreen)
    requires r.Selection? ==> forall i :: i in listing <==> i in r.items
    modifies store
    ensures screen == CancelNeedsOsr <==> ConfigStore.ResolveOsr(config, envOsrId) == ""
    ensures var osrid := ConfigStore.ResolveOsr(config, envOsrId);
      var active := History.ActiveOrders(old(store.Orders()), osrid);
      && (screen == NoActiveOrders <==> osrid != "" && active == [])
      && (screen == CancelClosed <==>
            osrid != "" && active != [] && CancelOptions(active).Some? && CancelMenuChoice(r).CancelLeave?)
      && (screen == CancelScreenCrash <==>
            osrid != "" && active != [] && (CancelOptions(active).None? || CancelMenuChoice(r).CancelMenuCrash?))
      && (screen.CancelDone? <==>
            osrid != "" && active != [] && CancelOptions(active).Some? && CancelMenuChoice(r).CancelPick?)
    ensures var active := History.ActiveOrders(old(store.Orders()), ConfigStore.ResolveOsr(config, envOsrId));
      screen.CancelDone? ==>
        && screen.end == CancelRun(active, listing, keys, dryRun, shell)
        && store.file == if keys != [] && ConfirmsCancel(keys[0]) && SelectedOrders(active, listing).Some?
             then AfterUpdates(old(store.file), TallyOf(SelectedOrders(active, listing).value, dryRun, shell).cancelled, now, writable)
             else old(store.file)
    ensures !screen.CancelDone? ==> store.file == old(store.file)
  {
    var osrid := ConfigStore.ResolveOsr(config, envOsrId);
    if osrid == "" {
      return CancelNeedsOsr;
    }
    var orders := store.GetActiveOrders(osrid);
    if orders == [] {
      return NoActiveOrders;
    }
    var options := CancelOptions(orders);
    if options.None? {
      return CancelScreenCrash;
    }
    match CancelMenuChoice(r) {
      case CancelLeave =>
        return CancelClosed;
      case CancelMenuCrash =>
        return CancelScreenCrash;
      case CancelPick(_) =>
        var e := ConfirmAndCancelOrders(orders, listing, keys, dryRun, shell, store, now, writable);
        return CancelDone(e);
    }
  }
}
