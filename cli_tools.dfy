/**
  The history clean-up and temporary-file rules of utils/cli_tools.py:
  `cleanup_history` keeps the orders whose timestamp is at or after a
  cutoff the time frame gives, and `clean_files` removes the files and
  directories its name rules mark as temporary.
 */
module CliTools {
  import opened Wrappers
  import opened PyText
  import opened PyDict
  import History

  /** Seconds in a day; times are whole seconds. */
  const DAY: int := 86400

  /**
    The cutoff of a time frame: now for `all`, one day, one or two weeks or
    thirty days back, else the date `parseDate` reads as `YYYY-MM-DD`
    (`None` when it does not).
   */
  function Cutoff(timeframe: string, now: int, parseDate: string -> Option<int>): (c: Option<int>)
    ensures timeframe == "all" ==> c == Some(now)
    ensures timeframe == "1d" ==> c == Some(now - DAY)
    ensures timeframe == "1w" ==> c == Some(now - 7 * DAY)
    ensures timeframe == "2w" ==> c == Some(now - 14 * DAY)
    ensures timeframe == "1m" ==> c == Some(now - 30 * DAY)
    ensures timeframe !in {"all", "1d", "1w", "2w", "1m"} ==> c == parseDate(timeframe)
  {
    if timeframe == "all" then Some(now)
    else if timeframe == "1d" then Some(now - DAY)
    else if timeframe == "1w" then Some(now - 7 * DAY)
    else if timeframe == "2w" then Some(now - 14 * DAY)
    else if timeframe == "1m" then Some(now - 30 * DAY)
    else parseDate(timeframe)
  }

  /** `datetime.fromisoformat(order.get("timestamp", ""))`; `None` when it raises. */
  function TimeOf(o: History.Order, fromIso: string -> Option<int>): Option<int> {
    fromIso(GetOr(o, "timestamp", ""))
  }

  /** An order whose time could be read and is not before the cutoff. */
  predicate Recent(o: History.Order, cutoff: int, fromIso: string -> Option<int>) {
    TimeOf(o, fromIso).Some? && TimeOf(o, fromIso).value >= cutoff
  }

  /** Every order's timestamp can be read. */
  predicate AllTimed(orders: seq<History.Order>, fromIso: string -> Option<int>) {
    forall k :: 0 <= k < |orders| ==> TimeOf(orders[k], fromIso).Some?
  }

  /** The orders the filter keeps, in their order. */
  function KeptSince(orders: seq<History.Order>, cutoff: int, fromIso: string -> Option<int>): (r: seq<History.Order>)
    ensures |r| <= |orders|
    ensures forall o :: o in r ==> o in orders && Recent(o, cutoff, fromIso)
    decreases |orders|
  {
    if orders == [] then []
    else
      var rest := KeptSince(orders[1..], cutoff, fromIso);
      if Recent(orders[0], cutoff, fromIso) then [orders[0]] + rest else rest
  }

  /** The orders the filter drops. */
  function DroppedSince(orders: seq<History.Order>, cutoff: int, fromIso: string -> Option<int>): (r: seq<History.Order>)
    decreases |orders|
  {
    if orders == [] then []
    else
      var rest := DroppedSince(orders[1..], cutoff, fromIso);
      if Recent(orders[0], cutoff, fromIso) then rest else [orders[0]] + rest
  }

  /**
    The filter keeps a recent order and drops the rest, so what is kept and
    what is dropped add up to the original orders, each side in the
    original order.
   */
  lemma {:induction false} KeptAndDropped(orders: seq<History.Order>, cutoff: int, fromIso: string -> Option<int>)
    ensures |KeptSince(orders, cutoff, fromIso)| + |DroppedSince(orders, cutoff, fromIso)| == |orders|
    ensures multiset(KeptSince(orders, cutoff, fromIso)) + multiset(DroppedSince(orders, cutoff, fromIso)) == multiset(orders)
    ensures forall o :: o in orders && Recent(o, cutoff, fromIso) ==> o in KeptSince(orders, cutoff, fromIso)
    ensures forall o :: o in DroppedSince(orders, cutoff, fromIso) ==> !Recent(o, cutoff, fromIso)
    decreases |orders|
  {
    if orders != [] {
      KeptAndDropped(orders[1..], cutoff, fromIso);
      assert orders == [orders[0]] + orders[1..];
    }
  }

  /** Filtering a concatenation filters each part: the kept orders keep their relative order. */
  lemma {:induction false} KeptSinceAppend(a: seq<History.Order>, b: seq<History.Order>, cutoff: int, fromIso: string -> Option<int>)
    ensures KeptSince(a + b, cutoff, fromIso) == KeptSince(a, cutoff, fromIso) + KeptSince(b, cutoff, fromIso)
    decreases |a|
  {
    if a == [] {
      assert a + b == b;
    } else {
      assert (a + b)[0] == a[0];
      assert (a + b)[1..] == a[1..] + b;
      KeptSinceAppend(a[1..], b, cutoff, fromIso);
    }
  }

  /** The filter over one more order of a prefix. */
  lemma {:induction false} KeptSinceStep(orders: seq<History.Order>, i: nat, cutoff: int, fromIso: string -> Option<int>)
    requires i < |orders|
    ensures KeptSince(orders[..i + 1], cutoff, fromIso)
      == KeptSince(orders[..i], cutoff, fromIso) + if Recent(orders[i], cutoff, fromIso) then [orders[i]] else []
  {
    var o := orders[i];
    assert orders[..i + 1] == orders[..i] + [o];
    KeptSinceAppend(orders[..i], [o], cutoff, fromIso);
    assert [o][1..] == [];
    assert KeptSince([o], cutoff, fromIso) == (if Recent(o, cutoff, fromIso) then [o] else []);
  }

  /** Every timestamp of a prefix one order longer can be read. */
  lemma {:induction false} AllTimedStep(orders: seq<History.Order>, i: nat, fromIso: string -> Option<int>)
    requires i < |orders|
    requires AllTimed(orders[..i], fromIso) && TimeOf(orders[i], fromIso).Some?
    ensures AllTimed(orders[..i + 1], fromIso)
  {
    var p, q := orders[..i + 1], orders[..i];
    forall k | 0 <= k < |p|
      ensures TimeOf(p[k], fromIso).Some?
    {
      if k < i {
        assert p[k] == q[k];
      }
    }
  }

  /**
    The loop of `cleanup_history` that appends each order at or after the
    cutoff; `None` when a timestamp cannot be read, which raises.
   */
  method FilterSince(orders: seq<History.Order>, cutoff: int, fromIso: string -> Option<int>) returns (r: Option<seq<History.Order>>)
    ensures r.Some? <==> AllTimed(orders, fromIso)
    ensures r.Some? ==> r.value == KeptSince(orders, cutoff, fromIso)
  {
    var kept := [];
    var i := 0;
    while i < |orders|
      invariant 0 <= i <= |orders|
      invariant AllTimed(orders[..i], fromIso)
      invariant kept == KeptSince(orders[..i], cutoff, fromIso)
    {
      var t := TimeOf(orders[i], fromIso);
      if t.None? {
        return None;
      }
      KeptSinceStep(orders, i, cutoff, fromIso);
      AllTimedStep(orders, i, fromIso);
      if t.value >= cutoff {
        kept := kept + [orders[i]];
      }
      i := i + 1;
    }
    assert orders[..i] == orders;
    r := Some(kept);
  }

  /**
    What `json.load` gives for the history file: a bare list, which is
    what the order history writes, or an object with or without an
    `orders` list.
   */
  datatype HistoryJson = BareList(items: seq<History.Order>) | Object(orders: Option<seq<History.Order>>)

  /** The history file as `cleanup_history` finds it. */
  datatype CleanupFile = NoFile | NotJson | Json(value: HistoryJson)

  /** Why `cleanup_history` returns False. */
  datatype CleanupError = LoadFailed | NotAnObject | BadTimeframe | BadTimestamp | WriteFailed

  /** How `cleanup_history` ends; it returns True unless it fails. */
  datatype CleanupEnd =
    | NothingToClean
    | CleanupFailed(error: CleanupError)
    | Cleaned(written: HistoryJson, original: nat, removed: nat, remaining: nat)

  /**
    `cleanup_history`: `now` is `datetime.now()`, `parseDate` and
    `fromIso` the two date parsers, `writable` whether the file can be
    written back. Only `Cleaned` writes the file.
   */
  function CleanupRun(file: CleanupFile, timeframe: string, now: int, parseDate: string -> Option<int>,
                      fromIso: string -> Option<int>, writable: bool): (e: CleanupEnd)
    ensures e.Cleaned? ==> e.original == e.removed + e.remaining && e.original > 0 && writable
    ensures e.Cleaned? ==>
      && file.Json? && file.value.Object? && file.value.orders.Some? && e.original == |file.value.orders.value|
      && Cutoff(timeframe, now, parseDate).Some?
    ensures e.Cleaned? && timeframe == "all" ==> e.written == Object(Some([]))
    ensures e.Cleaned? && timeframe != "all" ==>
      e.written == Object(Some(KeptSince(file.value.orders.value, Cutoff(timeframe, now, parseDate).value, fromIso)))
  {
    match file
    case NoFile => NothingToClean
    case NotJson => CleanupFailed(LoadFailed)
    case Json(BareList(_)) => CleanupFailed(NotAnObject)
    case Json(Object(orders)) =>
      var all := if orders.Some? then orders.value else [];
      if |all| == 0 then NothingToClean
      else match Cutoff(timeframe, now, parseDate)
        case None => CleanupFailed(BadTimeframe)
        case Some(cutoff) =>
          if timeframe != "all" && !AllTimed(all, fromIso) then CleanupFailed(BadTimestamp)
          else
            var kept := if timeframe == "all" then [] else KeptSince(all, cutoff, fromIso);
            if !writable then CleanupFailed(WriteFailed)
            else Cleaned(Object(Some(kept)), |all|, |all| - |kept|, |kept|)
  }

  /** Python's truth value of `cleanup_history`'s result. */
  predicate Succeeded(e: CleanupEnd) {
    !e.CleanupFailed?
  }

  /**
    A missing file or an empty order list succeeds without writing, and an
    unknown time frame that is no date fails before anything is written.
   */
  lemma CleanupGuards(file: CleanupFile, timeframe: string, now: int, parseDate: string -> Option<int>,
                      fromIso: string -> Option<int>, writable: bool)
    ensures file == NoFile || file == Json(Object(None)) || file == Json(Object(Some([]))) ==>
      CleanupRun(file, timeframe, now, parseDate, fromIso, writable) == NothingToClean
    ensures (file.Json? && file.value.Object? && file.value.orders.Some? && file.value.orders.value != [] &&
      timeframe !in {"all", "1d", "1w", "2w", "1m"} && parseDate(timeframe).None?) ==>
      CleanupRun(file, timeframe, now, parseDate, fromIso, writable) == CleanupFailed(BadTimeframe)
  {
  }

  /**
    The history the application writes is a bare list, so cleaning it up
    always fails, whatever the time frame: `.get("orders")` is not a list
    method.
   */
  lemma StoredHistoryNeverCleans(orders: seq<History.Order>, timeframe: string, now: int, parseDate: string -> Option<int>,
                                 fromIso: string -> Option<int>, writable: bool)
    ensures !Succeeded(CleanupRun(Json(BareList(orders)), timeframe, now, parseDate, fromIso, writable))
  {
  }

  /**
    The records the history writes have no `timestamp` key, whether new or
    restamped by a status update, so `order.get("timestamp", "")` gives `""`.
   */
  lemma AppRecordsUntimed(orderId: string, orderType: string, osrid: string, status: string, created: string,
                          newStatus: string, now: string)
    ensures Get(History.NewRecord(orderId, orderType, osrid, status, created), "timestamp").None?
    ensures Get(History.Restamped(History.NewRecord(orderId, orderType, osrid, status, created), newStatus, now), "timestamp").None?
  {
    var r := History.NewRecord(orderId, orderType, osrid, status, created);
    var ks := Keys(r);
    assert ks == ["order_id", "type", "osrid", "status", "created"];
    assert forall i :: 0 <= i < |ks| ==> ks[i] != "timestamp";
    assert !HasKey(r, "timestamp");
  }

  /**
    Where `fromisoformat("")` raises, a non-empty list of records without
    `timestamp` never cleans up, even inside an `{"orders": [...]}` object:
    every time frame other than `all` fails, on the time frame itself or
    on the first record's timestamp.
   */
  lemma {:induction false} UntimedRecordsNeverClean(orders: seq<History.Order>, timeframe: string, now: int,
                                                   parseDate: string -> Option<int>, fromIso: string -> Option<int>, writable: bool)
    requires fromIso("") == None
    requires orders != [] && forall k :: 0 <= k < |orders| ==> Get(orders[k], "timestamp").None?
    requires timeframe != "all"
    ensures CleanupRun(Json(Object(Some(orders))), timeframe, now, parseDate, fromIso, writable)
      == if Cutoff(timeframe, now, parseDate).Some? then CleanupFailed(BadTimestamp) else CleanupFailed(BadTimeframe)
  {
    assert TimeOf(orders[0], fromIso).None?;
  }

  /**
    In a clean-up that goes through, the orders kept other than with `all`
    are exactly the ones at or after the cutoff, and the dropped ones are
    the rest.
   */
  lemma {:induction false} CleanupKeepsRecent(file: CleanupFile, timeframe: string, now: int, parseDate: string -> Option<int>,
                                             fromIso: string -> Option<int>)
    requires CleanupRun(file, timeframe, now, parseDate, fromIso, true).Cleaned?
    requires timeframe != "all"
    ensures var e := CleanupRun(file, timeframe, now, parseDate, fromIso, true);
      var all := file.value.orders.value;
      var cutoff := Cutoff(timeframe, now, parseDate).value;
      && (forall o :: o in e.written.orders.value ==> o in all && TimeOf(o, fromIso).value >= cutoff)
      && (forall o :: o in all && TimeOf(o, fromIso).value >= cutoff ==> o in e.written.orders.value)
      && e.removed == |DroppedSince(all, cutoff, fromIso)|
  {
    var all := file.value.orders.value;
    var cutoff := Cutoff(timeframe, now, parseDate).value;
    KeptAndDropped(all, cutoff, fromIso);
    assert AllTimed(all, fromIso);
    forall o | o in all
      ensures TimeOf(o, fromIso).Some?
    {
      var k :| 0 <= k < |all| && all[k] == o;
    }
  }

  /** `cleanup_history`, with the filter loop. */
  method CleanupHistory(file: CleanupFile, timeframe: string, now: int, parseDate: string -> Option<int>,
                        fromIso: string -> Option<int>, writable: bool)
    returns (e: CleanupEnd)
    ensures e == CleanupRun(file, timeframe, now, parseDate, fromIso, writable)
  {
    if file == NoFile {
      return NothingToClean;
    }
    if file == NotJson {
      return CleanupFailed(LoadFailed);
    }
    if file.value.BareList? {
      return CleanupFailed(NotAnObject);
    }
    var all := if file.value.orders.Some? then file.value.orders.value else [];
    if |all| == 0 {
      return NothingToClean;
    }
    var cutoff := Cutoff(timeframe, now, parseDate);
    if cutoff.None? {
      return CleanupFailed(BadTimeframe);
    }
    var kept: seq<History.Order> := [];
    if timeframe != "all" {
      var filtered := FilterSince(all, cutoff.value, fromIso);
      if filtered.None? {
        return CleanupFailed(BadTimestamp);
      }
      kept := filtered.value;
    }
    if !writable {
      return CleanupFailed(WriteFailed);
    }
    e := Cleaned(Object(Some(kept)), |all|, |all| - |kept|, |kept|);
  }

  // Temporary files

  const TEMP_EXTENSIONS: seq<string> := [".pyc", ".pyo", ".pyd", "~", ".bak", ".swp", ".tmp"]
  const TEMP_DIRS: set<string> := {"__pycache__", ".pytest_cache", ".coverage", "htmlcov"}

  /** A file `clean_files` removes: a temporary suffix, or an editor lock or autosave name. */
  predicate IsTempFile(name: string) {
    (exists k :: 0 <= k < |TEMP_EXTENSIONS| && EndsWith(name, TEMP_EXTENSIONS[k]))
    || StartsWith(name, ".#") || EndsWith(name, "#")
  }

  /** A directory `clean_files` removes. */
  predicate IsTempDir(name: string) {
    name in TEMP_DIRS
  }

  /** A Python source file is never removed unless it is an editor lock file. */
  lemma {:induction false} SourcesKept(name: string)
    requires EndsWith(name, ".py") && !StartsWith(name, ".#")
    ensures !IsTempFile(name)
  {
    assert name[|name| - 1] == 'y' by {
      assert name[|name| - 3..][2] == 'y';
    }

  }

  /** Compiled files, backups and swap files are removed. */
  lemma {:induction false} TempSuffixesRemoved(stem: string)
    ensures IsTempFile(stem + ".pyc") && IsTempFile(stem + "~") && IsTempFile(stem + ".bak") && IsTempFile(stem + ".swp")
  {
    assert EndsWith(stem + ".pyc", TEMP_EXTENSIONS[0]);
    assert EndsWith(stem + "~", TEMP_EXTENSIONS[3]);
    assert EndsWith(stem + ".bak", TEMP_EXTENSIONS[4]);
    assert EndsWith(stem + ".swp", TEMP_EXTENSIONS[5]);
  }
}
