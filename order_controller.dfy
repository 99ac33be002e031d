/**
  The line editor of controllers/order_controller.py: `edit_pick_lines`
  lets the operator move through the lines of a pick or transport order,
  add a copy of the last line, delete the highlighted line while more than
  one is left, edit one line with the form editor, and leave with `s`
  (send) or `h`/`b` (back).
 */
module OrderController {
  import opened Wrappers
  import opened PyText
  import opened PyDict
  import opened Terminal
  import opened UiUtils
  import opened Defaults
  import opened Form

  // The field list of `_edit_single_line`

  /** `FIELD_ORDER.get(mode, [])`. */
  function SchemaOf(mode: string): seq<string> {
    match ModeOf(mode)
    case Some(m) => FieldOrder(m)
    case None => []
  }

  /** `[f for f in schema if f in line]`. */
  function Present(schema: seq<string>, line: Dict<string>): (r: seq<string>)
    ensures |r| <= |schema|
    ensures forall f :: f in r <==> f in schema && HasKey(line, f)
  {
    if schema == [] then []
    else (if HasKey(line, schema[0]) then [schema[0]] else []) + Present(schema[1..], line)
  }

  /** `[f for f in keys if f not in fields]`. */
  function Extras(keys: seq<string>, fields: seq<string>): (r: seq<string>)
    ensures |r| <= |keys|
    ensures forall f :: f in r <==> f in keys && f !in fields
  {
    if keys == [] then []
    else (if keys[0] !in fields then [keys[0]] else []) + Extras(keys[1..], fields)
  }

  /** No element occurs twice. */
  predicate Distinct(s: seq<string>) {
    forall i, j :: 0 <= i < j < |s| ==> s[i] != s[j]
  }

  lemma {:induction false} PresentDistinct(schema: seq<string>, line: Dict<string>)
    requires Distinct(schema)
    ensures Distinct(Present(schema, line))
    decreases |schema|
  {
    if schema != [] {
      PresentDistinct(schema[1..], line);
      assert forall k :: 0 <= k < |schema[1..]| ==> schema[1..][k] == schema[k + 1];
      assert schema[0] !in schema[1..];
      assert schema[0] !in Present(schema[1..], line);
    }
  }

  lemma {:induction false} ExtrasDistinct(keys: seq<string>, fields: seq<string>)
    requires Distinct(keys)
    ensures Distinct(Extras(keys, fields))
    decreases |keys|
  {
    if keys != [] {
      ExtrasDistinct(keys[1..], fields);
      assert forall k :: 0 <= k < |keys[1..]| ==> keys[1..][k] == keys[k + 1];
      assert keys[0] !in keys[1..];
      assert keys[0] !in Extras(keys[1..], fields);
    }
  }

  /** A sequence without repeats counts each of its elements once. */
  lemma {:induction false} DistinctCounts(s: seq<string>, x: string)
    requires Distinct(s)
    ensures multiset(s)[x] == if x in s then 1 else 0
    decreases |s|
  {
    if s != [] {
      assert s == [s[0]] + s[1..];
      assert Distinct(s[1..]) by {
        forall i, j | 0 <= i < j < |s[1..]| ensures s[1..][i] != s[1..][j] {
          assert s[1..][i] == s[i + 1] && s[1..][j] == s[j + 1];
        }
      }
      DistinctCounts(s[1..], x);
      assert forall k :: 0 <= k < |s[1..]| ==> s[1..][k] == s[k + 1];
      assert s[0] !in s[1..];
    }
  }

  /** Two sequences without repeats that hold the same elements are permutations of each other. */
  lemma {:induction false} SameElementsPermutation(a: seq<string>, b: seq<string>)
    requires Distinct(a) && Distinct(b)
    requires forall x :: x in a <==> x in b
    ensures multiset(a) == multiset(b)
  {
    forall x ensures multiset(a)[x] == multiset(b)[x] {
      DistinctCounts(a, x);
      DistinctCounts(b, x);
    }
  }

  /**
    The fields `_edit_single_line` passes to the form: the schema fields the
    line has, in schema order, then the line's other keys in its own order.
   */
  function FieldsFor(mode: string, line: Dict<string>): (r: seq<string>)
    ensures forall f :: f in r <==> HasKey(line, f)
    ensures forall i :: 0 <= i < |r| ==> (r[i] in SchemaOf(mode) <==> i < |Present(SchemaOf(mode), line)|)
  {
    var first := Present(SchemaOf(mode), line);
    first + Extras(Keys(line), first)
  }

  /** The schema lists no field twice. */
  lemma SchemaDistinct(mode: string)
    ensures Distinct(SchemaOf(mode))
  {
  }

  /** The form's field list is a permutation of the line's keys. */
  lemma {:induction false} FieldsArePermutation(mode: string, line: Dict<string>)
    requires Unique(line)
    ensures Distinct(FieldsFor(mode, line))
    ensures multiset(FieldsFor(mode, line)) == multiset(Keys(line))
  {
    var schema := SchemaOf(mode);
    var first := Present(schema, line);
    var rest := Extras(Keys(line), first);
    SchemaDistinct(mode);
    PresentDistinct(schema, line);
    assert Distinct(Keys(line));
    ExtrasDistinct(Keys(line), first);
    var r := first + rest;
    assert Distinct(r) by {
      forall i, j | 0 <= i < j < |r| ensures r[i] != r[j] {
        if j < |first| {
          assert r[i] == first[i] && r[j] == first[j];
        } else if i >= |first| {
          assert r[i] == rest[i - |first|] && r[j] == rest[j - |first|];
        } else {
          assert r[i] in first && r[j] == rest[j - |first|];
        }
      }
    }
    SameElementsPermutation(r, Keys(line));
  }

  // The key loop of `edit_pick_lines`

  /** How `edit_pick_lines` ended: `True`, `False`, input exhausted, or an exception. */
  datatype EditorStatus = Accepted | Declined | EditorWaiting | EditorCrashed

  datatype EditorRun = EditorRun(status: EditorStatus, lines: seq<Dict<string>>, rest: Input)

  predicate IsAddKey(k: Key) {
    k == Ord('a') || k == Ord('A')
  }

  predicate IsDeleteKey(k: Key) {
    k == Ord('d') || k == Ord('D')
  }

  predicate IsSendKey(k: Key) {
    k == Ord('s') || k == Ord('S')
  }

  predicate IsLeaveKey(k: Key) {
    k == Ord('h') || k == Ord('b') || k == Ord('B')
  }

  /**
    The line `a` appends: a copy of the last line, or of the mode's first
    default line when the list is empty. `None` is the exception
    `DEFAULT_ORDER_VALUES[mode][0]` raises for a mode without default lines.
   */
  function NewLine(mode: string, lines: seq<Dict<string>>): (r: Option<Dict<string>>)
    ensures lines != [] ==> r == Some(lines[|lines| - 1])
  {
    if lines != [] then Some(lines[|lines| - 1])
    else match ModeOf(mode)
      case Some(m) => if HasLines(m) then Some(DefaultRecord(m)) else None
      case None => None
  }

  /** The form editor `_edit_single_line` opens; the database lookup is off there. */
  const NO_LOOKUP := LookupEnv(None, Raised)

  function EditLine(mode: string, line: Dict<string>, inp: Input): FormRun {
    EditFormRun(FieldsFor(mode, line), false, NO_LOOKUP, line, inp)
  }

  /** Where the highlight may be: on a line, or at 0 when there are none. */
  predicate HighlightOk(lines: seq<Dict<string>>, idx: int) {
    if lines == [] then idx == 0 else 0 <= idx < |lines|
  }

  /** The loop of `edit_pick_lines` from highlight `idx`. */
  function EditorLoop(mode: string, lines: seq<Dict<string>>, idx: int, inp: Input): EditorRun
    requires HighlightOk(lines, idx)
    decreases |inp.keys|
  {
    if inp.keys == [] then EditorRun(EditorWaiting, lines, inp)
    else
      var key := inp.keys[0];
      var after := inp.(keys := inp.keys[1..]);
      if IsUpKey(key) && idx > 0 then EditorLoop(mode, lines, idx - 1, after)
      else if IsDownKey(key) && idx < |lines| - 1 then EditorLoop(mode, lines, idx + 1, after)
      else if IsAddKey(key) then
        match NewLine(mode, lines)
        case None => EditorRun(EditorCrashed, lines, after)
        case Some(l) => EditorLoop(mode, lines + [l], |lines|, after)
      else if IsDeleteKey(key) then
        if |lines| > 1 then EditorLoop(mode, lines[..idx] + lines[idx + 1..], if idx - 1 > 0 then idx - 1 else 0, after)
        else EditorLoop(mode, lines, idx, after)
      else if IsEnterKey(key) then
        if lines == [] then EditorRun(EditorCrashed, lines, after)
        else
          var run := EditLine(mode, lines[idx], after);
          FormConsumes(FieldsFor(mode, lines[idx]), false, NO_LOOKUP, 0, lines[idx], after);
          match run.status
          case NoFields => EditorRun(EditorCrashed, lines, run.rest)
          case Waiting => EditorRun(EditorWaiting, lines[idx := run.values], run.rest)
          case _ => EditorLoop(mode, lines[idx := run.values], idx, run.rest)
      else if IsSendKey(key) then EditorRun(Accepted, lines, after)
      else if IsLeaveKey(key) then EditorRun(Declined, lines, after)
      else EditorLoop(mode, lines, idx, after)
  }

  /** `edit_pick_lines` starts with the first line highlighted. */
  function EditPickLinesRun(mode: string, lines: seq<Dict<string>>, inp: Input): EditorRun {
    EditorLoop(mode, lines, 0, inp)
  }

  /** However the keys go, a list with a line in it still has one when the editor stops. */
  lemma {:induction false} NeverEmpties(mode: string, lines: seq<Dict<string>>, idx: int, inp: Input)
    requires HighlightOk(lines, idx) && lines != []
    ensures EditorLoop(mode, lines, idx, inp).lines != []
    decreases |inp.keys|
  {
    if inp.keys != [] {
      var key := inp.keys[0];
      var after := inp.(keys := inp.keys[1..]);
      if IsUpKey(key) && idx > 0 {
        NeverEmpties(mode, lines, idx - 1, after);
      } else if IsDownKey(key) && idx < |lines| - 1 {
        NeverEmpties(mode, lines, idx + 1, after);
      } else if IsAddKey(key) {
        NeverEmpties(mode, lines + [lines[|lines| - 1]], |lines|, after);
      } else if IsDeleteKey(key) {
        if |lines| > 1 {
          NeverEmpties(mode, lines[..idx] + lines[idx + 1..], if idx - 1 > 0 then idx - 1 else 0, after);
        } else {
          NeverEmpties(mode, lines, idx, after);
        }
      } else if IsEnterKey(key) {
        var run := EditLine(mode, lines[idx], after);
        FormConsumes(FieldsFor(mode, lines[idx]), false, NO_LOOKUP, 0, lines[idx], after);
        if run.status == Saved || run.status == Cancelled {
          NeverEmpties(mode, lines[idx := run.values], idx, run.rest);
        }
      } else if !IsSendKey(key) && !IsLeaveKey(key) {
        NeverEmpties(mode, lines, idx, after);
      }
    }
  }

  /** The editor only reads from the front of its input. */
  lemma {:induction false} EditorConsumes(mode: string, lines: seq<Dict<string>>, idx: int, inp: Input)
    requires HighlightOk(lines, idx)
    ensures Consumed(inp, EditorLoop(mode, lines, idx, inp).rest)
    decreases |inp.keys|
  {
    if inp.keys != [] {
      var key := inp.keys[0];
      var after := inp.(keys := inp.keys[1..]);
      assert Consumed(inp, after);
      if IsUpKey(key) && idx > 0 {
        EditorConsumes(mode, lines, idx - 1, after);
        ConsumedTrans(inp, after, EditorLoop(mode, lines, idx - 1, after).rest);
      } else if IsDownKey(key) && idx < |lines| - 1 {
        EditorConsumes(mode, lines, idx + 1, after);
        ConsumedTrans(inp, after, EditorLoop(mode, lines, idx + 1, after).rest);
      } else if IsAddKey(key) {
        match NewLine(mode, lines)
        case None =>
        case Some(l) =>
          EditorConsumes(mode, lines + [l], |lines|, after);
          ConsumedTrans(inp, after, EditorLoop(mode, lines + [l], |lines|, after).rest);
      } else if IsDeleteKey(key) {
        var next := if |lines| > 1 then lines[..idx] + lines[idx + 1..] else lines;
        var j := if |lines| > 1 then (if idx - 1 > 0 then idx - 1 else 0) else idx;
        EditorConsumes(mode, next, j, after);
        ConsumedTrans(inp, after, EditorLoop(mode, next, j, after).rest);
      } else if IsEnterKey(key) {
        if lines != [] {
          var run := EditLine(mode, lines[idx], after);
          FormConsumes(FieldsFor(mode, lines[idx]), false, NO_LOOKUP, 0, lines[idx], after);
          ConsumedTrans(inp, after, run.rest);
          if run.status == Saved || run.status == Cancelled {
            EditorConsumes(mode, lines[idx := run.values], idx, run.rest);
            ConsumedTrans(inp, run.rest, EditorLoop(mode, lines[idx := run.values], idx, run.rest).rest);
          }
        }
      } else if !IsSendKey(key) && !IsLeaveKey(key) {
        EditorConsumes(mode, lines, idx, after);
        ConsumedTrans(inp, after, EditorLoop(mode, lines, idx, after).rest);
      }
    }
  }

  /**
    The editor ends with `True` or `False` only on `s`/`S` or `h`/`b`/`B`:
    whenever it stops with one of them, the last key it read was one of those.
   */
  lemma {:induction false} OnlySendOrLeaveFinish(mode: string, lines: seq<Dict<string>>, idx: int, inp: Input)
    requires HighlightOk(lines, idx)
    ensures FinishedBy(EditorLoop(mode, lines, idx, inp), inp)
    decreases |inp.keys|
  {
    if inp.keys != [] {
      var key := inp.keys[0];
      var after := inp.(keys := inp.keys[1..]);
      var run := EditorLoop(mode, lines, idx, inp);
      assert Consumed(inp, after);
      if IsUpKey(key) && idx > 0 {
        OnlySendOrLeaveFinish(mode, lines, idx - 1, after);
        FinishedByLater(run, inp, after);
      } else if IsDownKey(key) && idx < |lines| - 1 {
        OnlySendOrLeaveFinish(mode, lines, idx + 1, after);
        FinishedByLater(run, inp, after);
      } else if IsAddKey(key) {
        match NewLine(mode, lines)
        case None =>
        case Some(l) =>
          OnlySendOrLeaveFinish(mode, lines + [l], |lines|, after);
          FinishedByLater(run, inp, after);
      } else if IsDeleteKey(key) {
        var next := if |lines| > 1 then lines[..idx] + lines[idx + 1..] else lines;
        var j := if |lines| > 1 then (if idx - 1 > 0 then idx - 1 else 0) else idx;
        OnlySendOrLeaveFinish(mode, next, j, after);
        FinishedByLater(run, inp, after);
      } else if IsEnterKey(key) {
        if lines != [] {
          var line := EditLine(mode, lines[idx], after);
          FormConsumes(FieldsFor(mode, lines[idx]), false, NO_LOOKUP, 0, lines[idx], after);
          if line.status == Saved || line.status == Cancelled {
            OnlySendOrLeaveFinish(mode, lines[idx := line.values], idx, line.rest);
            ConsumedTrans(inp, after, line.rest);
            FinishedByLater(run, inp, line.rest);
          }
        }
      } else if IsSendKey(key) || IsLeaveKey(key) {
        assert inp.keys[|inp.keys| - |after.keys| - 1] == key;
      } else {
        OnlySendOrLeaveFinish(mode, lines, idx, after);
        FinishedByLater(run, inp, after);
      }
    }
  }

  /**
    A run that ends with `True` or `False` returned after reading a key of
    `inp`, and the last key it read is a send key or a leave key as the
    outcome says.
   */
  predicate FinishedBy(run: EditorRun, inp: Input) {
    run.status == Accepted || run.status == Declined ==>
      && |run.rest.keys| < |inp.keys|
      && var last := inp.keys[|inp.keys| - |run.rest.keys| - 1];
         (run.status == Accepted ==> IsSendKey(last)) && (run.status == Declined ==> IsLeaveKey(last))
  }

  /** What holds of the keys after some were read holds of all of them. */
  lemma {:induction false} FinishedByLater(run: EditorRun, inp: Input, mid: Input)
    requires Consumed(inp, mid) && FinishedBy(run, mid)
    ensures FinishedBy(run, inp)
  {
    if run.status == Accepted || run.status == Declined {
      var n := |run.rest.keys|;
      assert mid.keys[|mid.keys| - n - 1] == inp.keys[|inp.keys| - n - 1];
    }
  }

  /**
    `a` appends a copy of the last line and moves the highlight to it; the
    lines already there are untouched.
   */
  lemma {:induction false} AddCopiesLast(mode: string, lines: seq<Dict<string>>, idx: int, inp: Input)
    requires HighlightOk(lines, idx) && lines != []
    requires inp.keys != [] && IsAddKey(inp.keys[0])
    ensures EditorLoop(mode, lines, idx, inp) == EditorLoop(mode, lines + [lines[|lines| - 1]], |lines|, inp.(keys := inp.keys[1..]))
    ensures (lines + [lines[|lines| - 1]])[..|lines|] == lines
  {
    var key := inp.keys[0];
    assert !IsUpKey(key) && !IsDownKey(key);
  }

  /**
    `d` removes exactly the highlighted line, keeps the others in order and
    moves the highlight up one; with a single line left it changes nothing.
   */
  lemma {:induction false} DeleteRemovesHighlighted(mode: string, lines: seq<Dict<string>>, idx: int, inp: Input)
    requires HighlightOk(lines, idx)
    requires inp.keys != [] && IsDeleteKey(inp.keys[0])
    ensures var after := inp.(keys := inp.keys[1..]);
      if |lines| > 1 then
        && EditorLoop(mode, lines, idx, inp) == EditorLoop(mode, lines[..idx] + lines[idx + 1..], if idx - 1 > 0 then idx - 1 else 0, after)
        && |lines[..idx] + lines[idx + 1..]| == |lines| - 1
        && forall i :: 0 <= i < |lines| - 1 ==> (lines[..idx] + lines[idx + 1..])[i] == if i < idx then lines[i] else lines[i + 1]
      else EditorLoop(mode, lines, idx, inp) == EditorLoop(mode, lines, idx, after)
  {
    var key := inp.keys[0];
    assert !IsUpKey(key) && !IsDownKey(key) && !IsAddKey(key);
  }

  /**
    Enter never ends the editor: after the line's form closes with `s` or
    `b`, the editor goes on from the same highlight with the edited line.
   */
  lemma {:induction false} EnterNeverFinishes(mode: string, lines: seq<Dict<string>>, idx: int, inp: Input)
    requires HighlightOk(lines, idx) && lines != []
    requires inp.keys != [] && IsEnterKey(inp.keys[0])
    ensures var run := EditLine(mode, lines[idx], inp.(keys := inp.keys[1..]));
      run.status in {Saved, Cancelled} ==>
        EditorLoop(mode, lines, idx, inp) == EditorLoop(mode, lines[idx := run.values], idx, run.rest)
  {
    var key := inp.keys[0];
    assert !IsUpKey(key) && !IsDownKey(key) && !IsAddKey(key) && !IsDeleteKey(key);
  }

  /** The order's lines, edited in place. */
  class LineList {
    var items: seq<Dict<string>>

    constructor(items: seq<Dict<string>>)
      ensures this.items == items
    {
      this.items := items;
    }
  }

  /**
    `edit_pick_lines` on the list `lines`: the list is changed in place
    and the result is how the editor ended.
   */
  method EditPickLines(screen: Screen, mode: string, lines: LineList, inp: Input) returns (status: EditorStatus, rest: Input)
    modifies lines
    ensures var run := EditPickLinesRun(mode, old(lines.items), inp);
      status == run.status && lines.items == run.lines && rest == run.rest
  {
    var idx := 0;
    var cur := inp;
    while true
      invariant HighlightOk(lines.items, idx)
      invariant EditorLoop(mode, lines.items, idx, cur) == EditPickLinesRun(mode, old(lines.items), inp)
      decreases |cur.keys|
    {
      if cur.keys == [] {
        return EditorWaiting, cur;
      }
      var key := cur.keys[0];
      var after := cur.(keys := cur.keys[1..]);
      if IsUpKey(key) && idx > 0 {
        idx := idx - 1;
        cur := after;
      } else if IsDownKey(key) && idx < |lines.items| - 1 {
        idx := idx + 1;
        cur := after;
      } else if IsAddKey(key) {
        var l := NewLine(mode, lines.items);
        if l.None? {
          return EditorCrashed, after;
        }
        lines.items := lines.items + [l.value];
        idx := |lines.items| - 1;
        cur := after;
      } else if IsDeleteKey(key) {
        if |lines.items| > 1 {
          lines.items := lines.items[..idx] + lines.items[idx + 1..];
          idx := if idx - 1 > 0 then idx - 1 else 0;
        }
        cur := after;
      } else if IsEnterKey(key) {
        if lines.items == [] {
          return EditorCrashed, after;
        }
        var rec := new Record(lines.items[idx]);
        var fields := FieldsFor(mode, lines.items[idx]);
        FormConsumes(fields, false, NO_LOOKUP, 0, lines.items[idx], after);
        var result, formStatus, formRest := EditForm(screen, rec, fields, false, NO_LOOKUP, after);
        if formStatus == NoFields {
          return EditorCrashed, formRest;
        }
        lines.items := lines.items[idx := rec.entries];
        if formStatus == Waiting {
          return EditorWaiting, formRest;
        }
        cur := formRest;
      } else if IsSendKey(key) {
        return Accepted, after;
      } else if IsLeaveKey(key) {
        return Declined, after;
      } else {
        cur := after;
      }
    }
  }
}
