/**
  The field editor `edit_form` (ui/form.py): a cursor over the field names,
  Enter to retype the highlighted field, `s` to accept, `b`/`h` to leave,
  and `d` for a database lookup that can fill in container types and
  products. The edited record is changed in place.
 */
module Form {
  import opened Wrappers
  import opened PyText
  import opened PyDict
  import opened Terminal
  import opened UiUtils
  import Menu

  /** The characters Enter reads at most for a new value. */
  const FORM_LIMIT: nat := 40

  /** A record being edited: the `values` dict that `edit_form` writes into. */
  class Record {
    var entries: Dict<string>

    constructor(entries: Dict<string>)
      ensures this.entries == entries
    {
      this.entries := entries;
    }
  }

  /** A database query: the rows it returned, or an exception. */
  datatype DbAnswer = Rows(rows: seq<seq<string>>) | Raised

  /**
    What `_handle_database_lookup` depends on besides the keys: the `"osrid"`
    entry of the configuration file and the answer of the product query.
   */
  datatype LookupEnv = LookupEnv(configOsrid: Option<string>, products: DbAnswer)

  /**
    The answer of `db.get_container_types()`: the `Database` class defines no
    such method, so the call always raises an AttributeError.
   */
  const CONTAINER_QUERY: DbAnswer := Raised

  const CONTAINER_TYPE := "Container Type"
  const PRODUCT_NAME := "Product Name"
  const PRODUCT_CODE := "Product Code"

  /** Field names a lookup may write. */
  predicate LookupField(k: string) {
    k == CONTAINER_TYPE || k == PRODUCT_NAME || k == PRODUCT_CODE
  }

  datatype LookupRun = Looked(values: Dict<string>, keys: seq<Key>) | LookupWaiting

  function Firsts(rows: seq<seq<string>>): (r: seq<string>)
    requires forall i :: 0 <= i < |rows| ==> |rows[i]| >= 1
    ensures |r| == |rows| && forall i :: 0 <= i < |rows| ==> r[i] == rows[i][0]
  {
    seq(|rows|, i requires 0 <= i < |rows| => rows[i][0])
  }

  /** `f"{prod[0]} ({prod[1]})"` for each row. */
  function ProductLabels(rows: seq<seq<string>>): (r: seq<string>)
    requires forall i :: 0 <= i < |rows| ==> |rows[i]| >= 2
    ensures |r| == |rows|
  {
    seq(|rows|, i requires 0 <= i < |rows| => rows[i][0] + " (" + rows[i][1] + ")")
  }

  /**
    `_handle_database_lookup` for the highlighted `field`. Every failure (no
    `"osrid"` in the file, a query that raises, a row too short to index, an
    index Python cannot resolve) is caught and leaves the values as they are.
   */
  function Lookup(field: string, env: LookupEnv, values: Dict<string>, keys: seq<Key>): (r: LookupRun)
    ensures r.Looked? ==> |r.keys| <= |keys| && r.keys == keys[|keys| - |r.keys|..]
    ensures r.Looked? ==> forall k :: !LookupField(k) ==> Get(r.values, k) == Get(values, k)
    ensures !LookupField(field) || env.configOsrid.None? || env.configOsrid == Some("") ==> r == Looked(values, keys)
    ensures field == CONTAINER_TYPE ==> r == Looked(values, keys)
    ensures (field == PRODUCT_NAME || field == PRODUCT_CODE) && r.Looked? ==>
      && Get(r.values, CONTAINER_TYPE) == Get(values, CONTAINER_TYPE)
      && (r.values == values || (env.products.Rows? &&
            exists j :: 0 <= j < |env.products.rows| && |env.products.rows[j]| >= 2 &&
              r.values == Put(Put(values, PRODUCT_NAME, env.products.rows[j][0]), PRODUCT_CODE, env.products.rows[j][1])))
    ensures (field == PRODUCT_NAME || field == PRODUCT_CODE) && env.products.Raised? ==> r == Looked(values, keys)
  {
    if env.configOsrid.None? || env.configOsrid == Some("") then Looked(values, keys)
    else if field == CONTAINER_TYPE then LookupContainer(CONTAINER_QUERY, values, keys)
    else if field == PRODUCT_NAME || field == PRODUCT_CODE then LookupProduct(env.products, values, keys)
    else Looked(values, keys)
  }

  /**
    The container-type branch as written, for any answer of the query: the
    first column of each row is offered and the choice sets `Container Type`.
    `Lookup` passes it `CONTAINER_QUERY`, the answer the code actually gets.
   */
  function LookupContainer(query: DbAnswer, values: Dict<string>, keys: seq<Key>): (r: LookupRun)
    ensures r.Looked? ==> |r.keys| <= |keys| && r.keys == keys[|keys| - |r.keys|..]
    ensures r.Looked? ==> forall k :: k != CONTAINER_TYPE ==> Get(r.values, k) == Get(values, k)
    ensures r.Looked? ==> (r.values == values || (query.Rows? &&
      exists j :: 0 <= j < |query.rows| && |query.rows[j]| > 0 &&
        r.values == Put(values, CONTAINER_TYPE, query.rows[j][0])))
    ensures query.Raised? ==> r == Looked(values, keys)
  {
    match query
    case Raised => Looked(values, keys)
    case Rows(rows) =>
      if rows == [] || exists i :: 0 <= i < |rows| && rows[i] == [] then Looked(values, keys)
      else
        var options := Firsts(rows);
        Menu.RunIsValid(|options|, false, Menu.Start(), keys);
        match Menu.Run(|options|, false, Menu.Start(), keys)
        case Waiting(_) => LookupWaiting
        case Chosen(res, rest) =>
          if res.Index? && PyIndex(options, res.i).Some? then
            Looked(Put(values, CONTAINER_TYPE, PyIndex(options, res.i).value), rest)
          else Looked(values, rest)
  }

  /** The product branch: each row is offered as `name (code)`; the choice sets both product fields. */
  function LookupProduct(query: DbAnswer, values: Dict<string>, keys: seq<Key>): (r: LookupRun)
    ensures r.Looked? ==> |r.keys| <= |keys| && r.keys == keys[|keys| - |r.keys|..]
    ensures r.Looked? ==> forall k :: k != PRODUCT_NAME && k != PRODUCT_CODE ==> Get(r.values, k) == Get(values, k)
    ensures r.Looked? ==> (r.values == values || (query.Rows? &&
      exists j :: 0 <= j < |query.rows| && |query.rows[j]| >= 2 &&
        r.values == Put(Put(values, PRODUCT_NAME, query.rows[j][0]), PRODUCT_CODE, query.rows[j][1])))
    ensures query.Raised? ==> r == Looked(values, keys)
  {
    match query
    case Raised => Looked(values, keys)
    case Rows(rows) =>
      if rows == [] || exists i :: 0 <= i < |rows| && |rows[i]| < 2 then Looked(values, keys)
      else
        var options := ProductLabels(rows);
        Menu.RunIsValid(|options|, false, Menu.Start(), keys);
        match Menu.Run(|options|, false, Menu.Start(), keys)
        case Waiting(_) => LookupWaiting
        case Chosen(res, rest) =>
          if res.Index? && PyIndex(rows, res.i).Some? then
            var prod := PyIndex(rows, res.i).value;
            Looked(Put(Put(values, PRODUCT_NAME, prod[0]), PRODUCT_CODE, prod[1]), rest)
          else Looked(values, rest)
  }

  /** How `edit_form` ended. `NoFields` is the IndexError of an empty field list; `Waiting` means the input ran out. */
  datatype FormStatus = Saved | Cancelled | NoFields | Waiting

  datatype FormRun = FormRun(status: FormStatus, values: Dict<string>, rest: Input)

  predicate IsSaveKey(k: Key) {
    k == Ord('s') || k == Ord('S')
  }

  predicate IsBackKey(k: Key) {
    k == Ord('b') || k == Ord('B') || k == Ord('h')
  }

  predicate IsLookupKey(k: Key) {
    k == Ord('d') || k == Ord('D')
  }

  /** The loop of `edit_form` from highlighted row `row` with the values as they are now. */
  function FormLoop(fields: seq<string>, dbLookup: bool, env: LookupEnv, row: int, values: Dict<string>, inp: Input): FormRun
    requires fields != [] ==> 0 <= row < |fields|
    decreases |inp.keys|
  {
    if fields == [] then FormRun(NoFields, values, inp)
    else if inp.keys == [] then FormRun(Waiting, values, inp)
    else
      var key := inp.keys[0];
      var after := inp.(keys := inp.keys[1..]);
      if IsUpKey(key) && row > 0 then FormLoop(fields, dbLookup, env, row - 1, values, after)
      else if IsDownKey(key) && row < |fields| - 1 then FormLoop(fields, dbLookup, env, row + 1, values, after)
      else if IsSaveKey(key) then FormRun(Saved, values, after)
      else if IsBackKey(key) then FormRun(Cancelled, values, after)
      else if IsLookupKey(key) && dbLookup then
        match Lookup(fields[row], env, values, after.keys)
        case LookupWaiting => FormRun(Waiting, values, after)
        case Looked(v, ks) => FormLoop(fields, dbLookup, env, row, v, after.(keys := ks))
      else if IsEnterKey(key) then
        if after.texts == [] then FormRun(Waiting, values, after)
        else
          var next := after.(texts := after.texts[1..]);
          match ReadLine(after.texts[0], FORM_LIMIT)
          case None => FormLoop(fields, dbLookup, env, row, values, next)
          case Some(u) => FormLoop(fields, dbLookup, env, row, Put(values, fields[row], u), next)
      else FormLoop(fields, dbLookup, env, row, values, after)
  }

  /** `edit_form` on a record holding `values`. */
  function EditFormRun(fields: seq<string>, dbLookup: bool, env: LookupEnv, values: Dict<string>, inp: Input): FormRun {
    FormLoop(fields, dbLookup, env, 0, values, inp)
  }

  /**
    The editor writes only the listed fields, plus the lookup fields when
    lookup is on; every other key keeps its value.
   */
  lemma {:induction false} FormWritesOnlyFields(fields: seq<string>, dbLookup: bool, env: LookupEnv, row: int, values: Dict<string>, inp: Input)
    requires fields != [] ==> 0 <= row < |fields|
    ensures forall k :: k !in fields && !(dbLookup && LookupField(k)) ==>
      Get(FormLoop(fields, dbLookup, env, row, values, inp).values, k) == Get(values, k)
    decreases |inp.keys|
  {
    if fields != [] && inp.keys != [] {
      var key := inp.keys[0];
      var after := inp.(keys := inp.keys[1..]);
      if IsUpKey(key) && row > 0 {
        FormWritesOnlyFields(fields, dbLookup, env, row - 1, values, after);
      } else if IsDownKey(key) && row < |fields| - 1 {
        FormWritesOnlyFields(fields, dbLookup, env, row + 1, values, after);
      } else if IsSaveKey(key) || IsBackKey(key) {
      } else if IsLookupKey(key) && dbLookup {
        match Lookup(fields[row], env, values, after.keys)
        case LookupWaiting =>
        case Looked(v, ks) => FormWritesOnlyFields(fields, dbLookup, env, row, v, after.(keys := ks));
      } else if IsEnterKey(key) {
        if after.texts != [] {
          var next := after.(texts := after.texts[1..]);
          match ReadLine(after.texts[0], FORM_LIMIT)
          case None => FormWritesOnlyFields(fields, dbLookup, env, row, values, next);
          case Some(u) => FormWritesOnlyFields(fields, dbLookup, env, row, Put(values, fields[row], u), next);
        }
      } else {
        FormWritesOnlyFields(fields, dbLookup, env, row, values, after);
      }
    }
  }

  /** The editor only reads from the front of its input: what it leaves is a suffix of what it was given. */
  lemma {:induction false} FormConsumes(fields: seq<string>, dbLookup: bool, env: LookupEnv, row: int, values: Dict<string>, inp: Input)
    requires fields != [] ==> 0 <= row < |fields|
    ensures Consumed(inp, FormLoop(fields, dbLookup, env, row, values, inp).rest)
    decreases |inp.keys|
  {
    if fields != [] && inp.keys != [] {
      var key := inp.keys[0];
      var after := inp.(keys := inp.keys[1..]);
      assert Consumed(inp, after);
      if IsUpKey(key) && row > 0 {
        FormConsumes(fields, dbLookup, env, row - 1, values, after);
        ConsumedTrans(inp, after, FormLoop(fields, dbLookup, env, row - 1, values, after).rest);
      } else if IsDownKey(key) && row < |fields| - 1 {
        FormConsumes(fields, dbLookup, env, row + 1, values, after);
        ConsumedTrans(inp, after, FormLoop(fields, dbLookup, env, row + 1, values, after).rest);
      } else if IsSaveKey(key) || IsBackKey(key) {
      } else if IsLookupKey(key) && dbLookup {
        match Lookup(fields[row], env, values, after.keys)
        case LookupWaiting =>
        case Looked(v, ks) =>
          var next := after.(keys := ks);
          assert Consumed(after, next);
          FormConsumes(fields, dbLookup, env, row, v, next);
          ConsumedTrans(after, next, FormLoop(fields, dbLookup, env, row, v, next).rest);
          ConsumedTrans(inp, after, FormLoop(fields, dbLookup, env, row, v, next).rest);
      } else if IsEnterKey(key) {
        if after.texts != [] {
          var next := after.(texts := after.texts[1..]);
          assert Consumed(after, next);
          ConsumedTrans(inp, after, next);
          match ReadLine(after.texts[0], FORM_LIMIT)
          case None =>
            FormConsumes(fields, dbLookup, env, row, values, next);
            ConsumedTrans(inp, next, FormLoop(fields, dbLookup, env, row, values, next).rest);
          case Some(u) =>
            FormConsumes(fields, dbLookup, env, row, Put(values, fields[row], u), next);
            ConsumedTrans(inp, next, FormLoop(fields, dbLookup, env, row, Put(values, fields[row], u), next).rest);
        }
      } else {
        FormConsumes(fields, dbLookup, env, row, values, after);
        ConsumedTrans(inp, after, FormLoop(fields, dbLookup, env, row, values, after).rest);
      }
    }
  }

  /** Enter stores the stripped line, even an empty one, in the highlighted field. */
  lemma {:induction false} EnterStoresStripped(fields: seq<string>, dbLookup: bool, env: LookupEnv, row: int, values: Dict<string>, inp: Input)
    requires 0 <= row < |fields|
    requires inp.keys != [] && IsEnterKey(inp.keys[0])
    requires inp.texts != [] && inp.texts[0].Typed?
    ensures FormLoop(fields, dbLookup, env, row, values, inp) ==
      FormLoop(fields, dbLookup, env, row, Put(values, fields[row], Strip(PyPrefix(inp.texts[0].text, FORM_LIMIT))), Input(inp.keys[1..], inp.texts[1..]))
  {
    var key := inp.keys[0];
    assert !IsUpKey(key) && !IsDownKey(key) && !IsSaveKey(key) && !IsBackKey(key) && !IsLookupKey(key);
  }

  /** Ctrl+C while retyping a field leaves the values unchanged. */
  lemma InterruptKeepsValues(fields: seq<string>, dbLookup: bool, env: LookupEnv, row: int, values: Dict<string>, inp: Input)
    requires 0 <= row < |fields|
    requires inp.keys != [] && IsEnterKey(inp.keys[0])
    requires inp.texts != [] && inp.texts[0].Interrupted?
    ensures FormLoop(fields, dbLookup, env, row, values, inp) ==
      FormLoop(fields, dbLookup, env, row, values, Input(inp.keys[1..], inp.texts[1..]))
  {
  }

  /** Without lookup enabled, `d` is an ordinary key that changes nothing. */
  lemma LookupKeyIgnoredWhenOff(fields: seq<string>, env: LookupEnv, row: int, values: Dict<string>, inp: Input)
    requires 0 <= row < |fields|
    requires inp.keys != [] && IsLookupKey(inp.keys[0])
    ensures FormLoop(fields, false, env, row, values, inp) == FormLoop(fields, false, env, row, values, inp.(keys := inp.keys[1..]))
  {
  }

  /** The step that leaves with `b`. */
  lemma {:induction false} BackEnds(fields: seq<string>, dbLookup: bool, env: LookupEnv, row: int, values: Dict<string>, inp: Input)
    requires 0 <= row < |fields|
    requires inp.keys != [] && IsBackKey(inp.keys[0])
    ensures FormLoop(fields, dbLookup, env, row, values, inp) == FormRun(Cancelled, values, inp.(keys := inp.keys[1..]))
  {
    var key := inp.keys[0];
    assert !IsUpKey(key) && !IsDownKey(key) && !IsSaveKey(key);
  }

  /** Leaving with `b` right after Enter keeps the value Enter wrote: the editor returns `None`, the record stays edited. */
  lemma {:induction false} BackKeepsEdits(fields: seq<string>, dbLookup: bool, env: LookupEnv, row: int, values: Dict<string>, inp: Input)
    requires 0 <= row < |fields|
    requires |inp.keys| >= 2 && IsEnterKey(inp.keys[0]) && IsBackKey(inp.keys[1])
    requires inp.texts != [] && inp.texts[0].Typed?
    ensures FormLoop(fields, dbLookup, env, row, values, inp) ==
      FormRun(Cancelled, Put(values, fields[row], Strip(PyPrefix(inp.texts[0].text, FORM_LIMIT))), Input(inp.keys[2..], inp.texts[1..]))
  {
    EnterStoresStripped(fields, dbLookup, env, row, values, inp);
    var next := Input(inp.keys[1..], inp.texts[1..]);
    BackEnds(fields, dbLookup, env, row, Put(values, fields[row], Strip(PyPrefix(inp.texts[0].text, FORM_LIMIT))), next);
    assert next.(keys := next.keys[1..]) == Input(inp.keys[2..], inp.texts[1..]);
  }

  /** `_handle_database_lookup`, writing into the record. */
  method HandleDatabaseLookup(screen: Screen, rec: Record, field: string, env: LookupEnv, keys: seq<Key>) returns (rest: Option<seq<Key>>)
    modifies rec
    ensures var r := Lookup(field, env, old(rec.entries), keys);
      && (r.LookupWaiting? <==> rest.None?)
      && (r.Looked? ==> rest == Some(r.keys) && rec.entries == r.values)
      && (r.LookupWaiting? ==> rec.entries == old(rec.entries))
  {
    if env.configOsrid.None? || env.configOsrid == Some("") {
      return Some(keys);
    }
    if field == CONTAINER_TYPE {
      // The container-type query always raises, and the error is caught.
      return Some(keys);
    } else if field == PRODUCT_NAME || field == PRODUCT_CODE {
      if env.products.Raised? {
        return Some(keys);
      }
      var rows := env.products.rows;
      if rows == [] || exists i :: 0 <= i < |rows| && |rows[i]| < 2 {
        return Some(keys);
      }
      var options := ProductLabels(rows);
      var chosen := Menu.DisplayMenu(screen, options, false, keys);
      var run := chosen.value;
      if run.Waiting? {
        return None;
      }
      var res := run.result;
      if res.Index? && PyIndex(rows, res.i).Some? {
        var prod := PyIndex(rows, res.i).value;
        rec.entries := Put(rec.entries, PRODUCT_NAME, prod[0]);
        rec.entries := Put(rec.entries, PRODUCT_CODE, prod[1]);
      }
      return Some(run.rest);
    }
    return Some(keys);
  }

  /**
    `edit_form`, writing Enter's values and lookups into `rec` as it goes.
    `result` is `rec` itself when the editor is accepted with `s`, and
    `None` otherwise.
   */
  method EditForm(screen: Screen, rec: Record, fields: seq<string>, dbLookup: bool, env: LookupEnv, inp: Input)
    returns (result: Option<Record>, status: FormStatus, rest: Input)
    modifies rec
    ensures var run := EditFormRun(fields, dbLookup, env, old(rec.entries), inp);
      && status == run.status && rec.entries == run.values && rest == run.rest
    ensures result == (if status == Saved then Some(rec) else None)
  {
    if fields == [] {
      return None, NoFields, inp;
    }
    var row := 0;
    var cur := inp;
    while true
      invariant 0 <= row < |fields|
      invariant FormLoop(fields, dbLookup, env, row, rec.entries, cur) == EditFormRun(fields, dbLookup, env, old(rec.entries), inp)
      decreases |cur.keys|
    {
      if cur.keys == [] {
        return None, Waiting, cur;
      }
      var key := cur.keys[0];
      cur := cur.(keys := cur.keys[1..]);
      if IsUpKey(key) && row > 0 {
        row := row - 1;
      } else if IsDownKey(key) && row < |fields| - 1 {
        row := row + 1;
      } else if IsSaveKey(key) {
        return Some(rec), Saved, cur;
      } else if IsBackKey(key) {
        return None, Cancelled, cur;
      } else if IsLookupKey(key) && dbLookup {
        var ks := HandleDatabaseLookup(screen, rec, fields[row], env, cur.keys);
        if ks.None? {
          return None, Waiting, cur;
        }
        cur := cur.(keys := ks.value);
      } else if IsEnterKey(key) {
        if cur.texts == [] {
          return None, Waiting, cur;
        }
        var line := ReadLine(cur.texts[0], FORM_LIMIT);
        cur := cur.(texts := cur.texts[1..]);
        if line.Some? {
          rec.entries := Put(rec.entries, fields[row], line.value);
        }
      }
    }
  }
}
