/**
  `OrderXML` of models/xml_generator.py: the payload of an order is its
  mode's header template formatted from the order's record, with the
  per-record line templates, the capacity specs or the slot contents
  filled in first. Every failure becomes an OrderValidationError; the
  kinds of failure are kept apart here.
 */
module XmlGenerator {
  import opened Wrappers
  import opened PyText
  import opened PyDict
  import opened Defaults

  /** `order_data["values"]`: one record, or a list of line records. */
  datatype Values = One(record: Dict<string>) | Many(records: seq<Dict<string>>)

  /** The `order_data` dict: the mode's name, its values and the (unused) edited lines. */
  datatype OrderData = OrderData(mode: string, values: Values, lines: Option<seq<Dict<string>>>)

  /** Python's `not values`: an empty dict or an empty list. */
  predicate Falsy(v: Values) {
    match v
    case One(d) => d == []
    case Many(l) => l == []
  }

  /**
    Why generation raised OrderValidationError: an unknown mode, missing
    values, the KeyError of a missing placeholder (naming it), or any
    other exception (a record where a list is needed, a list where a
    record is needed, a record that already has a `lines` key).
   */
  datatype GenError = InvalidMode(mode: string) | ValuesRequired | MissingField(name: string) | Failed

  /** The payload, and the values as generation leaves them (Goods Add and Transport write into them). */
  datatype Generated = Generated(xml: Result<string, GenError>, values: Values)

  /** The line template formatted from each record, concatenated in list order; the first KeyError wins. */
  function LinesXml(t: Template, records: seq<Dict<string>>): Result<string, string>
    decreases |records|
  {
    if records == [] then Ok("")
    else
      match LinesXml(t, records[..|records| - 1])
      case Err(e) => Err(e)
      case Ok(x) =>
        match Format(t, records[|records| - 1])
        case Err(e) => Err(e)
        case Ok(y) => Ok(x + y)
  }

  /** One `<capacity_spec …/>` element. */
  function SpecXml(spec: (string, int)): string {
    "<capacity_spec compartment_type=\"" + spec.0 + "\" maximum_quantity=\"" + IntToString(spec.1) + "\"/>"
  }

  /** The strings of `parts` joined together. */
  function Concat(parts: seq<string>): string
    decreases |parts|
  {
    if parts == [] then "" else Concat(parts[..|parts| - 1]) + parts[|parts| - 1]
  }

  /** The `<capacity_spec …/>` element of each configured spec, in insertion order. */
  function SpecElements(specs: Dict<int>): (r: seq<string>)
    ensures |r| == |specs| && forall i :: 0 <= i < |specs| ==> r[i] == SpecXml(specs[i])
  {
    seq(|specs|, i requires 0 <= i < |specs| => SpecXml(specs[i]))
  }

  /** `_generate_capacity_specs` on the configured specs. */
  function CapacitySpecsXml(specs: Dict<int>): string {
    Concat(SpecElements(specs))
  }

  /** `config.get("capacity_specs", {})`; an entry of another kind counts as no specs. */
  function CapacitySpecsOf(config: Config): Dict<int> {
    var v := Get(config, "capacity_specs");
    if v.Some? && v.value.Specs? then v.value.specs else []
  }

  /** `XML_TEMPLATES[m].format(**env).strip()`. */
  function FormatHeader(m: Mode, env: Dict<string>): Result<string, GenError> {
    match Format(Header(m), env)
    case Err(n) => Err(MissingField(n))
    case Ok(s) => Ok(Strip(s))
  }

  /** The copy that goods-in generation formats: `cont_type` and `capacity_specs` added. */
  function GoodsInRecord(d: Dict<string>, config: Config): (r: Dict<string>)
    ensures Get(r, "cont_type") == Some(GetOr(d, "Container Type", "full"))
    ensures Get(r, "capacity_specs") == Some(CapacitySpecsXml(CapacitySpecsOf(config)))
    ensures forall k :: k != "cont_type" && k != "capacity_specs" ==> Get(r, k) == Get(d, k)
  {
    Put(Put(d, "cont_type", GetOr(d, "Container Type", "full")), "capacity_specs", CapacitySpecsXml(CapacitySpecsOf(config)))
  }

  /** `_generate_pick_order`: lines from every record, the header from the first one. */
  function PickOrder(m: Mode, values: Values): Result<string, GenError>
    requires HasLines(m)
  {
    match values
    case One(_) => Err(Failed)
    case Many(l) =>
      if l == [] then Err(Failed)
      else
        match LinesXml(LineTemplate(m).value, l)
        case Err(n) => Err(MissingField(n))
        case Ok(x) => if HasKey(l[0], "lines") then Err(Failed) else FormatHeader(m, Put(l[0], "lines", x))
  }

  /** `_generate_transport_order`: the slot contents go into the first record, which is then formatted. */
  function TransportOrder(values: Values): Generated {
    match values
    case One(_) => Generated(Err(Failed), values)
    case Many(l) =>
      if l == [] then Generated(Err(Failed), values)
      else
        match LinesXml(LineTemplate(Transport).value, l)
        case Err(n) => Generated(Err(MissingField(n)), values)
        case Ok(x) =>
          var first := Put(l[0], "slot_contents", x);
          Generated(FormatHeader(Transport, first), Many(l[0 := first]))
  }

  /** The goods-add branch: `capacity_specs` is written into the record, which is then formatted. */
  function GoodsAddOrder(values: Values, config: Config): Generated {
    match values
    case Many(_) => Generated(Err(Failed), values)
    case One(r) =>
      var d := Put(r, "capacity_specs", CapacitySpecsXml(CapacitySpecsOf(config)));
      Generated(FormatHeader(GoodsAdd, d), One(d))
  }

  /** `OrderXML.generate`. */
  function Generate(order: OrderData, config: Config): (g: Generated)
    ensures ModeOf(order.mode).None? ==> g == Generated(Err(InvalidMode(order.mode)), order.values)
    ensures ModeOf(order.mode).Some? && Falsy(order.values) ==> g == Generated(Err(ValuesRequired), order.values)
    ensures g.values != order.values ==> ModeOf(order.mode) == Some(GoodsAdd) || ModeOf(order.mode) == Some(Transport)
  {
    var values := order.values;
    match ModeOf(order.mode)
    case None => Generated(Err(InvalidMode(order.mode)), values)
    case Some(m) =>
      if Falsy(values) then Generated(Err(ValuesRequired), values)
      else
        match m
        case PickStandard => Generated(PickOrder(m, values), values)
        case PickManual => Generated(PickOrder(m, values), values)
        case Inventory =>
          if values.One? then Generated(FormatHeader(Inventory, values.record), values)
          else Generated(Err(Failed), values)
        case GoodsIn =>
          if values.One? then Generated(FormatHeader(GoodsIn, GoodsInRecord(values.record, config)), values)
          else Generated(Err(Failed), values)
        case GoodsAdd => GoodsAddOrder(values, config)
        case Transport => TransportOrder(values)
  }

  // Properties of the specification functions

  /** Every record of the list has a value for every placeholder of `t`. */
  predicate AllFillable(t: Template, records: seq<Dict<string>>) {
    forall i :: 0 <= i < |records| ==> Fillable(t, records[i])
  }

  /** Formatting the lines of a list fails exactly when some record misses a placeholder. */
  lemma {:induction false} LinesXmlOkIff(t: Template, records: seq<Dict<string>>)
    ensures LinesXml(t, records).Ok? <==> AllFillable(t, records)
    decreases |records|
  {
    if records != [] {
      var front := records[..|records| - 1];
      LinesXmlOkIff(t, front);
      FormatFailsIffMissing(t, records[|records| - 1]);
      assert AllFillable(t, records) <==> AllFillable(t, front) && Fillable(t, records[|records| - 1]) by {
        assert forall i :: 0 <= i < |front| ==> front[i] == records[i];
      }
    }
  }

  /** The error of a failed list names a placeholder of the template. */
  lemma {:induction false} LinesXmlErrIsHole(t: Template, records: seq<Dict<string>>)
    requires LinesXml(t, records).Err?
    ensures LinesXml(t, records).error in Holes(t)
    decreases |records|
  {
    var front := records[..|records| - 1];
    if LinesXml(t, front).Err? {
      LinesXmlErrIsHole(t, front);
    } else {
      var r := Format(t, records[|records| - 1]);
      FormatFailsIffMissing(t, records[|records| - 1]);
      var i :| 0 <= i < |t| && t[i] == Hole(r.error) && !HasKey(records[|records| - 1], t[i].name) && Fillable(t[..i], records[|records| - 1]);
      assert t[i].name == r.error;
    }
  }

  /** The lines of `a + b` are the lines of `a` followed by the lines of `b`. */
  lemma {:induction false} LinesXmlAppend(t: Template, a: seq<Dict<string>>, b: seq<Dict<string>>)
    requires LinesXml(t, a).Ok? && LinesXml(t, b).Ok?
    ensures LinesXml(t, a + b) == Ok(LinesXml(t, a).value + LinesXml(t, b).value)
    decreases |b|
  {
    if b == [] {
      assert a + b == a;
      assert LinesXml(t, a).value + "" == LinesXml(t, a).value;
    } else {
      var b' := b[..|b| - 1];
      assert (a + b)[..|a + b| - 1] == a + b';
      assert (a + b)[|a + b| - 1] == b[|b| - 1];
      LinesXmlAppend(t, a, b');
      var x, y, z := LinesXml(t, a).value, LinesXml(t, b').value, Format(t, b[|b| - 1]).value;
      assert x + (y + z) == (x + y) + z;
    }
  }

  /** A one-record list gives exactly that record's formatted line. */
  lemma {:induction false} LinesXmlSingle(t: Template, r: Dict<string>)
    ensures LinesXml(t, [r]) == Format(t, r)
  {
    assert [r][..0] == [];
    if Format(t, r).Ok? {
      assert "" + Format(t, r).value == Format(t, r).value;
    }
  }

  /** No specs give `""`; otherwise the text is non-empty. */
  lemma {:induction false} CapacitySpecsEmpty(specs: Dict<int>)
    ensures CapacitySpecsXml(specs) == "" <==> specs == []
  {
    var parts := SpecElements(specs);
    if specs == [] {
      assert parts == [];
    } else {
      var n := |parts| - 1;
      SpecXmlNonEmpty(specs[n]);
      assert parts[n] == SpecXml(specs[n]);
      assert Concat(parts) == Concat(parts[..n]) + parts[n];
    }
  }

  lemma SpecXmlNonEmpty(spec: (string, int))
    ensures |SpecXml(spec)| > 0
  {
    var head := "<capacity_spec compartment_type=\"";
    assert |head| > 0;
    assert SpecXml(spec) == head + (spec.0 + ("\" maximum_quantity=\"" + IntToString(spec.1) + "\"/>"));
  }

  /** Joining puts the first part first. */
  lemma {:induction false} ConcatCons(x: string, parts: seq<string>)
    ensures Concat([x] + parts) == x + Concat(parts)
    decreases |parts|
  {
    var s := [x] + parts;
    if parts == [] {
      assert s[..0] == [];
      assert "" + x == x + "";
    } else {
      var front, last := parts[..|parts| - 1], parts[|parts| - 1];
      assert s[..|s| - 1] == [x] + front;
      ConcatCons(x, front);
      assert (x + Concat(front)) + last == x + (Concat(front) + last);
    }
  }

  lemma {:induction false} ConcatSnoc(parts: seq<string>, i: nat)
    requires i < |parts|
    ensures Concat(parts[..i + 1]) == Concat(parts[..i]) + parts[i]
  {
    assert parts[..i + 1][..i] == parts[..i];
  }

  /** The first configured spec's element comes first, then the rest in order. */
  lemma {:induction false} CapacitySpecsCons(e: (string, int), specs: Dict<int>)
    ensures CapacitySpecsXml([e] + specs) == SpecXml(e) + CapacitySpecsXml(specs)
  {
    assert SpecElements([e] + specs) == [SpecXml(e)] + SpecElements(specs);
    ConcatCons(SpecXml(e), SpecElements(specs));
  }

  /** A KeyError always names a placeholder of the mode's header or line template. */
  lemma {:induction false} MissingFieldIsPlaceholder(order: OrderData, config: Config, m: Mode)
    requires ModeOf(order.mode) == Some(m)
    requires Generate(order, config).xml.Err? && Generate(order, config).xml.error.MissingField?
    ensures Generate(order, config).xml.error.name in Holes(Header(m))
         || (HasLines(m) && Generate(order, config).xml.error.name in Holes(LineTemplate(m).value))
  {
    if m == PickStandard || m == PickManual {
      PickGenerated(order, config, m);
    } else if m == Transport {
      TransportGenerated(order, config);
    } else {
      HeaderGenerated(order, config, m);
    }
  }

  /** The record a single-record mode formats its header with. */
  function HeaderRecord(m: Mode, d: Dict<string>, config: Config): Dict<string> {
    match m
    case GoodsIn => GoodsInRecord(d, config)
    case GoodsAdd => Put(d, "capacity_specs", CapacitySpecsXml(CapacitySpecsOf(config)))
    case _ => d
  }

  /** The pick modes' missing-field error comes from `PickOrder`, so it names a placeholder of its templates. */
  lemma {:induction false} PickGenerated(order: OrderData, config: Config, m: Mode)
    requires ModeOf(order.mode) == Some(m) && (m == PickStandard || m == PickManual)
    requires Generate(order, config).xml.Err? && Generate(order, config).xml.error.MissingField?
    ensures Generate(order, config).xml.error.name in Holes(Header(m))
         || (HasLines(m) && Generate(order, config).xml.error.name in Holes(LineTemplate(m).value))
  {
    assert !Falsy(order.values);
    assert Generate(order, config).xml == PickOrder(m, order.values);
    PickMissingField(m, order.values);
  }

  /** The transport mode's missing-field error comes from `TransportOrder`, so it names a placeholder of its templates. */
  lemma {:induction false} TransportGenerated(order: OrderData, config: Config)
    requires ModeOf(order.mode) == Some(Transport)
    requires Generate(order, config).xml.Err? && Generate(order, config).xml.error.MissingField?
    ensures Generate(order, config).xml.error.name in Holes(Header(Transport))
         || (HasLines(Transport) && Generate(order, config).xml.error.name in Holes(LineTemplate(Transport).value))
  {
    assert !Falsy(order.values);
    assert Generate(order, config).xml == TransportOrder(order.values).xml;
    TransportMissingField(order.values);
  }

  /** The single-record modes' missing-field error comes from formatting the header, so it names one of its placeholders. */
  lemma {:induction false} HeaderGenerated(order: OrderData, config: Config, m: Mode)
    requires ModeOf(order.mode) == Some(m) && (m == Inventory || m == GoodsIn || m == GoodsAdd)
    requires Generate(order, config).xml.Err? && Generate(order, config).xml.error.MissingField?
    ensures Generate(order, config).xml.error.name in Holes(Header(m))
         || (HasLines(m) && Generate(order, config).xml.error.name in Holes(LineTemplate(m).value))
  {
    assert !Falsy(order.values);
    assert order.values.One? && Generate(order, config).xml == FormatHeader(m, HeaderRecord(m, order.values.record, config));
    HeaderMissingField(m, HeaderRecord(m, order.values.record, config));
  }

  lemma {:induction false} TransportMissingField(values: Values)
    requires TransportOrder(values).xml.Err? && TransportOrder(values).xml.error.MissingField?
    ensures var n := TransportOrder(values).xml.error.name;
      n in Holes(Header(Transport)) || n in Holes(LineTemplate(Transport).value)
  {
    var l := values.records;
    var t := LineTemplate(Transport).value;
    if LinesXml(t, l).Err? {
      LinesXmlErrIsHole(t, l);
    } else {
      HeaderMissingField(Transport, Put(l[0], "slot_contents", LinesXml(t, l).value));
    }
  }

  lemma {:induction false} HeaderMissingField(m: Mode, env: Dict<string>)
    requires FormatHeader(m, env).Err? && FormatHeader(m, env).error.MissingField?
    ensures FormatHeader(m, env).error.name in Holes(Header(m))
  {
    FormatFailsIffMissing(Header(m), env);
    var n := FormatHeader(m, env).error.name;
    var i :| 0 <= i < |Header(m)| && Header(m)[i] == Hole(n) && !HasKey(env, Header(m)[i].name) && Fillable(Header(m)[..i], env);
    assert Header(m)[i].name == n;
  }

  lemma {:induction false} PickMissingField(m: Mode, values: Values)
    requires HasLines(m)
    requires PickOrder(m, values).Err? && PickOrder(m, values).error.MissingField?
    ensures var n := PickOrder(m, values).error.name;
      n in Holes(Header(m)) || n in Holes(LineTemplate(m).value)
  {
    var l := values.records;
    if LinesXml(LineTemplate(m).value, l).Err? {
      LinesXmlErrIsHole(LineTemplate(m).value, l);
    } else {
      HeaderMissingField(m, Put(l[0], "lines", LinesXml(LineTemplate(m).value, l).value));
    }
  }

  /** The record whose fields fill the header: the single record, or the first of a list. */
  function FirstRecord(v: Values): Option<Dict<string>> {
    match v
    case One(d) => Some(d)
    case Many(l) => if l == [] then None else Some(l[0])
  }

  /** The placeholders the generator fills itself rather than from a record. */
  const GENERATOR_KEYS: set<string> := {"lines", "cont_type", "capacity_specs", "slot_contents"}

  /**
    A generated payload is the stripped header of its mode, formatted from
    the first record with only generator-supplied keys added.
   */
  lemma {:induction false} GeneratedHeader(order: OrderData, config: Config, m: Mode) returns (env: Dict<string>)
    requires ModeOf(order.mode) == Some(m) && Generate(order, config).xml.Ok?
    ensures FirstRecord(order.values).Some?
    ensures Format(Header(m), env).Ok? && Generate(order, config).xml.value == Strip(Format(Header(m), env).value)
    ensures forall k :: k !in GENERATOR_KEYS ==> Get(env, k) == Get(FirstRecord(order.values).value, k)
  {
    if m == PickStandard || m == PickManual || m == Transport {
      env := ListHeader(order, config, m);
    } else {
      env := RecordHeader(order, config, m);
    }
  }

  /** `GeneratedHeader` for the modes whose values are a list of records. */
  lemma {:induction false} ListHeader(order: OrderData, config: Config, m: Mode) returns (env: Dict<string>)
    requires m == PickStandard || m == PickManual || m == Transport
    requires ModeOf(order.mode) == Some(m) && Generate(order, config).xml.Ok?
    ensures FirstRecord(order.values).Some?
    ensures Format(Header(m), env).Ok? && Generate(order, config).xml.value == Strip(Format(Header(m), env).value)
    ensures forall k :: k !in GENERATOR_KEYS ==> Get(env, k) == Get(FirstRecord(order.values).value, k)
  {
    if m == Transport {
      env := TransportHeader(order, config, m);
    } else {
      env := PickHeader(order, config, m);
    }
  }

  /** `GeneratedHeader` for the modes whose values are one record. */
  lemma {:induction false} RecordHeader(order: OrderData, config: Config, m: Mode) returns (env: Dict<string>)
    requires m == Inventory || m == GoodsIn || m == GoodsAdd
    requires ModeOf(order.mode) == Some(m) && Generate(order, config).xml.Ok?
    ensures FirstRecord(order.values).Some?
    ensures Format(Header(m), env).Ok? && Generate(order, config).xml.value == Strip(Format(Header(m), env).value)
    ensures forall k :: k !in GENERATOR_KEYS ==> Get(env, k) == Get(FirstRecord(order.values).value, k)
  {
    if m == Inventory {
      env := InventoryHeader(order, config, m);
    } else if m == GoodsIn {
      env := GoodsInHeader(order, config, m);
    } else {
      env := GoodsAddHeader(order, config, m);
    }
  }

  lemma {:induction false} InventoryHeader(order: OrderData, config: Config, m: Mode) returns (env: Dict<string>)
    requires m == Inventory && ModeOf(order.mode) == Some(m) && Generate(order, config).xml.Ok?
    ensures order.values.One? && env == order.values.record
    ensures Format(Header(m), env).Ok? && Generate(order, config).xml.value == Strip(Format(Header(m), env).value)
    ensures FirstRecord(order.values).Some?
    ensures forall k :: k !in GENERATOR_KEYS ==> Get(env, k) == Get(FirstRecord(order.values).value, k)
  {
    env := order.values.record;
  }

  lemma {:induction false} GoodsInHeader(order: OrderData, config: Config, m: Mode) returns (env: Dict<string>)
    requires m == GoodsIn && ModeOf(order.mode) == Some(m) && Generate(order, config).xml.Ok?
    ensures order.values.One? && env == GoodsInRecord(order.values.record, config)
    ensures Format(Header(m), env).Ok? && Generate(order, config).xml.value == Strip(Format(Header(m), env).value)
    ensures FirstRecord(order.values).Some?
    ensures forall k :: k !in GENERATOR_KEYS ==> Get(env, k) == Get(FirstRecord(order.values).value, k)
  {
    env := GoodsInFormat(order, config, m);
    GoodsInAgrees(order.values.record, config);
  }

  lemma {:induction false} GoodsInFormat(order: OrderData, config: Config, m: Mode) returns (env: Dict<string>)
    requires m == GoodsIn && ModeOf(order.mode) == Some(m) && Generate(order, config).xml.Ok?
    ensures order.values.One? && env == GoodsInRecord(order.values.record, config)
    ensures Format(Header(m), env).Ok? && Generate(order, config).xml.value == Strip(Format(Header(m), env).value)
  {
    env := GoodsInRecord(order.values.record, config);
  }

  lemma GoodsInAgrees(d: Dict<string>, config: Config)
    ensures forall k :: k !in GENERATOR_KEYS ==> Get(GoodsInRecord(d, config), k) == Get(d, k)
  {
  }

  lemma {:induction false} GoodsAddHeader(order: OrderData, config: Config, m: Mode) returns (env: Dict<string>)
    requires m == GoodsAdd && ModeOf(order.mode) == Some(m) && Generate(order, config).xml.Ok?
    ensures order.values.One? && env == Put(order.values.record, "capacity_specs", CapacitySpecsXml(CapacitySpecsOf(config)))
    ensures Format(Header(m), env).Ok? && Generate(order, config).xml.value == Strip(Format(Header(m), env).value)
    ensures FirstRecord(order.values).Some?
    ensures forall k :: k !in GENERATOR_KEYS ==> Get(env, k) == Get(FirstRecord(order.values).value, k)
  {
    env := Put(order.values.record, "capacity_specs", CapacitySpecsXml(CapacitySpecsOf(config)));
  }

  lemma {:induction false} PickHeader(order: OrderData, config: Config, m: Mode) returns (env: Dict<string>)
    requires m == PickStandard || m == PickManual
    requires ModeOf(order.mode) == Some(m) && Generate(order, config).xml.Ok?
    ensures order.values.Many? && order.values.records != []
    ensures env == Put(order.values.records[0], "lines", LinesXml(LineTemplate(m).value, order.values.records).value)
    ensures Format(Header(m), env).Ok? && Generate(order, config).xml.value == Strip(Format(Header(m), env).value)
    ensures FirstRecord(order.values).Some?
    ensures forall k :: k !in GENERATOR_KEYS ==> Get(env, k) == Get(FirstRecord(order.values).value, k)
  {
    env := Put(order.values.records[0], "lines", LinesXml(LineTemplate(m).value, order.values.records).value);
  }

  /** The transport payload is its header formatted from the first record with the slot contents added. */
  lemma {:induction false} TransportHeader(order: OrderData, config: Config, m: Mode) returns (env: Dict<string>)
    requires m == Transport && ModeOf(order.mode) == Some(m) && Generate(order, config).xml.Ok?
    ensures order.values.Many? && order.values.records != []
    ensures LinesXml(LineTemplate(m).value, order.values.records).Ok?
    ensures env == Put(order.values.records[0], "slot_contents", LinesXml(LineTemplate(m).value, order.values.records).value)
    ensures Format(Header(m), env).Ok? && Generate(order, config).xml.value == Strip(Format(Header(m), env).value)
    ensures FirstRecord(order.values).Some?
    ensures forall k :: k !in GENERATOR_KEYS ==> Get(env, k) == Get(FirstRecord(order.values).value, k)
  {
    env := Put(order.values.records[0], "slot_contents", LinesXml(LineTemplate(m).value, order.values.records).value);
  }

  /** The `lines` entry of the order data plays no part in generation. */
  lemma GenerateIgnoresLines(order: OrderData, lines: Option<seq<Dict<string>>>, config: Config)
    ensures Generate(order.(lines := lines), config) == Generate(order, config)
  {
  }

  /**
    A pick payload depends on the records only through the first record
    and the concatenated lines: two lists that agree on both give the same
    payload.
   */
  lemma PickHeaderFromFirstRecord(m: Mode, a: seq<Dict<string>>, b: seq<Dict<string>>)
    requires m == PickStandard || m == PickManual
    requires a != [] && b != [] && a[0] == b[0]
    requires LinesXml(LineTemplate(m).value, a) == LinesXml(LineTemplate(m).value, b)
    ensures PickOrder(m, Many(a)) == PickOrder(m, Many(b))
  {
  }

  /** Goods-in formats a copy: the caller's record is left as it was. */
  lemma GoodsInLeavesValues(order: OrderData, config: Config)
    requires ModeOf(order.mode) == Some(GoodsIn)
    ensures Generate(order, config).values == order.values
  {
  }

  /** Goods-add writes `capacity_specs` into the caller's record, and nothing else. */
  lemma {:induction false} GoodsAddWritesSpecs(order: OrderData, config: Config)
    requires ModeOf(order.mode) == Some(GoodsAdd) && order.values.One? && order.values.record != []
    ensures var v := Generate(order, config).values;
      && v.One?
      && Get(v.record, "capacity_specs") == Some(CapacitySpecsXml(CapacitySpecsOf(config)))
      && forall k :: k != "capacity_specs" ==> Get(v.record, k) == Get(order.values.record, k)
  {
    var d := Put(order.values.record, "capacity_specs", CapacitySpecsXml(CapacitySpecsOf(config)));
    assert !Falsy(order.values);
    GoodsAddBranch(order, config, GoodsAdd);
    assert GoodsAddOrder(order.values, config).values == One(d);
  }

  lemma {:induction false} GoodsAddBranch(order: OrderData, config: Config, m: Mode)
    requires m == GoodsAdd && ModeOf(order.mode) == Some(m) && !Falsy(order.values)
    ensures Generate(order, config) == GoodsAddOrder(order.values, config)
  {
  }

  /** Transport writes the slot contents into the first record once the lines are formatted; the other records stay. */
  lemma {:induction false} TransportWritesSlots(order: OrderData, config: Config)
    requires ModeOf(order.mode) == Some(Transport) && order.values.Many? && order.values.records != []
    requires LinesXml(LineTemplate(Transport).value, order.values.records).Ok?
    ensures var l, v := order.values.records, Generate(order, config).values;
      && v.Many? && |v.records| == |l|
      && Get(v.records[0], "slot_contents") == Some(LinesXml(LineTemplate(Transport).value, l).value)
      && (forall k :: k != "slot_contents" ==> Get(v.records[0], k) == Get(l[0], k))
      && forall i :: 0 < i < |l| ==> v.records[i] == l[i]
  {
    var l := order.values.records;
    var first := Put(l[0], "slot_contents", LinesXml(LineTemplate(Transport).value, l).value);
    assert !Falsy(order.values);
    assert Generate(order, config) == TransportOrder(order.values);
    assert TransportOrder(order.values).values == Many(l[0 := first]);
  }

  // The accumulator loops of the generator

  /** The `lines_xml +=` / `slot_contents_xml +=` loop. */
  method BuildLinesXml(t: Template, records: seq<Dict<string>>) returns (r: Result<string, string>)
    ensures r == LinesXml(t, records)
  {
    var acc := "";
    var i := 0;
    while i < |records|
      invariant 0 <= i <= |records|
      invariant LinesXml(t, records[..i]) == Ok(acc)
    {
      assert records[..i + 1][..i] == records[..i];
      match Format(t, records[i])
      case Err(e) =>
        LinesXmlPrefixErr(t, records, i + 1);
        return Err(e);
      case Ok(y) =>
        acc := acc + y;
      i := i + 1;
    }
    assert records[..i] == records;
    return Ok(acc);
  }

  /** Once a prefix fails, the whole list fails with the same error. */
  lemma {:induction false} LinesXmlPrefixErr(t: Template, records: seq<Dict<string>>, i: nat)
    requires 0 < i <= |records| && LinesXml(t, records[..i]).Err?
    ensures LinesXml(t, records) == LinesXml(t, records[..i])
    decreases |records| - i
  {
    if i < |records| {
      assert records[..i + 1][..i] == records[..i];
      LinesXmlPrefixErr(t, records, i + 1);
    } else {
      assert records[..i] == records;
    }
  }

  /** The `capacity_specs +=` loop. */
  method BuildCapacitySpecs(specs: Dict<int>) returns (s: string)
    ensures s == CapacitySpecsXml(specs)
  {
    s := "";
    var i := 0;
    ghost var parts := SpecElements(specs);
    while i < |specs|
      invariant 0 <= i <= |specs|
      invariant s == Concat(parts[..i])
    {
      var element := SpecXml(specs[i]);
      ConcatSnoc(parts, i);
      s := s + element;
      i := i + 1;
    }
    assert parts[..i] == parts;
  }

  /** `OrderXML.generate`, with the generator's loops. */
  method GenerateOrder(order: OrderData, config: Config) returns (g: Generated)
    ensures g == Generate(order, config)
  {
    var values := order.values;
    var mode := ModeOf(order.mode);
    if mode.None? {
      return Generated(Err(InvalidMode(order.mode)), values);
    }
    if Falsy(values) {
      return Generated(Err(ValuesRequired), values);
    }
    var m := mode.value;
    match m {
      case PickStandard =>
        var xml := GeneratePickOrder(m, values);
        g := Generated(xml, values);
      case PickManual =>
        var xml := GeneratePickOrder(m, values);
        g := Generated(xml, values);
      case Inventory =>
        if values.Many? {
          return Generated(Err(Failed), values);
        }
        g := Generated(FormatHeader(m, values.record), values);
      case GoodsIn =>
        if values.Many? {
          return Generated(Err(Failed), values);
        }
        var specs := BuildCapacitySpecs(CapacitySpecsOf(config));
        var d := Put(Put(values.record, "cont_type", GetOr(values.record, "Container Type", "full")), "capacity_specs", specs);
        g := Generated(FormatHeader(m, d), values);
      case GoodsAdd =>
        g := GenerateGoodsAddOrder(values, config);
      case Transport =>
        g := GenerateTransportOrder(values);
    }
  }

  /** `_generate_pick_order`, with its `lines_xml` loop. */
  method GeneratePickOrder(m: Mode, values: Values) returns (r: Result<string, GenError>)
    requires HasLines(m)
    ensures r == PickOrder(m, values)
  {
    if values.One? || values.records == [] {
      return Err(Failed);
    }
    var l := values.records;
    var lines := BuildLinesXml(LineTemplate(m).value, l);
    if lines.Err? {
      return Err(MissingField(lines.error));
    }
    if HasKey(l[0], "lines") {
      return Err(Failed);
    }
    r := FormatHeader(m, Put(l[0], "lines", lines.value));
  }

  /** `_generate_goods_add_order`: the capacity specs are written into the caller's record. */
  method GenerateGoodsAddOrder(values: Values, config: Config) returns (g: Generated)
    ensures g == GoodsAddOrder(values, config)
  {
    if values.Many? {
      return Generated(Err(Failed), values);
    }
    var specs := BuildCapacitySpecs(CapacitySpecsOf(config));
    var d := Put(values.record, "capacity_specs", specs);
    g := Generated(FormatHeader(GoodsAdd, d), One(d));
  }

  /** `_generate_transport_order`, with its `slot_contents_xml` loop. */
  method GenerateTransportOrder(values: Values) returns (g: Generated)
    ensures g == TransportOrder(values)
  {
    if values.One? || values.records == [] {
      return Generated(Err(Failed), values);
    }
    var l := values.records;
    var lines := BuildLinesXml(LineTemplate(Transport).value, l);
    if lines.Err? {
      return Generated(Err(MissingField(lines.error)), values);
    }
    var first := Put(l[0], "slot_contents", lines.value);
    g := Generated(FormatHeader(Transport, first), Many(l[0 := first]));
  }
}
