/**
  The mode tables of config/defaults.py and config/constants.py: the order
  modes, the default record of each mode, the field order of the editors,
  and the payload templates, each template cut into literal text and
  `{placeholder}` holes as `str.format` sees it.
 */
module Defaults {
  import opened Wrappers
  import opened PyText
  import opened PyDict

  /**
    The order modes. The template tables key their transport entries by
    `OrderMode.TRANSPORT`, which `OrderMode` does not define; the model adds
    the mode as `Transport`, under a name of its own choosing.
   */
  datatype Mode = PickStandard | PickManual | Inventory | GoodsIn | GoodsAdd | Transport

  /** The mode's name, which is also its key in the configuration. */
  function ModeName(m: Mode): string {
    match m
    case PickStandard => "Pick Standard"
    case PickManual => "Pick Manual"
    case Inventory => "Inventory"
    case GoodsIn => "Goods In"
    case GoodsAdd => "Goods Add"
    case Transport => "Transport"
  }

  /** The mode a configuration key names, if any. */
  function ModeOf(s: string): (m: Option<Mode>)
    ensures m.Some? ==> ModeName(m.value) == s
    ensures forall k :: ModeName(k) == s ==> m == Some(k)
  {
    if s == "Pick Standard" then Some(PickStandard)
    else if s == "Pick Manual" then Some(PickManual)
    else if s == "Inventory" then Some(Inventory)
    else if s == "Goods In" then Some(GoodsIn)
    else if s == "Goods Add" then Some(GoodsAdd)
    else if s == "Transport" then Some(Transport)
    else None
  }

  /** `ORDER_TYPES`: the modes offered in the main menu; Transport is not among them. */
  const ORDER_TYPES: seq<Mode> := [PickStandard, PickManual, Inventory, GoodsIn, GoodsAdd]

  /** The added transport mode is the one mode the main menu does not offer. */
  lemma TransportNotOffered()
    ensures forall m :: m in ORDER_TYPES <==> m != Transport
  {
  }

  /** The modes whose configuration entry is a list of line records. */
  predicate HasLines(m: Mode) {
    m == PickStandard || m == PickManual || m == Transport
  }

  const LIVE := "Live"
  const TEST := "Test"

  /** `SERVER_TYPES`. */
  const SERVER_TYPES: seq<string> := [LIVE, TEST]

  /** A piece of a template: literal text, or a placeholder to be filled from the record. */
  datatype Piece = Lit(text: string) | Hole(name: string)

  type Template = seq<Piece>

  /** The placeholder names of a template. */
  function Holes(t: Template): set<string> {
    set i | 0 <= i < |t| && t[i].Hole? :: t[i].name
  }

  /** Every placeholder of `t` has a value in `env`. */
  predicate Fillable(t: Template, env: Dict<string>) {
    forall i :: 0 <= i < |t| && t[i].Hole? ==> HasKey(env, t[i].name)
  }

  /**
    `template.format(**env)`: the pieces in order, each hole replaced by its
    value; the first placeholder without a value raises KeyError with its name.
   */
  function Format(t: Template, env: Dict<string>): Result<string, string>
    decreases |t|
  {
    if t == [] then Ok("")
    else
      match t[0]
      case Lit(s) =>
        (match Format(t[1..], env) case Ok(x) => Ok(s + x) case Err(e) => Err(e))
      case Hole(n) =>
        if !HasKey(env, n) then Err(n)
        else (match Format(t[1..], env) case Ok(x) => Ok(Get(env, n).value + x) case Err(e) => Err(e))
  }

  lemma {:induction false} FillableCons(t: Template, env: Dict<string>)
    requires t != []
    ensures Fillable(t, env) <==> (t[0].Hole? ==> HasKey(env, t[0].name)) && Fillable(t[1..], env)
  {
    assert forall i :: 1 <= i < |t| ==> t[i] == t[1..][i - 1];
  }

  /**
    Formatting fails exactly when some placeholder has no value, and the
    error names the first such placeholder.
   */
  lemma {:induction false} FormatFailsIffMissing(t: Template, env: Dict<string>)
    ensures Format(t, env).Ok? <==> Fillable(t, env)
    ensures Format(t, env).Err? ==>
      exists i :: 0 <= i < |t| && t[i] == Hole(Format(t, env).error) && !HasKey(env, t[i].name) && Fillable(t[..i], env)
    decreases |t|
  {
    if t != [] {
      FillableCons(t, env);
      FormatFailsIffMissing(t[1..], env);
      var r := Format(t, env);
      if r.Err? {
        if t[0].Hole? && !HasKey(env, t[0].name) {
          assert t[..0] == [];
          assert t[0] == Hole(r.error);
        } else {
          var e := Format(t[1..], env).error;
          assert r.error == e;
          var i :| 0 <= i < |t[1..]| && t[1..][i] == Hole(e) && !HasKey(env, t[1..][i].name) && Fillable(t[1..][..i], env);
          assert t[i + 1] == Hole(e);
          assert t[..i + 1][1..] == t[1..][..i];
          FillableCons(t[..i + 1], env);
        }
      }
    }
  }

  lemma {:induction false} FillableIffHoles(t: Template, env: Dict<string>)
    ensures Fillable(t, env) <==> forall n :: n in Holes(t) ==> HasKey(env, n)
  {
    if !Fillable(t, env) {
      var i :| 0 <= i < |t| && t[i].Hole? && !HasKey(env, t[i].name);
      assert t[i].name in Holes(t);
    }
  }

  /** Formatting two templates one after the other is formatting their concatenation. */
  lemma {:induction false} FormatAppend(a: Template, b: Template, env: Dict<string>)
    ensures Format(a + b, env) ==
      match Format(a, env)
      case Err(e) => Err(e)
      case Ok(x) => (match Format(b, env) case Err(e) => Err(e) case Ok(y) => Ok(x + y))
  {
    if a == [] {
      assert a + b == b;
      if Format(b, env).Ok? {
        assert "" + Format(b, env).value == Format(b, env).value;
      }
    } else {
      var ab := a + b;
      assert ab[1..] == a[1..] + b;
      assert ab[0] == a[0];
      FormatAppend(a[1..], b, env);
      match a[0]
      case Lit(s) =>
        if Format(a[1..], env).Ok? && Format(b, env).Ok? {
          var x, y := Format(a[1..], env).value, Format(b, env).value;
          assert s + (x + y) == (s + x) + y;
        }
      case Hole(n) =>
        if HasKey(env, n) {
          var v := Get(env, n).value;
          if Format(a[1..], env).Ok? && Format(b, env).Ok? {
            var x, y := Format(a[1..], env).value, Format(b, env).value;
            assert v + (x + y) == (v + x) + y;
          }
        }
    }
  }

  /** Formatting a suffix of a template peels off its first piece. */
  lemma {:induction false} FormatPeel(t: Template, env: Dict<string>, k: nat)
    requires k < |t| && Format(t[k..], env).Ok?
    ensures Format(t[k + 1..], env).Ok?
    ensures t[k].Hole? ==> HasKey(env, t[k].name)
    ensures Format(t[k..], env).value ==
      (if t[k].Lit? then t[k].text else Get(env, t[k].name).value) + Format(t[k + 1..], env).value
  {
    assert t[k..][0] == t[k];
    assert t[k..][1..] == t[k + 1..];
  }

  /** A literal piece formats to its own text, followed by the rest. */
  lemma {:induction false} PeelLit(t: Template, env: Dict<string>, k: nat, text: string)
    requires k < |t| && t[k] == Lit(text) && Format(t[k..], env).Ok?
    ensures Format(t[k + 1..], env).Ok?
    ensures Format(t[k..], env).value == text + Format(t[k + 1..], env).value
  {
    FormatPeel(t, env, k);
  }

  /** A placeholder formats to its key's value, followed by the rest. */
  lemma {:induction false} PeelHole(t: Template, env: Dict<string>, k: nat, key: string)
    requires k < |t| && t[k] == Hole(key) && Format(t[k..], env).Ok?
    ensures Format(t[k + 1..], env).Ok? && HasKey(env, key)
    ensures Format(t[k..], env).value == Get(env, key).value + Format(t[k + 1..], env).value
  {
    FormatPeel(t, env, k);
  }

  /** A formatted template contains the text of each of its literal pieces. */
  lemma {:induction false} FormatContainsLit(t: Template, env: Dict<string>, i: nat)
    requires Format(t, env).Ok? && i < |t| && t[i].Lit?
    ensures Contains(Format(t, env).value, t[i].text)
    decreases |t|
  {
    var rest := Format(t[1..], env).value;
    if i == 0 {
      assert OccursAt(t[0].text, t[0].text, 0);
      ContainsAt(t[0].text, t[0].text, 0);
      ContainsInside("", t[0].text, rest, t[0].text);
      assert "" + t[0].text + rest == Format(t, env).value;
    } else {
      assert t[1..][i - 1] == t[i];
      FormatContainsLit(t[1..], env, i - 1);
      var head := if t[0].Lit? then t[0].text else Get(env, t[0].name).value;
      ContainsInside(head, rest, "", t[i].text);
      assert head + rest + "" == Format(t, env).value;
    }
  }

  /** A formatted template contains the value of each of its placeholders. */
  lemma {:induction false} FormatContainsValue(t: Template, env: Dict<string>, i: nat)
    requires Format(t, env).Ok? && i < |t| && t[i].Hole?
    ensures HasKey(env, t[i].name) && Contains(Format(t, env).value, Get(env, t[i].name).value)
    decreases |t|
  {
    var rest := Format(t[1..], env).value;
    if i == 0 {
      var v := Get(env, t[0].name).value;
      assert OccursAt(v, v, 0);
      ContainsAt(v, v, 0);
      ContainsInside("", v, rest, v);
      assert "" + v + rest == Format(t, env).value;
    } else {
      assert t[1..][i - 1] == t[i];
      FormatContainsValue(t[1..], env, i - 1);
      var head := if t[0].Lit? then t[0].text else Get(env, t[0].name).value;
      ContainsInside(head, rest, "", Get(env, t[i].name).value);
      assert head + rest + "" == Format(t, env).value;
    }
  }

  /** `format` reads only the placeholders: two records that agree on them give the same result. */
  lemma {:induction false} FormatReadsOnlyHoles(t: Template, env1: Dict<string>, env2: Dict<string>)
    requires forall n :: n in Holes(t) ==> Get(env1, n) == Get(env2, n)
    ensures Format(t, env1) == Format(t, env2)
  {
    if t != [] {
      if t[0].Hole? {
        assert t[0].name in Holes(t);
      }
      assert forall n :: n in Holes(t[1..]) ==> n in Holes(t) by {
        forall n | n in Holes(t[1..]) ensures n in Holes(t) {
          var i :| 0 <= i < |t[1..]| && t[1..][i].Hole? && t[1..][i].name == n;
          assert t[i + 1] == t[1..][i];
        }
      }
      FormatReadsOnlyHoles(t[1..], env1, env2);
    }
  }

  /** The default record of each mode (one record, or the first line of a list mode). */
  function DefaultRecord(m: Mode): Dict<string> {
    match m
    case PickStandard => [
      ("Order Number", "1"),
      ("Container / Tray Number", "T925001"),
      ("Quantity", "10"),
      ("Product Code", "test01"),
      ("Product Name", "Test-Product-1")
    ]
    case PickManual => [
      ("Order Number", "1"),
      ("Quantity", "10"),
      ("Product Code", "test01"),
      ("Product Name", "Test-Product-1")
    ]
    case Inventory => [
      ("Order Number", "1"),
      ("Container / Tray Number", "T925001"),
      ("Product Code", "test01")
    ]
    case GoodsIn => [
      ("Order Number", "1"),
      ("Container / Tray Number", "T925001"),
      ("Container Type", "full"),
      ("Quantity", "10"),
      ("Product Code", "test01"),
      ("Product Name", "Test-Product-1")
    ]
    case GoodsAdd => [
      ("Order Number", "1"),
      ("Quantity", "10"),
      ("Product Code", "test01"),
      ("Product Name", "Test-Product-1")
    ]
    case Transport => [
      ("Order Number", "1"),
      ("New Owner", "SRC"),
      ("Owner", "SRC"),
      ("Target Zone", "CIRCULATION"),
      ("Container Number", "T925001"),
      ("Container Type", "OSR_EVO"),
      ("Compartment Type", "full"),
      ("Slot Number", "1"),
      ("Quantity", "10"),
      ("Product Code", "test01"),
      ("Product Name", "Test-Product-1")
    ]
  }

  /** `FIELD_ORDER`: the order in which the editors list a mode's fields. */
  function FieldOrder(m: Mode): seq<string> {
    match m
    case PickStandard => ["Quantity", "Container / Tray Number", "Product Code", "Product Name", "Order Number", "name"]
    case PickManual => ["Quantity", "Product Code", "Product Name", "Order Number", "name"]
    case Inventory => ["Container / Tray Number", "Product Code", "Order Number", "name"]
    case GoodsIn => ["Quantity", "Container / Tray Number", "Product Code", "Product Name", "Container Type", "Order Number", "name"]
    case GoodsAdd => ["Quantity", "Product Code", "Product Name", "Order Number", "name"]
    case Transport => ["Quantity", "Container Number", "Product Code", "Product Name", "Target Zone", "Container Type", "Compartment Type", "New Owner", "Owner", "Slot Number", "Order Number", "name"]
  }

  /** `XML_TEMPLATES`: the payload of each mode, with one hole per placeholder. */
  function Header(m: Mode): Template {
    match m
    case PickStandard => [
      Lit("\n"),
      Lit("    <host2osr>\n"),
      Lit("        <pick_order"),
      Lit(" order_number=\""),
      Hole("name"),
      Lit("-pick-"),
      Hole("Order Number"),
      Lit("\" container_number=\""),
      Hole("Container / Tray Number"),
      Lit("\""),
      Lit(" processing_mode=\""),
      Lit("standard"),
      Lit("\">\n"),
      Lit("            "),
      Hole("lines"),
      Lit("\n"),
      Lit("        </pick_order>\n"),
      Lit("    </host2osr>\n"),
      Lit("    ")
    ]
    case PickManual => [
      Lit("\n"),
      Lit("    <host2osr>\n"),
      Lit("        <pick_order"),
      Lit(" order_number=\""),
      Hole("name"),
      Lit("-pick-manual-"),
      Hole("Order Number"),
      Lit("\""),
      Lit(" processing_mode=\""),
      Lit("manual"),
      Lit("\">\n"),
      Lit("            "),
      Hole("lines"),
      Lit("\n"),
      Lit("        </pick_order>\n"),
      Lit("    </host2osr>\n"),
      Lit("    ")
    ]
    case Inventory => [
      Lit("\n"),
      Lit("    <host2osr>\n"),
      Lit("        <inventory_order"),
      Lit(" order_number=\""),
      Hole("name"),
      Lit("-inv-"),
      Hole("Order Number"),
      Lit("\""),
      Lit(" processing_mode=\""),
      Lit("standard"),
      Lit("\" container_number=\""),
      Hole("Container / Tray Number"),
      Lit("\">\n"),
      Lit("            <product product_code=\""),
      Hole("Product Code"),
      Lit("\" />\n"),
      Lit("        </inventory_order>\n"),
      Lit("    </host2osr>\n"),
      Lit("    ")
    ]
    case GoodsIn => [
      Lit("\n"),
      Lit("    <host2osr>\n"),
      Lit("        <goods_in_order"),
      Lit(" order_number=\""),
      Hole("name"),
      Lit("-goods-in-"),
      Hole("Order Number"),
      Lit("\" compartment_number=\""),
      Hole("Container / Tray Number"),
      Lit("\" compartment_type=\""),
      Hole("cont_type"),
      Lit("\""),
      Lit(" processing_mode=\""),
      Lit("standard"),
      Lit("\">\n"),
      Lit("            <goods_in_order_line quantity_advertised=\""),
      Hole("Quantity"),
      Lit("\">\n"),
      Lit("                <product product_code=\""),
      Hole("Product Code"),
      Lit("\" name=\""),
      Hole("Product Name"),
      Lit("\" returned=\"false\" bundle_size=\"1\">\n"),
      Lit("                    "),
      Hole("capacity_specs"),
      Lit("\n"),
      Lit("                </product>\n"),
      Lit("            </goods_in_order_line>\n"),
      Lit("        </goods_in_order>\n"),
      Lit("    </host2osr>\n"),
      Lit("    ")
    ]
    case GoodsAdd => [
      Lit("\n"),
      Lit("    <host2osr>\n"),
      Lit("        <goods_in_order"),
      Lit(" order_number=\""),
      Hole("name"),
      Lit("-goods-add-"),
      Hole("Order Number"),
      Lit("\""),
      Lit(" processing_mode=\""),
      Lit("renewal"),
      Lit("\">\n"),
      Lit("            <goods_in_order_line quantity_advertised=\""),
      Hole("Quantity"),
      Lit("\">\n"),
      Lit("                <product product_code=\""),
      Hole("Product Code"),
      Lit("\" name=\""),
      Hole("Product Name"),
      Lit("\" returned=\"false\" bundle_size=\"1\">\n"),
      Lit("                    "),
      Hole("capacity_specs"),
      Lit("\n"),
      Lit("                </product>\n"),
      Lit("            </goods_in_order_line>\n"),
      Lit("        </goods_in_order>\n"),
      Lit("    </host2osr>\n"),
      Lit("    ")
    ]
    case Transport => [
      Lit("\n"),
      Lit("    <host2osr>\n"),
      Lit("        <transport_order"),
      Lit(" order_number=\""),
      Hole("name"),
      Lit("-transport-"),
      Hole("Order Number"),
      Lit("\""),
      Lit(" processing_mode=\""),
      Lit("standard"),
      Lit("\" preannouncement=\"true\" new_owner=\""),
      Hole("New Owner"),
      Lit("\" requires_route_assistance=\"false\">\n"),
      Lit("            <transport_order_line target_zone=\""),
      Hole("Target Zone"),
      Lit("\"/>\n"),
      Lit("            <container container_number=\""),
      Hole("Container Number"),
      Lit("\" container_type=\""),
      Hole("Container Type"),
      Lit("\" compartment_type=\""),
      Hole("Compartment Type"),
      Lit("\" owner=\""),
      Hole("Owner"),
      Lit("\">\n"),
      Lit("                "),
      Hole("slot_contents"),
      Lit("\n"),
      Lit("            </container>\n"),
      Lit("        </transport_order>\n"),
      Lit("    </host2osr>\n"),
      Lit("    ")
    ]
  }

  /** `LINE_TEMPLATES`: the per-record fragment of the modes that have lines. */
  function LineTemplate(m: Mode): (t: Option<Template>)
    ensures t.Some? <==> HasLines(m)
  {
    match m
    case PickStandard => Some([
      Lit("\n"),
      Lit("            <pick_order_line quantity=\""),
      Hole("Quantity"),
      Lit("\" target_slot=\"1\">\n"),
      Lit("                <product product_code=\""),
      Hole("Product Code"),
      Lit("\" name=\""),
      Hole("Product Name"),
      Lit("\" returned=\"false\"/>\n"),
      Lit("            </pick_order_line>\n"),
      Lit("        ")
    ])
    case PickManual => Some([
      Lit("\n"),
      Lit("            <pick_order_line quantity=\""),
      Hole("Quantity"),
      Lit("\">\n"),
      Lit("                <product product_code=\""),
      Hole("Product Code"),
      Lit("\" name=\""),
      Hole("Product Name"),
      Lit("\" />\n"),
      Lit("            </pick_order_line>\n"),
      Lit("        ")
    ])
    case Transport => Some([
      Lit("\n"),
      Lit("                <slot_contents slot_number=\""),
      Hole("Slot Number"),
      Lit("\">\n"),
      Lit("                    <inventory_order_line current_expected_quantity=\""),
      Hole("Quantity"),
      Lit("\">\n"),
      Lit("                        <product product_code=\""),
      Hole("Product Code"),
      Lit("\" name=\""),
      Hole("Product Name"),
      Lit("\" bundle_size=\"1\">\n"),
      Lit("                        </product>\n"),
      Lit("                    </inventory_order_line>\n"),
      Lit("                </slot_contents>\n"),
      Lit("        ")
    ])
    case Inventory | GoodsIn | GoodsAdd => None
  }

  /** Keys the generator adds before formatting a header. */
  predicate GeneratedKey(n: string) {
    n == "lines" || n == "cont_type" || n == "capacity_specs" || n == "slot_contents"
  }

  /** The keys of each default record, in order. */
  lemma {:induction false} DefaultKeys(m: Mode)
    ensures Keys(DefaultRecord(m)) == match m
      case PickStandard => ["Order Number", "Container / Tray Number", "Quantity", "Product Code", "Product Name"]
      case PickManual => ["Order Number", "Quantity", "Product Code", "Product Name"]
      case Inventory => ["Order Number", "Container / Tray Number", "Product Code"]
      case GoodsIn => ["Order Number", "Container / Tray Number", "Container Type", "Quantity", "Product Code", "Product Name"]
      case GoodsAdd => ["Order Number", "Quantity", "Product Code", "Product Name"]
      case Transport => ["Order Number", "New Owner", "Owner", "Target Zone", "Container Number", "Container Type", "Compartment Type", "Slot Number", "Quantity", "Product Code", "Product Name"]
  {
    var d := DefaultRecord(m);
    var ks := Keys(d);
    assert forall i :: 0 <= i < |d| ==> ks[i] == d[i].0;
  }

  /** For every mode, the editors' field order lists exactly the default record's keys and `name`. */
  lemma {:induction false} FieldOrderMatchesDefaults(m: Mode)
    ensures forall f :: f in FieldOrder(m) <==> HasKey(DefaultRecord(m), f) || f == "name"
  {
    DefaultKeys(m);
  }

  /** Every placeholder of a line template is a key of the mode's default record. */
  lemma {:induction false} LineHolesAreDefaultKeys(m: Mode)
    requires HasLines(m)
    ensures Fillable(LineTemplate(m).value, DefaultRecord(m))
  {
    DefaultKeys(m);
    match m
    case PickStandard =>
    case PickManual =>
    case Transport =>
  }

  /** Every header placeholder of mode `m` is a default-record key, `name`, or a key the generator adds. */
  predicate HeaderHolesKnown(m: Mode) {
    forall i :: 0 <= i < |Header(m)| && Header(m)[i].Hole? ==>
      var n := Header(m)[i].name;
      HasKey(DefaultRecord(m), n) || n == "name" || GeneratedKey(n)
  }

  /** The text between `{name}` and `{Order Number}` in each header's `order_number`. */
  function OrderPrefix(m: Mode): string {
    match m
    case PickStandard => "-pick-"
    case PickManual => "-pick-manual-"
    case Inventory => "-inv-"
    case GoodsIn => "-goods-in-"
    case GoodsAdd => "-goods-add-"
    case Transport => "-transport-"
  }

  /** The header's `order_number` attribute is `{name}`, the mode's prefix, then `{Order Number}`. */
  predicate OrderNumberLayout(m: Mode) {
    && |Header(m)| > 6
    && Header(m)[3] == Lit(" order_number=\"")
    && Header(m)[4] == Hole("name") && Header(m)[5] == Lit(OrderPrefix(m)) && Header(m)[6] == Hole("Order Number")
  }

  /** The `processing_mode` attribute each header carries. */
  function ProcessingMode(m: Mode): string {
    match m
    case PickManual => "manual"
    case GoodsAdd => "renewal"
    case PickStandard | Inventory | GoodsIn | Transport => "standard"
  }

  /** The piece of the header that opens the `processing_mode` attribute. */
  function ProcessingModePiece(m: Mode): nat {
    match m
    case PickStandard => 10
    case GoodsIn => 12
    case PickManual | Inventory | GoodsAdd | Transport => 8
  }

  predicate ProcessingModeShown(m: Mode) {
    var i := ProcessingModePiece(m);
    && i + 1 < |Header(m)|
    && Header(m)[i] == Lit(" processing_mode=\"")
    && Header(m)[i + 1] == Lit(ProcessingMode(m))
  }

  lemma {:induction false} PickStandardLayout()
    ensures OrderNumberLayout(PickStandard) && ProcessingModeShown(PickStandard)
  {
    var h := Header(PickStandard);
    assert |h| > 6;
    assert h[3] == Lit(" order_number=\"");
    assert h[4] == Hole("name");
    assert h[5] == Lit(OrderPrefix(PickStandard));
    assert h[6] == Hole("Order Number");
    var i := ProcessingModePiece(PickStandard);
    assert h[i] == Lit(" processing_mode=\"");
    assert h[i + 1] == Lit(ProcessingMode(PickStandard));
  }

  lemma {:induction false} PickStandardHoles()
    ensures HeaderHolesKnown(PickStandard)
  {
    DefaultKeys(PickStandard);
  }

  lemma {:induction false} PickManualLayout()
    ensures OrderNumberLayout(PickManual) && ProcessingModeShown(PickManual)
  {
    var h := Header(PickManual);
    assert |h| > 6;
    assert h[3] == Lit(" order_number=\"");
    assert h[4] == Hole("name");
    assert h[5] == Lit(OrderPrefix(PickManual));
    assert h[6] == Hole("Order Number");
    var i := ProcessingModePiece(PickManual);
    assert h[i] == Lit(" processing_mode=\"");
    assert h[i + 1] == Lit(ProcessingMode(PickManual));
  }

  lemma {:induction false} PickManualHoles()
    ensures HeaderHolesKnown(PickManual)
  {
    DefaultKeys(PickManual);
  }

  lemma {:induction false} InventoryLayout()
    ensures OrderNumberLayout(Inventory) && ProcessingModeShown(Inventory)
  {
    var h := Header(Inventory);
    assert |h| > 6;
    assert h[3] == Lit(" order_number=\"");
    assert h[4] == Hole("name");
    assert h[5] == Lit(OrderPrefix(Inventory));
    assert h[6] == Hole("Order Number");
    var i := ProcessingModePiece(Inventory);
    assert h[i] == Lit(" processing_mode=\"");
    assert h[i + 1] == Lit(ProcessingMode(Inventory));
  }

  lemma {:induction false} InventoryHoles()
    ensures HeaderHolesKnown(Inventory)
  {
    DefaultKeys(Inventory);
  }

  lemma {:induction false} GoodsInLayout()
    ensures OrderNumberLayout(GoodsIn) && ProcessingModeShown(GoodsIn)
  {
    var h := Header(GoodsIn);
    assert |h| > 6;
    assert h[3] == Lit(" order_number=\"");
    assert h[4] == Hole("name");
    assert h[5] == Lit(OrderPrefix(GoodsIn));
    assert h[6] == Hole("Order Number");
    var i := ProcessingModePiece(GoodsIn);
    assert h[i] == Lit(" processing_mode=\"");
    assert h[i + 1] == Lit(ProcessingMode(GoodsIn));
  }

  lemma {:induction false} GoodsInHoles()
    ensures HeaderHolesKnown(GoodsIn)
  {
    DefaultKeys(GoodsIn);
  }

  lemma {:induction false} GoodsAddLayout()
    ensures OrderNumberLayout(GoodsAdd) && ProcessingModeShown(GoodsAdd)
  {
    var h := Header(GoodsAdd);
    assert |h| > 6;
    assert h[3] == Lit(" order_number=\"");
    assert h[4] == Hole("name");
    assert h[5] == Lit(OrderPrefix(GoodsAdd));
    assert h[6] == Hole("Order Number");
    var i := ProcessingModePiece(GoodsAdd);
    assert h[i] == Lit(" processing_mode=\"");
    assert h[i + 1] == Lit(ProcessingMode(GoodsAdd));
  }

  lemma {:induction false} GoodsAddHoles()
    ensures HeaderHolesKnown(GoodsAdd)
  {
    DefaultKeys(GoodsAdd);
  }

  lemma {:induction false} TransportLayout()
    ensures OrderNumberLayout(Transport) && ProcessingModeShown(Transport)
  {
    var h := Header(Transport);
    assert |h| > 6;
    assert h[3] == Lit(" order_number=\"");
    assert h[4] == Hole("name");
    assert h[5] == Lit(OrderPrefix(Transport));
    assert h[6] == Hole("Order Number");
    var i := ProcessingModePiece(Transport);
    assert h[i] == Lit(" processing_mode=\"");
    assert h[i + 1] == Lit(ProcessingMode(Transport));
  }

  /** The placeholder names the transport header uses. */
  const TRANSPORT_HOLES: set<string> := {"name", "Order Number", "New Owner", "Target Zone", "Container Number",
                                         "Container Type", "Compartment Type", "Owner", "slot_contents"}

  lemma TransportHoleNamesLow()
    ensures forall i | 0 <= i < 16 && Header(Transport)[i].Hole? :: Header(Transport)[i].name in TRANSPORT_HOLES
  {
  }

  lemma TransportHoleNamesHigh()
    ensures forall i | 16 <= i < |Header(Transport)| && Header(Transport)[i].Hole? :: Header(Transport)[i].name in TRANSPORT_HOLES
  {
  }

  lemma {:induction false} TransportHoles()
    ensures HeaderHolesKnown(Transport)
  {
    TransportHoleNamesLow();
    TransportHoleNamesHigh();
    TransportNamesKnown();
    var h := Header(Transport);
    forall i | 0 <= i < |h| && h[i].Hole?
      ensures HasKey(DefaultRecord(Transport), h[i].name) || h[i].name == "name" || GeneratedKey(h[i].name)
    {
      assert h[i].name in TRANSPORT_HOLES;
    }
  }

  lemma {:induction false} TransportNamesKnown()
    ensures forall n | n in TRANSPORT_HOLES :: HasKey(DefaultRecord(Transport), n) || n == "name" || GeneratedKey(n)
  {
    DefaultKeys(Transport);
  }

  /**
    Every header placeholder is a default-record key, `name`, or a key the
    generator adds; `order_number` is `{name}`, a prefix of the mode's own,
    and `{Order Number}`; the processing mode is written out.
   */
  lemma {:induction false} HeaderFacts(m: Mode)
    ensures HeaderHolesKnown(m) && OrderNumberLayout(m) && ProcessingModeShown(m)
  {
    match m
    case PickStandard => PickStandardLayout(); PickStandardHoles();
    case PickManual => PickManualLayout(); PickManualHoles();
    case Inventory => InventoryLayout(); InventoryHoles();
    case GoodsIn => GoodsInLayout(); GoodsInHoles();
    case GoodsAdd => GoodsAddLayout(); GoodsAddHoles();
    case Transport => TransportLayout(); TransportHoles();
  }

  /** The indented opening of each header's root element, before its first attribute. */
  function OpenTag(m: Mode): string {
    match m
    case PickStandard => "        <pick_order"
    case PickManual => "        <pick_order"
    case Inventory => "        <inventory_order"
    case GoodsIn => "        <goods_in_order"
    case GoodsAdd => "        <goods_in_order"
    case Transport => "        <transport_order"
  }

  /**
    Every header opens with a newline, the `<host2osr>` line and the
    mode's opening tag, and the piece after the order number closes the
    attribute with a quote.
   */
  predicate OrderNumberQuoted(m: Mode) {
    && |Header(m)| > 7
    && Header(m)[0] == Lit("\n") && Header(m)[1] == Lit("    <host2osr>\n") && Header(m)[2] == Lit(OpenTag(m))
    && Header(m)[7].Lit? && Header(m)[7].text != [] && Header(m)[7].text[0] == '"'
  }

  /** Neither the opening tag nor the prefix of a mode holds a quote. */
  lemma OpenTagQuoteFree(m: Mode)
    ensures '"' !in OpenTag(m) && '"' !in OrderPrefix(m)
  {
  }

  lemma {:induction false} OrderNumberQuotedAll(m: Mode)
    ensures OrderNumberLayout(m) && OrderNumberQuoted(m)
  {
    HeaderFacts(m);
    match m
    case PickStandard => PickStandardQuoted();
    case PickManual => PickManualQuoted();
    case Inventory => InventoryQuoted();
    case GoodsIn => GoodsInQuoted();
    case GoodsAdd => GoodsAddQuoted();
    case Transport => TransportQuoted();
  }

  lemma {:induction false} PickStandardQuoted()
    ensures OrderNumberQuoted(PickStandard)
  {
    var h := Header(PickStandard);
    assert h[0] == Lit("\n") && h[1] == Lit("    <host2osr>\n") && h[2] == Lit(OpenTag(PickStandard));
    assert h[7] == Lit("\" container_number=\"");
  }

  lemma {:induction false} PickManualQuoted()
    ensures OrderNumberQuoted(PickManual)
  {
    var h := Header(PickManual);
    assert h[0] == Lit("\n") && h[1] == Lit("    <host2osr>\n") && h[2] == Lit(OpenTag(PickManual));
    assert h[7] == Lit("\"");
  }

  lemma {:induction false} InventoryQuoted()
    ensures OrderNumberQuoted(Inventory)
  {
    var h := Header(Inventory);
    assert h[0] == Lit("\n") && h[1] == Lit("    <host2osr>\n") && h[2] == Lit(OpenTag(Inventory));
    assert h[7] == Lit("\"");
  }

  lemma {:induction false} GoodsInQuoted()
    ensures OrderNumberQuoted(GoodsIn)
  {
    var h := Header(GoodsIn);
    assert h[0] == Lit("\n") && h[1] == Lit("    <host2osr>\n") && h[2] == Lit(OpenTag(GoodsIn));
    assert h[7] == Lit("\" compartment_number=\"");
  }

  lemma {:induction false} GoodsAddQuoted()
    ensures OrderNumberQuoted(GoodsAdd)
  {
    var h := Header(GoodsAdd);
    assert h[0] == Lit("\n") && h[1] == Lit("    <host2osr>\n") && h[2] == Lit(OpenTag(GoodsAdd));
    assert h[7] == Lit("\"");
  }

  lemma {:induction false} TransportQuoted()
    ensures OrderNumberQuoted(Transport)
  {
    var h := Header(Transport);
    assert h[0] == Lit("\n") && h[1] == Lit("    <host2osr>\n") && h[2] == Lit(OpenTag(Transport));
    assert h[7] == Lit("\"");
  }

  /** The order-number prefixes tell the modes apart, and only Goods Add asks for renewal. */
  lemma ModesTellApart(a: Mode, b: Mode)
    ensures OrderPrefix(a) == OrderPrefix(b) ==> a == b
    ensures ProcessingMode(a) == "renewal" <==> a == GoodsAdd
  {
  }

  /**
    A value of the JSON configuration: a flag, a text, one record, a list
    of line records, the capacity specs (compartment type to maximum
    quantity) or a list of names.
   */
  datatype ConfigValue =
    | Flag(flag: bool)
    | Text(text: string)
    | Record(record: Dict<string>)
    | Records(records: seq<Dict<string>>)
    | Specs(specs: Dict<int>)
    | Names(names: seq<string>)

  type Config = Dict<ConfigValue>

  /** The configuration entry of a mode in `DEFAULT_ORDER_VALUES`. */
  function ModeEntry(m: Mode): (v: ConfigValue)
    ensures HasLines(m) <==> v.Records?
    ensures v.Records? ==> v.records == [DefaultRecord(m)]
    ensures !v.Records? ==> v == Record(DefaultRecord(m))
  {
    if HasLines(m) then Records([DefaultRecord(m)]) else Record(DefaultRecord(m))
  }

  /** `DEFAULT_ORDER_VALUES`: the settings of a first run and one entry per mode. */
  function DefaultOrderValues(): Config {
    [
      ("first_run", Flag(true)),
      ("name", Text("src")),
      ("server_type", Text(LIVE)),
      ("sandbox_custom_elements", Names([])),
      (ModeName(PickStandard), ModeEntry(PickStandard)),
      (ModeName(PickManual), ModeEntry(PickManual)),
      (ModeName(Inventory), ModeEntry(Inventory)),
      (ModeName(GoodsIn), ModeEntry(GoodsIn)),
      (ModeName(GoodsAdd), ModeEntry(GoodsAdd)),
      (ModeName(Transport), ModeEntry(Transport))
    ]
  }

  /**
    The defaults hold an entry for every mode: a one-record list for Pick
    Standard, Pick Manual and Transport, a single record for the others;
    no key occurs twice.
   */
  lemma {:induction false} DefaultsPerMode(m: Mode)
    ensures Unique(DefaultOrderValues())
    ensures Get(DefaultOrderValues(), ModeName(m)) == Some(ModeEntry(m))
    ensures Get(DefaultOrderValues(), "first_run") == Some(Flag(true))
    ensures Get(DefaultOrderValues(), "name") == Some(Text("src"))
  {
    var d := DefaultOrderValues();
    DefaultsUnique();
    GetUnique(d, 0);
    GetUnique(d, 1);
    var i := ModeSlot(m);
    GetUnique(d, i);
  }

  lemma DefaultsUnique()
    ensures Unique(DefaultOrderValues())
  {
  }

  /** Where mode `m`'s entry sits in `DEFAULT_ORDER_VALUES`. */
  function ModeSlot(m: Mode): (i: nat)
    ensures i < |DefaultOrderValues()| && DefaultOrderValues()[i] == (ModeName(m), ModeEntry(m))
  {
    match m
    case PickStandard => 4
    case PickManual => 5
    case Inventory => 6
    case GoodsIn => 7
    case GoodsAdd => 8
    case Transport => 9
  }
}
