/**
  models/order_sender.py: the guards of `OrderSender.send`, the messages of
  `OrderCanceller.cancel_order`, and the two helpers that read an order id
  and an order kind back out of a payload.
 */
module OrderSender {
  import opened Wrappers
  import opened PyText
  import opened PyDict
  import opened Patterns
  import opened Defaults
  import opened XmlGenerator

  // Sending

  /** What the CORBA side does when `send` tries to transmit: not installed, delivers, or raises. */
  datatype Orb = Unavailable | Delivers | Fails(reason: string)

  /** The two exceptions `send` raises. */
  datatype SendError = OrderValidationError(message: string) | OrbConnectionError(message: string)

  /**
    `OrderSender.send`: `None` when it returns normally. An empty or blank
    payload is refused before the dry-run check; a dry run transmits nothing;
    otherwise the ORB decides.
   */
  function Send(xml: string, dryRun: bool, orb: Orb): (r: Option<SendError>)
    ensures AllSpace(xml) ==> r == Some(OrderValidationError("Order XML cannot be empty"))
    ensures !AllSpace(xml) && dryRun ==> r == None
    ensures !AllSpace(xml) && !dryRun && orb.Unavailable? ==> r == Some(OrbConnectionError("CORBA libraries not available"))
    ensures !AllSpace(xml) && !dryRun && orb.Fails? ==> r == Some(OrbConnectionError("Failed to send order: " + orb.reason))
  {
    if AllSpace(xml) then Some(OrderValidationError("Order XML cannot be empty"))
    else if dryRun then None
    else
      match orb
      case Unavailable => Some(OrbConnectionError("CORBA libraries not available"))
      case Fails(e) => Some(OrbConnectionError("Failed to send order: " + e))
      case Delivers => None
  }

  /** `send` returns normally exactly when the payload is not blank and either it is a dry run or the ORB delivers. */
  lemma SendSucceedsIff(xml: string, dryRun: bool, orb: Orb)
    ensures Send(xml, dryRun, orb).None? <==> !AllSpace(xml) && (dryRun || orb.Delivers?)
  {
  }

  /** In a dry run the ORB is never consulted. */
  lemma DryRunIgnoresOrb(xml: string, a: Orb, b: Orb)
    ensures Send(xml, true, a) == Send(xml, true, b)
  {
  }

  // Cancelling

  /** What running the shell command gives: an exit status with its output, or an exception. */
  datatype ShellRun = Exited(code: int, stdout: string, stderr: string) | Raised(message: string)

  /** The shell command `cancel_order` runs. */
  function CancelCommand(orderType: string, orderId: string): string {
    "send_cancel --typ " + orderType + " --order-id " + orderId + " --really-send"
  }

  const DRY_RUN_CANCEL := "Dry run - order would be cancelled"

  /** The failure message for a non-zero exit status. */
  function ExitFailure(code: int, stdout: string, stderr: string): string {
    "Command failed (exit code " + IntToString(code) + ")"
    + (if AllSpace(stderr) then "" else ": " + Strip(stderr))
    + (if AllSpace(stdout) then "" else " | stdout: " + Strip(stdout))
  }

  /**
    `OrderCanceller.cancel_order`: `shell` stands for running a command and
    collecting its exit status and output; a dry run runs nothing.
   */
  function CancelOrder(dryRun: bool, orderType: string, orderId: string, shell: string -> ShellRun): (bool, string) {
    if dryRun then (true, DRY_RUN_CANCEL)
    else
      match shell(CancelCommand(orderType, orderId))
      case Raised(e) => (false, "Exception: " + e)
      case Exited(code, out, err) =>
        if code == 0 then (true, "Success") else (false, ExitFailure(code, out, err))
  }

  /**
    A cancellation succeeds exactly in a dry run or when the command exits
    with status 0; a dry run reports the dry-run message, a success
    `Success`, and an exception its message.
   */
  lemma {:induction false} CancelOrderOutcome(dryRun: bool, orderType: string, orderId: string, shell: string -> ShellRun)
    ensures var r, run := CancelOrder(dryRun, orderType, orderId, shell), shell(CancelCommand(orderType, orderId));
      && (r.0 <==> dryRun || (run.Exited? && run.code == 0))
      && (dryRun ==> r == (true, DRY_RUN_CANCEL))
      && (!dryRun && r.0 ==> r.1 == "Success")
      && (!dryRun && run.Raised? ==> r.1 == "Exception: " + run.message)
  {
    var run := shell(CancelCommand(orderType, orderId));
    if !dryRun {
      assert CancelOrder(dryRun, orderType, orderId, shell) == match run
        case Raised(e) => (false, "Exception: " + e)
        case Exited(code, out, err) => if code == 0 then (true, "Success") else (false, ExitFailure(code, out, err));
    }
  }

  /**
    A failed command's message names the exit status; the stripped error
    output follows only when it is not blank, and the stripped standard
    output closes the message only when it is not blank.
   */
  lemma {:induction false} ExitFailureParts(code: int, stdout: string, stderr: string)
    ensures StartsWith(ExitFailure(code, stdout, stderr), "Command failed (exit code " + IntToString(code) + ")")
    ensures AllSpace(stderr) && AllSpace(stdout) ==> ExitFailure(code, stdout, stderr) == "Command failed (exit code " + IntToString(code) + ")"
    ensures !AllSpace(stdout) ==> EndsWith(ExitFailure(code, stdout, stderr), " | stdout: " + Strip(stdout))
    ensures !AllSpace(stderr) && AllSpace(stdout) ==> EndsWith(ExitFailure(code, stdout, stderr), ": " + Strip(stderr))
  {
    var head := "Command failed (exit code " + IntToString(code) + ")";
    var e := if AllSpace(stderr) then "" else ": " + Strip(stderr);
    var o := if AllSpace(stdout) then "" else " | stdout: " + Strip(stdout);
    assert ExitFailure(code, stdout, stderr) == head + e + o;
    ThreeParts(head, e, o);
  }

  /** A text in three parts starts with the first and ends with the last, or with the middle when the last is empty. */
  lemma {:induction false} ThreeParts(a: string, b: string, c: string)
    ensures StartsWith(a + b + c, a) && EndsWith(a + b + c, c)
    ensures c == [] ==> a + b + c == a + b && EndsWith(a + b, b)
  {
    var m := a + b + c;
    assert m[..|a|] == a;
    assert m[|m| - |c|..] == c;
    if c == [] {
      assert m == a + b;
      assert m[|m| - |b|..] == b;
    }
  }

  // Reading a payload back

  /** The pattern `order_number="([^"]+)"` without its group. */
  const ORDER_NUMBER_ATTR := "order_number=\""

  /** `extract_order_id_from_xml`: the leftmost non-empty quoted `order_number` value, else `"unknown"`. */
  function ExtractOrderId(xml: string): (r: string)
    ensures r != [] && '"' !in r
    ensures (forall p :: MatchAt(xml, ORDER_NUMBER_ATTR, p, false).None?) ==> r == "unknown"
    ensures (exists p :: MatchAt(xml, ORDER_NUMBER_ATTR, p, false).Some?) ==> exists p: nat ::
      && MatchAt(xml, ORDER_NUMBER_ATTR, p, false) == Some(r)
      && forall q :: 0 <= q < p ==> MatchAt(xml, ORDER_NUMBER_ATTR, q, false).None?
  {
    match Search(xml, ORDER_NUMBER_ATTR, false, 0)
    case Some(v) => v
    case None => "unknown"
  }

  /** `get_order_type_from_xml`: the first of four substring tests that holds decides. */
  function GetOrderType(xml: string): (r: string)
    ensures r in {"pick", "goods_in", "goods_add", "inventory", "unknown"}
    ensures r == "pick" <==> Contains(xml, "<pick_order")
    ensures r == "goods_add" <==> !Contains(xml, "<pick_order") && Contains(xml, "<goods_in_order") && Contains(xml, "processing_mode=\"renewal\"")
    ensures r == "goods_in" <==> !Contains(xml, "<pick_order") && Contains(xml, "<goods_in_order") && !Contains(xml, "processing_mode=\"renewal\"")
    ensures r == "inventory" <==> !Contains(xml, "<pick_order") && !Contains(xml, "<goods_in_order") && Contains(xml, "<inventory_order")
  {
    if Contains(xml, "<pick_order") then "pick"
    else if Contains(xml, "<goods_in_order") then
      if Contains(xml, "processing_mode=\"renewal\"") then "goods_add" else "goods_in"
    else if Contains(xml, "<inventory_order") then "inventory"
    else "unknown"
  }

  // What a generated header gives back

  /** The layout every header starts with, up to the quote that closes its order number. */
  predicate Opening(t: Template, tag: string, prefix: string) {
    && |t| > 7
    && t[0] == Lit("\n") && t[1] == Lit("    <host2osr>\n") && t[2] == Lit(tag)
    && t[3] == Lit(" order_number=\"") && t[4] == Hole("name") && t[5] == Lit(prefix) && t[6] == Hole("Order Number")
    && t[7].Lit? && t[7].text != [] && t[7].text[0] == '"'
  }

  /** A formatted header: the fixed opening, the order number attribute, then whatever follows its closing quote. */
  lemma {:induction false} OpeningShape(t: Template, tag: string, prefix: string, env: Dict<string>) returns (c: string)
    requires Opening(t, tag, prefix) && Format(t, env).Ok?
    ensures HasKey(env, "name") && HasKey(env, "Order Number")
    ensures Format(t, env).value == "\n" + ("    <host2osr>\n" + (tag + (" order_number=\"" + (Get(env, "name").value
      + (prefix + (Get(env, "Order Number").value + ("\"" + c)))))))
  {
    var name, num := SevenPieces(t, env, "\n", "    <host2osr>\n", tag, " order_number=\"", prefix);
    var seventh := t[7].text;
    PeelLit(t, env, 7, seventh);
    var rest := Format(t[8..], env).value;
    c := seventh[1..] + rest;
    QuoteSplit(seventh, rest);
  }

  /** A text opening with a quote, followed by more text: the quote, then the remainder. */
  lemma {:induction false} QuoteSplit(s: string, rest: string)
    requires s != [] && s[0] == '"'
    ensures s + rest == "\"" + (s[1..] + rest)
  {
    assert (s + rest)[1..] == s[1..] + rest;
  }

  lemma {:induction false} OpeningRegroup(tag: string, name: string, prefix: string, num: string, d: string)
    ensures "\n" + ("    <host2osr>\n" + (tag + (" order_number=\"" + (name + (prefix + (num + d))))))
      == ("\n" + "    <host2osr>\n" + tag + " ") + (ORDER_NUMBER_ATTR + (name + prefix + num)) + d
  {
    AttrSpaced();
    Regroup("\n", "    <host2osr>\n", tag, " ", ORDER_NUMBER_ATTR, name, prefix, num, d);
  }

  /** The first seven pieces of an opening, in general form: four texts, the name, a text and the number. */
  lemma {:induction false} SevenPieces(t: Template, env: Dict<string>, l0: string, l1: string, l2: string, l3: string, l5: string)
    returns (name: string, num: string)
    requires |t| > 7 && t[0] == Lit(l0) && t[1] == Lit(l1) && t[2] == Lit(l2) && t[3] == Lit(l3)
    requires t[4] == Hole("name") && t[5] == Lit(l5) && t[6] == Hole("Order Number")
    requires Format(t, env).Ok?
    ensures HasKey(env, "name") && HasKey(env, "Order Number") && Format(t[7..], env).Ok?
    ensures name == Get(env, "name").value && num == Get(env, "Order Number").value
    ensures Format(t, env).value == l0 + (l1 + (l2 + (l3 + (name + (l5 + (num + Format(t[7..], env).value))))))
  {
    assert t[0..] == t;
    PeelLit(t, env, 0, l0);
    PeelLit(t, env, 1, l1);
    PeelLit(t, env, 2, l2);
    PeelLit(t, env, 3, l3);
    PeelHole(t, env, 4, "name");
    PeelLit(t, env, 5, l5);
    PeelHole(t, env, 6, "Order Number");
    name, num := Get(env, "name").value, Get(env, "Order Number").value;
  }

  lemma AttrSpaced()
    ensures " order_number=\"" == " " + ORDER_NUMBER_ATTR
  {
  }

  lemma Regroup(n: string, h: string, tag: string, sp: string, attr: string, name: string, prefix: string, num: string, d: string)
    ensures n + (h + (tag + ((sp + attr) + (name + (prefix + (num + d)))))) == (n + h + tag + sp) + (attr + (name + prefix + num)) + d
  {
  }

  lemma Regroup2(pre: string, lit: string, v: string, q: string, rest: string)
    ensures pre + (lit + v) + (q + rest) == pre + lit + v + q + rest
  {
  }

  /** Text free of quotes, then the attribute, a quote-free value and its closing quote: the value is read back. */
  lemma {:induction false} IdAfter(p: string, v: string, c: string)
    requires '"' !in p && v != [] && '"' !in v
    ensures ExtractOrderId(Strip(p + (ORDER_NUMBER_ATTR + v) + ("\"" + c))) == v
  {
    var q := ORDER_NUMBER_ATTR + v;
    assert q[0] == 'o';
    var d := "\"" + c;
    var c' := RStripHead(d, '"', c);
    StripMiddle(p, q, d);
    var lp := LStrip(p);
    assert '"' !in lp by {
      assert lp == p[|p| - |lp|..];
    }
    Regroup2(lp, ORDER_NUMBER_ATTR, v, "\"", c');
    AttrEndsInQuote();
    SearchAfter(lp, ORDER_NUMBER_ATTR, v, c');
  }

  /** The attribute's only quote is its last character. */
  lemma {:induction false} AttrEndsInQuote()
    ensures ORDER_NUMBER_ATTR != [] && ORDER_NUMBER_ATTR[|ORDER_NUMBER_ATTR| - 1] == '"'
    ensures '"' !in ORDER_NUMBER_ATTR[..|ORDER_NUMBER_ATTR| - 1]
  {
    var a := ORDER_NUMBER_ATTR[..|ORDER_NUMBER_ATTR| - 1];
    assert a == "order_number=";
  }

  /**
    The id read back from a stripped header is the operator name, the
    prefix and the order number, as long as neither value holds a quote.
   */
  lemma {:induction false} OpeningOrderId(t: Template, tag: string, prefix: string, env: Dict<string>)
    requires Opening(t, tag, prefix) && Format(t, env).Ok?
    requires '"' !in tag && '"' !in prefix && prefix != []
    requires HasKey(env, "name") && HasKey(env, "Order Number")
    requires '"' !in Get(env, "name").value && '"' !in Get(env, "Order Number").value
    ensures ExtractOrderId(Strip(Format(t, env).value)) == Get(env, "name").value + prefix + Get(env, "Order Number").value
  {
    var c := OpeningShape(t, tag, prefix, env);
    QuoteFreeId(tag, Get(env, "name").value, prefix, Get(env, "Order Number").value, c);
  }

  /** The id read back from the opening text, for quote-free parts. */
  lemma {:induction false} QuoteFreeId(tag: string, name: string, prefix: string, num: string, c: string)
    requires '"' !in tag && '"' !in name && '"' !in prefix && '"' !in num && prefix != []
    ensures ExtractOrderId(Strip("\n" + ("    <host2osr>\n" + (tag + (" order_number=\"" + (name
      + (prefix + (num + ("\"" + c))))))))) == name + prefix + num
  {
    OpeningRegroup(tag, name, prefix, num, "\"" + c);
    var v := name + prefix + num;
    assert '"' !in v;
    var p := "\n" + "    <host2osr>\n" + tag + " ";
    assert '"' !in p;
    IdAfter(p, v, c);
  }

  /** Every header has the opening layout, with the mode's tag and prefix. */
  lemma {:induction false} HeaderOpening(m: Mode)
    ensures Opening(Header(m), OpenTag(m), OrderPrefix(m))
  {
    OrderNumberQuotedAll(m);
  }

  // What a generated payload gives back

  /** A header formatted from a record that agrees with `d` outside the generator's own keys gives `d`'s id. */
  lemma {:induction false} RecordOrderId(h: Template, tag: string, prefix: string, d: Dict<string>, env: Dict<string>)
    requires Opening(h, tag, prefix) && Format(h, env).Ok?
    requires '"' !in tag && '"' !in prefix && prefix != []
    requires forall k :: k !in GENERATOR_KEYS ==> Get(env, k) == Get(d, k)
    requires '"' !in GetOr(d, "name", "") && '"' !in GetOr(d, "Order Number", "")
    ensures HasKey(d, "name") && HasKey(d, "Order Number")
    ensures ExtractOrderId(Strip(Format(h, env).value)) == Get(d, "name").value + prefix + Get(d, "Order Number").value
  {
    assert "name" !in GENERATOR_KEYS;
    assert "Order Number" !in GENERATOR_KEYS;
    var _ := OpeningShape(h, tag, prefix, env);
    OpeningOrderId(h, tag, prefix, env);
  }

  /**
    The id `_send_order` records for any generated payload is the first
    record's operator name, the mode's prefix and its order number, as long
    as neither value holds a quote.
   */
  lemma {:induction false} GeneratedOrderId(order: OrderData, config: Config, m: Mode)
    requires ModeOf(order.mode) == Some(m) && Generate(order, config).xml.Ok?
    requires FirstRecord(order.values).Some?
    requires var d := FirstRecord(order.values).value;
      '"' !in GetOr(d, "name", "") && '"' !in GetOr(d, "Order Number", "")
    ensures var d := FirstRecord(order.values).value;
      && HasKey(d, "name") && HasKey(d, "Order Number")
      && ExtractOrderId(Generate(order, config).xml.value) == Get(d, "name").value + OrderPrefix(m) + Get(d, "Order Number").value
  {
    var env := GeneratedHeader(order, config, m);
    HeaderOrderId(m, Generate(order, config).xml.value, FirstRecord(order.values).value, env);
  }

  /** A payload that is a mode's stripped header, formatted from a record that agrees with `d`, gives `d`'s id. */
  lemma {:induction false} HeaderOrderId(m: Mode, xml: string, d: Dict<string>, env: Dict<string>)
    requires Format(Header(m), env).Ok? && xml == Strip(Format(Header(m), env).value)
    requires forall k :: k !in GENERATOR_KEYS ==> Get(env, k) == Get(d, k)
    requires '"' !in GetOr(d, "name", "") && '"' !in GetOr(d, "Order Number", "")
    ensures HasKey(d, "name") && HasKey(d, "Order Number")
    ensures ExtractOrderId(xml) == Get(d, "name").value + OrderPrefix(m) + Get(d, "Order Number").value
  {
    HeaderOpening(m);
    OpenTagQuoteFree(m);
    RecordOrderId(Header(m), OpenTag(m), OrderPrefix(m), d, env);
  }

  /** The transport line template carries an `<inventory_order_line` element. */
  lemma {:induction false} TransportLineOpensInventory()
    ensures LineTemplate(Transport).Some? && |LineTemplate(Transport).value| > 4
    ensures LineTemplate(Transport).value[4].Lit? && Contains(LineTemplate(Transport).value[4].text, "<inventory_order")
  {
    var t := LineTemplate(Transport).value;
    var p := "<inventory_order";
    assert t[4] == Lit("                    <inventory_order_line current_expected_quantity=\"");
    InventoryLineSplit();
    assert OccursAt(p, p, 0);
    ContainsAt(p, p, 0);
    ContainsInside("                    ", p, "_line current_expected_quantity=\"", p);
  }

  lemma {:induction false} InventoryLineSplit()
    ensures "                    <inventory_order_line current_expected_quantity=\""
      == "                    " + "<inventory_order" + "_line current_expected_quantity=\""
  {
    IndentTag();
    TagRest();
  }

  lemma IndentTag()
    ensures "                    " + "<inventory_order" == "                    <inventory_order"
  {
  }

  lemma TagRest()
    ensures "                    <inventory_order" + "_line current_expected_quantity=\""
      == "                    <inventory_order_line current_expected_quantity=\""
  {
  }

  /** The transport header holds the slot contents as its 27th piece. */
  lemma TransportSlotsHole()
    ensures |Header(Transport)| > 26 && Header(Transport)[26] == Hole("slot_contents")
  {
  }

  /**
    A header whose slot-contents placeholder receives the formatted lines
    keeps, after stripping, every text some literal piece of the line
    template holds, provided that text neither starts nor ends with whitespace.
   */
  lemma {:induction false} SlotsKeepLineText(h: Template, i: nat, t: Template, j: nat, l: seq<Dict<string>>, env: Dict<string>, p: string)
    requires i < |h| && h[i] == Hole("slot_contents") && Format(h, env).Ok?
    requires l != [] && LinesXml(t, l).Ok? && Get(env, "slot_contents") == Some(LinesXml(t, l).value)
    requires j < |t| && t[j].Lit? && Contains(t[j].text, p)
    requires p != [] && !IsSpace(p[0]) && !IsSpace(p[|p| - 1])
    ensures Contains(Strip(Format(h, env).value), p)
  {
    var x := LinesXml(t, l).value;
    var last := l[|l| - 1];
    FormatContainsLit(t, last, j);
    ContainsTrans(Format(t, last).value, t[j].text, p);
    var before := LinesXml(t, l[..|l| - 1]).value;
    assert x == before + Format(t, last).value + "";
    ContainsInside(before, Format(t, last).value, "", p);
    FormatContainsValue(h, env, i);
    ContainsTrans(Format(h, env).value, x, p);
    StripKeepsInner(Format(h, env).value, p);
  }

  /**
    Every transport payload contains `<inventory_order`, from the line
    template of its slots, so it is never classified as unknown, and it is
    classified as inventory unless an entered value brings in a pick or
    goods-in tag.
   */
  lemma {:induction false} TransportClassifiedAsInventory(order: OrderData, config: Config)
    requires ModeOf(order.mode) == Some(Transport) && Generate(order, config).xml.Ok?
    ensures Contains(Generate(order, config).xml.value, "<inventory_order")
    ensures GetOrderType(Generate(order, config).xml.value) != "unknown"
    ensures var xml := Generate(order, config).xml.value;
      !Contains(xml, "<pick_order") && !Contains(xml, "<goods_in_order") ==> GetOrderType(xml) == "inventory"
  {
    TransportContainsInventory(order, config, Transport);
    InventoryTagKnown(Generate(order, config).xml.value);
  }

  lemma {:induction false} TransportContainsInventory(order: OrderData, config: Config, m: Mode)
    requires m == Transport && ModeOf(order.mode) == Some(m) && Generate(order, config).xml.Ok?
    ensures Contains(Generate(order, config).xml.value, "<inventory_order")
  {
    var env := TransportHeader(order, config, m);
    TransportLineOpensInventory();
    TransportSlotsHole();
    SlotsHoldInventory(Generate(order, config).xml.value, Header(m), LineTemplate(m).value, order.values.records, env);
  }

  lemma {:induction false} SlotsHoldInventory(xml: string, h: Template, t: Template, l: seq<Dict<string>>, env: Dict<string>)
    requires |h| > 26 && h[26] == Hole("slot_contents") && Format(h, env).Ok? && xml == Strip(Format(h, env).value)
    requires l != [] && LinesXml(t, l).Ok? && env == Put(l[0], "slot_contents", LinesXml(t, l).value)
    requires |t| > 4 && t[4].Lit? && Contains(t[4].text, "<inventory_order")
    ensures Contains(xml, "<inventory_order")
  {
    var p := "<inventory_order";
    assert p != [] && !IsSpace(p[0]) && !IsSpace(p[|p| - 1]) by {
      assert p[0] == '<' && p[|p| - 1] == 'r';
    }
    assert Get(env, "slot_contents") == Some(LinesXml(t, l).value);
    SlotsKeepLineText(h, 26, t, 4, l, env, p);
  }

  /** A payload holding `<inventory_order` is never classified as unknown. */
  lemma InventoryTagKnown(xml: string)
    requires Contains(xml, "<inventory_order")
    ensures GetOrderType(xml) != "unknown"
    ensures !Contains(xml, "<pick_order") && !Contains(xml, "<goods_in_order") ==> GetOrderType(xml) == "inventory"
  {
  }
}
