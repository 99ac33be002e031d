/**
  Sandbox command strings for a test server (models/sandbox_commands.py):
  the OSR id is normalised once, every command starts with the simulator
  prefix `sim<osrid>`, and the insertion command set for an order picks a
  carrier out of the payload.
 */
module SandboxCommands {
  import opened Wrappers
  import opened PyText
  import opened PyDict
  import opened Patterns
  import OrderSender

  /** No ASCII capital letter occurs in `s`. */
  predicate IsLower(s: string) {
    forall i :: 0 <= i < |s| ==> LowerChar(s[i]) == s[i]
  }

  lemma LowerIsLower(s: string)
    ensures IsLower(Lower(s))
  {
  }

  lemma LowerKeepsLower(s: string)
    requires IsLower(s)
    ensures Lower(s) == s
  {
  }

  /** Lower-casing never makes or removes a space. */
  lemma {:induction false} LowerKeepsSpaces(s: string)
    ensures ' ' in Lower(s) <==> ' ' in s
  {
    if ' ' in s {
      var i :| 0 <= i < |s| && s[i] == ' ';
      assert Lower(s)[i] == ' ';
    }
    if ' ' in Lower(s) {
      var i :| 0 <= i < |Lower(s)| && Lower(s)[i] == ' ';
      assert s[i] == ' ';
    }
  }

  /** `__init__`: the id lower-cased, with `osr` put in front when it does not start with it. */
  function Normalize(osrid: string): (r: string)
    ensures StartsWith(r, "osr") && IsLower(r)
    ensures EndsWith(r, Lower(osrid)) && |r| <= |osrid| + 3
    ensures StartsWith(Lower(osrid), "osr") ==> r == Lower(osrid)
  {
    LowerIsLower(osrid);
    var l := Lower(osrid);
    if StartsWith(l, "osr") then l
    else
      assert ("osr" + l)[..3] == "osr";
      assert ("osr" + l)[|"osr" + l| - |l|..] == l;
      "osr" + l
  }

  /** An id that is already lower case and starts with `osr` is kept as it is. */
  lemma {:induction false} NormalizeKeepsNormal(osrid: string)
    requires IsLower(osrid) && StartsWith(osrid, "osr")
    ensures Normalize(osrid) == osrid
  {
    LowerKeepsLower(osrid);
  }

  /** Normalising twice gives the same id as normalising once. */
  lemma {:induction false} NormalizeIdempotent(osrid: string)
    ensures Normalize(Normalize(osrid)) == Normalize(osrid)
  {
    NormalizeKeepsNormal(Normalize(osrid));
  }

  /** A normalised id has a space only when the given one had. */
  lemma {:induction false} NormalizeSpaces(osrid: string)
    requires ' ' !in osrid
    ensures ' ' !in Normalize(osrid)
  {
    LowerKeepsSpaces(osrid);
    var l := Lower(osrid);
    if !StartsWith(l, "osr") {
      assert forall i :: 0 <= i < |"osr" + l| ==> ("osr" + l)[i] == if i < 3 then "osr"[i] else l[i - 3];
    }
  }

  /** `get_sim_prefix`. */
  function SimPrefix(osrid: string): (r: string)
    ensures StartsWith(r, "simosr") && IsLower(r)
    ensures EndsWith(r, Lower(osrid))
  {
    var n := Normalize(osrid);
    assert ("sim" + n)[..6] == "sim" + n[..3];
    assert ("sim" + n)[|"sim" + n| - |Lower(osrid)|..] == n[|n| - |Lower(osrid)|..];
    "sim" + n
  }

  /** `generate_insert_command`. */
  function InsertCommand(osrid: string, element: string, carrier: string): string {
    SimPrefix(osrid) + " -i " + element + " " + carrier
  }

  /** `generate_remove_command`. */
  function RemoveCommand(osrid: string, element: string, carrier: string): string {
    SimPrefix(osrid) + " -r " + element + " " + carrier
  }

  /** The `type_map` of the enable and disable commands. */
  const TYPE_MAP: Dict<string> := [("element", "e"), ("station", "s"), ("gateway", "g"), ("e", "e"), ("s", "s"), ("g", "g")]

  /**
    `type_map.get(element_type.lower(), "e")`: a known type name, in any
    letter case, gives its first letter; anything else gives `e`.
   */
  function TypeFlag(elementType: string): (r: string)
    ensures r == "e" || r == "s" || r == "g"
    ensures Lower(elementType) == "element" || Lower(elementType) == "e" ==> r == "e"
    ensures Lower(elementType) == "station" || Lower(elementType) == "s" ==> r == "s"
    ensures Lower(elementType) == "gateway" || Lower(elementType) == "g" ==> r == "g"
    ensures !HasKey(TYPE_MAP, Lower(elementType)) ==> r == "e"
  {
    TypeMapLookup(Lower(elementType));
    GetOr(TYPE_MAP, Lower(elementType), "e")
  }

  /** The lookups in `type_map`, and the names it knows. */
  lemma {:induction false} TypeMapLookup(k: string)
    ensures Keys(TYPE_MAP) == ["element", "station", "gateway", "e", "s", "g"]
    ensures k == "element" || k == "e" ==> GetOr(TYPE_MAP, k, "e") == "e"
    ensures k == "station" || k == "s" ==> GetOr(TYPE_MAP, k, "e") == "s"
    ensures k == "gateway" || k == "g" ==> GetOr(TYPE_MAP, k, "e") == "g"
    ensures !HasKey(TYPE_MAP, k) ==> GetOr(TYPE_MAP, k, "e") == "e"
  {
    Lookup6("element", "station", "gateway", "e", "s", "g", "e", "s", "g", "e", "s", "g");
  }

  /** `generate_enable_command`. */
  function EnableCommand(osrid: string, element: string, elementType: string): string {
    SimPrefix(osrid) + " --enable-element " + TypeFlag(elementType) + " " + element
  }

  /** `generate_disable_command`. */
  function DisableCommand(osrid: string, element: string, elementType: string): string {
    SimPrefix(osrid) + " --disable-element " + TypeFlag(elementType) + " " + element
  }

  lemma {:induction false} SplitNoSep(a: string, sep: char)
    requires sep !in a
    ensures Split(a, sep) == [a]
    decreases |a|
  {
    if a != [] {
      SplitNoSep(a[1..], sep);
      assert a[0] != sep;
      assert [a[0]] + a[1..] == a;
    }
  }

  /** Splitting at a separator the first word does not hold peels that word off. */
  lemma {:induction false} SplitCons(a: string, sep: char, rest: string)
    requires sep !in a
    ensures Split(a + [sep] + rest, sep) == [a] + Split(rest, sep)
    decreases |a|
  {
    if a == [] {
      assert a + [sep] + rest == [sep] + rest;
      assert ([sep] + rest)[1..] == rest;
    } else {
      var s := a + [sep] + rest;
      assert s[1..] == a[1..] + [sep] + rest;
      SplitCons(a[1..], sep, rest);
      assert [a[0]] + a[1..] == a;
    }
  }

  /** A command of four words joined by single spaces splits back into its words. */
  lemma {:induction false} FourWords(a: string, b: string, c: string, d: string)
    requires ' ' !in a && ' ' !in b && ' ' !in c && ' ' !in d
    ensures Split(a + (" " + b + " ") + c + " " + d, ' ') == [a, b, c, d]
  {
    assert a + (" " + b + " ") + c + " " + d == a + [' '] + (b + [' '] + (c + [' '] + d));
    SplitCons(a, ' ', b + [' '] + (c + [' '] + d));
    SplitCons(b, ' ', c + [' '] + d);
    SplitCons(c, ' ', d);
    SplitNoSep(d, ' ');
  }

  lemma {:induction false} PrefixWord(osrid: string)
    requires ' ' !in osrid
    ensures ' ' !in SimPrefix(osrid)
  {
    NormalizeSpaces(osrid);
    assert SimPrefix(osrid) == "sim" + Normalize(osrid);
  }

  /**
    The insert and remove commands are the words prefix, flag, element and
    carrier; the two differ only in the flag.
   */
  lemma {:induction false} CarrierCommandWords(osrid: string, element: string, carrier: string)
    requires ' ' !in osrid && ' ' !in element && ' ' !in carrier
    ensures Split(InsertCommand(osrid, element, carrier), ' ') == [SimPrefix(osrid), "-i", element, carrier]
    ensures Split(RemoveCommand(osrid, element, carrier), ' ') == [SimPrefix(osrid), "-r", element, carrier]
  {
    PrefixWord(osrid);
    CarrierFlags();
    FourWords(SimPrefix(osrid), "-i", element, carrier);
    FourWords(SimPrefix(osrid), "-r", element, carrier);
  }

  lemma CarrierFlags()
    ensures " -i " == " " + "-i" + " " && " -r " == " " + "-r" + " "
  {
  }

  lemma ElementFlags()
    ensures " --enable-element " == " " + "--enable-element" + " "
    ensures " --disable-element " == " " + "--disable-element" + " "
    ensures ' ' !in "--enable-element" && ' ' !in "--disable-element"
  {
  }

  lemma {:induction false} TypeFlagWord(elementType: string)
    ensures ' ' !in TypeFlag(elementType)
  {
    var t := TypeFlag(elementType);
    assert t == "e" || t == "s" || t == "g";
  }

  /** The enable and disable commands are the words prefix, flag, type letter and element. */
  lemma {:induction false} ElementCommandWords(osrid: string, element: string, elementType: string)
    requires ' ' !in osrid && ' ' !in element
    ensures Split(EnableCommand(osrid, element, elementType), ' ') == [SimPrefix(osrid), "--enable-element", TypeFlag(elementType), element]
    ensures Split(DisableCommand(osrid, element, elementType), ' ') == [SimPrefix(osrid), "--disable-element", TypeFlag(elementType), element]
  {
    var p, t := SimPrefix(osrid), TypeFlag(elementType);
    PrefixWord(osrid);
    TypeFlagWord(elementType);
    assert Split(EnableCommand(osrid, element, elementType), ' ') == [p, "--enable-element", t, element] by {
      ElementFlags();
      assert EnableCommand(osrid, element, elementType) == p + (" " + "--enable-element" + " ") + t + " " + element;
      FourWords(p, "--enable-element", t, element);
    }
    assert Split(DisableCommand(osrid, element, elementType), ' ') == [p, "--disable-element", t, element] by {
      ElementFlags();
      assert DisableCommand(osrid, element, elementType) == p + (" " + "--disable-element" + " ") + t + " " + element;
      FourWords(p, "--disable-element", t, element);
    }
  }

  // Carrier extraction

  /** The values `extract_carrier_from_xml` skips, compared in lower case. */
  const PLACEHOLDERS: set<string> := {"", "none", "null", "undefined"}

  /**
    A first match whose stripped group is no placeholder; the empty string
    is one, so a usable group is never blank.
   */
  predicate Usable(m: Option<string>) {
    m.Some? && Lower(Strip(m.value)) !in PLACEHOLDERS
  }

  /** Which matches are usable, in order. */
  function UsableFlags(matches: seq<Option<string>>): (r: seq<bool>)
    ensures |r| == |matches| && forall i :: 0 <= i < |matches| ==> r[i] == Usable(matches[i])
  {
    seq(|matches|, i requires 0 <= i < |matches| => Usable(matches[i]))
  }

  /** The position of the first `true`; `|flags|` when there is none. */
  function FirstSet(flags: seq<bool>): (i: nat)
    ensures i <= |flags|
    ensures i < |flags| ==> flags[i]
    ensures forall j :: 0 <= j < i ==> !flags[j]
  {
    if flags == [] then 0
    else if flags[0] then 0
    else
      var i := FirstSet(flags[1..]);
      assert forall j :: 1 <= j <= i ==> flags[j] == flags[1..][j - 1];
      i + 1
  }

  /** The first `true` of a concatenation lies in the front part, if the front part has one. */
  lemma {:induction false} FirstSetAppend(a: seq<bool>, b: seq<bool>)
    ensures FirstSet(a + b) == if FirstSet(a) < |a| then FirstSet(a) else |a| + FirstSet(b)
    decreases |a|
  {
    if a == [] {
      assert a + b == b;
    } else {
      assert (a + b)[0] == a[0];
      if !a[0] {
        assert (a + b)[1..] == a[1..] + b;
        FirstSetAppend(a[1..], b);
      }
    }
  }

  /** The stripped group of the first match whose flag is set. */
  function PickFirst(matches: seq<Option<string>>, flags: seq<bool>): Option<string>
    requires |flags| == |matches| && forall i :: 0 <= i < |flags| && flags[i] ==> matches[i].Some?
  {
    var i := FirstSet(flags);
    if i < |matches| then Some(Strip(matches[i].value)) else None
  }

  /** A flag set in a concatenation belongs to a match that is there. */
  lemma {:induction false} FlagsAppendSome(a: seq<Option<string>>, b: seq<Option<string>>, fa: seq<bool>, fb: seq<bool>)
    requires |fa| == |a| && forall i :: 0 <= i < |fa| && fa[i] ==> a[i].Some?
    requires |fb| == |b| && forall i :: 0 <= i < |fb| && fb[i] ==> b[i].Some?
    ensures forall i :: 0 <= i < |fa + fb| && (fa + fb)[i] ==> (a + b)[i].Some?
  {
    forall i | 0 <= i < |fa + fb| && (fa + fb)[i]
      ensures (a + b)[i].Some?
    {
      if i < |a| {
        assert (fa + fb)[i] == fa[i];
        assert (a + b)[i] == a[i];
      } else {
        assert (fa + fb)[i] == fb[i - |a|];
        assert (a + b)[i] == b[i - |a|];
      }
    }
  }

  /** Picking from a concatenation picks from the front part, if any of its flags is set. */
  lemma {:induction false} PickFirstAppend(a: seq<Option<string>>, b: seq<Option<string>>, fa: seq<bool>, fb: seq<bool>)
    requires |fa| == |a| && forall i :: 0 <= i < |fa| && fa[i] ==> a[i].Some?
    requires |fb| == |b| && forall i :: 0 <= i < |fb| && fb[i] ==> b[i].Some?
    ensures forall i :: 0 <= i < |fa + fb| && (fa + fb)[i] ==> (a + b)[i].Some?
    ensures PickFirst(a + b, fa + fb) == if PickFirst(a, fa).Some? then PickFirst(a, fa) else PickFirst(b, fb)
  {
    FlagsAppendSome(a, b, fa, fb);
    FirstSetAppend(fa, fb);
    if FirstSet(fa) < |a| {
      PickFront(a, b, fa, fb);
    } else {
      PickBack(a, b, fa, fb);
    }
  }

  lemma {:induction false} PickFront(a: seq<Option<string>>, b: seq<Option<string>>, fa: seq<bool>, fb: seq<bool>)
    requires |fa| == |a| && forall i :: 0 <= i < |fa| && fa[i] ==> a[i].Some?
    requires |fb| == |b| && forall i :: 0 <= i < |fb| && fb[i] ==> b[i].Some?
    requires forall i :: 0 <= i < |fa + fb| && (fa + fb)[i] ==> (a + b)[i].Some?
    requires FirstSet(fa) < |a| && FirstSet(fa + fb) == FirstSet(fa)
    ensures PickFirst(a + b, fa + fb) == PickFirst(a, fa)
  {
    var i := FirstSet(fa);
    assert (a + b)[i] == a[i];
  }

  lemma {:induction false} PickBack(a: seq<Option<string>>, b: seq<Option<string>>, fa: seq<bool>, fb: seq<bool>)
    requires |fa| == |a| && forall i :: 0 <= i < |fa| && fa[i] ==> a[i].Some?
    requires |fb| == |b| && forall i :: 0 <= i < |fb| && fb[i] ==> b[i].Some?
    requires forall i :: 0 <= i < |fa + fb| && (fa + fb)[i] ==> (a + b)[i].Some?
    requires FirstSet(fa) == |a| && FirstSet(fa + fb) == |a| + FirstSet(fb)
    ensures PickFirst(a, fa).None? && PickFirst(a + b, fa + fb) == PickFirst(b, fb)
  {
    var k := FirstSet(fb);
    if k < |b| {
      assert (a + b)[|a| + k] == b[k];
    }
  }

  /** The stripped group of the first usable match, in the order the patterns are tried. */
  function FirstUsable(matches: seq<Option<string>>): Option<string> {
    PickFirst(matches, UsableFlags(matches))
  }

  /** A carrier is found exactly when some match is usable, and it is never blank or a placeholder. */
  lemma {:induction false} FirstUsableMeaning(matches: seq<Option<string>>)
    ensures FirstUsable(matches).Some? <==> exists i :: 0 <= i < |matches| && Usable(matches[i])
    ensures FirstUsable(matches).Some? ==> FirstUsable(matches).value != [] && Lower(FirstUsable(matches).value) !in PLACEHOLDERS
  {
    var flags := UsableFlags(matches);
    var i := FirstSet(flags);
    if i < |matches| {
      assert Usable(matches[i]);
    } else {
      forall j | 0 <= j < |matches|
        ensures !Usable(matches[j])
      {
        assert !flags[j];
      }
    }
  }

  lemma {:induction false} UsableFlagsAppend(a: seq<Option<string>>, b: seq<Option<string>>)
    ensures UsableFlags(a + b) == UsableFlags(a) + UsableFlags(b)
  {
    var fa, fb := UsableFlags(a), UsableFlags(b);
    forall j | 0 <= j < |a + b|
      ensures UsableFlags(a + b)[j] == (fa + fb)[j]
    {
      if j < |a| {
        assert (a + b)[j] == a[j];
      } else {
        assert (a + b)[j] == b[j - |a|];
      }
    }
  }

  /** The patterns tried later only decide when every earlier one gave nothing usable. */
  lemma {:induction false} FirstUsableAppend(a: seq<Option<string>>, b: seq<Option<string>>)
    ensures FirstUsable(a + b) == if FirstUsable(a).Some? then FirstUsable(a) else FirstUsable(b)
  {
    UsableFlagsAppend(a, b);
    PickFirstAppend(a, b, UsableFlags(a), UsableFlags(b));
  }

  /** The three attribute patterns, tried first and without regard to case. */
  const ATTRIBUTE_NAMES: seq<string> := ["container_id=\"", "tray_id=\"", "carrier_id=\""]

  function AttributeMatches(xml: string): (r: seq<Option<string>>)
    ensures |r| == |ATTRIBUTE_NAMES|
    ensures forall i :: 0 <= i < |r| ==> r[i] == Search(xml, ATTRIBUTE_NAMES[i], true, 0)
  {
    seq(|ATTRIBUTE_NAMES|, i requires 0 <= i < |ATTRIBUTE_NAMES| => Search(xml, ATTRIBUTE_NAMES[i], true, 0))
  }

  /**
    `extract_carrier_from_xml`. `tagMatches` holds the first-match groups of
    the seven element patterns that follow the attribute patterns.
   */
  function ExtractCarrier(xml: string, tagMatches: seq<Option<string>>): (r: Option<string>)
    ensures r.Some? ==> r.value != [] && Lower(r.value) !in PLACEHOLDERS
  {
    FirstUsableMeaning(AttributeMatches(xml) + tagMatches);
    FirstUsable(AttributeMatches(xml) + tagMatches)
  }

  /**
    A usable `container_id` wins over every later pattern; when no attribute
    pattern gives anything usable, the element patterns decide in their order.
   */
  lemma {:induction false} ExtractCarrierPriority(xml: string, tagMatches: seq<Option<string>>)
    ensures Usable(Search(xml, "container_id=\"", true, 0)) ==> ExtractCarrier(xml, tagMatches) == Some(Strip(Search(xml, "container_id=\"", true, 0).value))
    ensures FirstUsable(AttributeMatches(xml)).Some? ==> ExtractCarrier(xml, tagMatches) == FirstUsable(AttributeMatches(xml))
    ensures FirstUsable(AttributeMatches(xml)).None? ==> ExtractCarrier(xml, tagMatches) == FirstUsable(tagMatches)
  {
    FirstUsableAppend(AttributeMatches(xml), tagMatches);
  }

  /** The element `generate_insertion_commands_for_order` uses when none is given. */
  const DEFAULT_ELEMENT := "workflow.input.station.01"

  /** The default element has no surrounding blanks. */
  lemma DefaultElementTrimmed()
    ensures DEFAULT_ELEMENT != [] && Strip(DEFAULT_ELEMENT) == DEFAULT_ELEMENT
  {
    var d := DEFAULT_ELEMENT;
    assert d[0] == 'w' && d[|d| - 1] == '1';
    assert !IsSpace(d[0]) && !IsSpace(d[|d| - 1]);
    StripOfTrimmed(d);
  }

  /** `default_element or "workflow.input.station.01"`. */
  function ElementOr(defaultElement: Option<string>): (r: string)
    ensures r != []
    ensures defaultElement.Some? && defaultElement.value != [] ==> r == defaultElement.value
    ensures defaultElement.None? || defaultElement.value == [] ==> r == DEFAULT_ELEMENT
  {
    if defaultElement.Some? && defaultElement.value != [] then defaultElement.value else DEFAULT_ELEMENT
  }

  /** The carrier of the insertion commands: extracted, else `carrier_<order_number>`, else `carrier_test`. */
  function CarrierFor(xml: string, tagMatches: seq<Option<string>>): (r: string)
    ensures r != []
    ensures ExtractCarrier(xml, tagMatches).Some? ==> r == ExtractCarrier(xml, tagMatches).value
  {
    match ExtractCarrier(xml, tagMatches)
    case Some(c) => c
    case None =>
      match Search(xml, OrderSender.ORDER_NUMBER_ATTR, false, 0)
      case Some(v) => "carrier_" + v
      case None => "carrier_test"
  }

  /**
    Without an extracted carrier, the fallback carrier is named after the
    order id the sender reads from the same payload, or is `carrier_test`
    when the payload has no order number.
   */
  lemma CarrierFallback(xml: string, tagMatches: seq<Option<string>>)
    requires ExtractCarrier(xml, tagMatches).None?
    ensures Search(xml, OrderSender.ORDER_NUMBER_ATTR, false, 0).Some? ==> CarrierFor(xml, tagMatches) == "carrier_" + OrderSender.ExtractOrderId(xml)
    ensures (forall p :: MatchAt(xml, OrderSender.ORDER_NUMBER_ATTR, p, false).None?) ==> CarrierFor(xml, tagMatches) == "carrier_test"
  {
  }

  /** `generate_insertion_commands_for_order`: exactly `insert_now` and `remove_later`, on the same element and carrier. */
  function InsertionCommands(osrid: string, xml: string, tagMatches: seq<Option<string>>, defaultElement: Option<string>): (r: Dict<string>)
    ensures Keys(r) == ["insert_now", "remove_later"]
    ensures Get(r, "insert_now") == Some(InsertCommand(osrid, ElementOr(defaultElement), CarrierFor(xml, tagMatches)))
    ensures Get(r, "remove_later") == Some(RemoveCommand(osrid, ElementOr(defaultElement), CarrierFor(xml, tagMatches)))
  {
    var element := ElementOr(defaultElement);
    var carrier := CarrierFor(xml, tagMatches);
    Lookup2("insert_now", "remove_later", InsertCommand(osrid, element, carrier), RemoveCommand(osrid, element, carrier));
    [("insert_now", InsertCommand(osrid, element, carrier)), ("remove_later", RemoveCommand(osrid, element, carrier))]
  }
}
