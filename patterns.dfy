/**
  The one regular-expression shape the console searches payloads with:
  `re.search(r'NAME="([^"]+)"', text)`, optionally with `re.IGNORECASE`.
  The match is the leftmost position where `NAME="` starts, followed by
  at least one character other than `"`, then a `"`; the group is the
  text between the quotes.
 */
module Patterns {
  import opened Wrappers
  import opened PyText

  /** The first `"` in `s` at or after `from`. */
  function QuoteFrom(s: string, from: nat): (r: Option<nat>)
    ensures r.Some? ==> from <= r.value < |s| && s[r.value] == '"'
    ensures r.Some? ==> forall j :: from <= j < r.value ==> s[j] != '"'
    ensures r.None? ==> forall j :: from <= j < |s| ==> s[j] != '"'
    decreases |s| - from
  {
    if from >= |s| then None
    else if s[from] == '"' then Some(from)
    else QuoteFrom(s, from + 1)
  }

  /** `lit` occurs at `p`, compared without regard to letter case when `fold`. */
  predicate LitAt(s: string, lit: string, p: nat, fold: bool) {
    p + |lit| <= |s| && (if fold then Lower(s[p..p + |lit|]) == Lower(lit) else s[p..p + |lit|] == lit)
  }

  /** The group of a match of `lit([^"]+)"` that starts at `p`, if one does. */
  function MatchAt(s: string, lit: string, p: nat, fold: bool): (r: Option<string>)
    ensures r.Some? ==> r.value != [] && '"' !in r.value
    ensures r.Some? ==>
      && LitAt(s, lit, p, fold) && p + |lit| + |r.value| < |s|
      && s[p + |lit|..p + |lit| + |r.value|] == r.value && s[p + |lit| + |r.value|] == '"'
  {
    if !LitAt(s, lit, p, fold) then None
    else
      match QuoteFrom(s, p + |lit|)
      case None => None
      case Some(j) =>
        if j == p + |lit| then None
        else
          var v := s[p + |lit|..j];
          assert forall c :: c in v ==> c != '"' by {
            forall c | c in v ensures c != '"' {
              var k :| 0 <= k < |v| && v[k] == c;
              assert v[k] == s[p + |lit| + k];
            }
          }
          Some(v)
  }

  /** `re.search`: the group of the leftmost match at or after `from`. */
  function Search(s: string, lit: string, fold: bool, from: nat): (r: Option<string>)
    ensures r.Some? ==> exists p ::
      && from <= p && MatchAt(s, lit, p, fold) == r
      && forall q :: from <= q < p ==> MatchAt(s, lit, q, fold).None?
    ensures r.None? <==> forall p :: from <= p ==> MatchAt(s, lit, p, fold).None?
    decreases |s| - from
  {
    if from > |s| then
      assert forall p :: from <= p ==> !LitAt(s, lit, p, fold);
      None
    else
      match MatchAt(s, lit, from, fold)
      case Some(v) => Some(v)
      case None => Search(s, lit, fold, from + 1)
  }

  /** A match found by the search is not empty and holds no quote. */
  lemma SearchGroup(s: string, lit: string, fold: bool)
    requires Search(s, lit, fold, 0).Some?
    ensures Search(s, lit, fold, 0).value != [] && '"' !in Search(s, lit, fold, 0).value
  {
  }

  /** A text that starts right with the attribute finds its value. */
  lemma {:induction false} SearchAtStart(lit: string, v: string, rest: string)
    requires v != [] && '"' !in v
    ensures Search(lit + v + "\"" + rest, lit, false, 0) == Some(v)
  {
    var s := lit + v + "\"" + rest;
    assert s[..|lit|] == lit;
    assert s[|lit|..|lit| + |v|] == v;
    assert s[|lit| + |v|] == '"';
    assert forall j :: |lit| <= j < |lit| + |v| ==> s[j] != '"' by {
      forall j | |lit| <= j < |lit| + |v| ensures s[j] != '"' {
        assert s[j] == v[j - |lit|];
      }
    }
    assert QuoteFrom(s, |lit|) == Some(|lit| + |v|);
  }

  /**
    When the text before the attribute holds no quote, and the attribute name
    ends with its only quote, the search finds the attribute's value.
   */
  lemma {:induction false} SearchAfter(pre: string, lit: string, v: string, rest: string)
    requires lit != [] && lit[|lit| - 1] == '"' && '"' !in lit[..|lit| - 1]
    requires '"' !in pre && v != [] && '"' !in v
    ensures Search(pre + lit + v + "\"" + rest, lit, false, 0) == Some(v)
  {
    var s := pre + lit + v + "\"" + rest;
    forall q | 0 <= q < |pre| ensures MatchAt(s, lit, q, false).None? {
      var e := q + |lit| - 1;
      assert s[e] != '"' by {
        if e < |pre| {
          assert s[e] == pre[e];
        } else {
          assert s[e] == lit[..|lit| - 1][e - |pre|];
        }
      }
      assert !LitAt(s, lit, q, false) by {
        if q + |lit| <= |s| {
          assert s[q..q + |lit|][|lit| - 1] == s[e];
        }
      }
    }
    SearchFrom(s, lit, |pre|);
    assert s[|pre|..] == lit + v + "\"" + rest;
    SearchAtOffset(s, |pre|, lit, v, rest);
  }

  /** A search reaching `from` with no match before it gives the result found from `from`. */
  lemma {:induction false} SearchFrom(s: string, lit: string, from: nat)
    requires forall q :: 0 <= q < from ==> MatchAt(s, lit, q, false).None?
    ensures Search(s, lit, false, 0) == Search(s, lit, false, from)
  {
    var k := from;
    while k > 0
      invariant 0 <= k <= from
      invariant Search(s, lit, false, k) == Search(s, lit, false, from)
    {
      k := k - 1;
      assert MatchAt(s, lit, k, false).None?;
    }
  }

  /** The attribute sits at `p`, followed by its value and a quote. */
  lemma {:induction false} SearchAtOffset(s: string, p: nat, lit: string, v: string, rest: string)
    requires p <= |s| && s[p..] == lit + v + "\"" + rest
    requires v != [] && '"' !in v
    ensures Search(s, lit, false, p) == Some(v)
  {
    MatchAtOffset(s, p, lit, v, rest);
  }

  lemma {:induction false} MatchAtOffset(s: string, p: nat, lit: string, v: string, rest: string)
    requires p <= |s| && s[p..] == lit + v + "\"" + rest
    requires v != [] && '"' !in v
    ensures MatchAt(s, lit, p, false) == Some(v)
  {
    var t := s[p..];
    var a := p + |lit|;
    assert s[p..a] == t[..|lit|] == lit;
    assert forall j :: a <= j < a + |v| ==> s[j] != '"' by {
      forall j | a <= j < a + |v| ensures s[j] != '"' {
        assert s[j] == t[j - p];
        assert t[j - p] == v[j - a];
      }
    }
    assert s[a + |v|] == t[|lit| + |v|];
    assert t[|lit| + |v|] == '"';
    QuoteAt(s, a, a + |v|);
    assert s[a..a + |v|] == v by {
      forall j | 0 <= j < |v| ensures s[a..a + |v|][j] == v[j] {
        assert s[a..a + |v|][j] == s[a + j];
        assert s[a + j] == t[|lit| + j];
      }
    }
  }

  /** The first quote from `a` is at `b` when there is none before it. */
  lemma {:induction false} QuoteAt(s: string, a: nat, b: nat)
    requires a <= b < |s| && s[b] == '"'
    requires forall j :: a <= j < b ==> s[j] != '"'
    ensures QuoteFrom(s, a) == Some(b)
    decreases b - a
  {
    if a < b {
      QuoteAt(s, a + 1, b);
    }
  }
}
