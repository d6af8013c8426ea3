/**
 * The library's own exceptions and the messages they format from their
 * keyword arguments.
 */
module Errors {
  import opened Wrappers
  import opened Strings

  datatype LiveTraderError =
    | SidsNotFound(sids: seq<string>)
    | EquitiesNotFound(sids: seq<string>)
    | SymbolNotFound(symbol: string)
    | NotSupported
    | ApiNotSupported

  /** `plural`: more than one sid was given. */
  predicate Plural(e: LiveTraderError): (r: bool)
    requires e.SidsNotFound? || e.EquitiesNotFound?
    ensures r <==> |e.sids| >= 2
  {
    |e.sids| > 1
  }

  /**
   * `'{}'.format(s)` of a string inside a list: its quoted form. Python's
   * `repr` also escapes backslashes and control characters and switches to
   * double quotes when the text holds a `'`; those cases are not modelled.
   */
  function Quoted(s: string): (q: string)
    ensures |q| == |s| + 2 && q[0] == '\'' && q[1..|q| - 1] == s && q[|q| - 1] == '\''
  {
    "'" + s + "'"
  }

  function QuotedAll(xs: seq<string>): (qs: seq<string>)
    ensures |qs| == |xs|
    ensures forall i :: 0 <= i < |xs| ==> qs[i] == Quoted(xs[i])
    decreases |xs|
  {
    if |xs| == 0 then [] else QuotedAll(xs[..|xs| - 1]) + [Quoted(xs[|xs| - 1])]
  }

  /** `'{}'.format(xs)` of a list of strings. */
  function ListRepr(xs: seq<string>): (r: string)
    ensures |r| >= 2 && r[0] == '[' && r[|r| - 1] == ']'
    ensures xs == [] ==> r == "[]"
  {
    "[" + Join(", ", QuotedAll(xs)) + "]"
  }

  /**
   * `str(e)`, which is also `e.message`: the class's message template
   * formatted with the keyword arguments. The singular templates index the
   * first sid, so with no sid at all formatting fails (`None` here).
   */
  function Message(e: LiveTraderError): (m: Option<string>)
    ensures m.None? <==> (e.SidsNotFound? || e.EquitiesNotFound?) && |e.sids| == 0
  {
    match e
    case SidsNotFound(sids) =>
      if |sids| > 1 then Some("No assets found for sids: " + ListRepr(sids) + ".")
      else if |sids| == 1 then Some("No asset found for sid: " + sids[0] + ".")
      else None
    case EquitiesNotFound(sids) =>
      if |sids| > 1 then Some("No equities found for sids: " + ListRepr(sids) + ".")
      else if |sids| == 1 then Some("No equity found for sid: " + sids[0] + ".")
      else None
    case SymbolNotFound(symbol) => Some("Symbol '" + symbol + "' was not found")
    case NotSupported => Some("Not supported in livetrader.")
    case ApiNotSupported => Some("API is not supported in livetrader.")
  }

  /** Every part of a joined list occurs in the joined text. */
  lemma {:induction false} JoinContainsParts(sep: string, parts: seq<string>, i: nat)
    requires i < |parts|
    ensures Contains(Join(sep, parts), parts[i])
    decreases |parts|
  {
    var n := |parts|;
    if n == 1 {
      assert StartsWith(parts[0], parts[0]);
    } else {
      var pre := parts[..n - 1];
      assert Join(sep, parts) == (Join(sep, pre) + sep) + parts[n - 1];
      if i < n - 1 {
        assert pre[i] == parts[i];
        JoinContainsParts(sep, pre, i);
        ContainsConcat(Join(sep, pre), sep, parts[i]);
        ContainsConcat(Join(sep, pre) + sep, parts[n - 1], parts[i]);
      } else {
        assert StartsWith(parts[n - 1], parts[n - 1]);
        ContainsConcat(Join(sep, pre) + sep, parts[n - 1], parts[i]);
      }
    }
  }

  /** A listed sid occurs in any text that embeds the list's repr. */
  lemma ListReprContains(head: string, xs: seq<string>, i: nat)
    requires i < |xs|
    ensures Contains(head + ListRepr(xs) + ".", xs[i])
  {
    var qs := QuotedAll(xs);
    var j := Join(", ", qs);
    JoinContainsParts(", ", qs, i);
    QuotedContains(xs[i]);
    ContainsTransitive(j, qs[i], xs[i]);
    EmbedContains(head + "[", j, "].", xs[i]);
    assert head + ListRepr(xs) + "." == head + "[" + j + "].";
  }

  /** A quoted string contains the string. */
  lemma QuotedContains(x: string)
    ensures Contains("'" + (x + "'"), x)
  {
    assert StartsWith(x + "'", x);
    ContainsConcat("'", x + "'", x);
  }

  /** Text around a part still contains whatever the part contains. */
  lemma EmbedContains(a: string, m: string, b: string, p: string)
    requires Contains(m, p)
    ensures Contains(a + m + b, p)
  {
    ContainsConcat(a, m, p);
    ContainsConcat(a + m, b, p);
  }

  /**
   * A plural message names every missing sid; a singular one names the
   * first and the wording follows the class.
   */
  lemma MessageNamesSids(e: LiveTraderError, i: nat)
    requires e.SidsNotFound? || e.EquitiesNotFound?
    requires i < |e.sids|
    ensures Message(e).Some?
    ensures Plural(e) ==> Contains(Message(e).value, e.sids[i])
    ensures !Plural(e) ==>
      Message(e).value == (if e.SidsNotFound? then "No asset found for sid: " else "No equity found for sid: ") + e.sids[0] + "."
  {
    if Plural(e) {
      ListReprContains(if e.SidsNotFound? then "No assets found for sids: " else "No equities found for sids: ", e.sids, i);
    }
  }

  /** Containment is transitive. */
  lemma {:induction false} ContainsTransitive(s: string, t: string, p: string)
    requires Contains(s, t) && Contains(t, p)
    ensures Contains(s, p)
    decreases |s|
  {
    if StartsWith(s, t) {
      assert s == t + s[|t|..];
      ContainsConcat(t, s[|t|..], p);
    } else {
      ContainsTransitive(s[1..], t, p);
      assert s == [s[0]] + s[1..];
      ContainsConcat([s[0]], s[1..], p);
    }
  }

  /** `SymbolNotFound` quotes the symbol. */
  lemma SymbolMessageNamesSymbol(symbol: string)
    ensures Contains(Message(SymbolNotFound(symbol)).value, "'" + symbol + "'")
  {
    var m := "Symbol " + ("'" + symbol + "'") + " was not found";
    assert Message(SymbolNotFound(symbol)).value == m;
    assert StartsWith("'" + symbol + "'" + " was not found", "'" + symbol + "'");
    ContainsConcat("Symbol ", "'" + symbol + "'" + " was not found", "'" + symbol + "'");
    assert m == "Symbol " + ("'" + symbol + "'" + " was not found");
  }
}
