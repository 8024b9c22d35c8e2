/**
 * Construction of search-engine filter expressions from the client's
 * field-to-value filter map (`buildFilterStrings`, `buildArrayFilter`).
 *
 * A Go map is iterated in an unspecified order, so the map is given here as
 * the sequence of its entries in whichever order the iteration produced;
 * the lemmas at the end show that only the order of the output depends on it.
 */
module Filters {
  import opened Wrappers
  import opened Decimal
  import opened Strings
  import opened Values
  import opened Sequences

  /** How a value is written after `field = `: strings single-quoted, anything else through `toString`. */
  function Literal(v: Value): string {
    if v.Str? then "'" + v.s + "'" else ToString(v)
  }

  /** One condition of an OR-group: the loop body of `buildArrayFilter`. */
  function Condition(field: string, v: Value): (r: string)
    ensures |r| >= |field| + 3 && r[..|field|] == field && r[|field|..|field| + 3] == " = "
    ensures (v.Str? || v.Int? || v.Bool?) ==> DecodeLiteral(r[|field| + 3..]) == Some(v)
    ensures v.Int? ==> r == field + " = " + Itoa(v.i)
    ensures v.Float? ==> r == field + " = " + v.text
    ensures (v.List? || v.Object? || v.Other?) ==> r == field + " = "
  {
    LiteralRoundTrip(v);
    field + " = " + Literal(v)
  }

  /** Reads a literal back: a quoted string, `true`/`false`, or a decimal integer. */
  function DecodeLiteral(text: string): Option<Value> {
    if |text| >= 2 && text[0] == '\'' && text[|text| - 1] == '\'' then Some(Str(text[1..|text| - 1]))
    else if text == "true" then Some(Bool(true))
    else if text == "false" then Some(Bool(false))
    else match Atoi(text)
      case Some(n) => Some(Int(n))
      case None => None
  }

  /** Strings, integers and booleans are written so that they can be read back. */
  lemma LiteralRoundTrip(v: Value)
    ensures (v.Str? || v.Int? || v.Bool?) ==> DecodeLiteral(Literal(v)) == Some(v)
  {
  }

  /** The conditions for `values`, in order. */
  function Conditions(field: string, values: seq<Value>): (r: seq<string>)
    ensures |r| == |values|
    ensures forall i :: 0 <= i < |values| ==> r[i] == Condition(field, values[i])
    decreases |values|
  {
    if |values| == 0 then [] else [Condition(field, values[0])] + Conditions(field, values[1..])
  }

  /** `buildArrayFilter`: the conditions for every element joined by ` OR `, in parentheses. */
  function BuildArrayFilter(field: string, values: seq<Value>): (r: string)
    ensures |r| >= 2 && r[0] == '(' && r[|r| - 1] == ')'
    ensures r[1..|r| - 1] == Join(Conditions(field, values), " OR ")
  {
    "(" + JoinStrings(Conditions(field, values), " OR ") + ")"
  }

  /** A one-element list gives its single condition in parentheses. */
  lemma ArrayFilterSingle(field: string, v: Value)
    ensures BuildArrayFilter(field, [v]) == "(" + Condition(field, v) + ")"
  {
  }

  /** The values for which `buildFilterStrings` emits an expression. */
  predicate Contributes(v: Value) {
    v.Str? || v.Int? || v.Float? || v.Bool? || (v.List? && |v.items| > 0)
  }

  /**
   * The expression one map entry contributes, following the type switch of
   * `buildFilterStrings`; `None` for an empty list and for unsupported types.
   * A scalar entry is written exactly as the same value would be written as
   * an element of an OR-group.
   */
  function EntryExpression(field: string, v: Value): (r: Option<string>)
    ensures r.Some? <==> Contributes(v)
    ensures r.Some? && !v.List? ==> r.value == Condition(field, v)
    ensures r.Some? && v.List? ==> r.value == BuildArrayFilter(field, v.items)
  {
    match v
    case Str(s) =>
      assert Condition(field, v) == field + " = " + ("'" + s + "'");
      Some(field + " = '" + s + "'")
    case Int(_) =>
      assert Condition(field, v) == field + " = " + ToString(v);
      Some(field + " = " + ToString(v))
    case Float(_) =>
      assert Condition(field, v) == field + " = " + ToString(v);
      Some(field + " = " + ToString(v))
    case Bool(b) =>
      assert Condition(field, v) == field + " = " + FormatBool(b);
      Some(field + " = " + FormatBool(b))
    case List(items) => if |items| > 0 then Some(BuildArrayFilter(field, items)) else None
    case _ => None
  }

  /** The expression of one `(field, value)` map entry. */
  function Entry(entry: (string, Value)): Option<string> {
    EntryExpression(entry.0, entry.1)
  }

  /**
   * `buildFilterStrings`: each entry, in iteration order, appends its
   * expression if it has one, so there is at most one expression per entry.
   */
  function BuildFilterStrings(entries: seq<(string, Value)>): (r: seq<string>)
    ensures |r| <= |entries|
  {
    FilterMap(entries, Entry)
  }

  /** Whether entry `i` of `entries` renders as `e`. */
  predicate RendersAs(entries: seq<(string, Value)>, i: int, e: string) {
    0 <= i < |entries| && EntryExpression(entries[i].0, entries[i].1) == Some(e)
  }

  /**
   * The expression of every contributing entry is in the output, everything
   * in the output is the expression of some entry, and the output is empty
   * exactly when no entry contributes.
   */
  lemma {:induction false} BuildFilterStringsEntries(entries: seq<(string, Value)>)
    ensures forall i :: 0 <= i < |entries| && Contributes(entries[i].1) ==>
      EntryExpression(entries[i].0, entries[i].1).value in BuildFilterStrings(entries)
    ensures forall e :: e in BuildFilterStrings(entries) ==> exists i :: RendersAs(entries, i, e)
    ensures |BuildFilterStrings(entries)| == 0 <==> forall i :: 0 <= i < |entries| ==> !Contributes(entries[i].1)
  {
    FilterMapComplete(entries, Entry);
    FilterMapEmpty(entries, Entry);
    FilterMapSound(entries, Entry);
    forall e | e in BuildFilterStrings(entries)
      ensures exists i :: RendersAs(entries, i, e)
    {
      var i :| 0 <= i < |entries| && Entry(entries[i]) == Some(e);
      assert RendersAs(entries, i, e);
    }
  }

  /**
   * The output is exactly one expression per contributing entry, counted
   * with multiplicity: its k-th expression is that of the k-th contributing
   * entry, at a position increasing with k, and every contributing entry
   * is among those positions.
   */
  lemma {:induction false} BuildFilterStringsInOrder(entries: seq<(string, Value)>)
    ensures |BuildFilterStrings(entries)| == |Kept(entries, Entry)|
    ensures forall k :: 0 <= k < |Kept(entries, Entry)| ==>
      RendersAs(entries, Kept(entries, Entry)[k], BuildFilterStrings(entries)[k])
    ensures forall k, l :: 0 <= k < l < |Kept(entries, Entry)| ==>
      Kept(entries, Entry)[k] < Kept(entries, Entry)[l]
    ensures forall i :: 0 <= i < |entries| && Contributes(entries[i].1) ==> i in Kept(entries, Entry)
  {
    FilterMapIsSubsequence(entries, Entry);
  }

  /**
   * The expressions do not depend on the map's iteration order: any two
   * enumerations of the same entries produce the same expressions, up to order.
   */
  lemma {:induction false} BuildFilterStringsOrderIndependent(a: seq<(string, Value)>, b: seq<(string, Value)>)
    requires multiset(a) == multiset(b)
    ensures multiset(BuildFilterStrings(a)) == multiset(BuildFilterStrings(b))
  {
    FilterMapPermutation(a, b, Entry);
  }

  /**
   * Values are inserted without escaping: a string value holding quotes
   * spells out an OR of two conditions on the field.
   */
  lemma QuoteInjectsCondition()
    ensures EntryExpression("genre", Str("x' OR genre = 'y")) == Some("genre = 'x' OR genre = 'y'")
  {
    assert "genre" + " = '" + "x' OR genre = 'y" + "'" == "genre = 'x' OR genre = 'y'";
  }

  /** Without escaping, two different entries can render the same expression. */
  lemma QuotesCollide()
    ensures EntryExpression("a = 'b", Str("c")) == EntryExpression("a", Str("b = 'c"))
  {
    assert "a = 'b" + " = '" + "c" + "'" == "a = 'b = 'c'";
    assert "a" + " = '" + "b = 'c" + "'" == "a = 'b = 'c'";
  }
}
