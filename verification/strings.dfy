/** Joining strings with a separator, as `joinStrings` does. */
module Strings {

  /** `sep + p` for every element `p` of `rest`, concatenated in order. */
  function Separated(rest: seq<string>, sep: string): string
    decreases |rest|
  {
    if |rest| == 0 then "" else sep + rest[0] + Separated(rest[1..], sep)
  }

  /** The standard join: the first element, then every later one preceded by `sep`. */
  function Join(parts: seq<string>, sep: string): string {
    if |parts| == 0 then "" else parts[0] + Separated(parts[1..], sep)
  }

  /** Total length of the elements. */
  function SumLengths(parts: seq<string>): nat
    decreases |parts|
  {
    if |parts| == 0 then 0 else |parts[0]| + SumLengths(parts[1..])
  }

  /** The accumulating loop of `joinStrings`: `acc += sep + s` for each remaining `s`. */
  function AppendEach(acc: string, rest: seq<string>, sep: string): (r: string)
    ensures r == acc + Separated(rest, sep)
    decreases |rest|
  {
    if |rest| == 0 then acc else AppendEach(acc + sep + rest[0], rest[1..], sep)
  }

  /**
   * `joinStrings`: empty for no elements, the element itself for one, and
   * otherwise the first element followed by `sep + s` for each later `s`.
   */
  function JoinStrings(strs: seq<string>, sep: string): (r: string)
    ensures |strs| == 0 ==> r == ""
    ensures |strs| == 1 ==> r == strs[0]
    ensures r == Join(strs, sep)
  {
    if |strs| == 0 then ""
    else if |strs| == 1 then strs[0]
    else AppendEach(strs[0], strs[1..], sep)
  }

  lemma {:induction false} SeparatedAppend(a: seq<string>, b: seq<string>, sep: string)
    ensures Separated(a + b, sep) == Separated(a, sep) + Separated(b, sep)
    decreases |a|
  {
    if |a| > 0 {
      assert (a + b)[1..] == a[1..] + b;
      SeparatedAppend(a[1..], b, sep);
    } else {
      assert a + b == b;
    }
  }

  /** Joining two non-empty lists is joining each and putting one separator between. */
  lemma JoinAppend(a: seq<string>, b: seq<string>, sep: string)
    requires |a| > 0 && |b| > 0
    ensures Join(a + b, sep) == Join(a, sep) + sep + Join(b, sep)
  {
    assert (a + b)[1..] == a[1..] + b;
    SeparatedAppend(a[1..], b, sep);
    assert Separated(b, sep) == sep + b[0] + Separated(b[1..], sep);
  }

  /** Each element after the first adds its own length and one separator. */
  lemma {:induction false} SeparatedLength(rest: seq<string>, sep: string)
    ensures |Separated(rest, sep)| == SumLengths(rest) + |rest| * |sep|
    decreases |rest|
  {
    if |rest| > 0 {
      SeparatedLength(rest[1..], sep);
    }
  }

  /** The join holds every element once and exactly `|parts| - 1` separators. */
  lemma {:induction false} JoinLength(parts: seq<string>, sep: string)
    requires |parts| > 0
    ensures |Join(parts, sep)| == SumLengths(parts) + (|parts| - 1) * |sep|
  {
    SeparatedLength(parts[1..], sep);
  }

  /**
   * The join seen around element `i > 0`: the join of the elements before it,
   * exactly one separator, the element itself verbatim, then every later
   * element preceded by the separator.
   */
  lemma JoinAround(parts: seq<string>, sep: string, i: nat)
    requires 0 < i < |parts|
    ensures Join(parts, sep) == Join(parts[..i], sep) + sep + parts[i] + Separated(parts[i + 1..], sep)
  {
    assert parts == parts[..i] + parts[i..];
    JoinAppend(parts[..i], parts[i..], sep);
    assert parts[i..][1..] == parts[i + 1..];
  }
}
