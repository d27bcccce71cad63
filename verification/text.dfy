/** The string operations the reports use: `Array.join`, splitting into lines, `startsWith`. */
module Text {

  /** `parts.join(sep)`: the parts with `sep` between neighbours; no parts give "". */
  function Join(parts: seq<string>, sep: string): string
    decreases |parts|
  {
    if |parts| == 0 then ""
    else if |parts| == 1 then parts[0]
    else parts[0] + sep + Join(parts[1..], sep)
  }

  /** Position of the first `c` in `s`. */
  function FirstIndexOf(s: string, c: char): (i: nat)
    requires c in s
    ensures i < |s| && s[i] == c
    ensures c !in s[..i]
    decreases |s|
  {
    if s[0] == c then 0
    else
      assert c in s[1..] by { assert s == [s[0]] + s[1..]; }
      var j := FirstIndexOf(s[1..], c);
      assert s[..j + 1] == [s[0]] + s[1..][..j];
      j + 1
  }

  /** `s.split(c)`: the maximal pieces between occurrences of `c`; "" splits into [""]. */
  function Split(s: string, c: char): (parts: seq<string>)
    ensures |parts| >= 1
    decreases |s|
  {
    if c !in s then [s]
    else
      var i := FirstIndexOf(s, c);
      [s[..i]] + Split(s[i + 1..], c)
  }

  predicate StartsWith(s: string, prefix: string) {
    |prefix| <= |s| && s[..|prefix|] == prefix
  }

  /** Splitting `a c rest` at `c`, with no `c` in `a`, peels off `a`. */
  lemma SplitPeel(a: string, rest: string, c: char)
    requires c !in a
    ensures Split(a + [c] + rest, c) == [a] + Split(rest, c)
  {
    var s := a + [c] + rest;
    assert s[|a|] == c;
    var i := FirstIndexOf(s, c);
    assert i == |a|;
    assert s[..i] == a;
    assert s[i + 1..] == rest;
  }

  /** Splitting undoes joining, as long as no part contains the separator. */
  lemma {:induction false} SplitJoin(parts: seq<string>, c: char)
    requires |parts| >= 1
    requires forall i :: 0 <= i < |parts| ==> c !in parts[i]
    ensures Split(Join(parts, [c]), c) == parts
    decreases |parts|
  {
    if |parts| > 1 {
      SplitPeel(parts[0], Join(parts[1..], [c]), c);
      SplitJoin(parts[1..], c);
    }
  }

  /** A header line followed by joined lines reads back as the header and then those lines. */
  lemma LinesAfterHeader(header: string, lines: seq<string>, c: char)
    requires c !in header
    requires forall line :: line in lines ==> c !in line
    ensures Split(header + [c] + Join(lines, [c]), c) == [header] + (if |lines| == 0 then [""] else lines)
  {
    SplitPeel(header, Join(lines, [c]), c);
    if |lines| > 0 {
      assert forall i :: 0 <= i < |lines| ==> lines[i] in lines;
      SplitJoin(lines, c);
    }
  }
}
