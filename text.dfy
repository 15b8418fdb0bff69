/**
 * The .NET string operations the pipeline relies on: String.Split on one
 * character, String.Replace of a character or of a substring, and
 * String.Join, each with the facts the codecs and formatters need.
 */
module Text {
  import opened Common

  /** The first index of `c` in `s`, as String.IndexOf(char). */
  function IndexOfChar(s: string, c: char): (r: Option<nat>)
    ensures r.None? <==> c !in s
    ensures r.Some? ==> r.value < |s| && s[r.value] == c && c !in s[..r.value]
  {
    if |s| == 0 then None
    else if s[0] == c then Some(0)
    else
      match IndexOfChar(s[1..], c)
      case None => None
      case Some(i) =>
        assert s[1..][..i] == s[1..i + 1];
        assert s[..i + 1] == [s[0]] + s[1..i + 1];
        Some(i + 1)
  }

  /** String.Split(sep): the pieces between occurrences of `sep`; n separators give n + 1 pieces. */
  function Split(s: string, sep: char): (parts: seq<string>)
    ensures |parts| >= 1
    ensures forall i :: 0 <= i < |parts| ==> sep !in parts[i]
    decreases |s|
  {
    match IndexOfChar(s, sep)
    case None => [s]
    case Some(i) => [s[..i]] + Split(s[i + 1..], sep)
  }

  lemma SplitWithout(s: string, sep: char)
    requires sep !in s
    ensures Split(s, sep) == [s]
  {
  }

  /** Splitting `a + [sep] + b` when `a` has no separator yields `a` followed by the pieces of `b`. */
  lemma {:induction false} SplitAfterFirst(a: string, sep: char, b: string)
    requires sep !in a
    ensures Split(a + [sep] + b, sep) == [a] + Split(b, sep)
  {
    var s := a + [sep] + b;
    IndexOfPrefixFree(a, sep, b);
    assert s[..|a|] == a;
    assert s[|a| + 1..] == b;
  }

  lemma {:induction false} IndexOfPrefixFree(a: string, c: char, b: string)
    requires c !in a
    ensures IndexOfChar(a + [c] + b, c) == Some(|a|)
  {
    var s := a + [c] + b;
    if |a| > 0 {
      assert s[1..] == a[1..] + [c] + b;
      assert c !in a[1..];
      IndexOfPrefixFree(a[1..], c, b);
    }
  }

  /** For two pieces without the separator, joining them with it and splitting gives them back. */
  lemma SplitPair(a: string, sep: char, b: string)
    requires sep !in a && sep !in b
    ensures Split(a + [sep] + b, sep) == [a, b]
  {
    SplitAfterFirst(a, sep, b);
    SplitWithout(b, sep);
  }

  /** String.Replace(char, char). */
  function ReplaceChar(s: string, from: char, to: char): (r: string)
    ensures |r| == |s|
    ensures forall i :: 0 <= i < |s| ==> r[i] == if s[i] == from then to else s[i]
  {
    if |s| == 0 then "" else [if s[0] == from then to else s[0]] + ReplaceChar(s[1..], from, to)
  }

  predicate StartsWith(s: string, prefix: string)
  {
    |prefix| <= |s| && s[..|prefix|] == prefix
  }

  /** String.Replace(string, string): every non-overlapping occurrence of `pattern`, scanning left to right. */
  function Replace(s: string, pattern: string, replacement: string): string
    requires |pattern| > 0
    decreases |s|
  {
    if |s| < |pattern| then s
    else if StartsWith(s, pattern) then replacement + Replace(s[|pattern|..], pattern, replacement)
    else [s[0]] + Replace(s[1..], pattern, replacement)
  }

  predicate OccursAt(s: string, pattern: string, i: nat)
  {
    i + |pattern| <= |s| && s[i..i + |pattern|] == pattern
  }

  /** A string in which `pattern` never occurs is left as it is. */
  lemma {:induction false} ReplaceAbsent(s: string, pattern: string, replacement: string)
    requires |pattern| > 0
    requires forall i: nat :: !OccursAt(s, pattern, i)
    ensures Replace(s, pattern, replacement) == s
  {
    if |s| >= |pattern| {
      assert !OccursAt(s, pattern, 0);
      assert s[..|pattern|] == s[0..|pattern|];
      forall i: nat ensures !OccursAt(s[1..], pattern, i) {
        assert !OccursAt(s, pattern, i + 1);
        if i + |pattern| <= |s[1..]| {
          assert s[1..][i..i + |pattern|] == s[i + 1..i + 1 + |pattern|];
        }
      }
      ReplaceAbsent(s[1..], pattern, replacement);
      assert [s[0]] + s[1..] == s;
    }
  }

  /** A pattern at the front is replaced and the scan goes on after it. */
  lemma ReplaceFront(pattern: string, rest: string, replacement: string)
    requires |pattern| > 0
    ensures Replace(pattern + rest, pattern, replacement) == replacement + Replace(rest, pattern, replacement)
  {
    assert (pattern + rest)[..|pattern|] == pattern;
    assert (pattern + rest)[|pattern|..] == rest;
  }

  /** Where no match starts the first character is kept and the scan moves one on. */
  lemma ReplaceStep(s: string, pattern: string, replacement: string)
    requires |pattern| > 0 && |s| > 0 && !StartsWith(s, pattern)
    ensures Replace(s, pattern, replacement) == [s[0]] + Replace(s[1..], pattern, replacement)
  {
    if |s| < |pattern| {
      assert [s[0]] + s[1..] == s;
    }
  }

  /** A prefix without the pattern's first character is passed over unchanged. */
  lemma {:induction false} ReplaceSkips(a: string, b: string, pattern: string, replacement: string)
    requires |pattern| > 0 && pattern[0] !in a
    ensures Replace(a + b, pattern, replacement) == a + Replace(b, pattern, replacement)
    decreases |a|
  {
    if |a| > 0 {
      assert (a + b)[0] == a[0];
      assert !StartsWith(a + b, pattern);
      ReplaceStep(a + b, pattern, replacement);
      assert (a + b)[1..] == a[1..] + b;
      ReplaceSkips(a[1..], b, pattern, replacement);
      assert [a[0]] + a[1..] == a;
    } else {
      assert a + b == b;
    }
  }

  /** String.Join(separator, items). */
  function Join(separator: string, items: seq<string>): string
  {
    if |items| == 0 then "" else if |items| == 1 then items[0] else items[0] + separator + Join(separator, items[1..])
  }

  /** String.Concat(items). */
  function Concat(items: seq<string>): string
  {
    if |items| == 0 then "" else items[0] + Concat(items[1..])
  }

  /** The first two pieces of `PartitionKey;RowKey`, as DecodeIDToPartitionAndRowKey takes them; fewer than two pieces is an IndexOutOfRangeException. */
  function SplitKeyPair(text: string): (r: Result<(string, string)>)
    ensures r.Ok? ==> ';' !in r.value.0 && ';' !in r.value.1
    ensures r.Err? <==> ';' !in text
  {
    var parts := Split(text, ';');
    if |parts| < 2 then Err(IndexOutOfRange)
    else
      Ok((parts[0], parts[1]))
  }

  /** Keys without ';' come back from their joined form. */
  lemma KeyPairRoundTrip(pk: string, rk: string)
    requires ';' !in pk && ';' !in rk
    ensures SplitKeyPair(pk + ";" + rk) == Ok((pk, rk))
  {
    assert pk + ";" + rk == pk + [';'] + rk;
    SplitPair(pk, ';', rk);
  }

  /** Anything after a second ';' is dropped. */
  lemma KeyPairDropsRest(pk: string, rk: string, extra: string)
    requires ';' !in pk && ';' !in rk
    ensures SplitKeyPair(pk + ";" + rk + ";" + extra) == Ok((pk, rk))
  {
    var tail := rk + [';'] + extra;
    assert pk + ";" + rk + ";" + extra == pk + [';'] + tail;
    SplitAfterFirst(pk, ';', tail);
    SplitAfterFirst(rk, ';', extra);
  }

  function HexDigits(n: nat, width: nat): (r: string)
    ensures |r| == width
    ensures forall i :: 0 <= i < width ==> r[i] in "0123456789abcdef"
  {
    if width == 0 then "" else HexDigits(n / 16, width - 1) + ["0123456789abcdef"[n % 16]]
  }

  /** Guid.ToString() of a 128-bit value: 32 lower-case hex digits grouped 8-4-4-4-12. */
  function GuidText(g: nat): (r: string)
    ensures |r| == 36 && ';' !in r
  {
    var h := HexDigits(g, 32);
    var r := h[..8] + "-" + h[8..12] + "-" + h[12..16] + "-" + h[16..20] + "-" + h[20..];
    assert forall i :: 0 <= i < |r| ==> r[i] in "0123456789abcdef-";
    r
  }
}
