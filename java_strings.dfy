/**
 * The few `java.lang.String` operations the two cores rely on.  Case mapping
 * covers the ASCII letters only.
 */
module JavaStrings {
  import opened Wrappers

  function LowerChar(c: char): (r: char)
    ensures 'A' <= c <= 'Z' ==> 'a' <= r <= 'z'
    ensures !('A' <= c <= 'Z') ==> r == c
  {
    if 'A' <= c <= 'Z' then (c as int + 32) as char else c
  }

  function UpperChar(c: char): (r: char)
    ensures 'a' <= c <= 'z' ==> 'A' <= r <= 'Z'
    ensures !('a' <= c <= 'z') ==> r == c
  {
    if 'a' <= c <= 'z' then (c as int - 32) as char else c
  }

  /** `s.toLowerCase(Locale.ROOT)`: every character mapped, length kept. */
  function ToLowerCase(s: string): (r: string)
    ensures |r| == |s|
    ensures forall i :: 0 <= i < |s| ==> r[i] == LowerChar(s[i])
  {
    if s == [] then [] else [LowerChar(s[0])] + ToLowerCase(s[1..])
  }

  /** `s.toUpperCase()`: every character mapped, length kept. */
  function ToUpperCase(s: string): (r: string)
    ensures |r| == |s|
    ensures forall i :: 0 <= i < |s| ==> r[i] == UpperChar(s[i])
  {
    if s == [] then [] else [UpperChar(s[0])] + ToUpperCase(s[1..])
  }

  /** `a.equalsIgnoreCase(b)`: same length and the same characters up to case. */
  predicate EqualsIgnoreCase(a: string, b: string) {
    |a| == |b| && forall i :: 0 <= i < |a| ==> UpperChar(a[i]) == UpperChar(b[i])
  }

  /** `s.startsWith(prefix)`. */
  predicate StartsWith(s: string, prefix: string) {
    |prefix| <= |s| && s[..|prefix|] == prefix
  }

  /** `s.replace(String.valueOf(c), "")`: every occurrence of `c` removed, the rest kept in order. */
  function RemoveAll(s: string, c: char): (r: string)
    ensures c !in r
    ensures |r| <= |s|
    ensures forall x :: x in r ==> x in s
    ensures c !in s ==> r == s
  {
    if s == [] then []
    else if s[0] == c then RemoveAll(s[1..], c)
    else [s[0]] + RemoveAll(s[1..], c)
  }

  /** Removal works piece by piece, so the characters kept stay in their order. */
  lemma {:induction false} RemoveAllConcat(a: string, b: string, c: char)
    ensures RemoveAll(a + b, c) == RemoveAll(a, c) + RemoveAll(b, c)
  {
    if a == [] {
      assert a + b == b;
    } else {
      assert (a + b)[0] == a[0] && (a + b)[1..] == a[1..] + b;
      RemoveAllConcat(a[1..], b, c);
    }
  }

  /** On one character: the character itself is dropped, any other is kept. */
  lemma RemoveAllOneCharacter(x: char, c: char)
    ensures RemoveAll([x], c) == if x == c then [] else [x]
  {
  }

  /** `String.valueOf(v)` for a String reference: a null reference prints as `null`. */
  function StringOf(v: Option<string>): string {
    match v
    case Some(s) => s
    case None => "null"
  }

  /** `String.join(sep, items)`, where an item may be a null reference. */
  function Join(sep: string, items: seq<Option<string>>): string {
    if |items| == 0 then ""
    else if |items| == 1 then StringOf(items[0])
    else StringOf(items[0]) + sep + Join(sep, items[1..])
  }

  /** Each item appears in the joined text at its place: the items before it, then it, then the items after it, separated by `sep`. */
  lemma {:induction false} JoinAt(sep: string, items: seq<Option<string>>, i: nat)
    requires i < |items|
    ensures Join(sep, items)
         == (if i == 0 then "" else Join(sep, items[..i]) + sep) + StringOf(items[i])
            + (if i + 1 == |items| then "" else sep + Join(sep, items[i + 1..]))
    decreases i
  {
    if i > 0 {
      var tail := items[1..];
      JoinAt(sep, tail, i - 1);
      assert tail[i - 1] == items[i] && tail[i..] == items[i + 1..];
      if i > 1 {
        assert items[..i][0] == items[0] && items[..i][1..] == tail[..i - 1];
      } else {
        assert items[..i] == [items[0]];
      }
    }
  }

  /** Joining one more item appends the separator and that item: the incremental view of `StringJoiner`. */
  lemma {:induction false} JoinSnoc(sep: string, items: seq<Option<string>>, x: Option<string>)
    requires |items| > 0
    ensures Join(sep, items + [x]) == Join(sep, items) + sep + StringOf(x)
  {
    if |items| == 1 {
      assert items + [x] == [items[0], x];
      assert [items[0], x][1..] == [x];
    } else {
      assert (items + [x])[1..] == items[1..] + [x];
      JoinSnoc(sep, items[1..], x);
    }
  }

  /** A join is as long as its items together plus one separator between each neighbouring pair. */
  lemma {:induction false} JoinLength(sep: string, items: seq<Option<string>>)
    requires |items| > 0
    ensures |Join(sep, items)| == SumOfLengths(items) + (|items| - 1) * |sep|
  {
    if |items| > 1 {
      JoinLength(sep, items[1..]);
    }
  }

  function SumOfLengths(items: seq<Option<string>>): nat {
    if items == [] then 0 else |StringOf(items[0])| + SumOfLengths(items[1..])
  }
}
