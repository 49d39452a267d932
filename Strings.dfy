/** Sequence and string helpers with the Kotlin standard-library meaning the
    framework relies on: `startsWith`, `endsWith`, `find`, `lowercase`,
    `uppercase`, `isBlank`, `joinToString`, `padEnd` and `distinct`. */
module Strings {

  /** Kotlin's nullable result (`T?`). */
  datatype Maybe<+T> = None | Some(value: T)

  predicate StartsWith(s: string, prefix: string)
  {
    |prefix| <= |s| && s[..|prefix|] == prefix
  }

  predicate EndsWith(s: string, suffix: string)
  {
    |suffix| <= |s| && s[|s| - |suffix|..] == suffix
  }

  /** The index of the first element equal to `x`: the first-match lookup
      that Kotlin's `find { it.key == x }` performs over a list. */
  function IndexOf<T(==)>(s: seq<T>, x: T): (r: Maybe<nat>)
    ensures r.None? <==> forall j :: 0 <= j < |s| ==> s[j] != x
    ensures r.Some? ==> r.value < |s| && s[r.value] == x
    ensures r.Some? ==> forall j :: 0 <= j < r.value ==> s[j] != x
  {
    if s == [] then None
    else if s[0] == x then Some(0)
    else match IndexOf(s[1..], x)
      case None => None
      case Some(k) => Some(k + 1)
  }

  // ---------------------------------------------------------------------
  // Case mapping

  function LowerChar(c: char): char
  {
    if 'A' <= c <= 'Z' then (c as int + 32) as char else c
  }

  /** `String.lowercase()` as far as it can produce ASCII letters: ASCII
      upper case letters map to lower case, everything else is kept. */
  function Lower(s: string): (r: string)
    ensures |r| == |s|
    ensures forall k :: 0 <= k < |s| ==> r[k] == LowerChar(s[k])
  {
    seq(|s|, k requires 0 <= k < |s| => LowerChar(s[k]))
  }

  /** `Char.uppercase()` as far as it can produce ASCII letters: ASCII lower
      case letters, and the two non-ASCII letters whose upper case is ASCII:
      dotless i (U+0131) and long s (U+017F). */
  function UpperChar(c: char): char
  {
    if 'a' <= c <= 'z' then (c as int - 32) as char
    else if c == '\U{0131}' then 'I'
    else if c == '\U{017F}' then 'S'
    else c
  }

  function Upper(s: string): (r: string)
    ensures |r| == |s|
    ensures forall k :: 0 <= k < |s| ==> r[k] == UpperChar(s[k])
  {
    seq(|s|, k requires 0 <= k < |s| => UpperChar(s[k]))
  }

  /** `equals(other, ignoreCase = true)` for strings compared against ASCII text. */
  predicate EqualsIgnoreCase(a: string, b: string)
  {
    Lower(a) == Lower(b)
  }

  // ---------------------------------------------------------------------
  // Blank strings

  /** Kotlin's `Char.isWhitespace()`: Java whitespace or a Unicode space
      separator, line separator or paragraph separator. */
  predicate IsWhitespace(c: char)
  {
    ('\t' <= c <= '\r') || ('\U{001C}' <= c <= ' ') || c == '\U{00A0}' || c == '\U{1680}'
    || ('\U{2000}' <= c <= '\U{200A}') || c == '\U{2028}' || c == '\U{2029}' || c == '\U{202F}'
    || c == '\U{205F}' || c == '\U{3000}'
  }

  /** `isBlank()`: empty, or whitespace only. */
  predicate IsBlank(s: string)
  {
    forall k :: 0 <= k < |s| ==> IsWhitespace(s[k])
  }

  // ---------------------------------------------------------------------
  // Joining and searching

  /** `parts.joinToString(sep)`. */
  function Join(sep: string, parts: seq<string>): (r: string)
    ensures parts == [] ==> r == ""
    ensures |parts| == 1 ==> r == parts[0]
  {
    if parts == [] then ""
    else if |parts| == 1 then parts[0]
    else parts[0] + sep + Join(sep, parts[1..])
  }

  /** `s.map(f)`. */
  function Map<T>(s: seq<T>, f: T -> string): (r: seq<string>)
    ensures |r| == |s|
    ensures forall k :: 0 <= k < |s| ==> r[k] == f(s[k])
  {
    seq(|s|, k requires 0 <= k < |s| => f(s[k]))
  }

  /** `x` is found in `s` starting at index `k`. */
  predicate OccursAt(x: string, s: string, k: int)
  {
    0 <= k <= |s| - |x| && s[k..k + |x|] == x
  }

  /** `x` occurs in `s` as a contiguous substring (Kotlin's `contains`). */
  predicate Occurs(x: string, s: string)
  {
    exists k :: 0 <= k <= |s| - |x| && OccursAt(x, s, k)
  }

  lemma OccursInItself(x: string)
    ensures Occurs(x, x)
  {
    assert OccursAt(x, x, 0);
  }

  lemma OccursLeft(x: string, a: string, b: string)
    requires Occurs(x, a)
    ensures Occurs(x, a + b)
  {
    var k :| 0 <= k <= |a| - |x| && OccursAt(x, a, k);
    assert (a + b)[k..k + |x|] == a[k..k + |x|];
    assert OccursAt(x, a + b, k);
  }

  lemma OccursRight(x: string, a: string, b: string)
    requires Occurs(x, b)
    ensures Occurs(x, a + b)
  {
    var k :| 0 <= k <= |b| - |x| && OccursAt(x, b, k);
    assert (a + b)[|a| + k..|a| + k + |x|] == b[k..k + |x|];
    assert OccursAt(x, a + b, |a| + k);
  }

  lemma OccursTrans(x: string, y: string, z: string)
    requires Occurs(x, y) && Occurs(y, z)
    ensures Occurs(x, z)
  {
    var i :| 0 <= i <= |y| - |x| && OccursAt(x, y, i);
    var j :| 0 <= j <= |z| - |y| && OccursAt(y, z, j);
    forall t | 0 <= t < |x| ensures z[j + i + t] == x[t] {
      assert z[j + (i + t)] == z[j..j + |y|][i + t] == y[i..i + |x|][t];
    }
    assert z[j + i..j + i + |x|] == x;
    assert OccursAt(x, z, j + i);
  }

  /** Every part of a joined list can be found in the joined string. */
  lemma {:induction false} OccursInJoin(sep: string, parts: seq<string>, k: nat)
    requires k < |parts|
    ensures Occurs(parts[k], Join(sep, parts))
  {
    if |parts| == 1 {
      OccursInItself(parts[0]);
    } else if k == 0 {
      OccursInItself(parts[0]);
      OccursLeft(parts[0], parts[0], sep + Join(sep, parts[1..]));
      assert parts[0] + (sep + Join(sep, parts[1..])) == Join(sep, parts);
    } else {
      OccursInJoin(sep, parts[1..], k - 1);
      OccursRight(parts[k], parts[0] + sep, Join(sep, parts[1..]));
    }
  }

  /** Joining two non-empty lists is joining their joins: the parts come out
      in list order, each separated by exactly one separator. */
  lemma {:induction false} JoinAppend(sep: string, a: seq<string>, b: seq<string>)
    requires a != [] && b != []
    ensures Join(sep, a + b) == Join(sep, a) + sep + Join(sep, b)
  {
    if |a| == 1 {
      assert (a + b)[1..] == b;
    } else {
      assert (a + b)[1..] == a[1..] + b;
      JoinAppend(sep, a[1..], b);
    }
  }

  /** A string found inside one part is found in the joined string. */
  lemma OccursInPart(x: string, sep: string, parts: seq<string>, k: nat)
    requires k < |parts| && Occurs(x, parts[k])
    ensures Occurs(x, Join(sep, parts))
  {
    OccursInJoin(sep, parts, k);
    OccursTrans(x, parts[k], Join(sep, parts));
  }

  /** A run of consecutive parts, joined, is found in the joined list. */
  lemma OccursJoinSlice(sep: string, parts: seq<string>, i: nat, j: nat)
    requires i < j <= |parts|
    ensures Occurs(Join(sep, parts[i..j]), Join(sep, parts))
  {
    var mid := Join(sep, parts[i..j]);
    var tail := parts[i..];
    if j < |parts| {
      assert tail == parts[i..j] + parts[j..];
      JoinAppend(sep, parts[i..j], parts[j..]);
      OccursAtStart(mid, sep + Join(sep, parts[j..]));
      assert mid + (sep + Join(sep, parts[j..])) == Join(sep, tail);
    } else {
      assert tail == parts[i..j];
      OccursInItself(mid);
    }
    if i > 0 {
      assert parts == parts[..i] + tail;
      JoinAppend(sep, parts[..i], tail);
      OccursRight(mid, Join(sep, parts[..i]) + sep, Join(sep, tail));
    } else {
      assert parts == tail;
    }
  }

  /** Three consecutive parts are found in the joined list with one
      separator between each. */
  lemma OccursThree(sep: string, parts: seq<string>, i: nat)
    requires i + 3 <= |parts|
    ensures Occurs(parts[i] + sep + parts[i + 1] + sep + parts[i + 2], Join(sep, parts))
  {
    OccursJoinSlice(sep, parts, i, i + 3);
    var run := parts[i..i + 3];
    assert run[1..] == [parts[i + 1], parts[i + 2]];
    assert run[1..][1..] == [parts[i + 2]];
    assert Join(sep, run[1..]) == parts[i + 1] + sep + parts[i + 2];
    assert Join(sep, run) == parts[i] + sep + (parts[i + 1] + sep + parts[i + 2]);
    assert parts[i] + sep + (parts[i + 1] + sep + parts[i + 2])
        == parts[i] + sep + parts[i + 1] + sep + parts[i + 2];
  }

  /** A joined list starts with its first part and ends with its last. */
  lemma {:induction false} JoinEnds(sep: string, parts: seq<string>)
    requires parts != []
    ensures StartsWith(Join(sep, parts), parts[0])
    ensures EndsWith(Join(sep, parts), parts[|parts| - 1])
  {
    if |parts| > 1 {
      JoinEnds(sep, parts[1..]);
      var rest := Join(sep, parts[1..]);
      var r := Join(sep, parts);
      assert r == parts[0] + sep + rest;
      assert r[..|parts[0]|] == parts[0];
      assert r[|r| - |rest|..] == rest;
      assert r[|r| - |parts[|parts| - 1]|..] == rest[|rest| - |parts[|parts| - 1]|..];
    }
  }

  /** A prefix of a prefix is a prefix; a suffix of a suffix is a suffix. */
  lemma StartsWithTrans(s: string, t: string, u: string)
    requires StartsWith(s, t) && StartsWith(t, u)
    ensures StartsWith(s, u)
  {
    assert s[..|u|] == s[..|t|][..|u|];
  }

  lemma EndsWithTrans(s: string, t: string, u: string)
    requires EndsWith(s, t) && EndsWith(t, u)
    ensures EndsWith(s, u)
  {
    assert s[|s| - |u|..] == s[|s| - |t|..][|t| - |u|..];
  }

  /** A string is found in any string that starts with it. */
  lemma OccursAtStart(x: string, rest: string)
    ensures Occurs(x, x + rest)
  {
    assert OccursAt(x, x + rest, 0);
  }

  // ---------------------------------------------------------------------
  // Padding

  function Spaces(n: nat): (r: string)
    ensures |r| == n
    ensures forall k :: 0 <= k < n ==> r[k] == ' '
  {
    if n == 0 then "" else Spaces(n - 1) + " "
  }

  /** `s.padEnd(width)`: right-pad with spaces up to `width`; never truncates. */
  function PadEnd(s: string, width: nat): (r: string)
    ensures |r| == if |s| < width then width else |s|
    ensures r[..|s|] == s
    ensures forall k :: |s| <= k < |r| ==> r[k] == ' '
  {
    if |s| < width then s + Spaces(width - |s|) else s
  }

  // ---------------------------------------------------------------------
  // Distinct

  predicate NoDuplicates<T(==)>(s: seq<T>)
  {
    forall i, j :: 0 <= i < j < |s| ==> s[i] != s[j]
  }

  /** `distinct()`: the first occurrence of every element, in order. */
  function Distinct(s: seq<string>): (r: seq<string>)
    ensures NoDuplicates(r)
    ensures forall x :: x in r <==> x in s
    ensures |r| <= |s|
    ensures forall i :: 0 <= i < |r| ==> IndexOf(s, r[i]).Some?
    ensures forall i, j :: 0 <= i < j < |r| ==> IndexOf(s, r[i]).value < IndexOf(s, r[j]).value
  {
    if s == [] then []
    else
      var d := Distinct(s[..|s| - 1]);
      var last := s[|s| - 1];
      assert s == s[..|s| - 1] + [last];
      IndexOfSnoc(s[..|s| - 1], last);
      if last in d then d else d + [last]
  }

  /** Appending an element moves no first occurrence; an element new to
      the list is first found at the end. */
  lemma IndexOfSnoc<T>(s: seq<T>, y: T)
    ensures forall x :: x in s ==> IndexOf(s + [y], x) == IndexOf(s, x)
    ensures y !in s ==> IndexOf(s + [y], y) == Some(|s|)
  {
    forall x | x in s ensures IndexOf(s + [y], x) == IndexOf(s, x) {
      var k := IndexOf(s, x).value;
      assert (s + [y])[k] == x;
    }
    if y !in s {
      assert (s + [y])[|s|] == y;
    }
  }

  /** A list without duplicates is its own `distinct()`. */
  lemma {:induction false} DistinctOfDistinct(s: seq<string>)
    requires NoDuplicates(s)
    ensures Distinct(s) == s
  {
    if s != [] {
      var init := s[..|s| - 1];
      assert NoDuplicates(init);
      DistinctOfDistinct(init);
      assert s[|s| - 1] !in init;
      assert init + [s[|s| - 1]] == s;
    }
  }
}
