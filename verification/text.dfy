/** String primitives shared by the backend (Python `str`) and the client
    (JavaScript `String`) parts of the model. A `string` is a sequence of
    Unicode scalar values, as Python counts them. */
module Text {

  /** `pat` occurs in `s` starting at index `i`. */
  predicate OccursAt(s: string, pat: string, i: nat) {
    i + |pat| <= |s| && s[i..i + |pat|] == pat
  }

  /** `pat` occurs somewhere in `s`. */
  ghost predicate Contains(s: string, pat: string) {
    exists i: nat :: OccursAt(s, pat, i)
  }

  /** An occurrence is at the front or in the rest. */
  lemma ContainsCons(s: string, pat: string)
    requires |s| > 0
    ensures Contains(s, pat) <==> OccursAt(s, pat, 0) || Contains(s[1..], pat)
  {
    if Contains(s, pat) && !OccursAt(s, pat, 0) {
      var i: nat :| OccursAt(s, pat, i);
      assert i > 0;
      assert s[1..][i - 1..i - 1 + |pat|] == s[i..i + |pat|];
      assert OccursAt(s[1..], pat, i - 1);
    }
    if Contains(s[1..], pat) {
      NoOccurrenceInTail(s, pat);
    }
  }

  /** Left-to-right, non-overlapping replacement of every occurrence of a
      non-empty pattern: Python's `str.replace(pat, rep)` and JavaScript's
      `replace` with a global regular expression matching a fixed string. */
  function ReplaceAll(s: string, pat: string, rep: string): (r: string)
    requires |pat| > 0
    ensures !Contains(s, pat) ==> r == s
    decreases |s|
  {
    if |s| == 0 then ""
    else if pat <= s then
      assert OccursAt(s, pat, 0);
      rep + ReplaceAll(s[|pat|..], pat, rep)
    else
      var tail := ReplaceAll(s[1..], pat, rep);
      NoOccurrenceInTail(s, pat);
      [s[0]] + tail
  }

  /** An occurrence in a suffix is an occurrence in the whole string. */
  lemma NoOccurrenceInTail(s: string, pat: string)
    requires |s| > 0
    ensures !Contains(s, pat) ==> !Contains(s[1..], pat)
  {
    if Contains(s[1..], pat) {
      var i: nat :| OccursAt(s[1..], pat, i);
      assert s[i + 1..i + 1 + |pat|] == s[1..][i..i + |pat|];
      assert OccursAt(s, pat, i + 1);
    }
  }

  /** Splitting on a single separator character, with the semantics shared by
      Python's `str.split(sep)` and JavaScript's `String.split(sep)`: empty
      fields are kept and the result always has at least one element. */
  function SplitOn(s: string, sep: char): (r: seq<string>)
    ensures |r| >= 1
    ensures forall k :: 0 <= k < |r| ==> sep !in r[k]
    decreases |s|
  {
    if |s| == 0 then [""]
    else
      var rest := SplitOn(s[1..], sep);
      if s[0] == sep then [""] + rest
      else [[s[0]] + rest[0]] + rest[1..]
  }

  /** Joining split fields with the separator gives back the input. */
  function JoinWith(parts: seq<string>, sep: char): string
    requires |parts| >= 1
    decreases |parts|
  {
    if |parts| == 1 then parts[0] else parts[0] + [sep] + JoinWith(parts[1..], sep)
  }

  lemma {:induction false} SplitJoin(s: string, sep: char)
    ensures JoinWith(SplitOn(s, sep), sep) == s
    decreases |s|
  {
    if |s| > 0 {
      SplitJoin(s[1..], sep);
      var rest := SplitOn(s[1..], sep);
      if s[0] == sep {
        assert SplitOn(s, sep)[1..] == rest;
      } else {
        if |rest| == 1 {
          assert JoinWith(rest, sep) == rest[0];
        } else {
          assert JoinWith(rest, sep) == rest[0] + [sep] + JoinWith(rest[1..], sep);
          var r := SplitOn(s, sep);
          assert r[1..] == rest[1..];
        }
      }
    }
  }

  /** The last field follows the last separator: the fields before it,
      joined, then the separator, then the last field, make the input. */
  lemma {:induction false} JoinLast(parts: seq<string>, sep: char)
    requires |parts| >= 2
    ensures JoinWith(parts, sep) == JoinWith(parts[..|parts| - 1], sep) + [sep] + parts[|parts| - 1]
    decreases |parts|
  {
    if |parts| > 2 {
      JoinLast(parts[1..], sep);
      assert parts[1..][..|parts| - 2] == parts[..|parts| - 1][1..];
    } else {
      assert parts[..1] == [parts[0]];
    }
  }

  /** The last field of a split is the text after the last separator, or
      the whole input when there is no separator. */
  lemma SplitLast(s: string, sep: char)
    ensures var r := SplitOn(s, sep);
            var last := r[|r| - 1];
            && |last| <= |s| && s[|s| - |last|..] == last && sep !in last
            && (|last| < |s| ==> s[|s| - |last| - 1] == sep)
  {
    var r := SplitOn(s, sep);
    SplitJoin(s, sep);
    if |r| >= 2 {
      JoinLast(r, sep);
    }
  }

  /** A string without the separator splits into itself alone. */
  lemma {:induction false} SplitNoSeparator(s: string, sep: char)
    requires sep !in s
    ensures SplitOn(s, sep) == [s]
    decreases |s|
  {
    if |s| > 0 {
      SplitNoSeparator(s[1..], sep);
      assert [s[0]] + s[1..] == s;
    }
  }

  /** Splitting distributes over a separator: the fields of `a`, then those of `b`. */
  lemma {:induction false} SplitAround(a: string, sep: char, b: string)
    ensures SplitOn(a + [sep] + b, sep) == SplitOn(a, sep) + SplitOn(b, sep)
    decreases |a|
  {
    if |a| == 0 {
      assert a + [sep] + b == [sep] + b;
      assert ([sep] + b)[1..] == b;
    } else {
      assert (a + [sep] + b)[1..] == a[1..] + [sep] + b;
      SplitAround(a[1..], sep, b);
      assert (a + [sep] + b)[0] == a[0];
    }
  }

  /** One step of the split: the first character opens a new field or
      extends the first field of the rest. */
  lemma SplitHead(s: string, sep: char)
    requires |s| > 0
    ensures var rest := SplitOn(s[1..], sep);
            SplitOn(s, sep) == if s[0] == sep then [""] + rest else [[s[0]] + rest[0]] + rest[1..]
  {
  }

  /** Extending the first field of a concatenation of fields. */
  lemma PrependToFirst(c: char, a: seq<string>, t: seq<string>)
    requires |t| >= 1
    ensures var r := a + t;
            [[c] + r[0]] + r[1..] == if |a| == 0 then [[c] + t[0]] + t[1..] else [[c] + a[0]] + a[1..] + t
  {
    if |a| > 0 {
      assert (a + t)[1..] == a[1..] + t;
    } else {
      assert a + t == t;
    }
  }

  /** The fields of `x + y` when `x` starts with a separator. */
  lemma SplitAppendAtSeparator(x: string, y: string, sep: char, a: seq<string>, t: seq<string>)
    requires |x| > 0 && x[0] == sep
    requires SplitOn(x[1..] + y, sep) == a + t
    requires SplitOn(x[1..], sep) == a + [SplitOn(x[1..], sep)[|SplitOn(x[1..], sep)| - 1]]
    ensures var sx := SplitOn(x, sep);
            SplitOn(x + y, sep) == sx[..|sx| - 1] + t
  {
    assert (x + y)[1..] == x[1..] + y;
    SplitHead(x + y, sep);
    SplitHead(x, sep);
    var sx := SplitOn(x, sep);
    assert sx == [""] + SplitOn(x[1..], sep);
    assert sx[..|sx| - 1] == [""] + a;
  }

  /** The fields of `x + y` when `x` starts with another character. */
  lemma SplitAppendAtOther(x: string, y: string, sep: char, a: seq<string>, t: seq<string>)
    requires |x| > 0 && x[0] != sep && |t| >= 1
    requires SplitOn(x[1..] + y, sep) == a + t
    requires SplitOn(x[1..], sep) == a + [SplitOn(x[1..], sep)[|SplitOn(x[1..], sep)| - 1]]
    requires t == SplitOn(SplitOn(x[1..], sep)[|SplitOn(x[1..], sep)| - 1] + y, sep)
    ensures var sx := SplitOn(x, sep);
            SplitOn(x + y, sep) == sx[..|sx| - 1] + SplitOn(sx[|sx| - 1] + y, sep)
  {
    var c := x[0];
    var sx' := SplitOn(x[1..], sep);
    var l := sx'[|sx'| - 1];
    assert (x + y)[1..] == x[1..] + y;
    SplitHead(x + y, sep);
    SplitHead(x, sep);
    PrependToFirst(c, a, t);
    var sx := SplitOn(x, sep);
    if |a| == 0 {
      assert sx' == [l];
      assert sx == [[c] + l];
      var w := [c] + l + y;
      assert w[1..] == l + y;
      SplitHead(w, sep);
    } else {
      assert sx == [[c] + a[0]] + a[1..] + [l];
      assert sx[..|sx| - 1] == [[c] + a[0]] + a[1..];
    }
  }

  /** Appending text to a buffer only extends its last field: the complete
      fields of `x` stay complete, and the last field of `x` is continued by `y`. */
  lemma {:induction false} SplitAppend(x: string, y: string, sep: char)
    ensures var sx := SplitOn(x, sep);
            SplitOn(x + y, sep) == sx[..|sx| - 1] + SplitOn(sx[|sx| - 1] + y, sep)
    decreases |x|
  {
    if |x| == 0 {
      assert x + y == y;
      assert SplitOn(x, sep) == [""];
    } else {
      var sx' := SplitOn(x[1..], sep);
      SplitAppend(x[1..], y, sep);
      var a := sx'[..|sx'| - 1];
      var t := SplitOn(sx'[|sx'| - 1] + y, sep);
      assert sx' == a + [sx'[|sx'| - 1]];
      if x[0] == sep {
        SplitAppendAtSeparator(x, y, sep, a, t);
      } else {
        SplitAppendAtOther(x, y, sep, a, t);
      }
    }
  }

  /** Number of occurrences of the character `c` in `s`. */
  function CountOf(s: string, c: char): nat
    decreases |s|
  {
    if |s| == 0 then 0 else (if s[0] == c then 1 else 0) + CountOf(s[1..], c)
  }

  /** Splitting yields one more field than there are separators. */
  lemma {:induction false} SplitCount(s: string, sep: char)
    ensures |SplitOn(s, sep)| == CountOf(s, sep) + 1
    decreases |s|
  {
    if |s| > 0 {
      SplitCount(s[1..], sep);
    }
  }

  /** Concatenation of a sequence of strings (`"".join` / `+=` in a loop). */
  function Concat(parts: seq<string>): string
    decreases |parts|
  {
    if |parts| == 0 then "" else parts[0] + Concat(parts[1..])
  }

  lemma {:induction false} ConcatAppend(parts: seq<string>, last: string)
    ensures Concat(parts + [last]) == Concat(parts) + last
    decreases |parts|
  {
    if |parts| == 0 {
      assert parts + [last] == [last];
    } else {
      assert (parts + [last])[1..] == parts[1..] + [last];
      ConcatAppend(parts[1..], last);
    }
  }

  /** The characters Python's `str.strip()` and `str.isspace()` treat as
      whitespace. */
  predicate PyIsSpace(c: char) {
    c == ' ' || ('\t' <= c <= '\r') || ('\U{1c}' <= c <= '\U{1f}') || c == '\U{85}'
    || c == '\U{a0}' || c == '\U{1680}' || ('\U{2000}' <= c <= '\U{200a}')
    || c == '\U{2028}' || c == '\U{2029}' || c == '\U{202f}' || c == '\U{205f}'
    || c == '\U{3000}'
  }

  /** The characters JavaScript's `String.prototype.trim()` removes:
      WhiteSpace and LineTerminator of the ECMAScript grammar. */
  predicate JsIsSpace(c: char) {
    c == ' ' || ('\t' <= c <= '\r') || c == '\U{a0}' || c == '\U{1680}'
    || ('\U{2000}' <= c <= '\U{200a}') || c == '\U{2028}' || c == '\U{2029}'
    || c == '\U{202f}' || c == '\U{205f}' || c == '\U{3000}' || c == '\U{feff}'
  }

  /** Every character of `s` is whitespace under `ws` (vacuously for ""). */
  predicate AllSpace(s: string, ws: char -> bool) {
    forall k :: 0 <= k < |s| ==> ws(s[k])
  }

  /** Number of leading whitespace characters. */
  function LeadingSpace(s: string, ws: char -> bool): (n: nat)
    ensures n <= |s|
    ensures AllSpace(s[..n], ws)
    ensures n < |s| ==> !ws(s[n])
    decreases |s|
  {
    if |s| > 0 && ws(s[0]) then
      var m := LeadingSpace(s[1..], ws);
      assert forall k :: 1 <= k < m + 1 ==> s[k] == s[1..][..m][k - 1];
      1 + m
    else 0
  }

  /** Index where the trailing whitespace begins. */
  function TrailingSpaceStart(s: string, ws: char -> bool): (n: nat)
    ensures n <= |s|
    ensures AllSpace(s[n..], ws)
    ensures n > 0 ==> !ws(s[n - 1])
    decreases |s|
  {
    if |s| > 0 && ws(s[|s| - 1]) then
      var m := TrailingSpaceStart(s[..|s| - 1], ws);
      assert forall k :: m <= k < |s| - 1 ==> s[k] == s[..|s| - 1][m..][k - m];
      m
    else |s|
  }

  /** Removal of leading and trailing whitespace: Python's `str.strip()` with
      `ws == PyIsSpace`, JavaScript's `trim()` with `ws == JsIsSpace`. */
  function Trim(s: string, ws: char -> bool): (r: string)
    ensures |r| <= |s|
    ensures r == "" <==> AllSpace(s, ws)
    ensures |r| > 0 ==> !ws(r[0]) && !ws(r[|r| - 1])
    ensures forall k :: 0 <= k < |r| ==> r[k] in s
  {
    var a := LeadingSpace(s, ws);
    var b := TrailingSpaceStart(s, ws);
    if a < b then
      assert !ws(s[a]);
      s[a..b]
    else
      assert a == |s|;
      assert s[..a] == s;
      ""
  }

  /** A string that is already trimmed is its own trim. */
  lemma TrimTrimmed(s: string, ws: char -> bool)
    requires |s| > 0 ==> !ws(s[0]) && !ws(s[|s| - 1])
    ensures Trim(s, ws) == s
  {
    if |s| > 0 {
      assert LeadingSpace(s, ws) == 0;
      assert TrailingSpaceStart(s, ws) == |s|;
    }
  }

  /** Decimal digits of a natural number, as `str(n)` / template literals print it. */
  function NatToDecimal(n: nat): (r: string)
    ensures |r| >= 1
    ensures forall k :: 0 <= k < |r| ==> '0' <= r[k] <= '9'
    decreases n
  {
    var d := [(('0' as int) + n % 10) as char];
    if n < 10 then d else NatToDecimal(n / 10) + d
  }
}
