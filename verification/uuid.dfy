/** UUIDs as the backend parses and prints them. A UUID is identified by its
    128-bit value, represented here by its 32 lower-case hexadecimal digits,
    so two spellings of the same value (upper/lower case, with or without
    hyphens or braces) parse to the same `Uuid`. */
module Uuids {
  import opened Wrappers
  import Text

  predicate IsHexDigit(c: char) {
    ('0' <= c <= '9') || ('a' <= c <= 'f') || ('A' <= c <= 'F')
  }

  predicate IsLowerHexDigit(c: char) {
    ('0' <= c <= '9') || ('a' <= c <= 'f')
  }

  predicate IsUuidDigits(s: string) {
    |s| == 32 && forall k :: 0 <= k < |s| ==> IsLowerHexDigit(s[k])
  }

  type Uuid = s: string | IsUuidDigits(s)
    witness "00000000000000000000000000000000"

  function LowerHex(c: char): (d: char)
    requires IsHexDigit(c)
    ensures IsLowerHexDigit(d)
    ensures IsLowerHexDigit(c) ==> d == c
  {
    if 'A' <= c <= 'F' then (c as int - 'A' as int + 'a' as int) as char else c
  }

  /** Every character `c` of `s` with `c == d` removed: `s.replace(d, '')`. */
  function RemoveChar(s: string, d: char): (r: string)
    ensures d !in r
    ensures d !in s ==> r == s
    decreases |s|
  {
    if |s| == 0 then ""
    else if s[0] == d then RemoveChar(s[1..], d)
    else [s[0]] + RemoveChar(s[1..], d)
  }

  predicate IsBrace(c: char) {
    c == '{' || c == '}'
  }

  /** The text Python's `UUID(hex)` constructor keeps before reading digits:
      every "urn:" and then every "uuid:" is deleted, braces are stripped from
      both ends, and every hyphen is deleted. */
  function Normalize(s: string): string {
    var noPrefix := Text.ReplaceAll(Text.ReplaceAll(s, "urn:", ""), "uuid:", "");
    RemoveChar(Text.Trim(noPrefix, IsBrace), '-')
  }

  /** `UUID(s)`: `Some` of the value when the normalized text is exactly 32
      hexadecimal digits, `None` where Python raises `ValueError`. */
  function ParseUuid(s: string): (r: Option<Uuid>)
    ensures r.Some? ==> |Normalize(s)| == 32
    ensures r.Some? <==> |Normalize(s)| == 32 && forall k :: 0 <= k < 32 ==> IsHexDigit(Normalize(s)[k])
    ensures r.Some? ==> forall k :: 0 <= k < 32 ==> r.value[k] == LowerHex(Normalize(s)[k])
  {
    var h := Normalize(s);
    if |h| == 32 && forall k :: 0 <= k < |h| ==> IsHexDigit(h[k]) then
      Some(seq(32, k requires 0 <= k < 32 => LowerHex(h[k])))
    else None
  }

  /** `str(uuid)`: the canonical 8-4-4-4-12 hyphenated lower-case form. */
  function FormatUuid(u: Uuid): (r: string)
    ensures |r| == 36
    ensures r[8] == '-' && r[13] == '-' && r[18] == '-' && r[23] == '-'
  {
    u[..8] + "-" + u[8..12] + "-" + u[12..16] + "-" + u[16..20] + "-" + u[20..]
  }

  /** A pattern containing a colon cannot occur in text without a colon. */
  lemma NoColonNoOccurrence(s: string, pat: string)
    requires ':' !in s && ':' in pat
    ensures !Text.Contains(s, pat)
  {
  }

  /** Removing a character distributes over concatenation. */
  lemma {:induction false} RemoveCharConcat(a: string, b: string, d: char)
    ensures RemoveChar(a + b, d) == RemoveChar(a, d) + RemoveChar(b, d)
    decreases |a|
  {
    if |a| == 0 {
      assert a + b == b;
    } else {
      assert (a + b)[0] == a[0];
      assert (a + b)[1..] == a[1..] + b;
      RemoveCharConcat(a[1..], b, d);
    }
  }

  /** Deleting hyphens from `a + "-" + b` deletes them from each side. */
  lemma RemoveAroundHyphen(a: string, b: string)
    ensures RemoveChar(a + "-" + b, '-') == RemoveChar(a, '-') + RemoveChar(b, '-')
  {
    RemoveCharConcat(a + "-", b, '-');
    RemoveCharConcat(a, "-", '-');
  }

  /** The digits of a UUID, read as five groups, carry no hyphen. */
  lemma NoHyphenInDigits(u: Uuid)
    ensures '-' !in u
  {
    assert forall k :: 0 <= k < |u| ==> IsLowerHexDigit(u[k]);
  }

  /** Deleting the hyphens of the canonical form leaves the 32 digits. */
  lemma FormatDigits(u: Uuid)
    ensures RemoveChar(FormatUuid(u), '-') == u
  {
    NoHyphenInDigits(u);
    var s: string := u;
    var p1, p2, p3, p4, p5 := s[..8], s[8..12], s[12..16], s[16..20], s[20..];
    assert '-' !in p1 && '-' !in p2 && '-' !in p3 && '-' !in p4 && '-' !in p5;
    var x2 := p1 + "-" + p2;
    var x3 := x2 + "-" + p3;
    var x4 := x3 + "-" + p4;
    var x5 := x4 + "-" + p5;
    assert FormatUuid(u) == x5;
    RemoveAroundHyphen(p1, p2);
    RemoveAroundHyphen(x2, p3);
    RemoveAroundHyphen(x3, p4);
    RemoveAroundHyphen(x4, p5);
    assert RemoveChar(x5, '-') == p1 + p2 + p3 + p4 + p5;
    FiveGroups(s);
  }

  lemma FiveGroups(s: string)
    requires |s| == 32
    ensures s[..8] + s[8..12] + s[12..16] + s[16..20] + s[20..] == s
  {
  }

  /** Round trip: parsing the canonical form of a UUID gives the UUID back.
      This is what makes `str(project.id)` usable as a path parameter. */
  lemma ParseFormat(u: Uuid)
    ensures ParseUuid(FormatUuid(u)) == Some(u)
  {
    var f := FormatUuid(u);
    assert ':' !in f by {
      assert forall k :: 0 <= k < |f| ==> IsLowerHexDigit(f[k]) || f[k] == '-';
    }
    NoColonNoOccurrence(f, "urn:");
    NoColonNoOccurrence(f, "uuid:");
    assert Text.ReplaceAll(Text.ReplaceAll(f, "urn:", ""), "uuid:", "") == f;
    Text.TrimTrimmed(f, IsBrace);
    FormatDigits(u);
    assert Normalize(f) == u;
    var r := seq(32, k requires 0 <= k < 32 => LowerHex(u[k]));
    assert r == u;
  }
}
