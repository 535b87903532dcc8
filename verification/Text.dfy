/** Strings: searching from the right, UTF-8 size, white space. */
module Text {

  predicate OccursAt(text: string, pat: string, i: int) {
    0 <= i <= |text| - |pat| && text[i..i + |pat|] == pat
  }

  predicate Contains(text: string, pat: string) {
    exists i :: 0 <= i <= |text| && OccursAt(text, pat, i)
  }

  /** Python's `rfind`: the last occurrence starting at `i` or before, or -1. */
  function RFindFrom(text: string, pat: string, i: int): (r: int)
    ensures r == -1 || OccursAt(text, pat, r)
    ensures forall j :: r < j <= i ==> !OccursAt(text, pat, j)
    ensures r <= if i < 0 then -1 else i
    decreases i + 1
  {
    if i < 0 then -1
    else if OccursAt(text, pat, i) then i
    else RFindFrom(text, pat, i - 1)
  }

  function RFind(text: string, pat: string): (r: int)
    ensures r == -1 || OccursAt(text, pat, r)
    ensures forall j :: r < j ==> !OccursAt(text, pat, j)
  {
    RFindFrom(text, pat, |text|)
  }

  /** The last occurrence is where `rfind` says. */
  lemma RFindIs(text: string, pat: string, i: int)
    requires OccursAt(text, pat, i)
    requires forall j :: i < j ==> !OccursAt(text, pat, j)
    ensures RFind(text, pat) == i
  {
    var r := RFind(text, pat);
    assert OccursAt(text, pat, i);
    assert r >= i;
  }

  predicate StartsWith(text: string, prefix: string) {
    prefix <= text
  }

  lemma CharOfOccurrence(text: string, pat: string, i: int, k: int)
    requires OccursAt(text, pat, i) && i <= k < i + |pat|
    ensures text[k] in pat
  {
    assert text[i..i + |pat|][k - i] == text[k];
  }

  /** A pattern without `sep` cannot reach across a `sep` in the text. */
  lemma OccursOnOneSide(a: string, sep: char, b: string, pat: string, i: int)
    requires sep !in pat && OccursAt(a + [sep] + b, pat, i) && pat != ""
    ensures (i + |pat| <= |a| && OccursAt(a, pat, i)) || (i > |a| && OccursAt(b, pat, i - |a| - 1))
  {
    var t := a + [sep] + b;
    assert t[|a|] == sep;
    if i <= |a| < i + |pat| {
      CharOfOccurrence(t, pat, i, |a|);
    } else if i > |a| {
      assert b[i - |a| - 1..i - |a| - 1 + |pat|] == t[i..i + |pat|];
    } else {
      assert a[i..i + |pat|] == t[i..i + |pat|];
    }
  }

  /** Bytes of a character, and of a string, in UTF-8. */
  function CharSize(c: char): nat {
    if c as int < 0x80 then 1 else if c as int < 0x800 then 2 else if c as int < 0x1_0000 then 3 else 4
  }

  function Utf8Size(s: string): nat {
    if s == "" then 0 else CharSize(s[0]) + Utf8Size(s[1..])
  }

  lemma {:induction false} Utf8SizeAppend(a: string, b: string)
    ensures Utf8Size(a + b) == Utf8Size(a) + Utf8Size(b)
  {
    if a == "" {
      assert a + b == b;
    } else {
      assert (a + b)[1..] == a[1..] + b;
      Utf8SizeAppend(a[1..], b);
    }
  }

  lemma {:induction false} AsciiSize(s: string)
    requires forall c :: c in s ==> c as int < 0x80
    ensures Utf8Size(s) == |s|
  {
    if s != "" {
      assert s[0] in s && forall c :: c in s[1..] ==> c in s;
      AsciiSize(s[1..]);
    }
  }

  /** The characters `re.sub(r"\s+", "", ...)` removes, of the ASCII range. */
  predicate IsSpace(c: char) {
    c == ' ' || '\t' <= c <= '\r' || '\U{1C}' <= c <= '\U{1F}'
  }

  function DropSpace(s: string): string {
    if s == "" then ""
    else if IsSpace(s[0]) then DropSpace(s[1..])
    else [s[0]] + DropSpace(s[1..])
  }
}
