/** String primitives the screens rely on: JavaScript's `toLowerCase`,
    `toUpperCase`, `includes` and `trim`.

    Case conversion is ASCII only. White space is the set of characters
    that JavaScript's `trim` strips and that `\s` matches in a regular
    expression (WhiteSpace and LineTerminator of ECMAScript). */
module Text {
  import opened Results

  /* ---------------------------------------------------------------------- */
  /* Case conversion                                                        */
  /* ---------------------------------------------------------------------- */

  function LowerChar(c: char): char {
    if 'A' <= c <= 'Z' then (c as int + 32) as char else c
  }

  function UpperChar(c: char): char {
    if 'a' <= c <= 'z' then (c as int - 32) as char else c
  }

  /** `s.toLowerCase()`, restricted to ASCII letters. */
  function Lower(s: string): string {
    seq(|s|, i requires 0 <= i < |s| => LowerChar(s[i]))
  }

  /** `s.toUpperCase()`, restricted to ASCII letters. */
  function Upper(s: string): string {
    seq(|s|, i requires 0 <= i < |s| => UpperChar(s[i]))
  }

  /** Lower-casing twice is lower-casing once, so a term that is already
      lower-cased is unaffected by a second `toLowerCase`. */
  lemma LowerIdempotent(s: string)
    ensures Lower(Lower(s)) == Lower(s)
    ensures |Lower(s)| == |s|
  {
    assert forall i | 0 <= i < |s| :: LowerChar(LowerChar(s[i])) == LowerChar(s[i]);
  }

  /** Upper-casing first changes nothing once lower-cased: a term typed in
      capitals is compared as its lower-case form. */
  lemma LowerOfUpper(s: string)
    ensures Lower(Upper(s)) == Lower(s)
  {
    assert forall i | 0 <= i < |s| :: LowerChar(UpperChar(s[i])) == LowerChar(s[i]);
  }

  /** Lower-casing does not produce upper-case ASCII letters and keeps the
      empty string empty. */
  lemma LowerEmpty(s: string)
    ensures Lower(s) == "" <==> s == ""
  {
    assert |Lower(s)| == |s|;
  }

  /* ---------------------------------------------------------------------- */
  /* Substring search (`String.prototype.includes`)                          */
  /* ---------------------------------------------------------------------- */

  predicate IsPrefix(p: string, s: string) {
    |p| <= |s| && s[..|p|] == p
  }

  /** `needle` occurs in `hay` starting at position `i`. */
  ghost predicate OccursAt(needle: string, hay: string, i: int) {
    0 <= i && i + |needle| <= |hay| && hay[i..i + |needle|] == needle
  }

  /** `needle` occurs in `hay` at some position. */
  ghost predicate Occurs(needle: string, hay: string) {
    exists i :: OccursAt(needle, hay, i)
  }

  /** `hay.includes(needle)`: the search tries one start position at a
      time, left to right. */
  function Includes(hay: string, needle: string): bool
    decreases |hay|
  {
    if IsPrefix(needle, hay) then true
    else if |hay| == 0 then false
    else Includes(hay[1..], needle)
  }

  /** The left-to-right search finds the needle exactly when it occurs. */
  lemma {:induction false} IncludesIffOccurs(hay: string, needle: string)
    ensures Includes(hay, needle) <==> Occurs(needle, hay)
    decreases |hay|
  {
    if IsPrefix(needle, hay) {
      assert OccursAt(needle, hay, 0);
    } else if |hay| == 0 {
    } else {
      IncludesIffOccurs(hay[1..], needle);
      if Occurs(needle, hay[1..]) {
        var i :| OccursAt(needle, hay[1..], i);
        assert hay[i + 1..i + 1 + |needle|] == hay[1..][i..i + |needle|];
        assert OccursAt(needle, hay, i + 1);
      }
      if Occurs(needle, hay) {
        var i :| OccursAt(needle, hay, i);
        assert i != 0;
        assert hay[1..][i - 1..i - 1 + |needle|] == hay[i..i + |needle|];
        assert OccursAt(needle, hay[1..], i - 1);
      }
    }
  }

  /** Every string includes the empty string, which is why an empty search
      term matches every record. */
  lemma IncludesEmpty(hay: string)
    ensures Includes(hay, "")
  {
    assert IsPrefix("", hay);
  }

  /* ---------------------------------------------------------------------- */
  /* White space and `trim`                                                  */
  /* ---------------------------------------------------------------------- */

  /** ECMAScript WhiteSpace or LineTerminator (the `\s` class). */
  predicate IsSpace(c: char) {
    var n := c as int;
    n == 0x09 || n == 0x0A || n == 0x0B || n == 0x0C || n == 0x0D || n == 0x20
    || n == 0xA0 || n == 0x1680 || (0x2000 <= n <= 0x200A)
    || n == 0x2028 || n == 0x2029 || n == 0x202F || n == 0x205F
    || n == 0x3000 || n == 0xFEFF
  }

  predicate AllSpace(s: string) {
    forall i :: 0 <= i < |s| ==> IsSpace(s[i])
  }

  /** `s.trimStart()`: the suffix of `s` left after dropping the leading
      white space. */
  function TrimStart(s: string): (r: string)
    ensures |r| <= |s| && r == s[|s| - |r|..]
    ensures AllSpace(s[..|s| - |r|])
    ensures r == "" || !IsSpace(r[0])
  {
    if |s| > 0 && IsSpace(s[0]) then
      var r := TrimStart(s[1..]);
      assert s[1..][..|s| - 1 - |r|] == s[1..|s| - |r|];
      r
    else
      s
  }

  /** `s.trimEnd()`: the prefix of `s` left after dropping the trailing
      white space. */
  function TrimEnd(s: string): (r: string)
    ensures |r| <= |s| && r == s[..|r|]
    ensures AllSpace(s[|r|..])
    ensures r == "" || !IsSpace(r[|r| - 1])
  {
    if |s| > 0 && IsSpace(s[|s| - 1]) then
      var r := TrimEnd(s[..|s| - 1]);
      assert s[..|s| - 1][|r|..] == s[|r|..|s| - 1];
      r
    else
      s
  }

  /** `s.trim()`. */
  function Trim(s: string): string {
    TrimEnd(TrimStart(s))
  }

  /** `!s.trim()`: the string is empty once trimmed. */
  predicate IsBlank(s: string) {
    Trim(s) == ""
  }

  /** A string is blank exactly when every character in it is white space. */
  lemma BlankIffAllSpace(s: string)
    ensures IsBlank(s) <==> AllSpace(s)
  {
    var t := TrimStart(s);
    assert t != "" ==> t[0] == s[|s| - |t|];
    assert TrimEnd(t) == "" ==> AllSpace(t[0..]);
    assert t[0..] == t;
    assert IsBlank(s) ==> t == "";
    assert s[..|s|] == s;
  }

  /** A string holding a character that is not white space is not blank. */
  lemma NotBlankWitness(s: string, i: int)
    requires 0 <= i < |s| && !IsSpace(s[i])
    ensures !IsBlank(s)
  {
    BlankIffAllSpace(s);
  }

  /** `!o?.trim()` on an optional string: absent, or blank once trimmed. */
  predicate MissingText(o: Option<string>) {
    o.None? || IsBlank(o.value)
  }

  /** A string with at least one character that is not white space. */
  ghost predicate Filled(s: string) {
    exists i :: 0 <= i < |s| && !IsSpace(s[i])
  }

  lemma BlankIffNotFilled(s: string)
    ensures IsBlank(s) <==> !Filled(s)
  {
    BlankIffAllSpace(s);
  }

  /** A present string that is filled in. */
  ghost predicate HasText(o: Option<string>) {
    o.Some? && Filled(o.value)
  }

  lemma MissingTextIff(o: Option<string>)
    ensures MissingText(o) <==> !HasText(o)
  {
    if o.Some? {
      BlankIffNotFilled(o.value);
    }
  }

  predicate IsDigit(c: char) {
    '0' <= c <= '9'
  }

  /** `s.indexOf(c)`, with `None` for -1. */
  function IndexOf(s: string, c: char): (r: Option<nat>)
    ensures r.None? <==> c !in s
    ensures r.Some? ==> r.value < |s| && s[r.value] == c && c !in s[..r.value]
  {
    if |s| == 0 then None
    else if s[0] == c then Some(0)
    else
      match IndexOf(s[1..], c)
      case None => None
      case Some(k) =>
        assert s[1..][..k] == s[1..k + 1];
        Some(k + 1)
  }
}
