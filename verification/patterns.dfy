/** The two regular expressions the forms test: `/^\d{15}$/` for a
    supplier's ICE and `/^[^\s@]+@[^\s@]+\.[^\s@]+$/` for an e-mail
    address. */
module Patterns {
  import opened Results
  import opened Text

  /** `/^\d{15}$/.test(s)`: exactly fifteen ASCII digits (without the `u`
      flag `\d` is `[0-9]`, and `$` only matches at the very end). */
  predicate IcePattern(s: string) {
    |s| == 15 && forall i :: 0 <= i < |s| ==> IsDigit(s[i])
  }

  /** A string matching the ICE pattern is not blank, so the "required"
      check never fires for it. */
  lemma IceNotBlank(s: string)
    requires IcePattern(s)
    ensures !IsBlank(s)
  {
    NotBlankWitness(s, 0);
  }

  /** A character of the class `[^\s@]`. */
  predicate Plain(c: char) {
    !IsSpace(c) && c != '@'
  }

  predicate AllPlain(s: string) {
    forall k :: 0 <= k < |s| ==> Plain(s[k])
  }

  /** The regular expression read as a split of `s`: a non-empty local part
      `s[..at]`, the `@` at `at`, a non-empty label `s[at+1..dot]`, a `.` at
      `dot` and a non-empty rest `s[dot+1..]`, where every character other
      than the `@` is in `[^\s@]` (the dot is one too). */
  ghost predicate EmailSplit(s: string, at: int, dot: int) {
    && 1 <= at && at + 2 <= dot && dot + 2 <= |s|
    && s[at] == '@' && s[dot] == '.'
    && AllPlain(s[..at]) && AllPlain(s[at + 1..])
  }

  ghost predicate EmailSpec(s: string) {
    exists at, dot :: EmailSplit(s, at, dot)
  }

  /** The domain part has a dot that is neither its first nor its last
      character. */
  predicate InnerDot(d: string) {
    |d| >= 3 && '.' in d[1..|d| - 1]
  }

  /** The e-mail test as a scan: find the first `@`, check both sides for
      white space and further `@`s, then look for an inner dot. */
  function MatchesEmail(s: string): (r: bool)
    ensures r <==> EmailSpec(s)
  {
    match IndexOf(s, '@')
    case None =>
      assert !EmailSpec(s) by {
        forall at, dot | 0 <= at < |s| ensures !EmailSplit(s, at, dot) {
          assert s[at] != '@';
        }
      }
      false
    case Some(at) =>
      var d := s[at + 1..];
      var r := at >= 1 && AllPlain(s[..at]) && AllPlain(d) && InnerDot(d);
      forall at', dot | EmailSplit(s, at', dot) ensures r {
        EmailSplitIsFirstAt(s, at, at', dot);
      }
      if r then
        var k :| 0 <= k < |d[1..|d| - 1]| && d[1..|d| - 1][k] == '.';
        assert s[at + 2 + k] == d[k + 1];
        assert EmailSplit(s, at, at + 2 + k);
        true
      else
        false
  }

  /** A split puts the `@` at the first `@` of the string, so scanning from
      the first `@` finds every split. */
  lemma EmailSplitIsFirstAt(s: string, first: nat, at: int, dot: int)
    requires EmailSplit(s, at, dot)
    requires first < |s| && s[first] == '@' && '@' !in s[..first]
    ensures at == first
    ensures first >= 1 && AllPlain(s[..first]) && AllPlain(s[first + 1..])
    ensures InnerDot(s[first + 1..])
  {
    assert forall k | 0 <= k < at :: s[k] == s[..at][k];
    assert forall k | 0 <= k < first :: s[k] == s[..first][k];
    var d := s[first + 1..];
    assert d[1..|d| - 1][dot - at - 2] == s[dot];
  }

  /** A string of the e-mail shape is not blank. */
  lemma EmailNotBlank(s: string)
    requires EmailSpec(s)
    ensures !IsBlank(s)
  {
    var at, dot :| EmailSplit(s, at, dot);
    assert s[..at][0] == s[0];
    NotBlankWitness(s, 0);
  }
}
