/**
  `validate_email`: the pattern `^[a-zA-Z0-9._%+-]+@[a-zA-Z0-9.-]+\.[a-zA-Z]{2,}$`
  applied with Python's `re.match`, stated as a predicate over ASCII
  character classes, and an executable matcher proved to decide it.
*/
module Email {
  import opened Results

  predicate IsAsciiLetter(c: char) { 'a' <= c <= 'z' || 'A' <= c <= 'Z' }

  predicate IsAsciiDigit(c: char) { '0' <= c <= '9' }

  /** `[a-zA-Z0-9._%+-]`: a character of the part before `@`. */
  predicate IsLocalChar(c: char) {
    IsAsciiLetter(c) || IsAsciiDigit(c) || c == '.' || c == '_' || c == '%' || c == '+' || c == '-'
  }

  /** `[a-zA-Z0-9.-]`: a character of the domain before its last dot. */
  predicate IsDomainChar(c: char) {
    IsAsciiLetter(c) || IsAsciiDigit(c) || c == '.' || c == '-'
  }

  predicate AllLocal(s: string) { forall i :: 0 <= i < |s| ==> IsLocalChar(s[i]) }

  predicate AllDomain(s: string) { forall i :: 0 <= i < |s| ==> IsDomainChar(s[i]) }

  predicate AllLetters(s: string) { forall i :: 0 <= i < |s| ==> IsAsciiLetter(s[i]) }

  /**
    The pattern between `^` and `$` matches all of `s` with the `@` at `at`
    and the last literal dot at `dot`: a non-empty local part, `@`, a
    non-empty domain run, a dot, and at least two letters up to the end.
  */
  predicate SplitAt(s: string, at: int, dot: int) {
    0 < at && at + 1 < dot && dot + 3 <= |s| && s[at] == '@' && s[dot] == '.' &&
    AllLocal(s[..at]) && AllDomain(s[at + 1..dot]) && AllLetters(s[dot + 1..])
  }

  /** The pattern between `^` and `$` matches all of `s`. */
  ghost predicate WholeMatch(s: string) {
    exists at, dot :: SplitAt(s, at, dot)
  }

  /**
    What `re.match` accepts: `$` matches at the very end or just before one
    final newline, so the pattern may leave a single trailing `"\n"` unmatched.
  */
  ghost predicate MatchesPattern(s: string) {
    WholeMatch(s) || (|s| > 0 && s[|s| - 1] == '\n' && WholeMatch(s[..|s| - 1]))
  }

  /** The position of the first `c` in `s`. */
  function FirstIndex(s: string, c: char): (r: Option<nat>)
    ensures r.Some? ==> r.value < |s| && s[r.value] == c && forall i :: 0 <= i < r.value ==> s[i] != c
    ensures r.None? ==> forall i :: 0 <= i < |s| ==> s[i] != c
  {
    if s == [] then None
    else if s[0] == c then Some(0)
    else match FirstIndex(s[1..], c)
      case None => None
      case Some(k) => Some(k + 1)
  }

  /** The position of the last `c` in `s`. */
  function LastIndex(s: string, c: char): (r: Option<nat>)
    ensures r.Some? ==> r.value < |s| && s[r.value] == c && forall i :: r.value < i < |s| ==> s[i] != c
    ensures r.None? ==> forall i :: 0 <= i < |s| ==> s[i] != c
  {
    if s == [] then None
    else if s[|s| - 1] == c then Some(|s| - 1)
    else LastIndex(s[..|s| - 1], c)
  }

  /**
    Only one split can match: no class but the literal admits `@`, so `at`
    is the first `@`; the final letters admit no dot, so `dot` is the last dot.
  */
  lemma SplitIsFirstAtLastDot(s: string, at: int, dot: int)
    requires SplitAt(s, at, dot)
    ensures FirstIndex(s, '@') == Some(at) && LastIndex(s, '.') == Some(dot)
  {
  }

  lemma WholeMatchIffFirstLastSplit(s: string)
    ensures WholeMatch(s) <==>
      FirstIndex(s, '@').Some? && LastIndex(s, '.').Some? &&
      SplitAt(s, FirstIndex(s, '@').value, LastIndex(s, '.').value)
  {
    if WholeMatch(s) {
      var at, dot :| SplitAt(s, at, dot);
      SplitIsFirstAtLastDot(s, at, dot);
    }
  }

  /** Decides `WholeMatch` by trying the one split that can match. */
  function MatchesWhole(s: string): (b: bool)
    ensures b <==> WholeMatch(s)
  {
    var first, last := FirstIndex(s, '@'), LastIndex(s, '.');
    WholeMatchIffFirstLastSplit(s);
    first.Some? && last.Some? && SplitAt(s, first.value, last.value)
  }

  /** The matcher behind `validate_email`. */
  function Matches(s: string): (b: bool)
    ensures b <==> MatchesPattern(s)
  {
    MatchesWhole(s) || (|s| > 0 && s[|s| - 1] == '\n' && MatchesWhole(s[..|s| - 1]))
  }

  datatype ValidationError = InvalidEmail

  /** `validate_email`: the address itself when it matches, the error otherwise. */
  function ValidateEmail(email: string): (r: Result<string, ValidationError>)
    ensures r.Ok? <==> MatchesPattern(email)
    ensures r.Ok? ==> r.value == email
    ensures r.Err? ==> r.error == InvalidEmail
  {
    if Matches(email) then Ok(email) else Err(InvalidEmail)
  }

  /** The worked examples: one accepted address, three rejected strings. */
  lemma {:induction false} Examples()
    ensures ValidateEmail("a@b.com") == Ok("a@b.com")
    ensures ValidateEmail("not-an-email").Err?
    ensures ValidateEmail("a@b.c").Err?
    ensures ValidateEmail("a@.com").Err?
  {
    assert SplitAt("a@b.com", 1, 3);
    var s := "not-an-email";
    forall at, dot ensures !SplitAt(s, at, dot) {
      if 0 <= at < |s| {
        assert s[at] != '@';
      }
    }
    assert !WholeMatch("a@b.c");
    assert !WholeMatch("a@.com");
  }

  /** `$` also matches before a final newline, so the address with one trailing newline is accepted unchanged. */
  lemma {:induction false} TrailingNewlineAccepted()
    ensures ValidateEmail("a@b.com\n") == Ok("a@b.com\n")
  {
    assert "a@b.com\n"[..7] == "a@b.com";
    assert SplitAt("a@b.com", 1, 3);
  }
}
