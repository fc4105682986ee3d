/** `StringUtils.isBlank`: a string is blank when it is null, empty, or made
    only of whitespace characters in the sense of `Character.isWhitespace`. */
module StringUtils {
  import opened Values

  /** `Character.isWhitespace`: Unicode space, line and paragraph separators
      other than the non-breaking ones (U+00A0, U+2007, U+202F), and the
      control characters TAB, LF, VT, FF, CR and U+001C..U+001F. */
  predicate IsWhitespace(c: char)
  {
    || c == ' ' || c == '\t' || c == '\n' || c == '\U{000B}' || c == '\U{000C}' || c == '\r'
    || ('\U{001C}' <= c <= '\U{001F}')
    || c == '\U{1680}'
    || ('\U{2000}' <= c <= '\U{2006}') || ('\U{2008}' <= c <= '\U{200A}')
    || c == '\U{2028}' || c == '\U{2029}' || c == '\U{205F}' || c == '\U{3000}'
  }

  /** The meaning of "blank": absent, or every character is whitespace. */
  predicate Blank(cs: Option<string>)
  {
    cs.None? || forall i :: 0 <= i < |cs.value| ==> IsWhitespace(cs.value[i])
  }

  /** The source's indexed loop with an early return on the first
      non-whitespace character. */
  method IsBlank(cs: Option<string>) returns (r: bool)
    ensures r == Blank(cs)
    ensures cs.Some? && |cs.value| == 0 ==> r
    ensures cs.Some? && (exists i :: 0 <= i < |cs.value| && !IsWhitespace(cs.value[i])) ==> !r
  {
    if cs.Some? && |cs.value| != 0 {
      var s := cs.value;
      var i := 0;
      while i < |s|
        invariant 0 <= i <= |s|
        invariant forall j :: 0 <= j < i ==> IsWhitespace(s[j])
      {
        if !IsWhitespace(s[i]) {
          return false;
        }
        i := i + 1;
      }
      return true;
    } else {
      return true;
    }
  }

  lemma NullAndEmptyAreBlank()
    ensures Blank(None) && Blank(Some(""))
  {
  }

  /** A string with a non-whitespace character at `k` is not blank, and a
      non-blank string has one. */
  lemma NotBlankIffVisibleChar(s: string)
    ensures !Blank(Some(s)) <==> exists k :: 0 <= k < |s| && !IsWhitespace(s[k])
  {
  }
}
