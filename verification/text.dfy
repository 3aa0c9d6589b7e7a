/** Character classes and string helpers shared by the server and the client. */
module Text {

  /** JavaScript's whitespace, as `trim()` and the regular-expression class
      `\s` see it: tab, line feed, vertical tab, form feed, carriage return,
      the space separators (space, no-break space, U+1680, U+2000 to U+200A,
      U+202F, U+205F, U+3000), the line and paragraph separators and the
      byte order mark. */
  predicate IsSpace(c: char) {
    || '\t' <= c <= '\r' || c == ' ' || c == '\U{A0}' || c == '\U{1680}'
    || '\U{2000}' <= c <= '\U{200A}' || c == '\U{2028}' || c == '\U{2029}'
    || c == '\U{202F}' || c == '\U{205F}' || c == '\U{3000}' || c == '\U{FEFF}'
  }

  /** Python's whitespace, as `str.strip()` and `str.isspace()` see it: tab to
      carriage return, the information separators U+001C to U+001F, U+0085,
      the space separators and the line and paragraph separators (no byte
      order mark). */
  predicate IsPySpace(c: char) {
    || '\t' <= c <= '\r' || '\U{1C}' <= c <= ' ' || c == '\U{85}' || c == '\U{A0}'
    || c == '\U{1680}' || '\U{2000}' <= c <= '\U{200A}' || c == '\U{2028}'
    || c == '\U{2029}' || c == '\U{202F}' || c == '\U{205F}' || c == '\U{3000}'
  }

  /** An ASCII decimal digit (JavaScript's \d; Python's isdigit narrowed to ASCII). */
  predicate IsDigit(c: char) {
    '0' <= c <= '9'
  }

  /** A digit or a plus sign: the characters a dialled number keeps. */
  predicate IsDialChar(c: char) {
    IsDigit(c) || c == '+'
  }

  /** A string made of whitespace only (the empty string included). */
  predicate Blank(s: string) {
    forall i :: 0 <= i < |s| ==> IsSpace(s[i])
  }

  /** A string that Python's `strip()` empties (the empty string included). */
  predicate PyBlank(s: string) {
    forall i :: 0 <= i < |s| ==> IsPySpace(s[i])
  }

  /** No whitespace anywhere in the string. */
  predicate NoSpace(s: string) {
    forall i :: 0 <= i < |s| ==> !IsSpace(s[i])
  }

  /** Drops the leading whitespace. */
  function TrimStart(s: string): (r: string)
    ensures |r| <= |s| && r == s[|s| - |r|..]
    ensures Blank(s[..|s| - |r|])
    ensures r == [] || !IsSpace(r[0])
  {
    if s != [] && IsSpace(s[0]) then TrimStart(s[1..]) else s
  }

  /** Drops the trailing whitespace. */
  function TrimEnd(s: string): (r: string)
    ensures |r| <= |s| && r == s[..|r|]
    ensures Blank(s[|r|..])
    ensures r == [] || !IsSpace(r[|r| - 1])
  {
    if s != [] && IsSpace(s[|s| - 1]) then TrimEnd(s[..|s| - 1]) else s
  }

  /** JavaScript's String.prototype.trim(). */
  function Trim(s: string): (r: string) {
    TrimEnd(TrimStart(s))
  }

  /** Trimming yields the empty string exactly when the input is blank,
      which is what `!email.trim()` tests. */
  lemma TrimEmptyIffBlank(s: string)
    ensures Trim(s) == [] <==> Blank(s)
  {
    var t := TrimStart(s);
    if Trim(s) == [] {
      assert s == s[..|s| - |t|] + t;
      assert Blank(t[|TrimEnd(t)|..]);
    } else {
      assert !IsSpace(t[0]);
      assert s[|s| - |t|] == t[0];
    }
  }

  /** Trimming a string with no whitespace leaves it as it is. */
  lemma TrimNoSpace(s: string)
    requires NoSpace(s)
    ensures Trim(s) == s
  {
    if s != [] {
      assert !IsSpace(s[0]) && !IsSpace(s[|s| - 1]);
    }
  }

  /** An upper-case letter of the Basic Latin and Latin-1 blocks. */
  predicate IsLatinUpper(c: char) {
    'A' <= c <= 'Z' || ('\U{C0}' <= c <= '\U{DE}' && c != '\U{D7}')
  }

  /** toLowerCase on one character, for the letters of the Basic Latin and
      Latin-1 blocks: each upper-case letter is 32 code points below its
      lower-case form. */
  function LowerChar(c: char): (r: char)
    ensures IsSpace(r) <==> IsSpace(c)
    ensures IsLatinUpper(c) ==> r as int == c as int + 32
    ensures !IsLatinUpper(c) ==> r == c
  {
    if IsLatinUpper(c) then (c as int + 32) as char else c
  }

  /** JavaScript's toLowerCase(), for the letters of the Basic Latin and
      Latin-1 blocks. */
  function Lower(s: string): (r: string)
    ensures |r| == |s|
    ensures forall i :: 0 <= i < |s| ==> r[i] == LowerChar(s[i])
  {
    seq(|s|, i requires 0 <= i < |s| => LowerChar(s[i]))
  }
}
