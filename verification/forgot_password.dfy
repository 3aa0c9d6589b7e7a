/** The "forgot password" screen: it checks the typed address against the
    pattern /^[^\s@]+@[^\s@]+\.[^\s@]+$/ and sends the trimmed, lower-cased
    address to POST /forgot-password. */
module ForgotPassword {
  import opened Text
  import opened Seqs

  predicate IsAt(c: char) {
    c == '@'
  }

  /** The class [^\s@]. */
  predicate PartChar(c: char) {
    !IsSpace(c) && c != '@'
  }

  /** The group [^\s@]+. */
  ghost predicate Part(s: string) {
    |s| > 0 && forall i :: 0 <= i < |s| ==> PartChar(s[i])
  }

  /** The strings the pattern matches: an '@' at k and a later '.' at j cut
      the address into three non-empty parts free of whitespace and '@'. */
  ghost predicate MatchesEmailPattern(s: string) {
    exists k, j :: 0 < k && k + 1 < j && j + 1 < |s| && s[k] == '@' && s[j] == '.'
      && Part(s[..k]) && Part(s[k + 1..j]) && Part(s[j + 1..])
  }

  /** The same test, stated the way it is checked: no whitespace, a first
      '@' that is not the first character and is the only one, and a '.'
      after it with characters on both sides. */
  predicate IsValidEmail(s: string) {
    && NoSpace(s)
    && IndexOf(s, IsAt).Some?
    && var k := IndexOf(s, IsAt).value;
       && k > 0
       && (forall i :: k < i < |s| ==> s[i] != '@')
       && (exists j :: k + 1 < j < |s| - 1 && s[j] == '.')
  }

  /** An address the check accepts matches the pattern. */
  lemma ValidEmailMatches(s: string)
    requires IsValidEmail(s)
    ensures MatchesEmailPattern(s)
  {
    var k := IndexOf(s, IsAt).value;
    var j :| k + 1 < j < |s| - 1 && s[j] == '.';
    assert Part(s[..k]) && Part(s[k + 1..j]) && Part(s[j + 1..]);
  }

  /** An address matching the pattern passes the check: the '@' of the match
      is the first and only one. */
  lemma MatchingEmailValid(s: string)
    requires MatchesEmailPattern(s)
    ensures IsValidEmail(s)
  {
    var k, j :| 0 < k && k + 1 < j && j + 1 < |s| && s[k] == '@' && s[j] == '.'
      && Part(s[..k]) && Part(s[k + 1..j]) && Part(s[j + 1..]);
    forall i | 0 <= i < |s| ensures !IsSpace(s[i]) && (i != k ==> s[i] != '@') {
      if i < k {
        assert s[..k][i] == s[i];
      } else if k < i < j {
        assert s[k + 1..j][i - k - 1] == s[i];
      } else if j < i {
        assert s[j + 1..][i - j - 1] == s[i];
      }
    }
    var at := IndexOf(s, IsAt);
    assert at.Some? && at.value == k;
  }

  /** The check accepts exactly the strings the pattern matches. */
  lemma IsValidEmailMatchesPattern(s: string)
    ensures IsValidEmail(s) <==> MatchesEmailPattern(s)
  {
    if IsValidEmail(s) {
      ValidEmailMatches(s);
    }
    if MatchesEmailPattern(s) {
      MatchingEmailValid(s);
    }
  }

  /** What handleForgotPassword does with the typed address. */
  datatype ForgotStep =
    | AskForEmail          // blank: "Por favor, digite seu email"
    | RejectEmail          // no match: "Por favor, digite um email válido"
    | SendReset(email: string)  // POST /forgot-password with this address

  /** The pattern is tested on the address as typed; only the address sent
      is trimmed and lower-cased. */
  function HandleForgotPassword(email: string): ForgotStep {
    if Trim(email) == "" then AskForEmail
    else if !IsValidEmail(email) then RejectEmail
    else SendReset(Lower(Trim(email)))
  }

  /** A blank field asks for an address; otherwise a request goes out
      exactly for addresses the pattern matches, and since those contain no
      whitespace the address sent is the typed one lower-cased. Whitespace
      anywhere in a non-blank address, leading or trailing included, gets
      it rejected. */
  lemma HandleForgotPasswordSpec(email: string)
    ensures HandleForgotPassword(email).AskForEmail? <==> Blank(email)
    ensures HandleForgotPassword(email).SendReset? <==> MatchesEmailPattern(email)
    ensures HandleForgotPassword(email).SendReset? ==> HandleForgotPassword(email).email == Lower(email)
    ensures !Blank(email) && !NoSpace(email) ==> HandleForgotPassword(email) == RejectEmail
  {
    TrimEmptyIffBlank(email);
    IsValidEmailMatchesPattern(email);
    if IsValidEmail(email) {
      TrimNoSpace(email);
      assert !IsSpace(email[0]);
    }
  }
}
