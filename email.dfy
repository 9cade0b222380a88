/** The email check shared by the password-reset page
    (src/pages/ForgotPass.tsx) and the sign-in form (src/components/SignIn.tsx):
    the pattern `^[^\s@]+@[^\s@]+\.[^\s@]+$`, and the two forms' state. */
module Email {
  import opened Common

  /** A character of `[^\s@]`. */
  predicate Plain(c: char) {
    !IsSpace(c) && c != '@'
  }

  /** Every character of `s[lo..hi]` is plain. */
  predicate PlainBetween(s: string, lo: int, hi: int)
    requires 0 <= lo <= hi <= |s|
  {
    forall k :: lo <= k < hi ==> Plain(s[k])
  }

  /** The pattern, read as a decomposition: a non-empty plain run, '@' at
      `i`, a non-empty plain run, '.' at `j`, and a non-empty plain run to
      the end. (A plain run may itself hold dots.) */
  predicate MatchesEmailPattern(s: string) {
    exists i, j :: 0 < i && i + 1 < j && j + 1 < |s| && s[i] == '@' && s[j] == '.'
      && PlainBetween(s, 0, i) && PlainBetween(s, i + 1, j) && PlainBetween(s, j + 1, |s|)
  }

  /** What an accepted address looks like, stated without the pattern: no
      whitespace, exactly one '@' with something before it, and after it a
      '.' that is neither the first nor the last character. */
  predicate EmailShape(s: string) {
    && (forall k :: 0 <= k < |s| ==> !IsSpace(s[k]))
    && (exists i, k :: 0 < i < |s| && s[i] == '@' && i + 1 < k < |s| - 1 && s[k] == '.'
         && (forall m :: 0 <= m < |s| && m != i ==> s[m] != '@'))
  }

  /** The pattern accepts exactly the addresses of that shape. */
  lemma PatternIffShape(s: string)
    ensures MatchesEmailPattern(s) <==> EmailShape(s)
  {
    if MatchesEmailPattern(s) {
      var i, j :| 0 < i && i + 1 < j && j + 1 < |s| && s[i] == '@' && s[j] == '.'
        && PlainBetween(s, 0, i) && PlainBetween(s, i + 1, j) && PlainBetween(s, j + 1, |s|);
      forall m | 0 <= m < |s|
        ensures !IsSpace(s[m]) && (m != i ==> s[m] != '@')
      {
        if m < i {
        } else if m == i {
        } else if m < j {
        } else if m == j {
        } else {
        }
      }
      assert 0 < i < |s| && s[i] == '@' && i + 1 < j < |s| - 1 && s[j] == '.';
    }
    if EmailShape(s) {
      var i, k :| 0 < i < |s| && s[i] == '@' && i + 1 < k < |s| - 1 && s[k] == '.'
        && (forall m :: 0 <= m < |s| && m != i ==> s[m] != '@');
      assert PlainBetween(s, 0, i) && PlainBetween(s, i + 1, k) && PlainBetween(s, k + 1, |s|);
    }
  }

  /** Printable ASCII other than '@' is plain. */
  lemma PrintablePlain(c: char)
    requires '!' <= c <= '~' && c != '@'
    ensures Plain(c)
  {
  }

  /** A run of printable ASCII without '@' is plain. */
  lemma PrintableRunPlain(s: string, lo: int, hi: int)
    requires 0 <= lo <= hi <= |s|
    requires forall k :: lo <= k < hi ==> '!' <= s[k] <= '~' && s[k] != '@'
    ensures PlainBetween(s, lo, hi)
  {
    forall k | lo <= k < hi
      ensures Plain(s[k])
    {
      PrintablePlain(s[k]);
    }
  }

  /** A short address the pattern accepts. */
  lemma AcceptedExample()
    ensures MatchesEmailPattern("a@b.co")
  {
    var ok := "a@b.co";
    PrintableRunPlain(ok, 0, 1);
    PrintableRunPlain(ok, 2, 3);
    PrintableRunPlain(ok, 4, 6);
    assert ok[1] == '@' && ok[3] == '.';
  }

  /** A dot in the local part and in the domain is accepted too. */
  lemma AcceptedDottedExample()
    ensures MatchesEmailPattern("x.y@mail.example.com")
  {
    var ok := "x.y@mail.example.com";
    PrintableRunPlain(ok, 0, 3);
    PrintableRunPlain(ok, 4, 8);
    PrintableRunPlain(ok, 9, |ok|);
    assert ok[3] == '@' && ok[8] == '.';
  }

  /** A domain without a dot is refused. */
  lemma NoDotRefused()
    ensures !MatchesEmailPattern("a@b")
  {
    PatternIffShape("a@b");
  }

  /** A dot right after the '@' or at the very end is refused. */
  lemma MisplacedDotRefused()
    ensures !MatchesEmailPattern("a@.co")
    ensures !MatchesEmailPattern("a@b.")
  {
    PatternIffShape("a@.co");
    PatternIffShape("a@b.");
  }

  /** A space, or a second '@', is refused. */
  lemma SpaceOrSecondAtRefused()
    ensures !MatchesEmailPattern("a b@c.co")
    ensures !MatchesEmailPattern("a@b@c.co")
  {
    PatternIffShape("a b@c.co");
    var bad := "a b@c.co";
    assert IsSpace(bad[1]);
    PatternIffShape("a@b@c.co");
    var two := "a@b@c.co";
    assert two[1] == '@' && two[3] == '@';
  }

  // ---------------------------------------------------------------------------
  // The password-reset form
  // ---------------------------------------------------------------------------

  const InvalidEmailMessage: string := "Por favor, ingrese un correo válido."

  class ForgotPassword {
    var email: string
    var validationError: string
    var isSubmitted: bool

    constructor()
      ensures email == "" && validationError == "" && !isSubmitted
    {
      email := "";
      validationError := "";
      isSubmitted := false;
    }

    method SetEmail(value: string)
      modifies this`email
      ensures email == value
    {
      email := value;
    }

    /** `handleSubmit`: an address the pattern refuses sets the message and
        leaves the form where it is; an accepted one shows the confirmation
        and clears the message. */
    method HandleSubmit()
      modifies this`validationError, this`isSubmitted
      ensures !MatchesEmailPattern(email) ==> validationError == InvalidEmailMessage && isSubmitted == old(isSubmitted)
      ensures MatchesEmailPattern(email) ==> validationError == "" && isSubmitted
    {
      if !MatchesEmailPattern(email) {
        validationError := InvalidEmailMessage;
        return;
      }
      isSubmitted := true;
      validationError := "";
    }

    /** "Intentar Otro Correo": back to the form, with the address kept. */
    method TryAnotherEmail()
      modifies this`isSubmitted
      ensures !isSubmitted
    {
      isSubmitted := false;
    }
  }

  // ---------------------------------------------------------------------------
  // The sign-in form
  // ---------------------------------------------------------------------------

  const SignInMessage: string := "Please enter a valid email address."

  class SignIn {
    var validationError: Option<string>

    constructor()
      ensures validationError.None?
    {
      validationError := None;
    }

    /** `validateAndSubmit`: the message is cleared first; an address the
        pattern refuses sets the message and `handleLogin` is not called,
        an accepted one calls it once (`loginCalled`). */
    method ValidateAndSubmit(loginEmail: string) returns (loginCalled: bool)
      modifies this`validationError
      ensures loginCalled <==> MatchesEmailPattern(loginEmail)
      ensures validationError == (if loginCalled then None else Some(SignInMessage))
    {
      validationError := None;
      if !MatchesEmailPattern(loginEmail) {
        validationError := Some(SignInMessage);
        return false;
      }
      loginCalled := true;
    }
  }
}
