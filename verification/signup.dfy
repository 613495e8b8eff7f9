/** The sign-up form's checks, including the e-mail pattern
    `^[^\s@]+@[^\s@]+\.[^\s@]+$`. */
module Signup {
  import opened Common
  import opened Text
  import opened Ui

  /** A character the pattern's `[^\s@]` class accepts. */
  predicate Plain(c: char) {
    !IsSpace(c) && c != '@'
  }

  /** The pattern, by its split points: `s` is a non-empty local part, '@',
      a non-empty domain head, '.', and a non-empty tail, where every
      character but the '@' is plain. */
  predicate EmailPattern(s: string) {
    exists i, j :: 0 < i && i + 1 < j && j + 1 < |s| && s[i] == '@' && s[j] == '.'
      && forall k :: 0 <= k < |s| && k != i ==> Plain(s[k])
  }

  /** The number of '@' characters. */
  function AtCount(s: string): nat {
    if |s| == 0 then 0 else (if s[0] == '@' then 1 else 0) + AtCount(s[1..])
  }

  lemma {:induction false} AtCountZero(s: string)
    ensures AtCount(s) == 0 <==> forall k :: 0 <= k < |s| ==> s[k] != '@'
  {
    if |s| > 0 {
      AtCountZero(s[1..]);
      assert forall k :: 1 <= k < |s| ==> s[k] == s[1..][k - 1];
    }
  }

  /** With an '@' at `i`, there is exactly one '@' iff there is none elsewhere. */
  lemma {:induction false} AtCountOne(s: string, i: nat)
    requires i < |s| && s[i] == '@'
    ensures AtCount(s) == 1 <==> forall k :: 0 <= k < |s| && k != i ==> s[k] != '@'
  {
    assert forall k :: 1 <= k < |s| ==> s[k] == s[1..][k - 1];
    if i == 0 {
      AtCountZero(s[1..]);
    } else if s[0] == '@' {
      AtCountZero(s[1..]);
      assert s[1..][i - 1] == '@';
    } else {
      AtCountOne(s[1..], i - 1);
    }
  }

  /** The first position of '@'. */
  function AtIndex(s: string): (r: Option<nat>)
    ensures r.Some? ==> r.value < |s| && s[r.value] == '@' && forall k :: 0 <= k < r.value ==> s[k] != '@'
    ensures r.None? ==> forall k :: 0 <= k < |s| ==> s[k] != '@'
  {
    if |s| == 0 then None
    else if s[0] == '@' then Some(0)
    else
      var rest := AtIndex(s[1..]);
      assert forall k :: 1 <= k < |s| ==> s[k] == s[1..][k - 1];
      match rest
      case None => None
      case Some(k) => Some(k + 1)
  }

  /** The pattern in plain words: no white space, exactly one '@', a
      non-empty part before it, and after it a '.' with text on both sides. */
  predicate EmailShape(s: string) {
    && (forall k :: 0 <= k < |s| ==> !IsSpace(s[k]))
    && AtCount(s) == 1
    && var at := AtIndex(s);
       && at.Some? && at.value > 0
       && exists j :: at.value + 1 < j < |s| - 1 && s[j] == '.'
  }

  /** The split-point reading and the plain-words reading agree. */
  lemma EmailPatternIff(s: string)
    ensures EmailPattern(s) <==> EmailShape(s)
  {
    if EmailPattern(s) {
      var i, j :| 0 < i && i + 1 < j && j + 1 < |s| && s[i] == '@' && s[j] == '.'
        && forall k :: 0 <= k < |s| && k != i ==> Plain(s[k]);
      AtCountOne(s, i);
      var at := AtIndex(s);
      assert at == Some(i);
      assert forall k :: 0 <= k < |s| ==> !IsSpace(s[k]) by {
        assert !IsSpace(s[i]);
      }
    }
    if EmailShape(s) {
      var i := AtIndex(s).value;
      var j :| i + 1 < j < |s| - 1 && s[j] == '.';
      AtCountOne(s, i);
      assert forall k :: 0 <= k < |s| && k != i ==> Plain(s[k]);
    }
  }

  /** What pressing "Sign up" leads to: the first failing check, or the
      sign-up call with its arguments. */
  datatype SignupOutcome =
    | FieldsMissing
    | PasswordTooShort
    | InvalidEmail
    | SubmitSignup(email: string, password: string, displayName: string, isVendor: bool)

  /** `handleSignup`: name and e-mail must be non-blank after trimming and the
      password non-empty; then the password needs six characters; then the
      e-mail must match the pattern. Sign-up gets the fields untrimmed. */
  function HandleSignup(name: string, email: string, password: string, isVendor: bool): (r: SignupOutcome)
    ensures r == FieldsMissing <==> Blank(name) || Blank(email) || password == ""
    ensures r == PasswordTooShort <==> !Blank(name) && !Blank(email) && 0 < |password| < 6
    ensures r == InvalidEmail <==> !Blank(name) && !Blank(email) && |password| >= 6 && !EmailPattern(email)
    ensures r.SubmitSignup? ==> r == SubmitSignup(email, password, name, isVendor)
  {
    if Trim(name) == [] || Trim(email) == [] || password == "" then FieldsMissing
    else if |password| < 6 then PasswordTooShort
    else if !EmailPattern(email) then InvalidEmail
    else SubmitSignup(email, password, name, isVendor)
  }

  /** A submitted e-mail has exactly one '@', text before it, no white space,
      and a dotted domain; in particular surrounding blanks are never sent. */
  lemma SubmittedEmailIsWellFormed(name: string, email: string, password: string, isVendor: bool)
    requires HandleSignup(name, email, password, isVendor).SubmitSignup?
    ensures EmailShape(email)
    ensures |email| > 0 && !IsSpace(email[0]) && !IsSpace(email[|email| - 1])
  {
    EmailPatternIff(email);
  }

  /** The alert each rejection shows; a submission shows none. */
  function SignupAlert(r: SignupOutcome): (a: Option<AlertContent>)
    ensures a.None? <==> r.SubmitSignup?
    ensures a.Some? ==> a.value.alertType == "warning" && a.value.buttons == [AlertButton("OK", false, None, None)]
  {
    var ok := [AlertButton("OK", false, None, None)];
    match r
    case FieldsMissing => Some(AlertContent("Validation Error", "Please fill in all fields.", "warning", ok))
    case PasswordTooShort => Some(AlertContent("Invalid Password", "Password must be at least 6 characters long.", "warning", ok))
    case InvalidEmail => Some(AlertContent("Invalid Email", "Please enter a valid email address.", "warning", ok))
    case SubmitSignup(_, _, _, _) => None
  }
}
