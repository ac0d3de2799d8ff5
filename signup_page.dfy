/** The signup form of `SignupPage.js`: the email pattern, the ordered checks
    of `validateForm` and the submit gate in front of the session's
    `signup`. */
module SignupPage {
  import opened Wrappers
  import opened Text
  import opened AuthContext

  /** A character of the class `[^\s@]`. */
  predicate Plain(c: char) {
    !IsSpace(c) && c != '@'
  }

  predicate AllPlain(s: string) {
    forall i :: 0 <= i < |s| ==> Plain(s[i])
  }

  /** What `/^[^\s@]+@[^\s@]+\.[^\s@]+$/` accepts, stated by positions: an `@`
      at `at` and a dot at `dot`, each with at least one character before and
      after it in its part, and every other character plain. */
  ghost predicate EmailShape(s: string) {
    exists at, dot :: 0 < at && at + 1 < dot && dot + 1 < |s| && s[at] == '@' && s[dot] == '.'
      && forall i :: 0 <= i < |s| && i != at ==> Plain(s[i])
  }

  /** The position of the first `c` in `s`. */
  function Find(s: string, c: char): (r: Option<nat>)
    ensures r.None? <==> forall i :: 0 <= i < |s| ==> s[i] != c
    ensures r.Some? ==> r.value < |s| && s[r.value] == c && forall i :: 0 <= i < r.value ==> s[i] != c
    decreases |s|
  {
    if s == [] then None
    else if s[0] == c then Some(0)
    else
      match Find(s[1..], c)
      case None => None
      case Some(k) => Some(k + 1)
  }

  /** `emailRegex.test(email)`, as a scan: the part before the first `@` is a
      plain run, the part after it is plain and holds a dot that is neither
      its first nor its last character. */
  predicate EmailTest(s: string) {
    match Find(s, '@')
    case None => false
    case Some(at) =>
      && 0 < at && at + 3 < |s|
      && AllPlain(s[..at]) && AllPlain(s[at + 1..])
      && Find(s[at + 2..|s| - 1], '.').Some?
  }

  /** Whatever the scan accepts has the shape of the pattern. */
  lemma EmailTestSound(s: string)
    requires EmailTest(s)
    ensures EmailShape(s)
  {
    var at := Find(s, '@').value;
    var k := Find(s[at + 2..|s| - 1], '.').value;
    var dot := at + 2 + k;
    assert s[dot] == '.';
    var front, domain := s[..at], s[at + 1..];
    forall i | 0 <= i < |s| && i != at ensures Plain(s[i]) {
      if i < at {
        assert front[i] == s[i];
      } else {
        assert domain[i - at - 1] == s[i];
      }
    }
  }

  /** Every string of the pattern's shape is accepted by the scan. */
  lemma EmailTestComplete(s: string)
    requires EmailShape(s)
    ensures EmailTest(s)
  {
    var at, dot :| 0 < at && at + 1 < dot && dot + 1 < |s| && s[at] == '@' && s[dot] == '.'
      && forall i :: 0 <= i < |s| && i != at ==> Plain(s[i]);
    forall i | 0 <= i < at ensures s[i] != '@' {
      assert Plain(s[i]);
    }
    assert Find(s, '@') == Some(at);
    var front := s[..at];
    forall j | 0 <= j < |front| ensures Plain(front[j]) {
      assert front[j] == s[j];
    }
    var domain := s[at + 1..];
    forall j | 0 <= j < |domain| ensures Plain(domain[j]) {
      assert domain[j] == s[at + 1 + j];
    }
    var middle := s[at + 2..|s| - 1];
    assert middle[dot - at - 2] == '.';
  }

  /** The scan accepts exactly the strings the pattern describes. */
  lemma EmailTestIsPattern(s: string)
    ensures EmailTest(s) <==> EmailShape(s)
  {
    if EmailTest(s) {
      EmailTestSound(s);
    }
    if EmailShape(s) {
      EmailTestComplete(s);
    }
  }

  /** The checks of `validateForm`, in order, with their messages. */
  const ShortUsernameMessage := "Username must be at least 3 characters long"
  const BadEmailMessage := "Please enter a valid email address"
  const ShortPasswordMessage := "Password must be at least 6 characters long"
  const MismatchMessage := "Passwords do not match"
  const RegistrationFallback := "Registration failed. Please try again."

  /** `validateForm`: the message of the first check that fails, or `None`
      when the form passes (`formError` is then left empty). */
  function ValidateSignup(username: string, email: string, password: string, confirm: string): (r: Option<string>)
    ensures r.None? <==> |username| >= 3 && EmailShape(email) && |password| >= 6 && password == confirm
    ensures |username| < 3 ==> r == Some(ShortUsernameMessage)
    ensures |username| >= 3 && !EmailShape(email) ==> r == Some(BadEmailMessage)
    ensures |username| >= 3 && EmailShape(email) && |password| < 6 ==> r == Some(ShortPasswordMessage)
    ensures |username| >= 3 && EmailShape(email) && |password| >= 6 && password != confirm ==> r == Some(MismatchMessage)
  {
    EmailTestIsPattern(email);
    if |username| < 3 then Some(ShortUsernameMessage)
    else if !EmailTest(email) then Some(BadEmailMessage)
    else if |password| < 6 then Some(ShortPasswordMessage)
    else if password != confirm then Some(MismatchMessage)
    else None
  }

  /** The page's fields. */
  class SignupForm {
    var username: string
    var email: string
    var password: string
    var confirmPassword: string
    var role: string
    var isSubmitting: bool
    var formError: string

    /** The form as first rendered: empty, with the user role selected. */
    constructor ()
      ensures username == "" && email == "" && password == "" && confirmPassword == ""
      ensures role == "user" && !isSubmitting && formError == ""
    {
      username, email, password, confirmPassword := "", "", "", "";
      role := "user";
      isSubmitting := false;
      formError := "";
    }

    /** `handleSubmit`: a form that fails validation shows the message and
        never reaches the session; one that passes calls `signup`, whose
        request carries no role whatever role is selected, and shows the
        rejection's message or the fallback. */
    method Submit(session: Session, answer: Answer) returns (sent: Option<SignupRequest>)
      modifies this, session
      ensures username == old(username) && email == old(email) && password == old(password)
      ensures confirmPassword == old(confirmPassword) && role == old(role)
      ensures !isSubmitting
      ensures session.loading == old(session.loading)
      ensures var check := ValidateSignup(old(username), old(email), old(password), old(confirmPassword));
        && (check.Some? ==>
             && sent.None? && formError == check.value
             && session.currentUser == old(session.currentUser) && session.storedToken == old(session.storedToken)
             && session.error == old(session.error))
        && (check.None? ==>
             && sent == Some(ClientSignupRequest(old(username), old(email), old(password)))
             && (answer.Answered? ==>
                  && formError == ""
                  && session.currentUser == Some(answer.data)
                  && session.storedToken == answer.data.token && session.error.None?)
             && (answer.Rejected? ==>
                  && formError == MessageOr(answer.message, RegistrationFallback)
                  && session.currentUser == old(session.currentUser)
                  && session.storedToken == old(session.storedToken)
                  && session.error == Some(MessageOr(answer.message, RegisterFallback))))
    {
      formError := "";
      var check := ValidateSignup(username, email, password, confirmPassword);
      if check.Some? {
        formError := check.value;
        isSubmitting := false;
        return None;
      }
      isSubmitting := true;
      var request, thrown := session.Signup(username, email, password, answer);
      sent := Some(request);
      if thrown {
        formError := MessageOr(answer.message, RegistrationFallback);
      }
      isSubmitting := false;
    }
  }
}
