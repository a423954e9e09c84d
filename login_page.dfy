/** The sign-in form of `src/components/LoginPage.jsx`: the password strength score, the email
    shape check, the sign-up validity rule that enables the submit button, and the order in
    which `handleEmailAuth` reports a failed check. The calls to the authentication service
    are not modelled; each request is split into its start and its outcome. */
module LoginPage {
  import opened Common
  import opened Text

  // ---------------------------------------------------------------- password strength

  predicate IsLower(c: char) { 'a' <= c <= 'z' }
  predicate IsUpper(c: char) { 'A' <= c <= 'Z' }
  predicate IsOther(c: char) { !IsLower(c) && !IsUpper(c) && !IsDigit(c) }

  /** `/[a-z]/.test(p)` and its three siblings. */
  predicate HasLower(p: string) { exists i :: 0 <= i < |p| && IsLower(p[i]) }
  predicate HasUpper(p: string) { exists i :: 0 <= i < |p| && IsUpper(p[i]) }
  predicate HasDigit(p: string) { exists i :: 0 <= i < |p| && IsDigit(p[i]) }
  predicate HasOther(p: string) { exists i :: 0 <= i < |p| && IsOther(p[i]) }

  function Point(b: bool): nat { if b then 1 else 0 }

  /** The strength score: nothing for an empty password, otherwise one point for each of
      "8 or more characters", "12 or more", and the four character classes present. */
  function Score(p: string): nat {
    if p == [] then 0
    else Point(|p| >= 8) + Point(|p| >= 12) + Point(HasLower(p)) + Point(HasUpper(p))
         + Point(HasDigit(p)) + Point(HasOther(p))
  }

  datatype Strength = Strength(score: nat, labelText: string, color: string)

  /** The label and colour a score maps to. */
  function Rating(score: nat): (r: Strength)
    ensures r.score == score
  {
    if score <= 2 then Strength(score, "Weak", "#ef4444")
    else if score <= 4 then Strength(score, "Medium", "#f59e0b")
    else Strength(score, "Strong", "#22c55e")
  }

  /** `getPasswordStrength`: the score added up check by check, then rated. */
  method GetPasswordStrength(password: string) returns (r: Strength)
    ensures password == [] ==> r == Strength(0, "", "")
    ensures password != [] ==> r == Rating(Score(password))
  {
    if password == [] {
      return Strength(0, "", "");
    }
    var score := 0;
    if |password| >= 8 { score := score + 1; }
    if |password| >= 12 { score := score + 1; }
    if HasLower(password) { score := score + 1; }
    if HasUpper(password) { score := score + 1; }
    if HasDigit(password) { score := score + 1; }
    if HasOther(password) { score := score + 1; }
    r := Rating(score);
  }

  /** The score is at most 6, and a non-empty password scores at least 1: every character
      falls in one of the four classes. */
  lemma {:induction false} ScoreBounds(p: string)
    ensures Score(p) <= 6
    ensures p != [] ==> Score(p) >= 1
  {
    if p != [] {
      var c := p[0];
      if IsLower(c) { assert HasLower(p); }
      else if IsUpper(c) { assert HasUpper(p); }
      else if IsDigit(c) { assert HasDigit(p); }
      else { assert HasOther(p); }
    }
  }

  /** The label is Weak exactly for scores up to 2, Medium for 3 and 4, Strong for 5 and 6. */
  lemma {:induction false} RatingBands(p: string)
    requires p != []
    ensures var word := Rating(Score(p)).labelText;
            (word == "Weak" <==> Score(p) <= 2)
            && (word == "Medium" <==> 3 <= Score(p) <= 4)
            && (word == "Strong" <==> 5 <= Score(p) <= 6)
  {
    ScoreBounds(p);
  }

  /** Typing one more character never lowers the score. */
  lemma {:induction false} ScoreMonotone(p: string, c: char)
    ensures Score(p + [c]) >= Score(p)
  {
    var q := p + [c];
    if p != [] {
      if HasLower(p) { var i :| 0 <= i < |p| && IsLower(p[i]); assert q[i] == p[i]; }
      if HasUpper(p) { var i :| 0 <= i < |p| && IsUpper(p[i]); assert q[i] == p[i]; }
      if HasDigit(p) { var i :| 0 <= i < |p| && IsDigit(p[i]); assert q[i] == p[i]; }
      if HasOther(p) { var i :| 0 <= i < |p| && IsOther(p[i]); assert q[i] == p[i]; }
    }
  }

  // ---------------------------------------------------------------- email shape

  /** A character the class `[^\s@]` accepts. */
  predicate Plain(c: char) { !IsSpace(c) && c != '@' }

  predicate AllPlain(s: string) { forall i :: 0 <= i < |s| ==> Plain(s[i]) }

  /** `/^[^\s@]+@[^\s@]+\.[^\s@]+$/.test(email)`: a non-empty run of plain characters, `@`,
      a non-empty plain run, a dot, and a non-empty plain run to the end. */
  predicate IsValidEmail(e: string) {
    exists a, d :: 0 < a && a + 1 < d && d + 1 < |e| && e[a] == '@' && e[d] == '.'
      && AllPlain(e[..a]) && AllPlain(e[a + 1..d]) && AllPlain(e[d + 1..])
  }

  /** The same condition said plainly: no whitespace, exactly one `@` and not at the start,
      and after it a domain holding a dot that is neither its first nor its last character. */
  predicate EmailShape(e: string) {
    (forall i :: 0 <= i < |e| ==> !IsSpace(e[i]))
    && (exists a :: 0 < a < |e| && e[a] == '@' && OnlyAt(e, a) && InnerDot(e, a))
  }

  /** No `@` in `e` but the one at `a`. */
  predicate OnlyAt(e: string, a: int) { forall i :: 0 <= i < |e| && e[i] == '@' ==> i == a }

  /** A dot after position `a + 1` that is not the last character. */
  predicate InnerDot(e: string, a: nat) { exists d :: a + 1 < d < |e| - 1 && e[d] == '.' }

  lemma {:induction false} ValidEmailShape(e: string)
    ensures IsValidEmail(e) <==> EmailShape(e)
  {
    if IsValidEmail(e) {
      RegexGivesShape(e);
    }
    if EmailShape(e) {
      ShapeGivesRegex(e);
    }
  }

  lemma {:induction false} RegexGivesShape(e: string)
    requires IsValidEmail(e)
    ensures EmailShape(e)
  {
    var a, d :| 0 < a && a + 1 < d && d + 1 < |e| && e[a] == '@' && e[d] == '.'
      && AllPlain(e[..a]) && AllPlain(e[a + 1..d]) && AllPlain(e[d + 1..]);
    forall i | 0 <= i < |e| && i != a ensures Plain(e[i]) {
      if i < a { assert e[..a][i] == e[i]; }
      else if i < d { assert e[a + 1..d][i - a - 1] == e[i]; }
      else if i > d { assert e[d + 1..][i - d - 1] == e[i]; }
    }
    assert OnlyAt(e, a) && InnerDot(e, a);
  }

  lemma {:induction false} ShapeGivesRegex(e: string)
    requires EmailShape(e)
    ensures IsValidEmail(e)
  {
    var a :| 0 < a < |e| && e[a] == '@' && OnlyAt(e, a) && InnerDot(e, a);
    var d :| a + 1 < d < |e| - 1 && e[d] == '.';
    assert AllPlain(e[..a]);
    assert AllPlain(e[a + 1..d]);
    assert AllPlain(e[d + 1..]);
  }

  // ---------------------------------------------------------------- the form

  const InvalidEmail := "Please enter a valid email address."
  const TooWeak := "Password is too weak. Use at least 8 characters with uppercase, lowercase, numbers, and symbols."
  const NoMatch := "Passwords do not match."

  /** `signUpValid`: a valid email, at least a Medium password, the confirmation equal to it,
      and at least 8 characters. */
  predicate SignUpValid(email: string, password: string, confirm: string) {
    IsValidEmail(email) && Score(password) >= 3 && password == confirm && |password| >= 8
  }

  /** The first failed check of `handleEmailAuth`: sign-in checks nothing; sign-up checks the
      email, then the score, then the confirmation, and never the length. */
  function AuthError(isSignUp: bool, email: string, password: string, confirm: string): (r: Option<string>)
    ensures !isSignUp ==> r.None?
    ensures isSignUp && !IsValidEmail(email) ==> r == Some(InvalidEmail)
    ensures isSignUp && IsValidEmail(email) && Score(password) < 3 ==> r == Some(TooWeak)
    ensures isSignUp && IsValidEmail(email) && Score(password) >= 3 && password != confirm ==> r == Some(NoMatch)
    ensures r.None? <==> !isSignUp || (IsValidEmail(email) && Score(password) >= 3 && password == confirm)
  {
    if !isSignUp then None
    else if !IsValidEmail(email) then Some(InvalidEmail)
    else if Score(password) < 3 then Some(TooWeak)
    else if password != confirm then Some(NoMatch)
    else None
  }

  /** A sign-up the form accepts passes every check of the handler. */
  lemma {:induction false} ValidSignUpPasses(email: string, password: string, confirm: string)
    requires SignUpValid(email, password, confirm)
    ensures AuthError(true, email, password, confirm).None?
  {
  }

  /** The handler alone lets a 7-character password through: only the disabled button keeps
      such a sign-up from being sent. */
  lemma HandlerSkipsLength()
    ensures var e, p := "a@b.co", "Abcd12!";
            AuthError(true, e, p, p).None? && !SignUpValid(e, p, p)
  {
    var e, p := "a@b.co", "Abcd12!";
    assert e[1] == '@' && e[3] == '.';
    assert e[..1] == "a" && e[2..3] == "b" && e[4..] == "co";
    assert IsValidEmail(e);
    assert IsLower(p[1]) && IsUpper(p[0]) && IsDigit(p[4]) && IsOther(p[6]);
    assert Score(p) == 4;
  }

  /** The state of the form. */
  class LoginForm {
    var email: string
    var password: string
    var confirmPassword: string
    var loading: bool
    var error: Option<string>
    var isSignUp: bool
    var otpSent: bool

    constructor ()
      ensures email == "" && password == "" && confirmPassword == ""
      ensures !loading && error.None? && !isSignUp && !otpSent
    {
      email, password, confirmPassword := "", "", "";
      loading, error, isSignUp, otpSent := false, None, false, false;
    }

    /** The submit button is enabled unless a request is running or a sign-up is invalid. */
    predicate SubmitEnabled()
      reads this
    {
      !loading && (!isSignUp || SignUpValid(email, password, confirmPassword))
    }

    /** `handleEmailAuth` up to the request: it clears the error, reports the first failed
        check, or starts loading and sends the request (`sent`). */
    method HandleEmailAuth() returns (sent: bool)
      modifies this
      ensures error == AuthError(isSignUp, email, password, confirmPassword)
      ensures sent <==> error.None?
      ensures loading == (sent || old(loading))
      ensures email == old(email) && password == old(password) && confirmPassword == old(confirmPassword)
      ensures isSignUp == old(isSignUp) && otpSent == old(otpSent)
    {
      error := None;
      if isSignUp {
        if !IsValidEmail(email) {
          error := Some(InvalidEmail);
          return false;
        }
        if Score(password) < 3 {
          error := Some(TooWeak);
          return false;
        }
        if password != confirmPassword {
          error := Some(NoMatch);
          return false;
        }
      }
      loading := true;
      sent := true;
    }

    /** The outcome of the request: its error message, if any, is shown, and loading ends. */
    method FinishEmailAuth(failure: Option<string>)
      modifies this
      ensures !loading && error == (if failure.Some? then failure else old(error))
      ensures email == old(email) && password == old(password) && isSignUp == old(isSignUp)
      ensures confirmPassword == old(confirmPassword) && otpSent == old(otpSent)
    {
      if failure.Some? {
        error := failure;
      }
      loading := false;
    }

    /** `handleMagicLink` up to the request: only a valid email sends one. */
    method HandleMagicLink() returns (sent: bool)
      modifies this
      ensures sent <==> IsValidEmail(email)
      ensures sent ==> loading && error.None?
      ensures !sent ==> error == Some(InvalidEmail) && loading == old(loading)
      ensures email == old(email) && password == old(password) && isSignUp == old(isSignUp)
      ensures confirmPassword == old(confirmPassword) && otpSent == old(otpSent)
    {
      if !IsValidEmail(email) {
        error := Some(InvalidEmail);
        return false;
      }
      loading := true;
      error := None;
      sent := true;
    }

    /** The outcome of the magic-link request: success shows the "sent" screen, failure the
        message; loading ends either way. */
    method FinishMagicLink(failure: Option<string>)
      modifies this
      ensures !loading
      ensures failure.None? ==> otpSent && error == old(error)
      ensures failure.Some? ==> error == failure && otpSent == old(otpSent)
      ensures email == old(email) && password == old(password) && isSignUp == old(isSignUp)
      ensures confirmPassword == old(confirmPassword)
    {
      if failure.Some? {
        error := failure;
      } else {
        otpSent := true;
      }
      loading := false;
    }

    /** The sign-in/sign-up switch: flips the mode, clears the error and the confirmation. */
    method ToggleMode()
      modifies this
      ensures isSignUp == !old(isSignUp) && error.None? && confirmPassword == ""
      ensures email == old(email) && password == old(password)
      ensures loading == old(loading) && otpSent == old(otpSent)
    {
      isSignUp := !isSignUp;
      error := None;
      confirmPassword := "";
    }
  }

  /** Pressing an enabled submit button always sends the request. */
  method SubmitWhenEnabled(form: LoginForm) returns (sent: bool)
    requires form.SubmitEnabled()
    modifies form
    ensures sent && form.loading && form.error.None?
  {
    sent := form.HandleEmailAuth();
  }
}
