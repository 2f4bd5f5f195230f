/**
 * The sign-up page: an ordered validation of the form that reports the
 * first failing check, a 0-5 password strength score with its label and
 * colour, and the submit handler, which maps the sign-up error message to
 * the text shown.
 */
module SignUpPage {
  import opened Wrappers
  import opened Text
  import opened Auth

  datatype SignUpForm = SignUpForm(
    firstName: string, lastName: string, email: string,
    password: string, confirmPassword: string,
    studentId: string, yearLevel: string)

  /** The eight checks of `validateForm`, in order, each with the text shown when it fails. */
  function Checks(f: SignUpForm, agreedToTerms: bool, agreedToResearch: bool): (cs: seq<(bool, string)>)
    ensures |cs| == 8
  {
    [ (!IsBlank(f.firstName), "First name is required"),
      (!IsBlank(f.lastName), "Last name is required"),
      (!IsBlank(f.email), "Email is required"),
      (HasChar(f.email, '@'), "Please enter a valid email address"),
      (|f.password| >= 8, "Password must be at least 8 characters long"),
      (f.password == f.confirmPassword, "Passwords do not match"),
      (agreedToTerms, "Please agree to the Terms of Service"),
      (agreedToResearch, "Please agree to participate in the research study") ]
  }

  /** The text of the first failing check, if any. */
  function FirstFailure(cs: seq<(bool, string)>): (r: Option<string>)
    ensures r.None? <==> forall i :: 0 <= i < |cs| ==> cs[i].0
    ensures r.Some? ==> exists i :: 0 <= i < |cs| && !cs[i].0 && r.value == cs[i].1
                                    && forall j :: 0 <= j < i ==> cs[j].0
  {
    if cs == [] then None
    else if !cs[0].0 then Some(cs[0].1)
    else
      var r := FirstFailure(cs[1..]);
      assert forall i :: 1 <= i < |cs| ==> cs[i] == cs[1..][i - 1];
      if r.Some? then
        ghost var k :| 0 <= k < |cs[1..]| && !cs[1..][k].0 && r.value == cs[1..][k].1 && forall j :: 0 <= j < k ==> cs[1..][j].0;
        assert !cs[k + 1].0 && forall j :: 0 <= j < k + 1 ==> cs[j].0;
        r
      else r
  }

  /** `validateForm()`: `None` (null) when every check passes. */
  function ValidateForm(f: SignUpForm, agreedToTerms: bool, agreedToResearch: bool): (r: Option<string>) {
    FirstFailure(Checks(f, agreedToTerms, agreedToResearch))
  }

  /** `validateForm` returns null exactly when all eight checks pass; otherwise the text of
    * the first check, in source order, that fails. */
  lemma ValidateFormSpec(f: SignUpForm, agreedToTerms: bool, agreedToResearch: bool)
    ensures var cs := Checks(f, agreedToTerms, agreedToResearch);
            var r := ValidateForm(f, agreedToTerms, agreedToResearch);
            (r.None? <==> !IsBlank(f.firstName) && !IsBlank(f.lastName) && !IsBlank(f.email)
                          && HasChar(f.email, '@') && |f.password| >= 8 && f.password == f.confirmPassword
                          && agreedToTerms && agreedToResearch)
            && (r.Some? ==> exists i :: 0 <= i < 8 && !cs[i].0 && r.value == cs[i].1
                                        && forall j :: 0 <= j < i ==> cs[j].0)
  {
    var cs := Checks(f, agreedToTerms, agreedToResearch);
    var all := !IsBlank(f.firstName) && !IsBlank(f.lastName) && !IsBlank(f.email)
               && HasChar(f.email, '@') && |f.password| >= 8 && f.password == f.confirmPassword
               && agreedToTerms && agreedToResearch;
    if !all {
      assert !cs[0].0 || !cs[1].0 || !cs[2].0 || !cs[3].0 || !cs[4].0 || !cs[5].0 || !cs[6].0 || !cs[7].0;
    }
  }

  /** A blank first name is reported first, whatever else is wrong. */
  lemma BlankFirstNameReportedFirst(f: SignUpForm, agreedToTerms: bool, agreedToResearch: bool)
    requires IsBlank(f.firstName)
    ensures ValidateForm(f, agreedToTerms, agreedToResearch) == Some("First name is required")
  {
  }

  predicate IsUpper(c: char) { 'A' <= c <= 'Z' }
  predicate IsLower(c: char) { 'a' <= c <= 'z' }
  predicate IsDigit(c: char) { '0' <= c <= '9' }

  predicate HasWhere(s: string, p: char -> bool) {
    exists i :: 0 <= i < |s| && p(s[i])
  }

  /** The strength criteria: length at least 8, an upper-case letter, a lower-case letter, a
    * digit, and a character that is none of these. */
  function Criteria(password: string): (cs: seq<bool>)
    ensures |cs| == 5
  {
    [ |password| >= 8,
      HasWhere(password, IsUpper),
      HasWhere(password, IsLower),
      HasWhere(password, IsDigit),
      HasWhere(password, c => !IsUpper(c) && !IsLower(c) && !IsDigit(c)) ]
  }

  function CountTrue(bs: seq<bool>): (n: nat)
    ensures n <= |bs|
  {
    if bs == [] then 0 else (if bs[0] then 1 else 0) + CountTrue(bs[1..])
  }

  /** `passwordStrength()`: one point per criterion met. */
  method PasswordStrength(password: string) returns (strength: int)
    ensures strength == CountTrue(Criteria(password))
    ensures 0 <= strength <= 5
  {
    var cs := Criteria(password);
    assert CountTrue(cs) == CountTrue(cs[..5]) by { assert cs[..5] == cs; }
    strength := 0;
    var i := 0;
    while i < 5
      invariant 0 <= i <= 5
      invariant strength + CountTrue(cs[i..]) == CountTrue(cs)
    {
      assert cs[i..] == [cs[i]] + cs[i + 1..];
      if cs[i] {
        strength := strength + 1;
      }
      i := i + 1;
    }
    assert cs[5..] == [];
  }

  /** Adding characters to a password never lowers its strength. */
  lemma StrengthMonotone(password: string, more: string)
    ensures CountTrue(Criteria(password)) <= CountTrue(Criteria(password + more))
  {
    var a := Criteria(password);
    var b := Criteria(password + more);
    forall k | 0 <= k < 5 ensures a[k] ==> b[k] {
      if k > 0 && a[k] {
        var p := [IsUpper, IsLower, IsDigit, (c: char) => !IsUpper(c) && !IsLower(c) && !IsDigit(c)][k - 1];
        var i :| 0 <= i < |password| && p(password[i]);
        assert (password + more)[i] == password[i];
      }
    }
    CountTrueMonotone(a, b);
  }

  lemma {:induction false} CountTrueMonotone(a: seq<bool>, b: seq<bool>)
    requires |a| == |b| && forall k :: 0 <= k < |a| ==> a[k] ==> b[k]
    ensures CountTrue(a) <= CountTrue(b)
  {
    if a != [] {
      CountTrueMonotone(a[1..], b[1..]);
    }
  }

  /** The three bands both `getPasswordStrengthText()` and `getPasswordStrengthColor()` split
    * the score into, with the same thresholds. */
  datatype StrengthBand = WeakBand | MediumBand | StrongBand

  function Band(strength: int): (b: StrengthBand)
    ensures b == WeakBand <==> strength <= 2
    ensures b == MediumBand <==> strength == 3
    ensures b == StrongBand <==> strength >= 4
  {
    if strength <= 2 then WeakBand else if strength <= 3 then MediumBand else StrongBand
  }

  /** `getPasswordStrengthText()` for a score. */
  function StrengthText(strength: int): (r: string)
    ensures r == "Weak" <==> strength <= 2
    ensures r == "Medium" <==> strength == 3
    ensures r == "Strong" <==> strength >= 4
  {
    match Band(strength)
    case WeakBand => "Weak"
    case MediumBand => "Medium"
    case StrongBand => "Strong"
  }

  /** `getPasswordStrengthColor()` for a score. */
  function StrengthColor(strength: int): (r: string)
    ensures r == "bg-red-500" <==> strength <= 2
    ensures r == "bg-yellow-500" <==> strength == 3
    ensures r == "bg-green-500" <==> strength >= 4
  {
    match Band(strength)
    case WeakBand => "bg-red-500"
    case MediumBand => "bg-yellow-500"
    case StrongBand => "bg-green-500"
  }

  /** The bar's colour and the label always agree: each determines the other. */
  lemma ColorMatchesText(a: int, b: int)
    ensures StrengthText(a) == StrengthText(b) <==> StrengthColor(a) == StrengthColor(b)
  {
  }

  const AccountExistsText: string := "An account with this email already exists. Please sign in instead."
  const PasswordRuleText: string := "Password should be at least 6 characters long."
  const SignUpFailedText: string := "Failed to create account. Please try again."

  /** The text shown for a sign-up error message. */
  function SignUpErrorText(message: string): (r: string)
    ensures HasSubstring(message, "User already registered") ==> r == AccountExistsText
    ensures !HasSubstring(message, "User already registered") && HasSubstring(message, "Password should be") ==> r == PasswordRuleText
    ensures !HasSubstring(message, "User already registered") && !HasSubstring(message, "Password should be") ==>
              r == (if message != "" then message else SignUpFailedText)
  {
    if HasSubstring(message, "User already registered") then AccountExistsText
    else if HasSubstring(message, "Password should be") then PasswordRuleText
    else if message != "" then message
    else SignUpFailedText
  }

  /** The shown text is never empty. */
  lemma SignUpErrorTextNonEmpty(message: string)
    ensures SignUpErrorText(message) != ""
  {
  }

  /** The page's state: the error shown, the loading flag, the sign-up calls made and where
    * it navigated. */
  class SignUpPageState {
    var error: string
    var isLoading: bool
    var signUpCalls: seq<SignUpForm>
    var navigatedTo: Option<string>

    constructor()
      ensures error == "" && !isLoading && signUpCalls == [] && navigatedTo == None
    {
      error, isLoading, signUpCalls, navigatedTo := "", false, [], None;
    }

    /** `handleInputChange`: editing any field clears the error shown. */
    method HandleInputChange()
      modifies this
      ensures error == "" && isLoading == old(isLoading)
      ensures signUpCalls == old(signUpCalls) && navigatedTo == old(navigatedTo)
    {
      error := "";
    }

    /** `handleSubmit`: a validation failure is shown before any call and leaves the page
      * loading; otherwise `signUp` is called once and its outcome decides. */
    method HandleSubmit(f: SignUpForm, agreedToTerms: bool, agreedToResearch: bool, outcome: AuthOutcome)
      modifies this
      ensures ValidateForm(f, agreedToTerms, agreedToResearch).Some? ==>
                error == ValidateForm(f, agreedToTerms, agreedToResearch).value && isLoading
                && signUpCalls == old(signUpCalls) && navigatedTo == old(navigatedTo)
      ensures ValidateForm(f, agreedToTerms, agreedToResearch).None? ==>
                signUpCalls == old(signUpCalls) + [f]
                && match outcome
                   case AuthOk => error == "" && isLoading && navigatedTo == Some(ModuleRoute)
                   case AuthError(m) => error == SignUpErrorText(m) && !isLoading && navigatedTo == old(navigatedTo)
                   case AuthThrew => error == UnexpectedErrorText && !isLoading && navigatedTo == old(navigatedTo)
    {
      isLoading := true;
      error := "";
      var validationError := ValidateForm(f, agreedToTerms, agreedToResearch);
      if validationError.Some? {
        error := validationError.value;
        return;
      }
      signUpCalls := signUpCalls + [f];
      match outcome {
        case AuthOk =>
          navigatedTo := Some(ModuleRoute);
        case AuthError(m) =>
          isLoading := false;
          error := SignUpErrorText(m);
        case AuthThrew =>
          isLoading := false;
          error := UnexpectedErrorText;
      }
    }
  }
}
