/** `Register`: the sign-up form's validation rules and the sign-up sequence. */
module RegisterPage {
  import opened Wrappers
  import opened Text

  const MinPasswordLength := 6
  const MaxPasswordLength := 20

  /** The characters JavaScript's `.` does not match. */
  predicate IsLineTerminator(c: char) {
    c == '\n' || c == '\r' || c == '\U{2028}' || c == '\U{2029}'
  }

  function Min(a: int, b: int): int { if a <= b then a else b }
  function Max(a: int, b: int): int { if a <= b then b else a }

  /** No line terminator in `s[a..b]`, both ends included. */
  predicate NoBreak(s: string, a: int, b: int)
    requires 0 <= a && b < |s|
  {
    forall k :: a <= k <= b ==> !IsLineTerminator(s[k])
  }

  /** An upper-case letter at `i` and a lower-case letter at `j` on the same line. */
  predicate Witness(s: string, i: int, j: int) {
    0 <= i < |s| && 0 <= j < |s| && IsUpper(s[i]) && IsLower(s[j]) && NoBreak(s, Min(i, j), Max(i, j))
  }

  /** Some line of the password holds both an upper-case and a lower-case letter. */
  ghost predicate HasUpperAndLower(s: string) {
    exists i, j :: Witness(s, i, j)
  }

  /** `.*X` matched from position `p`: some `X` at `i >= p` with no line terminator before it. */
  predicate ReachesOnLine(s: string, p: int, i: int) {
    0 <= p <= i < |s| && forall k :: p <= k < i ==> !IsLineTerminator(s[k])
  }

  /** `/(?=.*[A-Z])(?=.*[a-z])/.test(s)`: both lookaheads succeed at some position `p`. */
  ghost predicate PatternMatches(s: string) {
    exists p, i, j :: ReachesOnLine(s, p, i) && IsUpper(s[i]) && ReachesOnLine(s, p, j) && IsLower(s[j])
  }

  /** The lookahead pattern says exactly that some line holds both letter cases. */
  lemma PatternMeansSameLine(s: string)
    ensures PatternMatches(s) <==> HasUpperAndLower(s)
  {
    if PatternMatches(s) {
      var p, i, j :| ReachesOnLine(s, p, i) && IsUpper(s[i]) && ReachesOnLine(s, p, j) && IsLower(s[j]);
      assert Witness(s, i, j);
    }
    if HasUpperAndLower(s) {
      var i, j :| Witness(s, i, j);
      var p := Min(i, j);
      assert ReachesOnLine(s, p, i) && ReachesOnLine(s, p, j);
    }
  }

  /** A letter on the line starting at `lineStart`, before `k`. */
  ghost predicate UpperOnLine(s: string, lineStart: int, k: int) {
    exists i :: lineStart <= i < k && 0 <= i < |s| && IsUpper(s[i])
  }

  ghost predicate LowerOnLine(s: string, lineStart: int, k: int) {
    exists j :: lineStart <= j < k && 0 <= j < |s| && IsLower(s[j])
  }

  /** No witness pair lies entirely before `k`. */
  ghost predicate NoWitnessBefore(s: string, k: int) {
    forall i, j :: 0 <= i < k && 0 <= j < k ==> !Witness(s, i, j)
  }

  /** A witness pair reaching `k` whose partner lies before the current line is impossible:
      the terminator that ends the previous line sits between them. */
  lemma PartnerOnLine(s: string, lineStart: int, k: int, i: int, j: int)
    requires 0 <= lineStart <= k < |s|
    requires lineStart > 0 ==> IsLineTerminator(s[lineStart - 1])
    ensures Witness(s, i, j) && Max(i, j) == k ==> lineStart <= i && lineStart <= j
  {
    if Witness(s, i, j) && Max(i, j) == k && lineStart > 0 {
      assert IsLineTerminator(s[lineStart - 1]);
    }
  }

  /** Reading `s[k]` creates no witness pair unless it completes one with a letter of the
      other case already seen on the current line. */
  lemma ExtendNoWitness(s: string, lineStart: int, k: int)
    requires 0 <= lineStart <= k < |s|
    requires lineStart > 0 ==> IsLineTerminator(s[lineStart - 1])
    requires NoWitnessBefore(s, k)
    requires IsUpper(s[k]) ==> !LowerOnLine(s, lineStart, k)
    requires IsLower(s[k]) ==> !UpperOnLine(s, lineStart, k)
    ensures NoWitnessBefore(s, k + 1)
  {
    forall i, j | 0 <= i < k + 1 && 0 <= j < k + 1 ensures !Witness(s, i, j) {
      PartnerOnLine(s, lineStart, k, i, j);
      if i < k && j < k {
        assert !Witness(s, i, j);
      }
    }
  }

  /** Scanning the password line by line for both letter cases. */
  method ScanPattern(s: string) returns (ok: bool)
    ensures ok <==> PatternMatches(s)
  {
    PatternMeansSameLine(s);
    var lineStart := 0;
    var up := false;
    var low := false;
    var k := 0;
    while k < |s|
      invariant 0 <= lineStart <= k <= |s|
      invariant lineStart > 0 ==> IsLineTerminator(s[lineStart - 1])
      invariant forall m :: lineStart <= m < k ==> !IsLineTerminator(s[m])
      invariant up <==> UpperOnLine(s, lineStart, k)
      invariant low <==> LowerOnLine(s, lineStart, k)
      invariant !(up && low)
      invariant NoWitnessBefore(s, k)
    {
      var c := s[k];
      if IsUpper(c) && low {
        var j :| lineStart <= j < k && 0 <= j < |s| && IsLower(s[j]);
        assert Witness(s, k, j);
        return true;
      }
      if IsLower(c) && up {
        var i :| lineStart <= i < k && 0 <= i < |s| && IsUpper(s[i]);
        assert Witness(s, i, k);
        return true;
      }
      ExtendNoWitness(s, lineStart, k);
      if IsLineTerminator(c) {
        lineStart, up, low := k + 1, false, false;
      } else if IsUpper(c) {
        up := true;
      } else if IsLower(c) {
        low := true;
      }
      k := k + 1;
    }
    return false;
  }

  /** A password typed into a single-line field holds no line terminator; there the pattern
      only asks for an upper-case and a lower-case letter anywhere. */
  lemma SingleLineMeansAnywhere(s: string)
    requires forall k :: 0 <= k < |s| ==> !IsLineTerminator(s[k])
    ensures PatternMatches(s) <==>
              (exists i :: 0 <= i < |s| && IsUpper(s[i])) && (exists j :: 0 <= j < |s| && IsLower(s[j]))
  {
    PatternMeansSameLine(s);
    if (exists i :: 0 <= i < |s| && IsUpper(s[i])) && (exists j :: 0 <= j < |s| && IsLower(s[j])) {
      var i :| 0 <= i < |s| && IsUpper(s[i]);
      var j :| 0 <= j < |s| && IsLower(s[j]);
      assert Witness(s, i, j);
    }
  }

  /** The password rule that failed, named as the form library reports it. */
  datatype PasswordError = PasswordRequired | TooLong | TooShort | MissingCase

  /** The message shown under the password field for each failed rule. */
  function PasswordMessage(e: PasswordError): string {
    match e
    case PasswordRequired => "Password is required"
    case TooShort => "Password must be 6 characters"
    case TooLong => "Password must be less than 20 characters"
    case MissingCase => "Password must have one Upper and lower case"
  }

  /** The form library checks `required` first, then the length bounds (an overlong value is
      reported as `maxLength`), and the pattern last. */
  method CheckPassword(p: string) returns (err: Option<PasswordError>)
    ensures err == Some(PasswordRequired) <==> |p| == 0
    ensures err == Some(TooLong) <==> |p| > MaxPasswordLength
    ensures err == Some(TooShort) <==> 0 < |p| < MinPasswordLength
    ensures err == Some(MissingCase) <==> MinPasswordLength <= |p| <= MaxPasswordLength && !HasUpperAndLower(p)
    ensures err.None? <==> MinPasswordLength <= |p| <= MaxPasswordLength && HasUpperAndLower(p)
  {
    if |p| == 0 {
      return Some(PasswordRequired);
    }
    if |p| > MaxPasswordLength {
      return Some(TooLong);
    }
    if |p| < MinPasswordLength {
      return Some(TooShort);
    }
    var matched := ScanPattern(p);
    PatternMeansSameLine(p);
    if !matched {
      return Some(MissingCase);
    }
    return None;
  }

  /** The sign-up form's fields; `image` is the chosen file, if any. */
  datatype SignUpForm = SignUpForm(name: string, image: Option<string>, email: string, password: string)

  /** What the form shows after a submit attempt; the submit handler runs only when all are clear. */
  datatype FormErrors = FormErrors(nameMissing: bool, imageMissing: bool, emailMissing: bool,
                                   password: Option<PasswordError>)
  {
    predicate Clear() {
      !nameMissing && !imageMissing && !emailMissing && password.None?
    }
  }

  method Validate(f: SignUpForm) returns (e: FormErrors)
    ensures e.nameMissing <==> f.name == ""
    ensures e.imageMissing <==> f.image.None?
    ensures e.emailMissing <==> f.email == ""
    ensures e.password == Some(PasswordRequired) <==> |f.password| == 0
    ensures e.password == Some(TooLong) <==> |f.password| > MaxPasswordLength
    ensures e.password == Some(TooShort) <==> 0 < |f.password| < MinPasswordLength
    ensures e.password == Some(MissingCase) <==>
              MinPasswordLength <= |f.password| <= MaxPasswordLength && !HasUpperAndLower(f.password)
    ensures e.Clear() <==>
              f.name != "" && f.image.Some? && f.email != "" &&
              MinPasswordLength <= |f.password| <= MaxPasswordLength && HasUpperAndLower(f.password)
  {
    var pw := CheckPassword(f.password);
    e := FormErrors(f.name == "", f.image.None?, f.email == "", pw);
  }

  /** Outcomes of the three remote calls, in the order they are made. */
  datatype UploadOutcome = UploadOk(displayUrl: string) | UploadError
  datatype CreateOutcome = AccountCreated | CreateError(message: string)
  datatype ProfileOutcome = ProfileUpdated | ProfileError

  /** The remote calls the handler makes, in order. */
  datatype Call = UploadImage(file: string) | CreateAccount(email: string, password: string)
                | UpdateProfile(displayName: string, photoUrl: string)

  datatype Alert = NoAlert | SuccessAlert(title: string) | ErrorAlert(title: string, text: string)

  datatype SignUpResult = SignUpResult(calls: seq<Call>, alert: Alert, reset: bool, navigateTo: Option<string>)

  const ImageFailedText := "Please check your internet or API key configuration."

  /** The submit handler of a validated form: upload, then create the account, then set the
      profile; a failed profile update is only logged. */
  function SignUp(f: SignUpForm, upload: UploadOutcome, create: CreateOutcome, profile: ProfileOutcome)
    : (r: SignUpResult)
    requires f.image.Some?
    ensures |r.calls| >= 1 && r.calls[0] == UploadImage(f.image.value)
    ensures CreateAccount(f.email, f.password) in r.calls <==> upload.UploadOk?
    ensures upload.UploadError? ==> r.calls == [UploadImage(f.image.value)]
    ensures upload.UploadError? ==> r.alert == ErrorAlert("Image Upload Failed", ImageFailedText)
    ensures upload.UploadOk? && create.CreateError? ==> r.alert == ErrorAlert("Registration Failed", create.message)
    ensures upload.UploadOk? ==> (UpdateProfile(f.name, upload.displayUrl) in r.calls <==> create.AccountCreated?)
    ensures r.navigateTo.Some? <==> upload.UploadOk? && create.AccountCreated? && profile.ProfileUpdated?
    ensures r.reset <==> r.navigateTo.Some?
    ensures r.navigateTo.Some? ==> r.navigateTo.value == "/" && r.alert.SuccessAlert?
  {
    var up := UploadImage(f.image.value);
    match upload
    case UploadError =>
      SignUpResult([up], ErrorAlert("Image Upload Failed", ImageFailedText), false, None)
    case UploadOk(url) =>
      var create_ := CreateAccount(f.email, f.password);
      match create
      case CreateError(message) =>
        SignUpResult([up, create_], ErrorAlert("Registration Failed", message), false, None)
      case AccountCreated =>
        var calls := [up, create_, UpdateProfile(f.name, url)];
        match profile
        case ProfileError => SignUpResult(calls, NoAlert, false, None)
        case ProfileUpdated => SignUpResult(calls, SuccessAlert("User created successfully."), true, Some("/"))
  }

  /** The account gets the form's credentials, and the profile the form's name and the
      uploaded picture's URL. */
  lemma SignUpUsesFormAndUpload(f: SignUpForm, url: string, profile: ProfileOutcome)
    requires f.image.Some?
    ensures SignUp(f, UploadOk(url), AccountCreated, profile).calls ==
              [UploadImage(f.image.value), CreateAccount(f.email, f.password), UpdateProfile(f.name, url)]
  {
  }

  /** A failed profile update leaves a created account with no message and no navigation. */
  lemma ProfileFailureIsSilent(f: SignUpForm, url: string)
    requires f.image.Some?
    ensures var r := SignUp(f, UploadOk(url), AccountCreated, ProfileError);
            CreateAccount(f.email, f.password) in r.calls && r.alert == NoAlert && r.navigateTo.None?
  {
  }

  /** The Google button: `socialLoading` disables it for the duration of the call. */
  datatype GoogleOutcome = GoogleOk | GoogleError(message: string)
  datatype SocialState = SocialState(socialLoading: bool, alert: Alert, navigateTo: Option<string>)

  function GoogleButtonEnabled(st: SocialState): (enabled: bool)
    ensures enabled <==> !st.socialLoading
  {
    !st.socialLoading
  }

  function StartGoogle(st: SocialState): (r: SocialState)
    ensures !GoogleButtonEnabled(r) && r.alert == st.alert && r.navigateTo == st.navigateTo
  {
    st.(socialLoading := true)
  }

  function FinishGoogle(st: SocialState, outcome: GoogleOutcome): (r: SocialState)
    ensures GoogleButtonEnabled(r)
    ensures r.navigateTo.Some? <==> outcome.GoogleOk? || st.navigateTo.Some?
    ensures outcome.GoogleOk? ==> r.navigateTo == Some("/") && r.alert.SuccessAlert?
    ensures outcome.GoogleError? ==> r.alert == ErrorAlert("Google Sign In Failed", outcome.message)
  {
    match outcome
    case GoogleOk => SocialState(false, SuccessAlert("Signed up successfully with Google!"), Some("/"))
    case GoogleError(message) => st.(socialLoading := false, alert := ErrorAlert("Google Sign In Failed", message))
  }

  /** Whatever Google answers, the button is usable again afterwards. */
  lemma GoogleRoundTrip(st: SocialState, outcome: GoogleOutcome)
    ensures GoogleButtonEnabled(FinishGoogle(StartGoogle(st), outcome))
    ensures outcome.GoogleError? ==> FinishGoogle(StartGoogle(st), outcome).navigateTo == st.navigateTo
  {
  }
}
