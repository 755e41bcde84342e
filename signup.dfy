/**
  The sign-up page: a form whose text inputs share one change handler, a
  five-point password strength meter, and a submit handler that stops at the
  first failing check.
 */
module Signup {
  import opened Collections

  /** The text inputs wired to `handleChange`; each input's `name` is one of these. */
  datatype TextField = FirstName | LastName | Email | Password | ConfirmPassword | CompanyName

  datatype SignupForm = SignupForm(
    firstName: string,
    lastName: string,
    email: string,
    password: string,
    confirmPassword: string,
    companyName: string,
    companySize: string,
    agreeToTerms: bool,
    agreeToNewsletter: bool)

  function EmptyForm(): SignupForm {
    SignupForm("", "", "", "", "", "", "", false, false)
  }

  /** The value an input shows. */
  function TextOf(form: SignupForm, field: TextField): string {
    match field
    case FirstName => form.firstName
    case LastName => form.lastName
    case Email => form.email
    case Password => form.password
    case ConfirmPassword => form.confirmPassword
    case CompanyName => form.companyName
  }

  /** `handleChange` for a text input: the named field takes the typed value, nothing else moves. */
  function WithText(form: SignupForm, field: TextField, value: string): (r: SignupForm)
    ensures TextOf(r, field) == value
    ensures forall f :: f != field ==> TextOf(r, f) == TextOf(form, f)
    ensures r.companySize == form.companySize
    ensures r.agreeToTerms == form.agreeToTerms && r.agreeToNewsletter == form.agreeToNewsletter
  {
    match field
    case FirstName => form.(firstName := value)
    case LastName => form.(lastName := value)
    case Email => form.(email := value)
    case Password => form.(password := value)
    case ConfirmPassword => form.(confirmPassword := value)
    case CompanyName => form.(companyName := value)
  }

  /** Typing into an input and then restoring its previous value gives back the same form. */
  lemma WithTextRestore(form: SignupForm, field: TextField, value: string)
    ensures WithText(WithText(form, field, value), field, TextOf(form, field)) == form
  {
  }

  predicate IsUpper(c: char) { 'A' <= c <= 'Z' }
  predicate IsLower(c: char) { 'a' <= c <= 'z' }
  predicate IsDigit(c: char) { '0' <= c <= '9' }
  /** The class `[^A-Za-z0-9]`. */
  predicate IsSymbol(c: char) { !IsUpper(c) && !IsLower(c) && !IsDigit(c) }

  predicate HasUpper(p: string) { exists i :: 0 <= i < |p| && IsUpper(p[i]) }
  predicate HasLower(p: string) { exists i :: 0 <= i < |p| && IsLower(p[i]) }
  predicate HasDigit(p: string) { exists i :: 0 <= i < |p| && IsDigit(p[i]) }
  predicate HasSymbol(p: string) { exists i :: 0 <= i < |p| && IsSymbol(p[i]) }

  /** The five things the strength meter rewards. */
  datatype Criterion = LongEnough | Upper | Lower | Digit | Symbol

  function AllCriteria(): seq<Criterion> {
    [LongEnough, Upper, Lower, Digit, Symbol]
  }

  predicate Meets(p: string, c: Criterion) {
    match c
    case LongEnough => |p| >= 8
    case Upper => HasUpper(p)
    case Lower => HasLower(p)
    case Digit => HasDigit(p)
    case Symbol => HasSymbol(p)
  }

  function MetBy(p: string): Criterion -> bool {
    (c: Criterion) => Meets(p, c)
  }

  /** The strength of a password: how many of the five criteria it meets. */
  function Strength(p: string): (n: nat)
    ensures n <= 5
  {
    |Keep(AllCriteria(), MetBy(p))|
  }

  /** The score is the number of criteria met, one point each. */
  lemma StrengthCounts(p: string)
    ensures Strength(p) ==
      (if |p| >= 8 then 1 else 0) + (if HasUpper(p) then 1 else 0) + (if HasLower(p) then 1 else 0)
      + (if HasDigit(p) then 1 else 0) + (if HasSymbol(p) then 1 else 0)
  {
    var cs := AllCriteria();
    assert cs == [cs[0]] + [cs[1]] + [cs[2]] + [cs[3]] + [cs[4]];
    KeepAppend([cs[0]] + [cs[1]] + [cs[2]] + [cs[3]], [cs[4]], MetBy(p));
    KeepAppend([cs[0]] + [cs[1]] + [cs[2]], [cs[3]], MetBy(p));
    KeepAppend([cs[0]] + [cs[1]], [cs[2]], MetBy(p));
    KeepAppend([cs[0]], [cs[1]], MetBy(p));
  }

  /** `getPasswordStrength`: one point per passed test, in the page's order. */
  method GetPasswordStrength(password: string) returns (strength: nat)
    ensures strength == Strength(password)
  {
    strength := 0;
    if |password| >= 8 { strength := strength + 1; }
    if HasUpper(password) { strength := strength + 1; }
    if HasLower(password) { strength := strength + 1; }
    if HasDigit(password) { strength := strength + 1; }
    if HasSymbol(password) { strength := strength + 1; }
    StrengthCounts(password);
  }

  /** The empty password scores nothing. */
  lemma EmptyPasswordScoresZero()
    ensures Strength("") == 0
  {
    StrengthCounts("");
  }

  /** Full marks exactly when every criterion is met. */
  lemma FullStrengthIff(p: string)
    ensures Strength(p) == 5 <==> |p| >= 8 && HasUpper(p) && HasLower(p) && HasDigit(p) && HasSymbol(p)
  {
    StrengthCounts(p);
  }

  /** Every character falls in one of the four classes, so any non-empty password scores at least one. */
  lemma NonEmptyScoresOne(p: string)
    requires p != ""
    ensures Strength(p) >= 1
  {
    StrengthCounts(p);
    NonEmptyHasClass(p);
  }

  /** Every character is upper-case, lower-case, a digit or a symbol. */
  lemma NonEmptyHasClass(p: string)
    requires p != ""
    ensures HasUpper(p) || HasLower(p) || HasDigit(p) || HasSymbol(p)
  {
    var c := p[0];
    if IsUpper(c) { assert HasUpper(p); }
    else if IsLower(c) { assert HasLower(p); }
    else if IsDigit(c) { assert HasDigit(p); }
    else { assert HasSymbol(p); }
  }

  /** The meter's label: below 2 is Weak, below 4 is Medium, otherwise Strong. */
  function StrengthText(strength: nat): (t: string)
    ensures t == "Weak" <==> strength < 2
    ensures t == "Medium" <==> 2 <= strength < 4
    ensures t == "Strong" <==> strength >= 4
  {
    if strength < 2 then "Weak" else if strength < 4 then "Medium" else "Strong"
  }

  /** The meter's bar colour, on the same thresholds as the label. */
  function StrengthColor(strength: nat): (c: string)
    ensures c == "bg-red-500" <==> strength < 2
    ensures c == "bg-yellow-500" <==> 2 <= strength < 4
    ensures c == "bg-green-500" <==> strength >= 4
  {
    if strength < 2 then "bg-red-500" else if strength < 4 then "bg-yellow-500" else "bg-green-500"
  }

  /** The bar's width as a percentage of the track. */
  function MeterWidthPercent(strength: nat): (w: nat)
    requires strength <= 5
    ensures w <= 100 && (w == 100 <==> strength == 5)
  {
    strength * 20
  }

  /** The meter is drawn only once something was typed into the password input. */
  predicate ShowMeter(form: SignupForm) {
    form.password != ""
  }

  /** The match hint is drawn only when both password inputs are filled. */
  predicate ShowMatchHint(form: SignupForm) {
    form.confirmPassword != "" && form.password != ""
  }

  /** The meter is drawn exactly when the password already scores a point. */
  lemma MeterShownIffScored(form: SignupForm)
    ensures ShowMeter(form) <==> Strength(form.password) >= 1
  {
    if form.password == "" {
      EmptyPasswordScoresZero();
    } else {
      NonEmptyScoresOne(form.password);
    }
  }

  /** What `handleSubmit` does: the first failing check's error, or submission. */
  datatype SubmitOutcome = MissingInformation | PasswordMismatch | PasswordTooShort | TermsRequired | Submitted

  predicate RequiredFilled(form: SignupForm) {
    form.firstName != "" && form.lastName != "" && form.email != "" && form.password != ""
  }

  function Validate(form: SignupForm): (o: SubmitOutcome)
    ensures o == MissingInformation <==> !RequiredFilled(form)
    ensures o == PasswordMismatch <==> RequiredFilled(form) && form.password != form.confirmPassword
    ensures o == PasswordTooShort <==>
      RequiredFilled(form) && form.password == form.confirmPassword && |form.password| < 8
    ensures o == TermsRequired <==>
      RequiredFilled(form) && form.password == form.confirmPassword && |form.password| >= 8 && !form.agreeToTerms
    ensures o == Submitted <==>
      RequiredFilled(form) && form.password == form.confirmPassword && |form.password| >= 8 && form.agreeToTerms
  {
    if !RequiredFilled(form) then MissingInformation
    else if form.password != form.confirmPassword then PasswordMismatch
    else if |form.password| < 8 then PasswordTooShort
    else if !form.agreeToTerms then TermsRequired
    else Submitted
  }

  /** A submitted password is never rated Weak: its length earns one point and its first character another. */
  lemma SubmittedNeverWeak(form: SignupForm)
    requires Validate(form) == Submitted
    ensures Strength(form.password) >= 2
    ensures StrengthText(Strength(form.password)) != "Weak"
  {
    var p := form.password;
    StrengthCounts(p);
    NonEmptyHasClass(p);
  }

  /** A submitted form had its match hint showing "Passwords match". */
  lemma SubmittedShowedMatch(form: SignupForm)
    requires Validate(form) == Submitted
    ensures ShowMatchHint(form) && form.password == form.confirmPassword
  {
  }

  /** The newsletter box and the company fields never decide the outcome. */
  lemma OptionalFieldsIrrelevant(form: SignupForm, name: string, size: string, news: bool)
    ensures Validate(form.(companyName := name, companySize := size, agreeToNewsletter := news)) == Validate(form)
  {
  }

  class SignupPage {
    var form: SignupForm
    var isLoading: bool
    var showPassword: bool
    var showConfirmPassword: bool

    constructor ()
      ensures form == EmptyForm() && !isLoading && !showPassword && !showConfirmPassword
    {
      form := EmptyForm();
      isLoading, showPassword, showConfirmPassword := false, false, false;
    }

    method HandleChange(field: TextField, value: string)
      modifies this`form
      ensures form == WithText(old(form), field, value)
    {
      form := WithText(form, field, value);
    }

    /** `handleSelectChange`: the company size drop-down. */
    method HandleSelectChange(value: string)
      modifies this`form
      ensures form == old(form).(companySize := value)
    {
      form := form.(companySize := value);
    }

    /** The two check boxes. */
    method SetAgreements(terms: bool, newsletter: bool)
      modifies this`form
      ensures form == old(form).(agreeToTerms := terms, agreeToNewsletter := newsletter)
    {
      form := form.(agreeToTerms := terms, agreeToNewsletter := newsletter);
    }

    method ToggleShowPassword()
      modifies this`showPassword
      ensures showPassword == !old(showPassword)
    {
      showPassword := !showPassword;
    }

    method ToggleShowConfirmPassword()
      modifies this`showConfirmPassword
      ensures showConfirmPassword == !old(showConfirmPassword)
    {
      showConfirmPassword := !showConfirmPassword;
    }

    /** Only a submission that passes every check starts the loading state; the form is never changed. */
    method HandleSubmit() returns (outcome: SubmitOutcome)
      modifies this`isLoading
      ensures outcome == Validate(form)
      ensures outcome == Submitted ==> isLoading
      ensures outcome != Submitted ==> isLoading == old(isLoading)
    {
      outcome := Validate(form);
      if outcome == Submitted {
        isLoading := true;
      }
    }

    /** The timer callback of `handleSubmit`, before it redirects to the login page. */
    method SubmitFinished()
      modifies this`isLoading
      ensures !isLoading
    {
      isLoading := false;
    }
  }
}
