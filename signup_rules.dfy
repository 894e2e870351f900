/**
 * The sign-up page's field rules: the email pattern, the password pattern,
 * the confirm-password match, and the error object that `validate` and
 * `revalidate` build from them. Both patterns are stated twice: once as the
 * regular expression reads (a ghost predicate) and once as a character scan,
 * and a lemma proves the two agree on every string.
 */
module SignupRules {
  import opened Wrappers
  import opened JsText

  // ---------------------------------------------------------------------
  // Email: /^[^@\s]+@[^@\s]+\.[^@\s]+$/
  // ---------------------------------------------------------------------

  /** The class `[^@\s]`. */
  predicate IsEmailChar(c: char) {
    c != '@' && !IsWhiteSpace(c)
  }

  /** `[^@\s]+`: a non-empty run of email characters. */
  predicate IsEmailRun(s: string) {
    |s| > 0 && forall i :: 0 <= i < |s| ==> IsEmailChar(s[i])
  }

  /** The email pattern read literally: a run, '@', a run, '.', a run, anchored at both ends. */
  ghost predicate MatchesEmailPattern(s: string) {
    exists at, dot ::
      && 0 <= at < dot < |s| && s[at] == '@' && s[dot] == '.'
      && IsEmailRun(s[..at]) && IsEmailRun(s[at + 1..dot]) && IsEmailRun(s[dot + 1..])
  }

  /** The first index of `c` in `s`, or `|s|` when `c` does not occur. */
  function IndexOf(s: string, c: char): (k: nat)
    ensures k <= |s|
    ensures k < |s| ==> s[k] == c
    ensures forall i :: 0 <= i < k ==> s[i] != c
  {
    if s == [] then 0
    else if s[0] == c then 0
    else 1 + IndexOf(s[1..], c)
  }

  /**
   * The email rule as a scan: an '@' with something before it, no second
   * '@', no white space, and a '.' in the domain that is neither the
   * domain's first nor its last character.
   */
  predicate IsValidEmail(s: string) {
    var at := IndexOf(s, '@');
    && 0 < at < |s|
    && (forall i :: 0 <= i < |s| ==> !IsWhiteSpace(s[i]))
    && (forall i :: at < i < |s| ==> s[i] != '@')
    && exists dot :: at + 1 < dot < |s| - 1 && s[dot] == '.'
  }

  /** Every string the regular expression accepts passes the scan. */
  lemma EmailPatternSound(s: string)
    requires MatchesEmailPattern(s)
    ensures IsValidEmail(s)
  {
    var at, dot :| 0 <= at < dot < |s| && s[at] == '@' && s[dot] == '.'
      && IsEmailRun(s[..at]) && IsEmailRun(s[at + 1..dot]) && IsEmailRun(s[dot + 1..]);
    forall i | 0 <= i < |s| ensures !IsWhiteSpace(s[i]) && (i != at ==> s[i] != '@') {
      if i < at {
        assert s[i] == s[..at][i];
      } else if at < i < dot {
        assert s[i] == s[at + 1..dot][i - at - 1];
      } else if dot < i {
        assert s[i] == s[dot + 1..][i - dot - 1];
      }
    }
    assert IndexOf(s, '@') == at;
  }

  /** Every string that passes the scan is accepted by the regular expression. */
  lemma EmailPatternComplete(s: string)
    requires IsValidEmail(s)
    ensures MatchesEmailPattern(s)
  {
    var at := IndexOf(s, '@');
    var dot :| at + 1 < dot < |s| - 1 && s[dot] == '.';
    assert IsEmailRun(s[..at]);
    assert IsEmailRun(s[at + 1..dot]);
    assert IsEmailRun(s[dot + 1..]);
  }

  /** The scan accepts exactly the strings the regular expression accepts. */
  lemma EmailPatternIff(s: string)
    ensures MatchesEmailPattern(s) <==> IsValidEmail(s)
  {
    if MatchesEmailPattern(s) {
      EmailPatternSound(s);
    }
    if IsValidEmail(s) {
      EmailPatternComplete(s);
    }
  }

  // ---------------------------------------------------------------------
  // Password: /^(?=.*[a-z])(?=.*[A-Z])(?=.*\d)(?=.*[SYMBOLS]).{8,}$/
  // ---------------------------------------------------------------------

  /** The four character classes a password must each draw on. */
  datatype CharClass = Lower | Upper | Digit | Symbol

  /** The symbol class `[!@#$%^&*()_+\-=[\]{};':"\\|,.<>/?]`; backtick and tilde are not in it. */
  const PasswordSymbols: string := "!@#$%^&*()_+-=[]{};':\"\\|,.<>/?"

  /** The symbol class as ranges: the ASCII punctuation, except backtick and tilde. */
  predicate IsPasswordSymbol(c: char) {
    || ('!' <= c <= '/') || (':' <= c <= '@') || ('[' <= c <= '_') || ('{' <= c <= '}')
  }

  /** The ranges hold exactly the characters listed in the pattern's bracket. */
  lemma SymbolRangesAreTheList(c: char)
    ensures IsPasswordSymbol(c) <==> c in PasswordSymbols
  {
  }

  predicate InClass(c: char, k: CharClass) {
    match k
    case Lower => IsAsciiLower(c)
    case Upper => IsAsciiUpper(c)
    case Digit => IsAsciiDigit(c)
    case Symbol => IsPasswordSymbol(c)
  }

  const AllClasses: set<CharClass> := {Lower, Upper, Digit, Symbol}

  /** The classes one character belongs to (at most one, as the classes are disjoint). */
  function ClassesOf(c: char): (ks: set<CharClass>)
    ensures forall k :: k in ks <==> InClass(c, k)
  {
    set k | k in AllClasses && InClass(c, k)
  }

  /** The classes met while scanning `p`: a class is met iff some character of `p` is in it. */
  function ClassesSeen(p: string): (seen: set<CharClass>)
    ensures forall k :: k in seen <==> exists i :: 0 <= i < |p| && InClass(p[i], k)
  {
    if p == [] then {}
    else
      var init := p[..|p| - 1];
      var seen := ClassesSeen(init) + ClassesOf(p[|p| - 1]);
      assert forall k :: k in seen <==> exists i :: 0 <= i < |p| && InClass(p[i], k) by {
        forall k ensures k in seen <==> exists i :: 0 <= i < |p| && InClass(p[i], k) {
          if k in ClassesSeen(init) {
            var i :| 0 <= i < |init| && InClass(init[i], k);
            assert p[i] == init[i];
          } else if k in ClassesOf(p[|p| - 1]) {
            assert InClass(p[|p| - 1], k);
          }
          if exists i :: 0 <= i < |p| && InClass(p[i], k) {
            var i :| 0 <= i < |p| && InClass(p[i], k);
            if i < |p| - 1 {
              assert InClass(init[i], k);
            }
          }
        }
      }
      seen
  }

  /** No character of `p` ends a line, so the regex `.` matches each of them. */
  predicate HasNoLineTerminator(p: string) {
    forall i :: 0 <= i < |p| ==> !IsLineTerminator(p[i])
  }

  /** The password rule as a scan: eight characters or more, no line terminator, every class met. */
  predicate IsStrongPassword(p: string) {
    |p| >= 8 && HasNoLineTerminator(p) && AllClasses <= ClassesSeen(p)
  }

  /** `(?=.*[k])` tried at the start: a character of class `k` is reached across characters that `.` matches. */
  ghost predicate LookaheadFinds(p: string, k: CharClass) {
    exists i :: 0 <= i < |p| && InClass(p[i], k) && forall j :: 0 <= j < i ==> !IsLineTerminator(p[j])
  }

  /** The password pattern read literally: four lookaheads, then `.{8,}` up to the end of input. */
  ghost predicate MatchesPasswordPattern(p: string) {
    && LookaheadFinds(p, Lower) && LookaheadFinds(p, Upper)
    && LookaheadFinds(p, Digit) && LookaheadFinds(p, Symbol)
    && |p| >= 8 && HasNoLineTerminator(p)
  }

  /** Every class `p` draws on is in `ClassesSeen(p)`, so drawing on all four makes the scan see all four. */
  lemma {:induction false} SeesAllClasses(p: string)
    requires forall k :: k in AllClasses ==> exists i :: 0 <= i < |p| && InClass(p[i], k)
    ensures AllClasses <= ClassesSeen(p)
  {
    forall k | k in AllClasses ensures k in ClassesSeen(p) {
      var i :| 0 <= i < |p| && InClass(p[i], k);
    }
  }

  /** The scan accepts exactly the strings the regular expression accepts. */
  lemma PasswordPatternIff(p: string)
    ensures MatchesPasswordPattern(p) <==> IsStrongPassword(p)
  {
    if IsStrongPassword(p) {
      forall k | k in AllClasses ensures LookaheadFinds(p, k) {
        assert k in ClassesSeen(p);
        var i :| 0 <= i < |p| && InClass(p[i], k);
      }
    }
    if MatchesPasswordPattern(p) {
      forall k | k in AllClasses ensures exists i :: 0 <= i < |p| && InClass(p[i], k) {
        assert LookaheadFinds(p, k);
      }
      SeesAllClasses(p);
    }
  }

  // ---------------------------------------------------------------------
  // The error object
  // ---------------------------------------------------------------------

  /** The three optional error fields of the page. */
  datatype ErrorKey = EmailError | PasswordError | ConfirmError

  /**
   * The `errors` object. A key maps to `None` when it is present with the
   * value `undefined` (what the field-change handlers leave behind); the
   * object is empty for `Object.keys` only when the map is.
   */
  type Errors = map<ErrorKey, Option<string>>

  const EmailMessage: string := "Invalid email format"
  const PasswordMessage: string := "Password must be at least 8 characters and include uppercase, lowercase, number, and special character"
  const ConfirmMessage: string := "Passwords do not match"

  function MessageFor(k: ErrorKey): string {
    match k
    case EmailError => EmailMessage
    case PasswordError => PasswordMessage
    case ConfirmError => ConfirmMessage
  }

  /** The three checks all pass. */
  predicate CredentialsValid(email: string, password: string, confirmPassword: string) {
    IsValidEmail(email) && IsStrongPassword(password) && password == confirmPassword
  }

  /**
   * The object `newErrors` of `validate` and `revalidate`: one entry per
   * failing check, carrying that check's message; the checks do not depend
   * on one another.
   */
  function ValidationErrors(email: string, password: string, confirmPassword: string): (e: Errors)
    ensures EmailError in e <==> !IsValidEmail(email)
    ensures PasswordError in e <==> !IsStrongPassword(password)
    ensures ConfirmError in e <==> password != confirmPassword
    ensures forall k :: k in e ==> e[k] == Some(MessageFor(k))
    ensures e == map[] <==> CredentialsValid(email, password, confirmPassword)
  {
    var e0: Errors := map[];
    var e1 := if IsValidEmail(email) then e0 else e0[EmailError := Some(EmailMessage)];
    var e2 := if IsStrongPassword(password) then e1 else e1[PasswordError := Some(PasswordMessage)];
    var e3 := if password == confirmPassword then e2 else e2[ConfirmError := Some(ConfirmMessage)];
    assert !IsValidEmail(email) ==> EmailError in e3;
    assert !IsStrongPassword(password) ==> PasswordError in e3;
    e3
  }

  /** `if (errors.email)` and its siblings: the key is present with a non-empty message. */
  predicate IsShown(errors: Errors, k: ErrorKey) {
    k in errors && errors[k].Some? && errors[k].value != ""
  }

  // ---------------------------------------------------------------------
  // The form's field values
  // ---------------------------------------------------------------------

  /** The eight inputs of step 1. */
  datatype Field = FullName | Phone | Gender | Dob | Location | Email | Password | ConfirmPassword

  datatype SignupForm = SignupForm(
    fullName: string, phone: string, gender: string, dob: string,
    location: string, email: string, password: string, confirmPassword: string)
  {
    function Get(f: Field): string {
      match f
      case FullName => fullName
      case Phone => phone
      case Gender => gender
      case Dob => dob
      case Location => location
      case Email => email
      case Password => password
      case ConfirmPassword => confirmPassword
    }

    /** The form after field `f` is set to `v`; every other field keeps its value. */
    function With(f: Field, v: string): (r: SignupForm)
      ensures r.Get(f) == v
      ensures forall g :: g != f ==> r.Get(g) == Get(g)
    {
      match f
      case FullName => this.(fullName := v)
      case Phone => this.(phone := v)
      case Gender => this.(gender := v)
      case Dob => this.(dob := v)
      case Location => this.(location := v)
      case Email => this.(email := v)
      case Password => this.(password := v)
      case ConfirmPassword => this.(confirmPassword := v)
    }

    /** Every field is a non-empty (truthy) string. */
    predicate AllFilled() {
      && fullName != "" && phone != "" && gender != "" && dob != ""
      && location != "" && email != "" && password != "" && confirmPassword != ""
    }

    function Errors(): Errors {
      ValidationErrors(email, password, confirmPassword)
    }

    predicate Credentials() {
      CredentialsValid(email, password, confirmPassword)
    }
  }

  /** The value the `canProceed` effect computes: all eight fields filled and `Object.keys(errors)` empty. */
  predicate CanProceedFor(form: SignupForm, errors: Errors) {
    form.AllFilled() && errors == map[]
  }

  /** Validating the values on screen opens the Next button exactly when every field is filled and all three checks pass. */
  lemma CanProceedAfterValidation(form: SignupForm)
    ensures CanProceedFor(form, form.Errors()) <==> form.AllFilled() && form.Credentials()
  {
  }

  /** The error key a field's change handler clears, if any. */
  function ErrorKeyOf(f: Field): Option<ErrorKey> {
    match f
    case Email => Some(EmailError)
    case Password => Some(PasswordError)
    case ConfirmPassword => Some(ConfirmError)
    case _ => None
  }

  /**
   * The errors after a field's change handler: for email, password and
   * confirm, a shown error of that field becomes `undefined` (its key stays);
   * nothing else changes.
   */
  function ClearedFor(errors: Errors, f: Field): (r: Errors)
    ensures r.Keys == errors.Keys
    ensures forall k :: k in errors && Some(k) != ErrorKeyOf(f) ==> r[k] == errors[k]
    ensures forall k :: Some(k) == ErrorKeyOf(f) ==> !IsShown(r, k)
    ensures forall k :: Some(k) == ErrorKeyOf(f) && k in errors ==>
      r[k] == if IsShown(errors, k) then None else errors[k]
  {
    match ErrorKeyOf(f)
    case None => errors
    case Some(k) => if IsShown(errors, k) then errors[k := None] else errors
  }

  /**
   * The handlers' revalidation reads the values of the render before the
   * edit. Whenever an edit turns failing credentials into passing ones on a
   * complete form, the Next button stays disabled, while validating the
   * edited values would enable it.
   */
  lemma StaleRevalidationLags(before: SignupForm, f: Field, v: string)
    requires !before.Credentials()
    requires before.With(f, v).AllFilled() && before.With(f, v).Credentials()
    ensures !CanProceedFor(before.With(f, v), before.Errors())
    ensures CanProceedFor(before.With(f, v), before.With(f, v).Errors())
  {
  }

  /** A complete form in which only the confirmation differs from the password, which lacks its symbol. */
  const StaleBefore: SignupForm := SignupForm("Ann", "0912345678", "Female", "2000-01-01", "Yangon", "a@b.co", "Passw0rd", "Passw0rd!")
  const StaleAfter: SignupForm := SignupForm("Ann", "0912345678", "Female", "2000-01-01", "Yangon", "a@b.co", "Passw0rd!", "Passw0rd!")

  /** Typing the password's missing '!' is such an edit: it makes the form valid, yet Next stays disabled. */
  lemma StaleRevalidationBlocksNext()
    ensures StaleAfter == StaleBefore.With(Password, "Passw0rd!")
    ensures StaleAfter.AllFilled() && !StaleBefore.Credentials() && StaleAfter.Credentials()
    ensures !CanProceedFor(StaleAfter, StaleBefore.Errors())
    ensures CanProceedFor(StaleAfter, StaleAfter.Errors())
  {
    assert |StaleBefore.password| != |StaleBefore.confirmPassword|;
    ExamplePasswordIsStrong();
    ExampleEmailIsValid();
    StaleRevalidationLags(StaleBefore, Password, "Passw0rd!");
  }

  lemma ExamplePasswordIsStrong()
    ensures IsStrongPassword("Passw0rd!")
  {
    var p := "Passw0rd!";
    assert HasNoLineTerminator(p);
    assert InClass(p[1], Lower) && InClass(p[0], Upper) && InClass(p[5], Digit) && InClass(p[8], Symbol);
    StrongFromWitnesses(p, 1, 0, 5, 8);
  }

  /** Eight characters or more without a line terminator, with one character of each class at the given indices, pass the scan. */
  lemma StrongFromWitnesses(p: string, lower: nat, upper: nat, digit: nat, symbol: nat)
    requires |p| >= 8 && HasNoLineTerminator(p)
    requires lower < |p| && upper < |p| && digit < |p| && symbol < |p|
    requires InClass(p[lower], Lower) && InClass(p[upper], Upper) && InClass(p[digit], Digit) && InClass(p[symbol], Symbol)
    ensures IsStrongPassword(p)
  {
    SeesAllClasses(p);
  }

  lemma ExampleEmailIsValid()
    ensures IsValidEmail("a@b.co")
  {
    var e := "a@b.co";
    assert IndexOf(e, '@') == 1;
    assert e[3] == '.';
  }
}
