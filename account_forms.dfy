/**
 * accounts/forms.py: the phone-number pattern of the registration form, the
 * new-password confirmation of the password-change form, and what the two
 * `save` methods write. Django's `CharField` strips surrounding white space
 * before any check, so every check below sees `Strip(raw)`.
 */
module AccountForms {
  import opened Types
  import opened Accounts
  import opened Text

  // ---------------------------------------------------------------------
  // Phone number: RegexValidator(r'^\+?1?\d{9,15}$')

  /** `\d{lo,hi}` matching the whole of `s` (ASCII digits). */
  predicate DigitRun(s: string, lo: nat, hi: nat)
  {
    lo <= |s| <= hi && AllDigits(s)
  }

  /** `1?\d{9,15}$` on what follows the optional plus: the engine may take or skip the `1`. */
  predicate MatchesAfterPlus(t: string)
  {
    DigitRun(t, 9, 15) || (|t| >= 1 && t[0] == '1' && DigitRun(t[1..], 9, 15))
  }

  /** `^\+?1?\d{9,15}$`, trying both choices of the optional plus. */
  predicate PhoneNumberMatches(s: string)
  {
    MatchesAfterPlus(s) || (|s| >= 1 && s[0] == '+' && MatchesAfterPlus(s[1..]))
  }

  /**
   * The accepted numbers, stated without the regex: an optional "+", then
   * only digits, 9 to 15 of them, or 10 to 16 when the first digit is "1";
   * the whole number has 9 to 17 characters.
   */
  lemma PhoneNumberShape(s: string)
    ensures PhoneNumberMatches(s) <==>
      var rest := if |s| >= 1 && s[0] == '+' then s[1..] else s;
      AllDigits(rest) && (9 <= |rest| <= 15 || (10 <= |rest| <= 16 && rest[0] == '1'))
    ensures PhoneNumberMatches(s) ==> 9 <= |s| <= 17
  {
    if |s| >= 1 && s[0] == '+' {
      assert !IsDigit(s[0]);
      assert !MatchesAfterPlus(s);
    }
  }

  datatype FieldError = Required | InvalidFormat | PasswordMismatch | WrongOldPassword

  /** The errors of the `phone_number` field: required, then the pattern. */
  function PhoneNumberErrors(raw: string): (errs: set<FieldError>)
    ensures errs == {} <==> PhoneNumberMatches(Strip(raw))
    ensures errs <= {Required, InvalidFormat}
  {
    var v := Strip(raw);
    if v == "" then {Required}
    else if !PhoneNumberMatches(v) then {InvalidFormat}
    else {}
  }

  lemma PhoneNumberAccepts()
    ensures PhoneNumberMatches("+1234567890")
  {
    var t := "+1234567890"[1..];
    assert t == "1234567890";
    assert AllDigits(t);
  }

  lemma PhoneNumberRejectsShort()
    ensures !PhoneNumberMatches("12345678")
  {
    PhoneNumberShape("12345678");
  }

  lemma PhoneNumberRejectsDash()
    ensures !PhoneNumberMatches("+12345-6789")
  {
    var s := "+12345-6789";
    PhoneNumberShape(s);
    assert !IsDigit(s[1..][5]);
  }

  // ---------------------------------------------------------------------
  // PasswordChangeForm

  /** Errors keyed by field name. */
  datatype PasswordField = OldPassword | NewPassword1 | NewPassword2

  /**
   * Field cleaning (each field required) followed by `clean()`, which
   * reports a mismatch on `new_password2` only when both new passwords
   * survived field cleaning and differ. `oldPasswordOk` is the outcome of
   * `check_password`, which is not modelled.
   */
  function PasswordChangeErrors(oldRaw: string, oldPasswordOk: bool, raw1: string, raw2: string)
    : (errs: set<(PasswordField, FieldError)>)
    ensures (NewPassword2, PasswordMismatch) in errs <==>
              Strip(raw1) != "" && Strip(raw2) != "" && Strip(raw1) != Strip(raw2)
    ensures errs == {} ==> Strip(raw1) == Strip(raw2) != ""
  {
    CleanedPasswordErrors(Strip(oldRaw) != "", oldPasswordOk, Strip(raw1), Strip(raw2))
  }

  /** The same checks on the cleaned values. */
  function CleanedPasswordErrors(oldGiven: bool, oldPasswordOk: bool, p1: string, p2: string)
    : (errs: set<(PasswordField, FieldError)>)
    ensures (NewPassword2, PasswordMismatch) in errs <==> p1 != "" && p2 != "" && p1 != p2
    ensures errs == {} ==> p1 == p2 != ""
  {
    ReportedIf(!oldGiven, (OldPassword, Required))
    + ReportedIf(oldGiven && !oldPasswordOk, (OldPassword, WrongOldPassword))
    + ReportedIf(p1 == "", (NewPassword1, Required))
    + ReportedIf(p2 == "", (NewPassword2, Required))
    + ReportedIf(p1 != "" && p2 != "" && p1 != p2, (NewPassword2, PasswordMismatch))
  }

  /** The error `e` when `cond` holds, nothing otherwise. */
  function ReportedIf(cond: bool, e: (PasswordField, FieldError)): (errs: set<(PasswordField, FieldError)>)
    ensures forall x :: x in errs <==> cond && x == e
  {
    if cond then {e} else {}
  }

  // ---------------------------------------------------------------------
  // The two `save` methods, against the user and profile tables

  datatype Profile = StudentProfile(user: UserId) | LandlordProfile(user: UserId)

  /** The profile kind a user type calls for: none for admins. */
  predicate ProfileFits(p: Profile, t: UserType)
  {
    match p
    case StudentProfile(_) => t == Student
    case LandlordProfile(_) => t == Landlord
  }

  /** The profile rows `UserRegistrationForm.save` creates for a saved user. */
  function ProfilesFor(u: User): (ps: seq<Profile>)
    ensures |ps| == (if u.userType == Admin then 0 else 1)
    ensures forall i :: 0 <= i < |ps| ==> ps[i].user == u.id && ProfileFits(ps[i], u.userType)
  {
    match u.userType
    case Student => [StudentProfile(u.id)]
    case Landlord => [LandlordProfile(u.id)]
    case Admin => []
  }

  class AccountStore {
    var users: map<UserId, User>
    var profiles: seq<Profile>

    /** Every profile belongs to a stored user of the matching type, one profile per user. */
    ghost predicate Valid()
      reads this
    {
      && (forall i :: 0 <= i < |profiles| ==>
            profiles[i].user in users && ProfileFits(profiles[i], users[profiles[i].user].userType))
      && (forall i, j :: 0 <= i < j < |profiles| ==> profiles[i].user != profiles[j].user)
    }

    constructor ()
      ensures users == map[] && profiles == [] && Valid()
    {
      users := map[];
      profiles := [];
    }

    /**
     * `UserRegistrationForm.save(commit)` for the user the base form built:
     * e-mail and phone number are copied from the cleaned data; with commit
     * the user is stored and one profile of its kind is created (none for
     * an admin); without commit nothing is stored.
     */
    method SaveRegistration(user: User, email: string, phoneNumber: string, commit: bool)
      returns (saved: User)
      modifies this
      ensures saved == user.(email := email, phoneNumber := phoneNumber)
      ensures commit ==> users == old(users)[user.id := saved] && profiles == old(profiles) + ProfilesFor(saved)
      ensures !commit ==> users == old(users) && profiles == old(profiles)
      ensures old(Valid()) && user.id !in old(users) ==> Valid()
    {
      saved := user.(email := email, phoneNumber := phoneNumber);
      if commit {
        users := users[user.id := saved];
        if saved.userType == Student {
          profiles := profiles + [StudentProfile(saved.id)];
        } else if saved.userType == Landlord {
          profiles := profiles + [LandlordProfile(saved.id)];
        }
      }
    }

    /**
     * `PasswordChangeForm.save(commit)`: the user's password becomes the
     * cleaned `new_password1`; it is stored only with commit.
     */
    method SavePasswordChange(user: User, newPassword1: string, commit: bool) returns (updated: User)
      modifies this
      ensures updated == user.(password := newPassword1)
      ensures users == if commit then old(users)[user.id := updated] else old(users)
      ensures profiles == old(profiles)
    {
      updated := user.(password := newPassword1);
      if commit {
        users := users[user.id := updated];
      }
    }
  }
}
