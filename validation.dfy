/** The client-side validation rules of the login/registration form.

    The form is a snapshot of its four text inputs. Validation is a pure
    decision from the current mode and that snapshot to at most one error:
    the rules are checked in a fixed order and the first rule that fires
    decides the error shown to the user.
 */
module Validation {

  datatype Option<T> = None | Some(value: T)

  /** Which of the two forms is on screen. */
  datatype Mode = Login | Register

  /** The four input fields of the form. */
  datatype Field = Email | Password | Name | Phone

  /** The current values of the four inputs. */
  datatype Form = Form(email: string, password: string, name: string, phone: string)

  /** The three validation failures, in the order their rules are checked. */
  datatype FormError = MissingFields | PasswordTooShort | InvalidPhone

  /** The form as it is when the page is mounted: every input empty. */
  const EmptyForm: Form := Form("", "", "", "")

  /** A registration password needs at least this many characters. */
  const MinPasswordLength: nat := 6

  /** A phone number is exactly this many decimal digits. */
  const PhoneDigits: nat := 10

  /** The text shown to the user for each validation failure. */
  function Message(e: FormError): (m: string)
    ensures m != []
  {
    match e
    case MissingFields => "Vui lòng nhập đầy đủ thông tin"
    case PasswordTooShort => "Mật khẩu phải có ít nhất 6 ký tự"
    case InvalidPhone => "Số điện thoại không hợp lệ"
  }

  /** Different failures are reported with different texts, so the user can
      tell which rule fired. */
  lemma MessagesDistinct(e1: FormError, e2: FormError)
    ensures Message(e1) == Message(e2) <==> e1 == e2
  {
  }

  /** The value of one input. */
  function Get(f: Form, k: Field): (s: string)
  {
    match k
    case Email => f.email
    case Password => f.password
    case Name => f.name
    case Phone => f.phone
  }

  /** The form with one input replaced, as the object spread `{...formData, [name]: value}`
      builds it. */
  function Set(f: Form, k: Field, v: string): (g: Form)
    ensures Get(g, k) == v
    ensures forall j :: j != k ==> Get(g, j) == Get(f, j)
  {
    match k
    case Email => f.(email := v)
    case Password => f.(password := v)
    case Name => f.(name := v)
    case Phone => f.(phone := v)
  }

  /** The inputs that must be non-empty in each mode. */
  function Required(mode: Mode): (ks: set<Field>)
    ensures Email in ks && Password in ks
    ensures Name in ks <==> mode == Register
    ensures Phone in ks <==> mode == Register
  {
    match mode
    case Login => {Email, Password}
    case Register => {Email, Password, Name, Phone}
  }

  /** A decimal digit, the class `\d` of a JavaScript regular expression. */
  predicate IsDigit(c: char)
  {
    '0' <= c <= '9'
  }

  /** `s` matches the anchored pattern `\d{n}$`: n digits, then the end of
      the input. The matcher consumes one digit per step, as the pattern
      does. */
  predicate MatchesDigitRun(s: string, n: nat)
    decreases n
  {
    if n == 0 then s == []
    else s != [] && IsDigit(s[0]) && MatchesDigitRun(s[1..], n - 1)
  }

  /** `/^\d{10}$/.test(phone)`. */
  predicate IsPhoneNumber(phone: string)
  {
    MatchesDigitRun(phone, PhoneDigits)
  }

  /** The anchored digit pattern accepts exactly the strings of length n made
      only of digits. */
  lemma {:induction false} DigitRunExactly(s: string, n: nat)
    ensures MatchesDigitRun(s, n) <==> |s| == n && forall i :: 0 <= i < |s| ==> IsDigit(s[i])
    decreases n
  {
    if n != 0 && s != [] {
      DigitRunExactly(s[1..], n - 1);
      if |s| == n && forall i :: 0 <= i < |s| ==> IsDigit(s[i]) {
        assert forall i :: 0 <= i < |s[1..]| ==> IsDigit(s[1..][i]) by {
          forall i | 0 <= i < |s[1..]| ensures IsDigit(s[1..][i]) {
            assert s[1..][i] == s[i + 1];
          }
        }
      }
      if MatchesDigitRun(s, n) {
        forall i | 0 <= i < |s| ensures IsDigit(s[i]) {
          if i > 0 { assert s[i] == s[1..][i - 1]; }
        }
      }
    }
  }

  /** Every rule of the form, stated all at once: the mode's required inputs
      are filled in and, when registering, the password is long enough and
      the phone is exactly ten digits. */
  ghost predicate Acceptable(mode: Mode, f: Form)
  {
    (forall k :: k in Required(mode) ==> Get(f, k) != []) &&
    (mode == Register ==>
      |f.password| >= MinPasswordLength &&
      |f.phone| == PhoneDigits &&
      forall i :: 0 <= i < |f.phone| ==> IsDigit(f.phone[i]))
  }

  /** The decision of `validateForm`: the first rule that fails, or None when
      every rule passes. A JavaScript string is falsy exactly when it is
      empty, so `!email` is `email == []`. */
  function Validate(mode: Mode, f: Form): (r: Option<FormError>)
    ensures r == None <==> Acceptable(mode, f)
  {
    DigitRunExactly(f.phone, PhoneDigits);
    assert Get(f, Email) == f.email && Get(f, Password) == f.password;
    assert Get(f, Name) == f.name && Get(f, Phone) == f.phone;
    match mode
    case Login =>
      if f.email == [] || f.password == [] then Some(MissingFields)
      else None
    case Register =>
      if f.email == [] || f.password == [] || f.name == [] || f.phone == [] then Some(MissingFields)
      else if |f.password| < MinPasswordLength then Some(PasswordTooShort)
      else if !IsPhoneNumber(f.phone) then Some(InvalidPhone)
      else None
  }

  /** In either mode, the "missing fields" error is reported exactly when some
      required input is empty; that rule is checked before every other one. */
  lemma MissingFieldsRule(mode: Mode, f: Form)
    ensures Validate(mode, f) == Some(MissingFields) <==>
            exists k :: k in Required(mode) && Get(f, k) == []
  {
    if Validate(mode, f) == Some(MissingFields) {
      if f.email == [] { assert Get(f, Email) == []; }
      else if f.password == [] { assert Get(f, Password) == []; }
      else if f.name == [] { assert Get(f, Name) == []; }
      else { assert Get(f, Phone) == []; }
    }
  }

  /** In login mode only the email and password are looked at: name and phone
      may hold anything, and neither the length nor the phone rule runs. */
  lemma LoginChecksOnlyCredentials(f: Form, name: string, phone: string)
    ensures Validate(Login, f) == Validate(Login, f.(name := name, phone := phone))
    ensures Validate(Login, f) == None <==> f.email != [] && f.password != []
    ensures Validate(Login, f) != Some(PasswordTooShort)
    ensures Validate(Login, f) != Some(InvalidPhone)
  {
  }

  /** When registering with every input filled in, a password shorter than
      six characters is reported whatever the phone holds: the length rule
      runs before the phone rule. */
  lemma ShortPasswordBeforePhone(f: Form, phone: string)
    requires f.email != [] && f.name != [] && f.password != [] && phone != []
    requires |f.password| < MinPasswordLength
    ensures Validate(Register, f.(phone := phone)) == Some(PasswordTooShort)
  {
  }

  /** When registering, once the inputs are filled in and the password is
      long enough, the form is accepted exactly when the phone is ten decimal
      digits, and rejected as an invalid phone otherwise. */
  lemma PhoneRule(f: Form)
    requires forall k :: k in Required(Register) ==> Get(f, k) != []
    requires |f.password| >= MinPasswordLength
    ensures Validate(Register, f) == None <==>
            |f.phone| == PhoneDigits && forall i :: 0 <= i < |f.phone| ==> IsDigit(f.phone[i])
    ensures Validate(Register, f) != None ==> Validate(Register, f) == Some(InvalidPhone)
  {
    assert Get(f, Email) != [] && Get(f, Password) != [] && Get(f, Name) != [] && Get(f, Phone) != [];
  }

  /** Registration checks a superset of the login rules: a form that
      registers would also log in. */
  lemma RegisterStricterThanLogin(f: Form)
    ensures Validate(Register, f) == None ==> Validate(Login, f) == None
  {
  }

  /** Ten plain digits are a phone number. */
  lemma PhoneAccepted()
    ensures IsPhoneNumber("0912345678")
  {
  }

  /** One digit too few or too many, a separator, a leading `+` or a letter
      is not a phone number. */
  lemma PhoneRejected()
    ensures !IsPhoneNumber("091234567")
    ensures !IsPhoneNumber("09123456789")
    ensures !IsPhoneNumber("0912 45678")
    ensures !IsPhoneNumber("+849123456")
    ensures !IsPhoneNumber("091234567a")
  {
  }
}
