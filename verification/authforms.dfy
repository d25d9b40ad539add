/** The login and registration form (components/AuthForms.tsx): the
    ordered checks of `handleSubmit`, each ending the submission with its
    own message, the digit-only phone input and the mode toggle. The form's
    state becomes the fields of `AuthForm`; the `onSuccess` callback is the
    user `HandleSubmit` returns. */
module AuthForms {
  import opened Types
  import Utils
  import AuthService
  import Seqs

  const FILL_ALL_FIELDS: string := "Please fill in all fields"
  const ALL_FIELDS_REQUIRED: string := "All fields are required"
  const INVALID_EMAIL: string := "Invalid email format"
  const INVALID_PHONE: string := "Phone must be 11 digits numbers only"
  const SHORT_PASSWORD: string := "Password must be at least 6 characters"

  /** The characters of the regular-expression class `\s` of ECMAScript:
      the white space and line terminators of the language. */
  predicate IsWhitespace(c: char) {
    c == '\t' || c == '\n' || c == '\U{B}' || c == '\U{C}' || c == '\r' || c == ' '
    || c == '\U{A0}' || c == '\U{1680}' || ('\U{2000}' <= c <= '\U{200A}')
    || c == '\U{2028}' || c == '\U{2029}' || c == '\U{202F}' || c == '\U{205F}'
    || c == '\U{3000}' || c == '\U{FEFF}'
  }

  /** The class `[^\s@]`. */
  predicate NameChar(c: char) {
    !IsWhitespace(c) && c != '@'
  }

  predicate AllNameChars(s: string) {
    forall k :: 0 <= k < |s| ==> NameChar(s[k])
  }

  /** `s` splits as `[^\s@]+` `@` `[^\s@]+` `\.` `[^\s@]+`, with the `@` at
      `i` and the dot at `j`. */
  predicate EmailSplitAt(s: string, i: int, j: int) {
    0 < i && i + 1 < j && j + 1 < |s| && s[i] == '@' && s[j] == '.'
    && AllNameChars(s[..i]) && AllNameChars(s[i + 1..j]) && AllNameChars(s[j + 1..])
  }

  /** `/^[^\s@]+@[^\s@]+\.[^\s@]+$/.test(s)`. */
  predicate EmailFormat(s: string) {
    exists i, j :: 0 < i < |s| && 0 < j < |s| && EmailSplitAt(s, i, j)
  }

  /** An accepted email has no white space, exactly one `@`, not at the
      start, and a dot at least two characters after it, not at the end. */
  lemma {:induction false} EmailFormatShape(s: string)
    requires EmailFormat(s)
    ensures forall k :: 0 <= k < |s| ==> !IsWhitespace(s[k])
    ensures exists i :: 0 < i < |s| && s[i] == '@' && (forall k :: 0 <= k < |s| && s[k] == '@' ==> k == i)
                        && exists j :: i + 1 < j < |s| - 1 && s[j] == '.'
  {
    var i, j :| 0 < i < |s| && 0 < j < |s| && EmailSplitAt(s, i, j);
    forall k | 0 <= k < |s| && k != i ensures NameChar(s[k]) {
      if k < i {
        assert s[k] == s[..i][k];
      } else if k < j {
        assert s[k] == s[i + 1..j][k - i - 1];
      } else if k > j {
        assert s[k] == s[j + 1..][k - j - 1];
      }
    }
  }

  /** Examples: a plain address passes; a missing dot, a missing `@`, an
      empty local part or a space fails. */
  lemma EmailExamples()
    ensures EmailFormat("a@b.co")
    ensures !EmailFormat("a@bco")
    ensures !EmailFormat("ab.co")
    ensures !EmailFormat("@b.co")
    ensures !EmailFormat("a b@c.d")
  {
    assert EmailSplitAt("a@b.co", 1, 3) by {
      assert "a@b.co"[..1] == "a" && "a@b.co"[2..3] == "b" && "a@b.co"[4..] == "co";
    }
    assert forall k :: 0 <= k < 5 ==> "a@bco"[k] != '.';
    assert forall k :: 0 <= k < 5 ==> "ab.co"[k] != '@';
    if EmailFormat("a b@c.d") {
      EmailFormatShape("a b@c.d");
      assert IsWhitespace("a b@c.d"[1]);
      assert false;
    }
  }

  /** What submitting does: reject with a message, or call the service. */
  datatype SubmitOutcome =
    | Rejected(message: string)
    | CallLogin(identifier: string, password: string)
    | CallRegister(email: string, phone: string, password: string)

  /** The checks of `handleSubmit` in their order; the first failing one
      gives the message. */
  function SubmitCheck(isLogin: bool, email: string, phone: string, password: string): (r: SubmitOutcome)
    ensures r == Rejected(FILL_ALL_FIELDS) <==> isLogin && (email == "" || password == "")
    ensures r == Rejected(ALL_FIELDS_REQUIRED) <==> !isLogin && (email == "" || phone == "" || password == "")
    ensures r == Rejected(INVALID_EMAIL) <==>
      !isLogin && email != "" && phone != "" && password != "" && !EmailFormat(email)
    ensures r == Rejected(INVALID_PHONE) <==>
      !isLogin && email != "" && phone != "" && password != "" && EmailFormat(email)
      && !Utils.ValidateWhatsAppNumber(phone)
    ensures r == Rejected(SHORT_PASSWORD) <==>
      !isLogin && email != "" && phone != "" && password != "" && EmailFormat(email)
      && Utils.ValidateWhatsAppNumber(phone) && Seqs.Utf16Length(password) < 6
    ensures r.CallLogin? <==> isLogin && email != "" && password != ""
    ensures r.CallLogin? ==> r == CallLogin(email, password)
    ensures r.CallRegister? <==>
      !isLogin && email != "" && phone != "" && password != "" && EmailFormat(email)
      && Utils.ValidateWhatsAppNumber(phone) && Seqs.Utf16Length(password) >= 6
    ensures r.CallRegister? ==> r == CallRegister(email, phone, password)
  {
    if isLogin then
      if email == "" || password == "" then Rejected(FILL_ALL_FIELDS)
      else CallLogin(email, password)
    else if email == "" || phone == "" || password == "" then Rejected(ALL_FIELDS_REQUIRED)
    else if !EmailFormat(email) then Rejected(INVALID_EMAIL)
    else if !Utils.ValidateWhatsAppNumber(phone) then Rejected(INVALID_PHONE)
    else if Seqs.Utf16Length(password) < 6 then Rejected(SHORT_PASSWORD)
    else CallRegister(email, phone, password)
  }

  /** Three emoji are three characters but six UTF-16 code units, so the
      length check counts them as a six-character password; three letters
      stay three. */
  lemma PasswordLengthInCodeUnits()
    ensures |"\U{1F600}\U{1F600}\U{1F600}"| == 3 && Seqs.Utf16Length("\U{1F600}\U{1F600}\U{1F600}") == 6
    ensures Seqs.Utf16Length("abc") == 3
  {
    var emoji := "\U{1F600}\U{1F600}\U{1F600}";
    assert emoji[1..] == "\U{1F600}\U{1F600}" && emoji[1..][1..] == "\U{1F600}";
  }

  /** The phone input keeps digits only, so once the email passes the
      phone check fails only for a wrong length. */
  lemma {:induction false} StrippedPhoneFailsOnlyOnLength(email: string, raw: string, password: string)
    requires email != "" && password != "" && EmailFormat(email) && Utils.DigitsOnly(raw) != ""
    ensures SubmitCheck(false, email, Utils.DigitsOnly(raw), password) == Rejected(INVALID_PHONE)
            <==> |Utils.DigitsOnly(raw)| != 11
  {
    Utils.WhatsAppNumberIff(Utils.DigitsOnly(raw));
  }

  /** The two inputs that share `handleChange`. */
  datatype TextInput = EmailInput | PasswordInput

  class AuthForm {
    var isLogin: bool
    var email: string
    var phone: string
    var password: string
    var error: Option<string>

    constructor ()
      ensures isLogin && email == "" && phone == "" && password == "" && error == None
    {
      isLogin := true;
      email := "";
      phone := "";
      password := "";
      error := None;
    }

    /** `handleChange`: the field takes the value and the error clears. */
    method HandleChange(input: TextInput, value: string)
      modifies this
      ensures input == EmailInput ==> email == value && password == old(password)
      ensures input == PasswordInput ==> password == value && email == old(email)
      ensures phone == old(phone) && isLogin == old(isLogin) && error == None
    {
      if input == EmailInput {
        email := value;
      } else {
        password := value;
      }
      error := None;
    }

    /** The phone input keeps only the digits typed; the error stays. */
    method EditPhone(raw: string)
      modifies this
      ensures phone == Utils.DigitsOnly(raw)
      ensures forall k :: 0 <= k < |phone| ==> Utils.IsDigit(phone[k])
      ensures email == old(email) && password == old(password) && isLogin == old(isLogin) && error == old(error)
    {
      phone := Utils.DigitsOnly(raw);
    }

    /** The toggle: the other mode, no error, all three fields empty. */
    method ToggleMode()
      modifies this
      ensures isLogin == !old(isLogin) && error == None
      ensures email == "" && phone == "" && password == ""
    {
      isLogin := !isLogin;
      error := None;
      email := "";
      phone := "";
      password := "";
    }

    /** `handleSubmit`. A rejected form touches neither users nor session;
        otherwise the service decides, and its user, on success, is what the
        form hands to `onSuccess`, while its message, on failure, is the
        error shown. */
    method HandleSubmit(auth: AuthService.AuthStore, attempts: seq<seq<Utils.CharIndex>>)
      returns (loggedIn: Option<User>)
      requires AuthService.WellFormedAttempts(attempts) && AuthService.SomeAttemptFresh(auth.users, attempts)
      modifies this, auth
      ensures isLogin == old(isLogin) && email == old(email) && phone == old(phone) && password == old(password)
      ensures SubmitCheck(isLogin, email, phone, password).Rejected? ==>
        && error == Some(SubmitCheck(isLogin, email, phone, password).message) && loggedIn == None
        && auth.users == old(auth.users) && auth.session == old(auth.session)
      ensures SubmitCheck(isLogin, email, phone, password).CallLogin? ==>
        && auth.users == old(auth.users)
        && (email == AuthService.ADMIN_CODE && password == AuthService.ADMIN_CODE ==>
              loggedIn == Some(AuthService.ADMIN_USER))
        && (!(email == AuthService.ADMIN_CODE && password == AuthService.ADMIN_CODE) ==>
              loggedIn == AuthService.FindByCredentials(old(auth.users), email, password))
      ensures SubmitCheck(isLogin, email, phone, password).CallRegister? ==>
        && (AuthService.EmailTaken(old(auth.users), email) ==>
              loggedIn == None && error == Some(AuthService.EMAIL_TAKEN)
              && auth.users == old(auth.users) && auth.session == old(auth.session))
        && (!AuthService.EmailTaken(old(auth.users), email) && AuthService.PhoneTaken(old(auth.users), phone) ==>
              loggedIn == None && error == Some(AuthService.PHONE_TAKEN)
              && auth.users == old(auth.users) && auth.session == old(auth.session))
        && (!AuthService.EmailTaken(old(auth.users), email) && !AuthService.PhoneTaken(old(auth.users), phone) ==>
              loggedIn == Some(AuthService.NewCustomer(AuthService.FreshId(old(auth.users), attempts), email, phone, password))
              && auth.users == old(auth.users) + [loggedIn.value])
      ensures !SubmitCheck(isLogin, email, phone, password).Rejected? ==>
        && (loggedIn.Some? ==> error == None && auth.session == loggedIn)
        && (loggedIn.None? && SubmitCheck(isLogin, email, phone, password).CallLogin? ==>
              error == Some(AuthService.BAD_CREDENTIALS) && auth.session == old(auth.session))
    {
      error := None;
      var check := SubmitCheck(isLogin, email, phone, password);
      match check
      case Rejected(message) =>
        error := Some(message);
        loggedIn := None;
      case CallLogin(identifier, pw) =>
        var res := auth.LoginUser(identifier, pw);
        if res.success && res.user.Some? {
          loggedIn := res.user;
        } else {
          error := Some(res.message);
          loggedIn := None;
        }
      case CallRegister(e, ph, pw) =>
        var res := auth.RegisterUser(e, ph, pw, attempts);
        if res.success && res.user.Some? {
          loggedIn := res.user;
        } else {
          error := Some(res.message);
          loggedIn := None;
        }
    }
  }
}
