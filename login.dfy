/** The login screen: a two-field validator, the display name taken from
    the email, and the form whose submit either reports errors or hands
    the credentials on. */
module Login {
  import opened Records
  import opened TextRules

  const PasswordRequired := "Password is required"
  const PasswordTooShort := "Password must be at least 6 characters"

  /** The shortest password accepted, in characters. */
  const MinPasswordLength := 6

  /** The keys of the login form's error object. */
  datatype LoginField = EmailField | PasswordField

  type LoginErrors = map<LoginField, string>

  /** What the login callback receives. */
  datatype Credentials = Credentials(email: string, name: string)

  /** The email rule: required (an empty string only; whitespace is not
      trimmed here), then the `\S+@\S+\.\S+` search must succeed. */
  function EmailRule(email: string): (message: Option<string>)
    ensures message.Some? ==> message.value == EmailRequired || message.value == EmailInvalid
  {
    if email == "" then Some(EmailRequired)
    else if !EmailTest(email) then Some(EmailInvalid)
    else None
  }

  /** The password rule: required, then at least six characters. */
  function PasswordRule(password: string): (message: Option<string>)
    ensures message.Some? <==> |password| < MinPasswordLength
    ensures password == "" ==> message == Some(PasswordRequired)
    ensures 0 < |password| < MinPasswordLength ==> message == Some(PasswordTooShort)
  {
    if password == "" then Some(PasswordRequired)
    else if |password| < MinPasswordLength then Some(PasswordTooShort)
    else None
  }

  /** The validator: both rules applied, each to its own field. */
  function Validate(email: string, password: string): (errors: LoginErrors)
    ensures Verdict(errors, EmailField) == EmailRule(email)
    ensures Verdict(errors, PasswordField) == PasswordRule(password)
  {
    var e := EmailRule(email);
    var p := PasswordRule(password);
    var withEmail: LoginErrors := if e.Some? then map[EmailField := e.value] else map[];
    if p.Some? then withEmail[PasswordField := p.value] else withEmail
  }

  /** An empty email is missing; any other email the pattern rejects,
      whitespace-only ones included, is invalid. */
  lemma ValidateEmail(email: string, password: string)
    ensures Verdict(Validate(email, password), EmailField) ==
      if email == "" then Some(EmailRequired)
      else if !EmailRegexFinds(email) then Some(EmailInvalid)
      else None
  {
    EmailTestIsRegexSearch(email);
  }

  /** The validator returns no errors exactly when the email is non-empty
      and matches the pattern and the password has at least six
      characters. */
  lemma ValidatePassesIff(email: string, password: string)
    ensures Validate(email, password) == map[] <==>
      email != "" && EmailRegexFinds(email) && |password| >= MinPasswordLength
  {
    EmailTestIsRegexSearch(email);
    var v := Validate(email, password);
    if email != "" && EmailTest(email) && |password| >= MinPasswordLength {
      assert EmailField !in v && PasswordField !in v;
      assert v.Keys == {} by {
        forall f | f in v ensures false {
          match f
          case EmailField =>
          case PasswordField =>
        }
      }
    } else {
      assert Verdict(map[], EmailField) == None;
    }
  }

  /** `s.split(sep)`: the pieces between separators, in order; there is
      always at least one, and none contains the separator. */
  function Split(s: string, sep: char): (parts: seq<string>)
    ensures |parts| >= 1
    ensures forall i | 0 <= i < |parts| :: sep !in parts[i]
  {
    if s == [] then [[]]
    else
      var rest := Split(s[1..], sep);
      if s[0] == sep then [[]] + rest
      else [[s[0]] + rest[0]] + rest[1..]
  }

  /** `parts.join(sep)`. */
  function Join(parts: seq<string>, sep: char): string
    requires |parts| >= 1
  {
    if |parts| == 1 then parts[0] else parts[0] + [sep] + Join(parts[1..], sep)
  }

  /** Joining the pieces of a split gives back the string. */
  lemma {:induction false} JoinSplit(s: string, sep: char)
    ensures Join(Split(s, sep), sep) == s
  {
    if s != [] {
      var rest := Split(s[1..], sep);
      JoinSplit(s[1..], sep);
      if s[0] == sep {
        assert ([[]] + rest)[1..] == rest;
      } else if |rest| > 1 {
        var parts := Split(s, sep);
        assert parts[1..] == rest[1..];
        assert Join(rest, sep) == rest[0] + [sep] + Join(rest[1..], sep);
      }
    }
  }

  /** `email.split("@")[0]`: the part of the email before its first "@",
      or the whole email when it has none. */
  function DeriveName(email: string): (name: string)
    ensures name <= email && '@' !in name
    ensures |name| < |email| ==> email[|name|] == '@'
  {
    var parts := Split(email, '@');
    JoinSplit(email, '@');
    assert |parts| > 1 ==> email == parts[0] + ['@'] + Join(parts[1..], '@');
    parts[0]
  }

  /** When the email passes validation it holds an "@", so the name is a
      proper prefix ending just before the first "@". */
  lemma DerivedNameOfValidEmail(email: string, password: string)
    requires Verdict(Validate(email, password), EmailField) == None
    ensures |DeriveName(email)| < |email| && email[|DeriveName(email)|] == '@'
  {
    EmailTestHasAt(email);
  }

  /** The test user's credentials pass the validator. */
  lemma AcceptsTestUser()
    ensures Validate("john@example.com", "password123") == map[]
  {
    EmailExamples();
    var v := Validate("john@example.com", "password123");
    assert EmailField !in v && PasswordField !in v;
    assert v.Keys == {};
  }

  /** The name derived from `local@rest`, where `local` holds no "@", is
      `local`, whatever `rest` holds. */
  lemma DeriveNameIsLocalPart(local: string, rest: string)
    requires '@' !in local
    ensures DeriveName(local + ['@'] + rest) == local
  {
    var email := local + ['@'] + rest;
    var name := DeriveName(email);
    assert email[|local|] == '@';
    assert name == email[..|name|];
    assert email[..|local|] == local;
  }

  /** The test user's name is the part of the address before the "@". */
  lemma TestUserName()
    ensures DeriveName("john@example.com") == "john"
  {
    assert "john@example.com" == "john" + ['@'] + "example.com";
    DeriveNameIsLocalPart("john", "example.com");
  }

  /** The rejections the login form's tests expect: an empty form misses
      both fields, an address without "@" is invalid, three characters are
      too short a password. */
  lemma RejectsBadInput()
    ensures Validate("", "") == map[EmailField := EmailRequired, PasswordField := PasswordRequired]
    ensures Verdict(Validate("invalid-email", "validpass"), EmailField) == Some(EmailInvalid)
    ensures Verdict(Validate("test@example.com", "123"), PasswordField) == Some(PasswordTooShort)
  {
    EmailExamples();
    var v := Validate("", "");
    assert v.Keys == {EmailField, PasswordField} by {
      assert EmailField in v && PasswordField in v;
      forall f | f in v ensures f == EmailField || f == PasswordField {
        match f
        case EmailField =>
        case PasswordField =>
      }
    }
  }

  /** The login form: its two inputs and the error object last reported. */
  class LoginForm {
    var email: string
    var password: string
    var errors: LoginErrors

    constructor ()
      ensures email == "" && password == "" && errors == map[]
    {
      email, password, errors := "", "", map[];
    }

    /** Typing into the email input. */
    method SetEmail(v: string)
      modifies this`email
      ensures email == v
    {
      email := v;
    }

    /** Typing into the password input. */
    method SetPassword(v: string)
      modifies this`password
      ensures password == v
    {
      password := v;
    }

    /** Submit: with no validation errors the login callback is called once
        with the email and the name derived from it, and the error object
        is left as it was; otherwise the callback is not called and the
        error object becomes exactly the validator's output. */
    method HandleSubmit() returns (login: Option<Credentials>)
      modifies this`errors
      ensures Validate(email, password) == map[] ==>
        login == Some(Credentials(email, DeriveName(email))) && errors == old(errors)
      ensures Validate(email, password) != map[] ==>
        login == None && errors == Validate(email, password)
    {
      var validationErrors := Validate(email, password);
      if validationErrors == map[] {
        login := Some(Credentials(email, DeriveName(email)));
      } else {
        login := None;
        errors := validationErrors;
      }
    }
  }
}
