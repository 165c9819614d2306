/**
 * The authentication provider: a single `token`, kept in local storage,
 * set by a successful login or signup and cleared by a successful logout.
 * The remote calls are parameters: `remoteOk` is their outcome and
 * `returnedToken` the token a successful call returns.
 */
module Auth {
  import opened Wrappers

  class AuthProvider {
    /** `null` is `None`. */
    var token: Option<string>

    /** `useLocalStorage('token', null)`: the stored token if there is one, else `null`. */
    constructor (stored: Option<string>)
      ensures token == stored
    {
      token := stored;
    }

    /** `isLogin()`. */
    function IsLogin(): (b: bool)
      reads this
      ensures b <==> token != None
    {
      token.Some?
    }

    /** Success clears the token; failure keeps it and rejects. */
    method Logout(remoteOk: bool) returns (ok: bool)
      modifies this
      ensures ok == remoteOk
      ensures token == if remoteOk then None else old(token)
      ensures !IsLogin() <==> remoteOk || old(token) == None
    {
      if remoteOk {
        token := None;
      }
      ok := remoteOk;
    }

    /** Success stores the returned token; failure keeps the old one and rejects. */
    method Login(email: string, password: string, remoteOk: bool, returnedToken: string) returns (ok: bool)
      modifies this
      ensures ok == remoteOk
      ensures token == if remoteOk then Some(returnedToken) else old(token)
      ensures remoteOk ==> IsLogin()
    {
      if remoteOk {
        token := Some(returnedToken);
      }
      ok := remoteOk;
    }

    /** Success stores the returned token; failure keeps the old one and rejects. */
    method Signup(name: string, email: string, password: string, remoteOk: bool, returnedToken: string) returns (ok: bool)
      modifies this
      ensures ok == remoteOk
      ensures token == if remoteOk then Some(returnedToken) else old(token)
      ensures remoteOk ==> IsLogin()
    {
      if remoteOk {
        token := Some(returnedToken);
      }
      ok := remoteOk;
    }
  }
}

/** The login page: two fields, validated in order and cleared after every submission. */
module Login {
  import opened Wrappers
  import opened JsString
  import opened Auth

  datatype LoginError = EmptyEmail | EmptyPassword

  /** `validate()`: the email is checked first, then the password; `None` means valid. */
  function Validate(email: string, password: string): (r: Option<LoginError>)
    ensures r.None? <==> !AllWhitespace(email) && !AllWhitespace(password)
    ensures r == Some(EmptyEmail) <==> AllWhitespace(email)
  {
    TrimEmptyIffAllWhitespace(email);
    TrimEmptyIffAllWhitespace(password);
    if Trim(email) == "" then Some(EmptyEmail)
    else if Trim(password) == "" then Some(EmptyPassword)
    else None
  }

  class LoginPage {
    var email: string
    var password: string

    constructor ()
      ensures email == "" && password == ""
    {
      email, password := "", "";
    }

    /**
     * `handleSubmit`: invalid input clears both fields without calling
     * login; valid input calls login, navigates to the dashboard only if it
     * succeeds, and clears both fields whatever the outcome.
     */
    method HandleSubmit(auth: AuthProvider, remoteOk: bool, returnedToken: string) returns (attempted: bool, navigated: bool)
      modifies this, auth
      ensures attempted <==> Validate(old(email), old(password)).None?
      ensures navigated <==> attempted && remoteOk
      ensures auth.token == if navigated then Some(returnedToken) else old(auth.token)
      ensures email == "" && password == ""
    {
      attempted := Validate(email, password).None?;
      navigated := false;
      if !attempted {
        email, password := "", "";
        return;
      }
      var ok := auth.Login(email, password, remoteOk, returnedToken);
      navigated := ok;
      email, password := "", "";
    }
  }
}

/** The signup page: four fields, an ordered validation that clears different fields per failure. */
module Signup {
  import opened Wrappers
  import opened JsString
  import opened Auth

  datatype Verdict = Incomplete | EmailWithoutAt | PasswordMismatch | Valid

  /** The checks of `validate()` in their order. */
  function Check(name: string, email: string, password: string, confirm: string): (v: Verdict)
    ensures v == Valid <==> !AllWhitespace(name) && email != "" && password != "" && '@' in email && confirm == password
    ensures v == Incomplete <==> AllWhitespace(name) || email == "" || password == ""
    ensures v == PasswordMismatch ==> '@' in email && confirm != password
  {
    TrimEmptyIffAllWhitespace(name);
    if Trim(name) == "" || email == "" || password == "" then Incomplete
    else if '@' !in email then EmailWithoutAt
    else if confirm != password then PasswordMismatch
    else Valid
  }

  datatype SignupForm = SignupForm(name: string, email: string, password: string, confirmPassword: string)

  /** The fields `validate()` leaves behind for each verdict. */
  function ClearedBy(v: Verdict, f: SignupForm): SignupForm {
    match v
    case Incomplete => SignupForm("", "", "", "")
    case EmailWithoutAt => SignupForm(f.name, "", "", "")
    case PasswordMismatch => SignupForm(f.name, f.email, "", "")
    case Valid => f
  }

  class SignupPage {
    var name: string
    var email: string
    var password: string
    var confirmPassword: string

    function Form(): SignupForm
      reads this
    {
      SignupForm(name, email, password, confirmPassword)
    }

    constructor ()
      ensures Form() == SignupForm("", "", "", "")
    {
      name, email, password, confirmPassword := "", "", "", "";
    }

    /**
     * `validate()`: an incomplete form clears all four fields, an email
     * without '@' clears all but the name, a mismatched confirmation clears
     * only the two passwords, and a valid form clears nothing.
     */
    method Validate() returns (valid: bool)
      modifies this
      ensures var v := Check(old(name), old(email), old(password), old(confirmPassword));
        valid == (v == Valid) && Form() == ClearedBy(v, old(Form()))
    {
      TrimEmptyIffAllWhitespace(name);
      if Trim(name) == "" || email == "" || password == "" {
        SetForm(SignupForm("", "", "", ""));
        return false;
      }
      if '@' !in email {
        SetForm(SignupForm(name, "", "", ""));
        return false;
      }
      if confirmPassword != password {
        SetForm(SignupForm(name, email, "", ""));
        return false;
      }
      return true;
    }

    /** Sets the four fields at once, as the setter calls of one handler do. */
    method SetForm(f: SignupForm)
      modifies this
      ensures Form() == f
    {
      name, email, password, confirmPassword := f.name, f.email, f.password, f.confirmPassword;
    }

    /**
     * `handleSubmit`: signup is called only on a valid form; after an
     * attempt all four fields are cleared whatever its outcome.
     */
    method HandleSubmit(auth: AuthProvider, remoteOk: bool, returnedToken: string) returns (attempted: bool, navigated: bool)
      modifies this, auth
      ensures attempted <==> Check(old(name), old(email), old(password), old(confirmPassword)) == Valid
      ensures navigated <==> attempted && remoteOk
      ensures auth.token == if navigated then Some(returnedToken) else old(auth.token)
      ensures var v := Check(old(name), old(email), old(password), old(confirmPassword));
        Form() == if attempted then SignupForm("", "", "", "") else ClearedBy(v, old(Form()))
    {
      navigated := false;
      attempted := Validate();
      if !attempted {
        return;
      }
      var ok := auth.Signup(name, email, password, remoteOk, returnedToken);
      navigated := ok;
      SetForm(SignupForm("", "", "", ""));
    }
  }
}
