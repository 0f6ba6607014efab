/** The login screen's credential check (frontend/src/pages/Login.jsx, handleLogin). */
module Login {

  const STUDENT_ROLE := "student"
  const STUDENT_EMAIL := "student@example.com"
  const STUDENT_PASSWORD := "exam123"
  const ADMIN_ROLE := "admin"
  const ADMIN_EMAIL := "admin@example.com"
  const ADMIN_PASSWORD := "admin123"

  const EXAM_PATH := "/exam"
  const ADMIN_PATH := "/admin"
  const INVALID_CREDENTIALS := "Invalid credentials"

  /** The one effect a login attempt has: a route change or an error message. */
  datatype Outcome = Navigate(path: string) | ShowError(message: string)

  predicate StudentCredentials(role: string, email: string, password: string) {
    role == STUDENT_ROLE && email == STUDENT_EMAIL && password == STUDENT_PASSWORD
  }

  predicate AdminCredentials(role: string, email: string, password: string) {
    role == ADMIN_ROLE && email == ADMIN_EMAIL && password == ADMIN_PASSWORD
  }

  /** The credential-to-outcome decision of handleLogin. */
  function Decide(role: string, email: string, password: string): (o: Outcome)
    ensures o == Navigate(EXAM_PATH) <==> StudentCredentials(role, email, password)
    ensures o == Navigate(ADMIN_PATH) <==> AdminCredentials(role, email, password)
    ensures o.ShowError? <==>
      !StudentCredentials(role, email, password) && !AdminCredentials(role, email, password)
    ensures o.ShowError? ==> o.message == INVALID_CREDENTIALS
    ensures o.Navigate? ==> o.path == EXAM_PATH || o.path == ADMIN_PATH
  {
    if role == STUDENT_ROLE && email == STUDENT_EMAIL && password == STUDENT_PASSWORD then
      Navigate(EXAM_PATH)
    else if role == ADMIN_ROLE && email == ADMIN_EMAIL && password == ADMIN_PASSWORD then
      Navigate(ADMIN_PATH)
    else
      ShowError(INVALID_CREDENTIALS)
  }

  /** Correct credentials typed under the other role's tab are rejected. */
  lemma WrongRoleIsRejected()
    ensures Decide(ADMIN_ROLE, STUDENT_EMAIL, STUDENT_PASSWORD) == ShowError(INVALID_CREDENTIALS)
    ensures Decide(STUDENT_ROLE, ADMIN_EMAIL, ADMIN_PASSWORD) == ShowError(INVALID_CREDENTIALS)
  {
  }

  /** The form's state cells: the selected role, the two inputs, the error text and the
      routes it has navigated to (the router, observed as a log). */
  class LoginForm {
    var role: string
    var email: string
    var password: string
    var error: string
    var navigations: seq<string>

    constructor ()
      ensures role == STUDENT_ROLE && email == "" && password == "" && error == ""
      ensures navigations == []
    {
      role, email, password, error := STUDENT_ROLE, "", "", "";
      navigations := [];
    }

    /** The role switch buttons. */
    method SelectRole(r: string)
      modifies this`role
      ensures role == r
    {
      role := r;
    }

    /** The email input's change handler. */
    method TypeEmail(value: string)
      modifies this`email
      ensures email == value
    {
      email := value;
    }

    /** The password input's change handler. */
    method TypePassword(value: string)
      modifies this`password
      ensures password == value
    {
      password := value;
    }

    /** handleLogin: the error is cleared first, then exactly one of the three outcomes
        is applied. */
    method HandleLogin() returns (o: Outcome)
      modifies this`error, this`navigations
      ensures o == Decide(role, email, password)
      ensures o.Navigate? ==> error == "" && navigations == old(navigations) + [o.path]
      ensures o.ShowError? ==> error == o.message && navigations == old(navigations)
    {
      error := "";
      if role == STUDENT_ROLE && email == STUDENT_EMAIL && password == STUDENT_PASSWORD {
        navigations := navigations + [EXAM_PATH];
        o := Navigate(EXAM_PATH);
      } else if role == ADMIN_ROLE && email == ADMIN_EMAIL && password == ADMIN_PASSWORD {
        navigations := navigations + [ADMIN_PATH];
        o := Navigate(ADMIN_PATH);
      } else {
        error := INVALID_CREDENTIALS;
        o := ShowError(INVALID_CREDENTIALS);
      }
    }
  }
}
