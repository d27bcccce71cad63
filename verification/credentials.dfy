/** The login form: both fields must be non-empty; nothing else is checked. */
module Credentials {
  import opened Wrappers

  const MissingCredentials: string := "Please enter both username and password"

  datatype LoginForm = LoginForm(username: string, password: string, error: string)

  /** The form after submission, and the username handed to the application, if any. */
  datatype SubmitOutcome = SubmitOutcome(form: LoginForm, loginAs: Option<string>)

  /** handleSubmit */
  function HandleSubmit(form: LoginForm): (r: SubmitOutcome)
    ensures r.loginAs.Some? <==> form.username != "" && form.password != ""
    ensures r.loginAs.Some? ==> r.loginAs.value == form.username && r.form == form
    ensures r.loginAs.None? ==> r.form == form.(error := MissingCredentials)
  {
    if form.username == "" || form.password == "" then SubmitOutcome(form.(error := MissingCredentials), None)
    else SubmitOutcome(form, Some(form.username))
  }

  /** The password only gates the submission: any two non-empty passwords give the same login. */
  lemma PasswordIsNotChecked(form: LoginForm, other: string)
    requires form.password != "" && other != ""
    ensures HandleSubmit(form.(password := other)).loginAs == HandleSubmit(form).loginAs
  {
  }
}
