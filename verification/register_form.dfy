/**
  The Register button of `RegisterScreen`: the fields are checked in a fixed
  order, the first failed check is reported in a snackbar, and only a form
  that passes all four is submitted.
 */
module RegisterForm {
  import opened Text

  datatype Form = Form(username: string, email: string, password: string, confirmPassword: string)

  datatype Click = Snackbar(message: string) | Submit(username: string, email: string, password: string)

  const UsernameRequired: string := "El usuario es requerido"
  const EmailRequired: string := "El email es requerido"
  const PasswordRequired: string := "La contraseña es requerida"
  const PasswordsDiffer: string := "Las contraseñas no coinciden"

  /** The `when` in the button's `onClick`. */
  function OnClick(f: Form): (c: Click)
    ensures c.Submit? <==> f.username != "" && f.email != "" && f.password != "" && f.password == f.confirmPassword
    ensures c.Submit? ==> c == Submit(f.username, f.email, f.password)
    ensures f.username == "" ==> c == Snackbar("El usuario es requerido")
    ensures f.username != "" && f.email == "" ==> c == Snackbar("El email es requerido")
    ensures f.username != "" && f.email != "" && f.password == "" ==> c == Snackbar("La contraseña es requerida")
    ensures f.username != "" && f.email != "" && f.password != "" && f.password != f.confirmPassword ==>
      c == Snackbar("Las contraseñas no coinciden")
  {
    if IsEmpty(f.username) then Snackbar(UsernameRequired)
    else if IsEmpty(f.email) then Snackbar(EmailRequired)
    else if IsEmpty(f.password) then Snackbar(PasswordRequired)
    else if f.password != f.confirmPassword then Snackbar(PasswordsDiffer)
    else Submit(f.username, f.email, f.password)
  }

  /** Every click either submits or shows exactly one of the four messages. */
  lemma OneOutcomePerClick(f: Form)
    ensures OnClick(f).Submit? || OnClick(f).message in {UsernameRequired, EmailRequired, PasswordRequired, PasswordsDiffer}
  {
  }

  /** The mismatch message is reported only once every field is filled. */
  lemma MismatchOnlyWhenFilled(f: Form)
    ensures OnClick(f) == Snackbar(PasswordsDiffer) ==> f.username != "" && f.email != "" && f.password != ""
  {
    assert PasswordsDiffer != UsernameRequired && PasswordsDiffer != EmailRequired && PasswordsDiffer != PasswordRequired by {
      assert PasswordsDiffer[1] == 'a' && UsernameRequired[1] == 'l' && EmailRequired[1] == 'l';
      assert PasswordsDiffer[2] == 's' && PasswordRequired[2] == ' ';
    }
  }

  /** The checks use `isEmpty`: fields of spaces pass them and are submitted as they are. */
  lemma WhitespaceFieldsSubmitted()
    ensures OnClick(Form(" ", " ", " ", " ")) == Submit(" ", " ", " ")
    ensures IsBlank(" ")
  {
  }
}
