/** `registrationValidation` and `loginValidation` of `Backend/src/utils/validate.user.js`.
    Each is a fixed chain of guards that throws at the first failing one; a throw is a
    `Fail` carrying the error's message. A missing field (undefined, null or "") is the
    empty string. The `validator` library's `isEmail` and `isStrongPassword` (called with
    `{ minLength: 8, minSymbols: 0 }`) are not part of this model and are parameters. */
module UserValidation {
  import opened Wrappers

  const NoFirstName := "first name not provided"
  const FirstNameLength := "first name must be between 3 and 20 characters"
  const NoEmail := "email not provided"
  const InvalidEmail := "invalid email"
  const NoPassword := "password not provided"
  const WeakPassword := "password must be stronger (min 8 chars, numbers & letters required)"

  /** Registration passes exactly when the first name has 3 to 20 characters, the email is
      present and well formed, and the password is present and strong; otherwise the
      first failing check, in the order first name, email, password, decides the message. */
  function RegistrationValidation(firstName: string, email: string, password: string,
                                  isEmail: string -> bool, isStrongPassword: string -> bool)
    : (r: Outcome)
    ensures r.Pass? <==> 3 <= |firstName| <= 20 && email != "" && isEmail(email)
                         && password != "" && isStrongPassword(password)
    ensures firstName == "" ==> r == Fail(NoFirstName)
    ensures firstName != "" && !(3 <= |firstName| <= 20) ==> r == Fail(FirstNameLength)
    ensures 3 <= |firstName| <= 20 && email == "" ==> r == Fail(NoEmail)
    ensures 3 <= |firstName| <= 20 && email != "" && !isEmail(email) ==> r == Fail(InvalidEmail)
    ensures (3 <= |firstName| <= 20 && email != "" && isEmail(email) && password == "")
            ==> r == Fail(NoPassword)
    ensures (3 <= |firstName| <= 20 && email != "" && isEmail(email) && password != ""
             && !isStrongPassword(password)) ==> r == Fail(WeakPassword)
  {
    if firstName == "" then Fail(NoFirstName)
    else if |firstName| > 20 || |firstName| < 3 then Fail(FirstNameLength)
    else if email == "" then Fail(NoEmail)
    else if !isEmail(email) then Fail(InvalidEmail)
    else if password == "" then Fail(NoPassword)
    else if !isStrongPassword(password) then Fail(WeakPassword)
    else Pass
  }

  /** A bad first name decides the outcome whatever the email and password are. */
  lemma FirstNameCheckedFirst(firstName: string, email1: string, password1: string,
                              email2: string, password2: string,
                              isEmail: string -> bool, isStrongPassword: string -> bool)
    requires !(3 <= |firstName| <= 20)
    ensures RegistrationValidation(firstName, email1, password1, isEmail, isStrongPassword)
         == RegistrationValidation(firstName, email2, password2, isEmail, isStrongPassword)
  {
  }

  /** Login only requires both fields to be present, the email being checked first. */
  function LoginValidation(email: string, password: string): (r: Outcome)
    ensures r.Pass? <==> email != "" && password != ""
    ensures email == "" ==> r == Fail(NoEmail)
    ensures email != "" && password == "" ==> r == Fail(NoPassword)
  {
    if email == "" then Fail(NoEmail)
    else if password == "" then Fail(NoPassword)
    else Pass
  }
}
