/** The sign-in page of src/app/pages/auth-page/auth-page.component.ts: its
    field error messages, the login/registration toggle and the login call.
    `Validators.email`'s verdict on the current email is an input; the
    `required` and `minLength(4)` errors follow from the values, as Angular
    computes them (neither validator flags an empty value except
    `required`). */
module AuthPage {
  import opened Wrappers
  import opened Storage
  import opened Http
  import opened AuthServices

  /** `Validators.minLength` of the password control. */
  const MinPasswordLength: nat := 4

  /** The `errorMessage` signal. */
  datatype ErrorMessages = ErrorMessages(email: string, password: string)

  /** The body of the login request. */
  datatype Credentials = Credentials(email: string, password: string)

  const EmailRequiredMessage: string := "You must enter a value"
  const EmailFormatMessage: string := "Not a valid email"
  const PasswordLengthMessage: string := "Min length 4"

  class AuthPageComponent {
    const auth: AuthService
    /** The email control's value and `Validators.email`'s verdict on it. */
    var email: string
    var emailWellFormed: bool
    /** The password control's value. */
    var password: string
    var isRegistration: bool
    var errorMessage: ErrorMessages
    var serverErrorMessage: string
    var isLoading: bool

    /** `email.hasError("required")` */
    predicate EmailRequiredError() reads this { email == "" }
    /** `email.hasError("email")` */
    predicate EmailFormatError() reads this { email != "" && !emailWellFormed }
    /** `password.hasError("required")` */
    predicate PasswordRequiredError() reads this { password == "" }
    /** `password.hasError("minlength")` */
    predicate PasswordLengthError() reads this { password != "" && |password| < MinPasswordLength }

    /** `email.errors` is non-null. */
    predicate EmailHasErrors() reads this { EmailRequiredError() || EmailFormatError() }
    /** `password.errors` is non-null. */
    predicate PasswordHasErrors() reads this { PasswordRequiredError() || PasswordLengthError() }

    constructor (auth: AuthService)
      ensures this.auth == auth
      ensures email == "" && password == "" && isRegistration
      ensures errorMessage == ErrorMessages("", "") && serverErrorMessage == "" && !isLoading
    {
      this.auth := auth;
      email := "";
      emailWellFormed := false;
      password := "";
      isRegistration := true;
      errorMessage := ErrorMessages("", "");
      serverErrorMessage := "";
      isLoading := false;
    }

    /** `toggleAuth`: switch between sign-in and registration and drop the
        server's message. */
    method ToggleAuth()
      modifies this`isRegistration, this`serverErrorMessage
      ensures isRegistration == !old(isRegistration)
      ensures serverErrorMessage == ""
    {
      isRegistration := !isRegistration;
      serverErrorMessage := "";
    }

    /** `updateErrorMessage`: a missing email outranks every other message; a
        malformed email comes next; the password's length message is set only
        when the email is fine and keeps the email message as it was; with
        none of the three errors both messages are cleared. */
    method UpdateErrorMessage()
      modifies this`errorMessage
      ensures EmailRequiredError() ==> errorMessage == old(errorMessage).(email := EmailRequiredMessage)
      ensures !EmailRequiredError() && EmailFormatError() ==> errorMessage == old(errorMessage).(email := EmailFormatMessage)
      ensures !EmailHasErrors() && PasswordLengthError() ==> errorMessage == old(errorMessage).(password := PasswordLengthMessage)
      ensures !EmailHasErrors() && !PasswordLengthError() ==> errorMessage == ErrorMessages("", "")
    {
      if EmailRequiredError() {
        errorMessage := errorMessage.(email := EmailRequiredMessage);
      } else if EmailFormatError() {
        errorMessage := errorMessage.(email := EmailFormatMessage);
      } else if PasswordLengthError() {
        errorMessage := errorMessage.(password := PasswordLengthMessage);
      } else {
        errorMessage := ErrorMessages("", "");
      }
    }

    /** A change of the email control, which the constructor's subscription
        answers with `updateErrorMessage`. */
    method OnEmailChange(value: string, wellFormed: bool)
      modifies this`email, this`emailWellFormed, this`errorMessage
      ensures email == value && emailWellFormed == wellFormed
      ensures value == "" ==> errorMessage.email == EmailRequiredMessage
      ensures value != "" && !wellFormed ==> errorMessage.email == EmailFormatMessage
      ensures value != "" && wellFormed ==> errorMessage.email == (if PasswordLengthError() then old(errorMessage).email else "")
    {
      email := value;
      emailWellFormed := wellFormed;
      UpdateErrorMessage();
    }

    /** A change of the password control, answered the same way. */
    method OnPasswordChange(value: string)
      modifies this`password, this`errorMessage
      ensures password == value
      ensures !EmailHasErrors() && value != "" && |value| < MinPasswordLength ==> errorMessage.password == PasswordLengthMessage
      ensures !EmailHasErrors() && (value == "" || |value| >= MinPasswordLength) ==> errorMessage == ErrorMessages("", "")
      ensures EmailHasErrors() ==> errorMessage.password == old(errorMessage).password
    {
      password := value;
      UpdateErrorMessage();
    }

    /** `login`: the credentials it sends, or None when either control has
        errors or the page is in registration mode. Its test for a non-empty
        email and password never fails once both controls are error-free. */
    method Login() returns (request: Option<Credentials>)
      modifies this`isLoading
      ensures request.None? <==> EmailHasErrors() || PasswordHasErrors() || isRegistration
      ensures request.None? ==> isLoading == old(isLoading)
      ensures request.Some? ==> request.value == Credentials(email, password) && isLoading
      ensures request.Some? ==> request.value.email != "" && |request.value.password| >= MinPasswordLength
    {
      if EmailHasErrors() || PasswordHasErrors() {
        return None;
      }
      if email != "" && password != "" {
        if isRegistration {
          request := None;
        } else {
          isLoading := true;
          request := Some(Credentials(email, password));
        }
      } else {
        request := None;
      }
    }

    /** The login reply: on success the service stores the token and signs
        in, and the page navigates to the product list; a 400 shows
        "Incorrect email or password"; any other error changes nothing; the
        teardown ends loading in every case. */
    method OnLoginReply(reply: Result<Tokens, HttpError>) returns (navigate: Option<string>)
      modifies this`serverErrorMessage, this`isLoading, auth`isAuth, auth.store
      ensures !isLoading
      ensures reply.Success? ==> navigate == Some("/products") && serverErrorMessage == old(serverErrorMessage)
      ensures reply.Success? ==> auth.isAuth && auth.store.items == old(auth.store.items)[AccessTokenKey := reply.value.accessToken]
      ensures reply.Failure? ==> navigate.None? && auth.isAuth == old(auth.isAuth) && auth.store.items == old(auth.store.items)
      ensures reply.Failure? && reply.error.status == 400 ==> serverErrorMessage == "Incorrect email or password"
      ensures reply.Failure? && reply.error.status != 400 ==> serverErrorMessage == old(serverErrorMessage)
    {
      navigate := None;
      match reply {
        case Success(tokens) =>
          auth.OnLoginReply(tokens);
          navigate := Some("/products");
        case Failure(error) =>
          if error.status == 400 {
            serverErrorMessage := "Incorrect email or password";
          }
      }
      isLoading := false;
    }
  }
}
