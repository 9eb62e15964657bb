/** The sign-in / sign-up page (`Auth`): it switches between the two forms,
    checks that the fields are filled, sends the request, and shows the
    server's answer; a successful sign-in stores the returned token. */
module AuthPage {

  import opened Base
  import Session

  /** The body of a registration request. */
  datatype RegisterRequest = RegisterRequest(name: string, email: string, password: string, role: string)

  /** The body of a sign-in request. */
  datatype LoginRequest = LoginRequest(email: string, password: string)

  /** The parts of the sign-in answer the page reads. `userName` is
      `res.user?.name`: `None` when the user or the name is absent. */
  datatype LoginResponse = LoginResponse(token: Option<string>, message: Option<string>, userName: Option<string>)

  const FillAllFieldsMessage: string := "Please fill in all fields."
  const RegisteredMessage: string := "Registration successful!"
  const RegisterFailedMessage: string := "Registration failed."
  const EnterCredentialsMessage: string := "Please enter your email and password."
  const LoginFailedMessage: string := "Invalid email or password."

  /** What local storage keeps for `res.token`: the string itself, or
      `"undefined"` when the answer has none, since storage converts every
      value to a string. */
  function StoredToken(token: Option<string>): (r: string)
    ensures token.Some? ==> r == token.value
    ensures token.None? ==> r == "undefined"
  {
    if token.Some? then token.value else "undefined"
  }

  /** The sign-in success message: the server's message, or a greeting
      that names the user, or 'User' when no name came back. */
  function WelcomeMessage(res: LoginResponse): (r: string)
    ensures Truthy(res.message) ==> r == res.message.value
    ensures !Truthy(res.message) && Truthy(res.userName) ==> r == "Welcome back, " + res.userName.value + "!"
    ensures !Truthy(res.message) && !Truthy(res.userName) ==> r == "Welcome back, User!"
  {
    OrElse(res.message, "Welcome back, " + OrElse(res.userName, "User") + "!")
  }

  class Auth {
    const authService: Session.AuthService

    var isRightPanelActive: bool

    var signUpName: string
    var signUpEmail: string
    var signUpPassword: string
    var signUpRole: string

    var signInEmail: string
    var signInPassword: string

    var errorMessage: string
    var signInErrorMessage: string
    var successMessage: string

    constructor (authService: Session.AuthService)
      ensures this.authService == authService && !isRightPanelActive
      ensures signUpName == "" && signUpEmail == "" && signUpPassword == "" && signUpRole == ""
      ensures signInEmail == "" && signInPassword == ""
      ensures errorMessage == "" && signInErrorMessage == "" && successMessage == ""
    {
      this.authService := authService;
      isRightPanelActive := false;
      signUpName, signUpEmail, signUpPassword, signUpRole := "", "", "", "";
      signInEmail, signInPassword := "", "";
      errorMessage, signInErrorMessage, successMessage := "", "", "";
    }

    /** `toggleForms`: shows the chosen form and clears all three messages. */
    method ToggleForms(isSignUp: bool)
      modifies this`isRightPanelActive, this`errorMessage, this`successMessage, this`signInErrorMessage
      ensures isRightPanelActive == isSignUp
      ensures errorMessage == "" && successMessage == "" && signInErrorMessage == ""
    {
      isRightPanelActive := isSignUp;
      errorMessage := "";
      successMessage := "";
      signInErrorMessage := "";
    }

    /** `register`, with the server's answer (its optional `message`) as an
        input. An empty field sets the error and sends nothing. Otherwise the
        four fields are sent; success shows the server's message or a
        fallback, clears the error and the fields; failure shows the server's
        error message or a fallback. */
    method Register(reply: Reply<Option<string>>) returns (request: Option<RegisterRequest>)
      modifies this`signUpName, this`signUpEmail, this`signUpPassword, this`signUpRole,
               this`errorMessage, this`successMessage
      ensures var missing := old(signUpName) == "" || old(signUpEmail) == "" || old(signUpPassword) == ""
                             || old(signUpRole) == "";
              && (missing ==> request == None && errorMessage == FillAllFieldsMessage)
              && (!missing ==>
                    request == Some(RegisterRequest(old(signUpName), old(signUpEmail), old(signUpPassword), old(signUpRole))))
              && (!missing && reply.Ok? ==>
                    successMessage == OrElse(reply.body, RegisteredMessage) && errorMessage == ""
                    && signUpName == "" && signUpEmail == "" && signUpPassword == "" && signUpRole == "")
              && (!missing && reply.Err? ==> errorMessage == OrElse(reply.message, RegisterFailedMessage))
              && (missing || reply.Err? ==>
                    successMessage == old(successMessage)
                    && signUpName == old(signUpName) && signUpEmail == old(signUpEmail)
                    && signUpPassword == old(signUpPassword) && signUpRole == old(signUpRole))
    {
      if signUpName == "" || signUpEmail == "" || signUpPassword == "" || signUpRole == "" {
        errorMessage := FillAllFieldsMessage;
        request := None;
        return;
      }
      request := Some(RegisterRequest(signUpName, signUpEmail, signUpPassword, signUpRole));
      match reply
      case Ok(message) =>
        successMessage := OrElse(message, RegisteredMessage);
        errorMessage := "";
        signUpName, signUpEmail, signUpPassword, signUpRole := "", "", "", "";
      case Err(_, message) =>
        errorMessage := OrElse(message, RegisterFailedMessage);
    }

    /** `login`, with the server's answer as an input. An empty email or
        password sets the error and sends nothing. Otherwise the two fields
        are sent; success stores the returned token, shows the welcome
        message, clears the error and the fields; failure shows the server's
        error message or a fallback and leaves the stored token alone. */
    method Login(reply: Reply<LoginResponse>) returns (request: Option<LoginRequest>)
      modifies this`signInEmail, this`signInPassword, this`signInErrorMessage, this`successMessage,
               authService`token
      ensures var missing := old(signInEmail) == "" || old(signInPassword) == "";
              && (missing ==> request == None && signInErrorMessage == EnterCredentialsMessage)
              && (!missing ==> request == Some(LoginRequest(old(signInEmail), old(signInPassword))))
              && (!missing && reply.Ok? ==>
                    authService.GetToken() == Some(StoredToken(reply.body.token))
                    && authService.IsLoggedIn() == (reply.body.token != Some(""))
                    && successMessage == WelcomeMessage(reply.body) && signInErrorMessage == ""
                    && signInEmail == "" && signInPassword == "")
              && (!missing && reply.Err? ==> signInErrorMessage == OrElse(reply.message, LoginFailedMessage))
              && (missing || reply.Err? ==>
                    authService.token == old(authService.token) && successMessage == old(successMessage)
                    && signInEmail == old(signInEmail) && signInPassword == old(signInPassword))
    {
      if signInEmail == "" || signInPassword == "" {
        signInErrorMessage := EnterCredentialsMessage;
        request := None;
        return;
      }
      request := Some(LoginRequest(signInEmail, signInPassword));
      match reply
      case Ok(res) =>
        authService.SaveToken(StoredToken(res.token));
        successMessage := WelcomeMessage(res);
        signInErrorMessage := "";
        signInEmail, signInPassword := "", "";
      case Err(_, message) =>
        signInErrorMessage := OrElse(message, LoginFailedMessage);
    }
  }
}
