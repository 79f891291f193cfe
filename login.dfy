/** The sign-in page: the empty-field check, the sign-in call, the demo
    sign-in and the redirect by role. The sign-in itself belongs to the
    authentication provider and is a parameter: it answers with the user, or
    none. */
module Login {

  import opened Wrappers
  import opened Common

  const DemoPassword: string := "password"

  class LoginPage {
    var email: string
    var password: string
    var isSubmitting: bool

    constructor ()
      ensures email == "" && password == "" && !isSubmitting
    {
      email, password, isSubmitting := "", "", false;
    }

    /** `handleSubmit`: an empty email or password stops before the sign-in;
        otherwise it signs in with the form's values and redirects. */
    method HandleSubmit(login: (string, string) -> Option<User>) returns (called: bool, navigateTo: Option<string>)
      modifies this`isSubmitting
      ensures called <==> email != "" && password != ""
      ensures !called ==> navigateTo == None && isSubmitting == old(isSubmitting)
      ensures called ==> !isSubmitting && navigateTo == LandingRoute(login(email, password))
    {
      if email == "" || password == "" {
        return false, None;
      }
      isSubmitting := true;
      var user := login(email, password);
      navigateTo := LandingRoute(user);
      isSubmitting := false;
      called := true;
    }

    /** `handleDemoLogin`: fills in the demo account and the demo password and
        always signs in with them. */
    method HandleDemoLogin(demoEmail: string, login: (string, string) -> Option<User>) returns (navigateTo: Option<string>)
      modifies this`email, this`password
      ensures email == demoEmail && password == DemoPassword
      ensures navigateTo == LandingRoute(login(demoEmail, DemoPassword))
    {
      email, password := demoEmail, DemoPassword;
      var user := login(demoEmail, DemoPassword);
      navigateTo := LandingRoute(user);
    }
  }
}
