/** The registration page: the role taken from the address, the ordered
    validation of the form, the sign-up call and the redirect by role. The
    sign-up itself belongs to the authentication provider and is a parameter:
    it answers with the new user, or none. */
module Register {

  import opened Wrappers
  import opened Common

  /** The form errors, in the order the checks run. */
  datatype FormError = MissingField | PasswordMismatch | PasswordTooShort | TermsNotAgreed

  function ErrorMessage(e: FormError): string {
    match e
    case MissingField => "Please fill in all fields"
    case PasswordMismatch => "Passwords do not match"
    case PasswordTooShort => "Password must be at least 6 characters"
    case TermsNotAgreed => "Please agree to the Terms of Service and Privacy Policy"
  }

  /** The first failing check, or none when the form may be submitted. */
  function Validate(name: string, email: string, password: string, confirm: string, agreed: bool): (r: Option<FormError>)
    ensures r == Some(MissingField) <==> name == "" || email == "" || password == "" || confirm == ""
    ensures r == Some(PasswordMismatch) <==>
              name != "" && email != "" && password != "" && confirm != "" && password != confirm
    ensures r == Some(PasswordTooShort) <==>
              name != "" && email != "" && password != "" && confirm != "" && password == confirm && |password| < 6
    ensures r == Some(TermsNotAgreed) <==>
              name != "" && email != "" && password != "" && password == confirm && |password| >= 6 && !agreed
    ensures r == None <==>
              name != "" && email != "" && password != "" && password == confirm && |password| >= 6 && agreed
  {
    if name == "" || email == "" || password == "" || confirm == "" then Some(MissingField)
    else if password != confirm then Some(PasswordMismatch)
    else if |password| < 6 then Some(PasswordTooShort)
    else if !agreed then Some(TermsNotAgreed)
    else None
  }

  /** A six-character password is long enough. */
  lemma SixCharactersSuffice(name: string, email: string, password: string)
    requires name != "" && email != "" && |password| == 6
    ensures Validate(name, email, password, password, true) == None
  {
  }

  /** The address's `role` parameter, if it is "donor" or "volunteer". */
  function RoleParam(param: Option<string>): (r: Option<Role>)
    ensures r == Some(Donor) <==> param == Some("donor")
    ensures r == Some(Volunteer) <==> param == Some("volunteer")
    ensures r != Some(Beneficiary)
  {
    if param == Some("donor") then Some(Donor)
    else if param == Some("volunteer") then Some(Volunteer)
    else None
  }

  class RegisterPage {
    var name: string
    var email: string
    var password: string
    var confirmPassword: string
    var role: Role
    var agreedToTerms: bool
    var formError: Option<FormError>
    var isSubmitting: bool

    constructor ()
      ensures name == "" && email == "" && password == "" && confirmPassword == ""
      ensures role == Donor && !agreedToTerms && formError == None && !isSubmitting
    {
      name, email, password, confirmPassword := "", "", "", "";
      role, agreedToTerms, formError, isSubmitting := Donor, false, None, false;
    }

    /** The effect on the address: only "donor" and "volunteer" are adopted. */
    method ApplyRoleParam(param: Option<string>)
      modifies this`role
      ensures role == if RoleParam(param).Some? then RoleParam(param).value else old(role)
    {
      var r := RoleParam(param);
      if r.Some? {
        role := r.value;
      }
    }

    /** `handleSubmit`: clears the error, stops at the first failing check,
        and otherwise signs up with the form's values and redirects the new
        user by role. `called` says whether the sign-up ran. */
    method HandleSubmit(register: (string, string, string, Role) -> Option<User>)
      returns (called: bool, navigateTo: Option<string>)
      modifies this`formError, this`isSubmitting
      ensures formError == Validate(name, email, password, confirmPassword, agreedToTerms)
      ensures called <==> formError == None
      ensures !called ==> navigateTo == None && isSubmitting == old(isSubmitting)
      ensures called ==> !isSubmitting && navigateTo == LandingRoute(register(name, email, password, role))
    {
      formError := None;
      var e := Validate(name, email, password, confirmPassword, agreedToTerms);
      if e.Some? {
        formError := e;
        return false, None;
      }
      isSubmitting := true;
      var u := register(name, email, password, role);
      navigateTo := LandingRoute(u);
      isSubmitting := false;
      called := true;
    }
  }
}
