/** The login / sign-up page: one form with two modes. Sign-up also collects
    a full name, a phone number and the member's service roles, and writes
    them to the `profiles` table after the account is created. */
module LoginForm {
  import opened Text
  import opened Roles

  datatype Mode = Login | Signup

  /** The messages the page shows, one variant per distinct cause. */
  datatype LoginError =
    | EmailRequired
    | FullNameRequired
    | PasswordTooShort
    | PasswordMismatch
    | NoUserCreated
    | Backend(message: string)

  /** The `profiles` row written after sign-up. */
  datatype Profile = Profile(id: string, fullName: string, phone: Option<string>, roles: RoleFlags)

  /** The authentication call the page makes. */
  datatype AuthRequest = SignIn(email: string, password: string) | SignUp(email: string, password: string)

  /** What the backend answers to the authentication call: the new user's
      id (`None` when no user came back), or a failure message. */
  datatype AuthReply = Authenticated(userId: Option<string>) | AuthFailed(message: string)

  const MinPasswordLength := 6

  /** `toggleRole`: role `k` flips, the other nine stay. */
  function ToggledRoles(roles: RoleFlags, k: Role): (r: RoleFlags)
    ensures r.Get(k) == !roles.Get(k)
    ensures forall j :: j != k ==> r.Get(j) == roles.Get(j)
  {
    roles.Set(k, !roles.Get(k))
  }

  /** Flipping a role twice restores the flags. */
  lemma ToggleRoleTwice(roles: RoleFlags, k: Role)
    ensures ToggledRoles(ToggledRoles(roles, k), k) == roles
  {
    var twice := ToggledRoles(ToggledRoles(roles, k), k);
    forall j ensures twice.Get(j) == roles.Get(j) {
      ToggleTwiceAt(roles, k, j);
    }
    FlagsExtensional(twice, roles);
  }

  lemma ToggleTwiceAt(roles: RoleFlags, k: Role, j: Role)
    ensures ToggledRoles(ToggledRoles(roles, k), k).Get(j) == roles.Get(j)
  {
    var once := ToggledRoles(roles, k);
    if j != k {
      assert once.Get(j) == roles.Get(j);
    }
  }

  /** The sign-up checks of `handleSubmit`, the first failing one wins:
      e-mail, full name (both after trimming), password length (untrimmed),
      password confirmation. Login mode checks nothing. */
  function CheckSignup(mode: Mode, email: string, fullName: string, password: string, confirm: string)
    : (r: Option<LoginError>)
    ensures mode == Login ==> r == None
    ensures mode == Signup ==>
              (r == None <==> !IsBlank(email) && !IsBlank(fullName) && |password| >= MinPasswordLength && password == confirm)
    ensures mode == Signup ==> (r == Some(EmailRequired) <==> IsBlank(email))
    ensures mode == Signup ==> (r == Some(FullNameRequired) <==> !IsBlank(email) && IsBlank(fullName))
    ensures mode == Signup ==>
              (r == Some(PasswordTooShort) <==> !IsBlank(email) && !IsBlank(fullName) && |password| < MinPasswordLength)
    ensures mode == Signup ==>
              (r == Some(PasswordMismatch) <==>
                 !IsBlank(email) && !IsBlank(fullName) && |password| >= MinPasswordLength && password != confirm)
  {
    if mode == Login then None
    else if IsBlank(email) then Some(EmailRequired)
    else if IsBlank(fullName) then Some(FullNameRequired)
    else if |password| < MinPasswordLength then Some(PasswordTooShort)
    else if password != confirm then Some(PasswordMismatch)
    else None
  }

  /** The profile payload: trimmed full name, trimmed phone or `null`, and
      the ten role flags as chosen. */
  function ProfilePayload(userId: string, fullName: string, phone: string, roles: RoleFlags): (p: Profile)
    ensures p.id == userId && p.roles == roles
    ensures p.fullName == Trim(fullName)
    ensures p.phone.None? <==> IsBlank(phone)
    ensures p.phone.Some? ==> p.phone.value == Trim(phone)
  {
    Profile(userId, Trim(fullName), TrimOrNull(phone), roles)
  }

  /** The state of the page that the handlers read and write. */
  class LoginPage {
    var email: string
    var password: string
    var passwordConfirm: string
    var fullName: string
    var phone: string
    var roles: RoleFlags
    var loading: bool
    var error: Option<LoginError>
    var mode: Mode

    /** The page as first rendered: login mode, empty fields, no role. */
    constructor ()
      ensures email == "" && password == "" && passwordConfirm == "" && fullName == "" && phone == ""
      ensures roles == NoRoles && forall k :: !roles.Get(k)
      ensures !loading && error == None && mode == Login
    {
      email, password, passwordConfirm := "", "", "";
      fullName, phone := "", "";
      roles := NoRoles;
      loading, error, mode := false, None, Login;
    }

    method ToggleRole(k: Role)
      modifies this`roles
      ensures roles == ToggledRoles(old(roles), k)
    {
      roles := roles.Set(k, !roles.Get(k));
    }

    /** `switchTo`: always sets the mode, clears the error and both password
        fields; going to login also clears name, phone and roles. */
    method SwitchTo(m: Mode)
      modifies this
      ensures mode == m && error == None && password == "" && passwordConfirm == ""
      ensures email == old(email) && loading == old(loading)
      ensures m == Login ==> fullName == "" && phone == "" && roles == NoRoles
      ensures m == Signup ==> fullName == old(fullName) && phone == old(phone) && roles == old(roles)
    {
      mode := m;
      error := None;
      password := "";
      passwordConfirm := "";
      if m == Login {
        fullName := "";
        phone := "";
        roles := NoRoles;
      }
    }

    /** `handleSubmit`. `auth` is the backend's answer to the sign-in or
        sign-up call and `profileFailure` the answer to the profile insert
        (`None` for success). The outputs are the calls the page makes. */
    method Submit(auth: AuthReply, profileFailure: Option<string>)
      returns (request: Option<AuthRequest>, profile: Option<Profile>, success: bool)
      modifies this`error, this`loading
      ensures CheckSignup(mode, email, fullName, password, passwordConfirm).Some? ==>
                error == CheckSignup(mode, email, fullName, password, passwordConfirm) &&
                loading == old(loading) && request == None && profile == None && !success
      ensures CheckSignup(mode, email, fullName, password, passwordConfirm).None? ==> !loading
      ensures CheckSignup(mode, email, fullName, password, passwordConfirm).None? && mode == Login ==>
                request == Some(SignIn(Trim(email), password)) && profile == None &&
                (success <==> auth.Authenticated?) &&
                error == (if auth.AuthFailed? then Some(Backend(auth.message)) else None)
      ensures CheckSignup(mode, email, fullName, password, passwordConfirm).None? && mode == Signup ==>
                request == Some(SignUp(Trim(email), password)) &&
                (auth.AuthFailed? ==> error == Some(Backend(auth.message)) && profile == None && !success) &&
                (auth == Authenticated(None) ==> error == Some(NoUserCreated) && profile == None && !success)
      ensures CheckSignup(mode, email, fullName, password, passwordConfirm).None? && mode == Signup &&
              auth.Authenticated? && auth.userId.Some? ==>
                profile == Some(ProfilePayload(auth.userId.value, fullName, phone, roles)) &&
                (success <==> profileFailure.None?) &&
                error == (if profileFailure.Some? then Some(Backend(profileFailure.value)) else None)
    {
      request, profile, success := None, None, false;
      error := None;
      var trimmedEmail := Trim(email);
      if mode == Signup {
        if !Truthy(trimmedEmail) {
          error := Some(EmailRequired);
          return;
        }
        if IsBlank(fullName) {
          error := Some(FullNameRequired);
          return;
        }
        if |password| < MinPasswordLength {
          error := Some(PasswordTooShort);
          return;
        }
        if password != passwordConfirm {
          error := Some(PasswordMismatch);
          return;
        }
      }
      loading := true;
      if mode == Login {
        request := Some(SignIn(trimmedEmail, password));
        if auth.AuthFailed? {
          error := Some(Backend(auth.message));
        } else {
          success := true;
        }
        loading := false;
        return;
      }
      request := Some(SignUp(trimmedEmail, password));
      if auth.AuthFailed? {
        error := Some(Backend(auth.message));
      } else if auth.userId.None? {
        error := Some(NoUserCreated);
      } else {
        profile := Some(ProfilePayload(auth.userId.value, fullName, phone, roles));
        if profileFailure.Some? {
          error := Some(Backend(profileFailure.value));
        } else {
          success := true;
        }
      }
      loading := false;
    }
  }
}
