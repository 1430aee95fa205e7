/**
 * The client's authentication context: the signed-in profile, its role,
 * the stored token and a loading flag, with the sign-in, sign-out, profile
 * refresh and profile update actions, and the role check.
 *
 * Every server reply is an input. The stored token stands for the
 * browser's local storage entry "token".
 */
module UseAuth {
  import opened Wrappers

  datatype Role = NormalUser | Admin | SuperAdmin

  /** The signed-in user's profile; `None` stands for `null` or a missing field. */
  datatype Profile = Profile(
    id: string, email: Option<string>, fullName: Option<string>, avatarUrl: Option<string>,
    nationality: Option<string>, gender: Option<string>, phone: Option<string>,
    bloodType: Option<string>, allergies: Option<string>, emergencyContact: Option<string>)

  /** The position of a role in the hierarchy. */
  function Rank(r: Role): (n: nat)
    ensures 1 <= n <= 3
  {
    match r
    case NormalUser => 1
    case Admin => 2
    case SuperAdmin => 3
  }

  /** `hasRole(required)`: no role satisfies nothing; otherwise the held role must rank at least as high. */
  function HasRole(role: Option<Role>, required: Role): (b: bool)
    ensures role.None? ==> !b
  {
    role.Some? && Rank(role.value) >= Rank(required)
  }

  /** The hierarchy stated case by case: a role covers itself, the super admin covers all, an admin covers normal users. */
  predicate Covers(held: Role, required: Role) {
    held == required || held == SuperAdmin || (held == Admin && required == NormalUser)
  }

  lemma HasRoleIffCovers(held: Role, required: Role)
    ensures HasRole(Some(held), required) <==> Covers(held, required)
  {
  }

  /** The check is reflexive and transitive, the super admin holds every role, and a normal user only its own. */
  lemma HasRoleIsAnOrder(a: Role, b: Role, c: Role)
    ensures HasRole(Some(a), a)
    ensures HasRole(Some(a), b) && HasRole(Some(b), c) ==> HasRole(Some(a), c)
    ensures HasRole(Some(a), b) && HasRole(Some(b), a) ==> a == b
    ensures HasRole(Some(SuperAdmin), a)
    ensures HasRole(Some(NormalUser), a) <==> a == NormalUser
  {
  }

  /** The reply to `GET /api/auth/me`. */
  datatype MeReply = MeThrew | MeNotOk | MeOk(user: Profile, role: Role)

  /** The reply to `POST /api/auth/login`; `LoginNotOk` carries the body's message. */
  datatype LoginReply = LoginThrew | LoginNotOk(message: string) | LoginOk(token: string, user: Profile, role: Role)

  /** What `signIn` resolves to: `{error: null}` or an error. */
  datatype SignInOutcome = SignedIn | SignInFailed

  class AuthContext {
    var user: Option<Profile>
    var role: Option<Role>
    var loading: bool
    var token: Option<string>

    /** The provider starts loading, with whatever token was stored before. */
    constructor(stored: Option<string>)
      ensures user == None && role == None && loading && token == stored
    {
      user := None;
      role := None;
      loading := true;
      token := stored;
    }

    /**
     * `fetchUserData`: without a token nothing is fetched; an ok reply sets
     * user and role, any other outcome clears them; loading ends in every case.
     */
    method FetchUserData(reply: MeReply)
      modifies this`user, this`role, this`loading
      ensures !loading
      ensures (token.None? || token.value == "") ==> user == old(user) && role == old(role)
      ensures token.Some? && token.value != "" && reply.MeOk? ==> user == Some(reply.user) && role == Some(reply.role)
      ensures token.Some? && token.value != "" && !reply.MeOk? ==> user == None && role == None
    {
      if token.Some? && token.value != "" {
        match reply {
          case MeOk(u, r) =>
            user := Some(u);
            role := Some(r);
          case _ =>
            user := None;
            role := None;
        }
      }
      loading := false;
    }

    /** `signIn`: a failed or thrown request changes nothing; success stores the token, user and role. */
    method SignIn(reply: LoginReply) returns (outcome: SignInOutcome)
      modifies this`user, this`role, this`token
      ensures outcome == SignedIn <==> reply.LoginOk?
      ensures !reply.LoginOk? ==> user == old(user) && role == old(role) && token == old(token)
      ensures reply.LoginOk? ==> token == Some(reply.token) && user == Some(reply.user) && role == Some(reply.role)
    {
      match reply {
        case LoginOk(t, u, r) =>
          token := Some(t);
          user := Some(u);
          role := Some(r);
          outcome := SignedIn;
        case _ =>
          outcome := SignInFailed;
      }
    }

    /** `signOut`: the token is removed and user and role are cleared, whatever the logout request does. */
    method SignOut()
      modifies this`user, this`role, this`token
      ensures token == None && user == None && role == None
    {
      token := None;
      user := None;
      role := None;
    }

    /** `handleOAuthToken`: the token is stored, then the profile is fetched with it. */
    method HandleOAuthToken(t: string, reply: MeReply)
      modifies this`user, this`role, this`loading, this`token
      ensures token == Some(t) && !loading
      ensures t != "" && reply.MeOk? ==> user == Some(reply.user) && role == Some(reply.role)
      ensures t != "" && !reply.MeOk? ==> user == None && role == None
      ensures t == "" ==> user == old(user) && role == old(role)
    {
      token := Some(t);
      FetchUserData(reply);
      loading := false;
    }

    /** `updateUser`: only the profile is replaced. */
    method UpdateUser(p: Profile)
      modifies this`user
      ensures user == Some(p)
    {
      user := Some(p);
    }

    /** `hasRole` on the current role. */
    method HasRequiredRole(required: Role) returns (b: bool)
      ensures b == HasRole(role, required)
    {
      b := HasRole(role, required);
    }
  }

  /** After signing out, no role check passes, not even the lowest. */
  method SignOutRevokesRoles(ctx: AuthContext, required: Role) returns (b: bool)
    modifies ctx`user, ctx`role, ctx`token
    ensures !b
  {
    ctx.SignOut();
    b := ctx.HasRequiredRole(required);
  }
}
