// The client-side session of book-store-app/src/context/AuthContext.jsx:
// the role helpers, the page-access rule, and the login, logout and startup
// validation updates of the `user`/`token` state and of the token kept in
// local storage. The HTTP calls are their results, passed in.
module AuthContext {
  import opened Wrappers
  import AuthRoutes

  /** The `{ success, error }` object the context's actions resolve to. */
  datatype Outcome = Outcome(success: bool, error: Option<string>)

  /** The pages an admin may not open. */
  const RestrictedForAdmin: seq<string> := ["reports", "users"]

  predicate IsOwner(user: Option<AuthRoutes.Claims>) {
    user.Some? && user.value.role == "owner"
  }

  predicate IsAdmin(user: Option<AuthRoutes.Claims>) {
    user.Some? && user.value.role == "admin"
  }

  predicate IsAuthenticated(user: Option<AuthRoutes.Claims>) {
    user.Some?
  }

  /** `canAccess(page)`: nobody without a user, an owner everywhere, anyone else outside the restricted pages. */
  predicate CanAccess(user: Option<AuthRoutes.Claims>, page: string) {
    if user.None? then false
    else if user.value.role == "owner" then true
    else page !in RestrictedForAdmin
  }

  /**
   * Access is denied without a user, granted to an owner on every page, and
   * for any other role denied on exactly the reports and users pages.
   */
  lemma {:induction false} CanAccessRule(user: Option<AuthRoutes.Claims>, page: string)
    ensures !IsAuthenticated(user) ==> !CanAccess(user, page)
    ensures IsOwner(user) ==> CanAccess(user, page)
    ensures IsAuthenticated(user) && !IsOwner(user) ==> (CanAccess(user, page) <==> page != "reports" && page != "users")
    ensures CanAccess(user, page) ==> IsAuthenticated(user)
  {
  }

  /** No user is both owner and admin, and either role is an authenticated user. */
  lemma {:induction false} RolesExclusive(user: Option<AuthRoutes.Claims>)
    ensures !(IsOwner(user) && IsAdmin(user))
    ensures IsOwner(user) || IsAdmin(user) ==> IsAuthenticated(user)
  {
  }

  /** The default `Authorization` header the token effect installs: `Bearer <token>` for a truthy token, none otherwise. */
  function AuthHeader(token: Option<string>): Option<string> {
    if token.Some? && token.value != "" then Some("Bearer " + token.value) else None
  }

  /** The header the client sends carries exactly its token to the server's `verifyToken`. */
  lemma {:induction false} HeaderCarriesToken(token: Option<string>)
    requires token.Some? ==> ' ' !in token.value
    ensures AuthRoutes.BearerToken(AuthHeader(token)) == if token.Some? && token.value != "" then token else None
  {
    if token.Some? && token.value != "" {
      assert "Bearer " + token.value == "Bearer" + " " + token.value;
      AuthRoutes.BearerOfScheme("Bearer", token.value);
    }
  }

  /** `error.response?.data?.error || fallback`. */
  function ErrorText(serverError: Option<string>, fallback: string): (r: string)
    ensures fallback != "" ==> r != ""
    ensures serverError.Some? && serverError.value != "" ==> r == serverError.value
  {
    if serverError.Some? && serverError.value != "" then serverError.value else fallback
  }

  const LoginFailed := "Login gagal"
  const ChangeFailed := "Gagal mengubah password"

  /** `changePassword`: the response of PUT /auth/change-password, `Err` carrying the server's message if any. */
  function ChangePasswordOutcome(response: Result<(), Option<string>>): (r: Outcome)
    ensures r.success <==> response.Ok?
    ensures r.success ==> r.error.None?
    ensures !r.success ==> r.error.Some? && r.error.value != ""
  {
    if response.Ok? then Outcome(true, None) else Outcome(false, Some(ErrorText(response.error, ChangeFailed)))
  }

  /** The provider's state: the signed-in user, the token, and the token in local storage. */
  class Session {
    var user: Option<AuthRoutes.Claims>
    var token: Option<string>
    var stored: Option<string>
    var loading: bool

    /** The provider mounts with the stored token, no user, and loading. */
    constructor(storedToken: Option<string>)
      ensures user == None && token == storedToken && stored == storedToken && loading
    {
      user := None;
      token := storedToken;
      stored := storedToken;
      loading := true;
    }

    /** `logout`: the stored token, the token and the user are all cleared. */
    method Logout()
      modifies this
      ensures user == None && token == None && stored == None && loading == old(loading)
      ensures forall page :: !CanAccess(user, page)
      ensures AuthHeader(token) == None
    {
      stored := None;
      token := None;
      user := None;
    }

    /**
     * `login`: on success the token is stored and kept and the user is set;
     * on failure nothing changes and the server's message, or the fallback,
     * is returned.
     */
    method Login(response: Result<AuthRoutes.LoginResult, Option<string>>) returns (outcome: Outcome)
      modifies this
      ensures response.Ok? ==>
        outcome == Outcome(true, None)
        && stored == Some(response.value.token) && token == Some(response.value.token)
        && user == Some(response.value.user) && loading == old(loading)
      ensures response.Err? ==>
        outcome == Outcome(false, Some(ErrorText(response.error, LoginFailed)))
        && user == old(user) && token == old(token) && stored == old(stored) && loading == old(loading)
    {
      match response
      case Ok(data) =>
        stored := Some(data.token);
        token := Some(data.token);
        user := Some(data.user);
        outcome := Outcome(true, None);
      case Err(serverError) =>
        outcome := Outcome(false, Some(ErrorText(serverError, LoginFailed)));
    }

    /**
     * The startup check: with a truthy stored token the user becomes the
     * answer of GET /auth/me, or the session is logged out when it fails;
     * loading ends either way.
     */
    method Validate(me: Option<AuthRoutes.Claims>)
      modifies this
      ensures !loading
      ensures (old(stored).None? || old(stored) == Some("")) ==>
        user == old(user) && token == old(token) && stored == old(stored)
      ensures old(stored).Some? && old(stored) != Some("") && me.Some? ==>
        user == me && token == old(token) && stored == old(stored)
      ensures old(stored).Some? && old(stored) != Some("") && me.None? ==>
        user == None && token == None && stored == None
    {
      var current := stored;
      if current.Some? && current.value != "" {
        if me.Some? {
          user := me;
        } else {
          Logout();
        }
      }
      loading := false;
    }
  }
}
