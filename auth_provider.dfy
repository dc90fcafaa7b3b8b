/**
 * The session state of frontend/src/context/AuthProvider.jsx: the three
 * state fields and the transitions `checkAuth`, `login` and `logout` make
 * on them. The HTTP calls are parameters: the verify reply, or whether the
 * logout request resolved.
 */
module AuthProvider {
  import opened Js
  import opened UserController

  /** The body of a resolved `GET /api/user/verify`: its `user` and `isAuthenticated`. */
  datatype VerifyReply = VerifyReply(user: Option<UserView>, isAuthenticated: bool)

  /** No user and not authenticated. */
  predicate SignedOut(authUser: Option<UserView>, isAuthenticated: bool) {
    authUser == None && !isAuthenticated
  }

  class Session {
    var authUser: Option<UserView>
    var isAuthenticated: bool
    var loading: bool

    /** Before the first check: signed out and loading. */
    constructor ()
      ensures SignedOut(authUser, isAuthenticated) && loading
    {
      authUser := None;
      isAuthenticated := false;
      loading := true;
    }

    /**
     * `checkAuth`: a reply is copied into the state, a failed request
     * (`reply == None`) signs out, and loading ends either way.
     */
    method CheckAuth(reply: Option<VerifyReply>)
      modifies this
      ensures !loading
      ensures reply.Some? ==> authUser == reply.value.user && isAuthenticated == reply.value.isAuthenticated
      ensures reply.None? ==> SignedOut(authUser, isAuthenticated)
    {
      if reply.Some? {
        authUser := reply.value.user;
        isAuthenticated := reply.value.isAuthenticated;
      } else {
        isAuthenticated := false;
        authUser := None;
      }
      loading := false;
    }

    /** `login(userData)`: the given user, authenticated; loading untouched. */
    method Login(userData: UserView)
      modifies this`authUser, this`isAuthenticated
      ensures authUser == Some(userData) && isAuthenticated
    {
      authUser := Some(userData);
      isAuthenticated := true;
    }

    /**
     * `logout`: signed out once the request resolves; when it rejects the
     * state stays as it was and the rejection reaches the caller.
     */
    method Logout(requestResolved: bool) returns (rejected: bool)
      modifies this`authUser, this`isAuthenticated
      ensures rejected == !requestResolved
      ensures requestResolved ==> SignedOut(authUser, isAuthenticated)
      ensures !requestResolved ==> authUser == old(authUser) && isAuthenticated == old(isAuthenticated)
    {
      if !requestResolved {
        return true;
      }
      authUser := None;
      isAuthenticated := false;
      rejected := false;
    }
  }

  /**
   * After a failed check, logging in and then out with a resolving request
   * leaves the session signed out and no longer loading.
   */
  method LoginLogoutRoundTrip(u: UserView) returns (s: Session, rejected: bool)
    ensures !rejected && SignedOut(s.authUser, s.isAuthenticated) && !s.loading
  {
    s := new Session();
    s.CheckAuth(None);
    s.Login(u);
    rejected := s.Logout(true);
  }
}
