/** The session store (context/AuthContext.jsx): the logged-in user and whether the initial
    session check is still running. */
module AuthContext {
  import opened Wrappers

  datatype User = User(id: string, name: string, isAdmin: bool)

  /** The body of `GET /auth/check`. */
  datatype SessionReply = SessionReply(isLogin: bool, user: Option<User>)

  /** The body of `POST /auth/login`. */
  datatype LoginReply = LoginReply(user: Option<User>)

  datatype Request = CheckSession | PostLogin(userId: string, password: string) | PostLogout

  class AuthStore {
    var user: Option<User>
    var loading: bool
    var requests: seq<Request>

    /** The provider renders its children only once the session check has settled. */
    predicate RendersChildren()
      reads this
    {
      !loading
    }

    /** Before the session check: nobody is logged in and nothing below the provider renders. */
    constructor()
      ensures user == None && loading && !RendersChildren() && requests == []
    {
      user, loading, requests := None, true, [];
    }

    /** `checkLoginStatus`, the mount effect: the returned user when the server says the session
        is logged in, nobody otherwise or when the check fails; loading ends in every case. */
    method CheckLoginStatus(reply: Response<SessionReply>)
      modifies this
      ensures reply.Ok? && reply.data.isLogin ==> user == reply.data.user
      ensures reply.Ok? && !reply.data.isLogin ==> user == None
      ensures reply.Failed? ==> user == None
      ensures !loading && RendersChildren()
      ensures requests == old(requests) + [CheckSession]
    {
      requests := requests + [CheckSession];
      if reply.Ok? {
        if reply.data.isLogin {
          user := reply.data.user;
        } else {
          user := None;
        }
      } else {
        user := None;
      }
      loading := false;
    }

    /** `login`: on success the user from the response, which is handed back to the caller;
        a failure propagates to the caller and leaves the user as it was. */
    method Login(userId: string, password: string, reply: Response<LoginReply>) returns (r: Response<LoginReply>)
      modifies this`user, this`requests
      ensures r == reply
      ensures reply.Ok? ==> user == reply.data.user
      ensures reply.Failed? ==> user == old(user)
      ensures requests == old(requests) + [PostLogin(userId, password)]
    {
      requests := requests + [PostLogin(userId, password)];
      if reply.Ok? {
        user := reply.data.user;
      }
      r := reply;
    }

    /** `logout`: the user is cleared only after the request succeeds; a failure propagates and
        leaves the user as it was. */
    method Logout(reply: Response<()>) returns (r: Response<()>)
      modifies this`user, this`requests
      ensures r == reply
      ensures reply.Ok? ==> user == None
      ensures reply.Failed? ==> user == old(user)
      ensures requests == old(requests) + [PostLogout]
    {
      requests := requests + [PostLogout];
      if reply.Ok? {
        user := None;
      }
      r := reply;
    }
  }
}
