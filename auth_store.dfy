/** The authentication store of src/store/authStore.ts: `user`, `session` and
    `loading`, assigned by four actions after the identity provider answers.
    The provider's answers are parameters: `SignInReply` stands for the
    result of `signInWithPassword` together with the `users` row read after
    it, `SignUpReply` for the result of `auth.signUp`, and
    `profileInsertFails` for an error from the `users` insert. */
module AuthStore {
  import opened Common

  datatype User = User(id: string, email: string, username: string)

  datatype SessionUser = SessionUser(id: string, email: string)

  datatype Session = Session(user: SessionUser, accessToken: string)

  /** A provider error, or a (possibly absent) session and the profile row
      read for it (`.single()` on no row gives no profile). */
  datatype SignInReply = SignInError | SignInOk(session: Option<Session>, profile: Option<User>)

  /** A provider error, or the (possibly absent) new account and session. */
  datatype SignUpReply = SignUpError | SignUpOk(user: Option<SessionUser>, session: Option<Session>)

  /** The user a session stands for before its profile row is read: the
      email doubles as the username. */
  function SessionUserOf(s: Session): (u: User)
    ensures u.id == s.user.id && u.email == s.user.email && u.username == s.user.email
  {
    User(s.user.id, s.user.email, s.user.email)
  }

  /** The `useAuthStore` state container. */
  class AuthStore {
    var user: Option<User>
    var session: Option<Session>
    var loading: bool

    constructor ()
      ensures user.None? && session.None? && !loading
    {
      user := None;
      session := None;
      loading := false;
    }

    method SetSession(s: Option<Session>)
      modifies this
      ensures session == s && !loading
      ensures user == if s.Some? then Some(SessionUserOf(s.value)) else None
    {
      if s.Some? {
        session := s;
        user := Some(SessionUserOf(s.value));
        loading := false;
      } else {
        session := None;
        user := None;
        loading := false;
      }
    }

    /** The provider's own sign-out result is awaited but not inspected. */
    method SignOut()
      modifies this
      ensures user.None? && session.None? && !loading
    {
      user := None;
      session := None;
      loading := false;
    }

    /** `Err` is the thrown provider error; nothing is assigned before it. */
    method SignIn(email: string, password: string, reply: SignInReply) returns (r: Result<()>)
      modifies this
      ensures r.Err? <==> reply.SignInError?
      ensures r.Err? ==> unchanged(this)
      ensures reply.SignInOk? && reply.session.None? ==> unchanged(this)
      ensures reply.SignInOk? && reply.session.Some? ==>
        user == reply.profile && session == reply.session && !loading
    {
      if reply.SignInError? {
        return Err;
      }
      if reply.session.Some? {
        user := reply.profile;
        session := reply.session;
        loading := false;
      }
      r := Ok(());
    }

    /** `Err` is a thrown auth or profile error; nothing is assigned before either. */
    method SignUp(email: string, password: string, username: string, reply: SignUpReply, profileInsertFails: bool)
      returns (r: Result<()>)
      modifies this
      ensures r.Err? <==> reply.SignUpError? || (reply.user.Some? && profileInsertFails)
      ensures r.Err? ==> unchanged(this)
      ensures reply.SignUpOk? && reply.user.None? ==> unchanged(this)
      ensures r.Ok? && reply.user.Some? ==>
        user == Some(User(reply.user.value.id, email, username)) && session == reply.session && !loading
    {
      if reply.SignUpError? {
        return Err;
      }
      if reply.user.Some? {
        if profileInsertFails {
          return Err;
        }
        user := Some(User(reply.user.value.id, email, username));
        session := reply.session;
        loading := false;
      }
      r := Ok(());
    }
  }
}
