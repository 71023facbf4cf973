/** The session of contexts/AuthContext.tsx: the signed-in user, the start-up `loading` flag and
    the browser's stored session record, which is an optional slot here. The stored record is the
    user value itself; its JSON encoding is not modelled. */
module Auth {
  import opened Types

  /** The user every login produces; only the e-mail address comes from the form. */
  function MockUser(email: string): (u: User)
    ensures u.id == "usr_123" && u.name == "Admin User" && u.role == AdminRole && u.email == email
    ensures u.avatar == Some("https://picsum.photos/200")
  {
    User("usr_123", "Admin User", email, AdminRole, Some("https://picsum.photos/200"))
  }

  /** The three pieces of session state. */
  datatype SessionState = SessionState(user: Option<User>, loading: bool, storage: Option<User>)

  /** The start-up effect: the stored record, if any, becomes the user, and loading ends. */
  function Restored(s: SessionState): (t: SessionState)
    ensures t.storage == s.storage && !t.loading
    ensures s.storage.Some? ==> t.user == s.storage
    ensures s.storage.None? ==> t.user == s.user
  {
    SessionState(if s.storage.Some? then s.storage else s.user, false, s.storage)
  }

  function LoggedIn(s: SessionState, email: string): (t: SessionState)
    ensures t.user == Some(MockUser(email)) && t.storage == t.user && t.loading == s.loading
  {
    SessionState(Some(MockUser(email)), s.loading, Some(MockUser(email)))
  }

  function LoggedOut(s: SessionState): (t: SessionState)
    ensures t.user == None && t.storage == None && t.loading == s.loading
  {
    SessionState(None, s.loading, None)
  }

  /** Logging out undoes a login completely; logging out twice is logging out once. */
  lemma LogoutUndoesLogin(s: SessionState, email: string)
    ensures LoggedOut(LoggedIn(s, email)) == LoggedOut(s)
    ensures LoggedOut(LoggedOut(s)) == LoggedOut(s)
  {
  }

  /** Logging in twice with the same address is logging in once. */
  lemma LoginIdempotent(s: SessionState, email: string)
    ensures LoggedIn(LoggedIn(s, email), email) == LoggedIn(s, email)
  {
  }

  /** A login survives a reload: restoring after a login gives back the same user, with loading done. */
  lemma LoginSurvivesReload(s: SessionState, email: string)
    ensures Restored(LoggedIn(s, email)).user == Some(MockUser(email))
    ensures Restored(LoggedOut(s)).user == None
  {
  }

  class Session {
    var user: Option<User>
    var loading: bool
    var storage: Option<User>

    function State(): SessionState
      reads this
    {
      SessionState(user, loading, storage)
    }

    /** The provider mounts with no user and `loading` set, over whatever the slot holds. */
    constructor (stored: Option<User>)
      ensures State() == SessionState(None, true, stored)
    {
      user := None;
      loading := true;
      storage := stored;
    }

    method Restore()
      modifies this
      ensures State() == Restored(old(State()))
    {
      if storage.Some? {
        user := storage;
      }
      loading := false;
    }

    method Login(email: string)
      modifies this
      ensures State() == LoggedIn(old(State()), email)
    {
      var u := MockUser(email);
      user := Some(u);
      storage := Some(u);
    }

    method Logout()
      modifies this
      ensures State() == LoggedOut(old(State()))
    {
      user := None;
      storage := None;
    }
  }
}
