/**
 * How both wizards fill the contributor's name and email from the login
 * session. Native mode copies the session's user name and email when they are
 * present; GitHub mode asks the GitHub user API (given the session's access
 * token) and, unless the request was cancelled meanwhile, overwrites both.
 */
module SessionIdentity {
  import opened Wrappers

  /** The parts of the session the wizards read: `accessToken`, `user.name`, `user.email`. */
  datatype Session = Session(accessToken: Option<string>, userName: Option<string>, userEmail: Option<string>)

  /** The contributor identity held in the form data. */
  datatype Identity = Identity(name: string, email: string)

  /** What the GitHub user API returns. */
  datatype UserInfo = UserInfo(login: string, name: string, email: string)

  /** Native mode: a truthy session value replaces the field, otherwise the field keeps its value. */
  function NativeIdentity(prev: Identity, session: Session): (r: Identity)
    ensures Truthy(session.userName) ==> r.name == session.userName.value
    ensures !Truthy(session.userName) ==> r.name == prev.name
    ensures Truthy(session.userEmail) ==> r.email == session.userEmail.value
    ensures !Truthy(session.userEmail) ==> r.email == prev.email
  {
    Identity(OrElse(session.userName, prev.name), OrElse(session.userEmail, prev.email))
  }

  /** Applying the native fill again changes nothing. */
  lemma {:induction false} NativeIdentityIdempotent(prev: Identity, session: Session)
    ensures NativeIdentity(NativeIdentity(prev, session), session) == NativeIdentity(prev, session)
  {
  }

  /** Native mode never erases a value with an absent or empty session field. */
  lemma {:induction false} NativeIdentityKeepsUserValues(prev: Identity)
    ensures NativeIdentity(prev, Session(None, None, None)) == prev
    ensures NativeIdentity(prev, Session(None, Some(""), Some(""))) == prev
  {
  }

  /** GitHub mode starts the user-info request only with a truthy access token; native mode never starts it. */
  predicate FetchesUserInfo(isGithubMode: bool, session: Session): (r: bool)
    ensures r ==> isGithubMode
    ensures isGithubMode ==> (r <==> session.accessToken.Some? && session.accessToken.value != "")
  {
    isGithubMode && Truthy(session.accessToken)
  }

  /** GitHub mode: a response that arrives before cancellation overwrites name and email
      unconditionally; a cancelled or failed request leaves them alone. */
  function GithubIdentity(prev: Identity, canceled: bool, response: Option<UserInfo>): (r: Identity)
    ensures !canceled && response.Some? ==> r == Identity(response.value.name, response.value.email)
    ensures canceled || response.None? ==> r == prev
  {
    if !canceled && response.Some? then Identity(response.value.name, response.value.email) else prev
  }

  /** Unlike the native fill, the GitHub fill does not depend on what the user had entered. */
  lemma {:induction false} GithubIdentityOverwrites(prev1: Identity, prev2: Identity, info: UserInfo)
    ensures GithubIdentity(prev1, false, Some(info)) == GithubIdentity(prev2, false, Some(info))
  {
  }
}
