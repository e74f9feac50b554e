/**
 * What the pages and routes read from a NextAuth session. Signing in, the
 * GitHub provider and the JWT callbacks are outside this model; a session is
 * an input.
 */
module Auth {
  import opened Js

  /** `session.user`, extended with the GitHub `username` and `bio`. */
  datatype User = User(
    name: Option<string>,
    email: Option<string>,
    image: Option<string>,
    username: Option<string>,
    bio: Option<string>)

  /** A session; `user` may be missing. */
  datatype Session = Session(user: Option<User>)

  /** `useSession().status` */
  datatype Status = Loading | Authenticated | Unauthenticated

  /** `session?.user` is present. */
  predicate SignedIn(session: Option<Session>) {
    session.Some? && session.value.user.Some?
  }

  /** `session?.user?.username` */
  function Username(session: Option<Session>): Option<string> {
    if SignedIn(session) then session.value.user.value.username else None
  }
}
