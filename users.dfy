/** The signed-in user as the pages see it: only the two attributes the
    pages decide on. */
module Users {
  import opened Wrappers

  datatype User = User(role: string, organization: string)

  /** `user?.role`: no role when nobody is signed in. */
  function RoleOf(user: Option<User>): (role: Option<string>)
    ensures role.Some? <==> user.Some?
    ensures user.Some? ==> role.value == user.value.role
  {
    match user
    case Some(u) => Some(u.role)
    case None => None
  }
}
