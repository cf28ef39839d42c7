/** The user record of the session context, also the shape the permission
    evaluator reads (it ignores the email). */
module Users {

  /** The email the user signed in with (or that `/me` returned), and the
      permissions and roles the server granted, in the server's order. */
  datatype User = User(email: string, permissions: seq<string>, roles: seq<string>)
}
