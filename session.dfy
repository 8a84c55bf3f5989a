/** The user object the client keeps after login: exactly the four fields the login
    response sends and the token carries. Ids are opaque, so naturals stand for them. */
module Session {

  datatype SessionUser = SessionUser(id: nat, email: string, role: string, userName: string)
}
