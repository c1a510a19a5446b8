/** The signed-in user as the route handlers see it through `getServerSession`. */
module Sessions {

  /** The fields of `session.user` the handlers read. */
  datatype SessionUser = SessionUser(id: string, email: string, firstName: string, lastName: string, role: string)

  /** The only role allowed to create projects and skill tags. */
  const STUDENT := "student"
}
