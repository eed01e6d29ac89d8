/** A user and the roles assigned to it (src/auth/user.ts). */
module UserTypes {
  import opened Roles

  datatype User = User(id: string, email: string, roles: seq<Role>, isActive: bool)
}
