/** The permission vocabulary (src/auth/permissions.ts). */
module Permissions {

  /**
   * Create, Read, Update and Delete are the members the enum declares.
   * Write is not declared there, yet it is the permission the default
   * role table grants for every modifying action; it is kept as a member
   * of its own and is not read as Create or Update.
   */
  datatype Permission = Create | Read | Update | Delete | Write
}
