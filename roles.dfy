/** A role instance (src/auth/roles.ts). */
module Roles {
  import opened Resources
  import opened Permissions

  /**
   * A partial record from resource to the list of permissions granted on it;
   * a resource that is not a key grants nothing.
   */
  type ResourceMap = map<Resource, seq<Permission>>

  /** A role: its name is a free string, not a RoleName. */
  datatype Role = Role(id: string, name: string, resources: ResourceMap)
}
