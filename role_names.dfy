/** The fixed set of role names (src/auth/role-names.ts). */
module RoleNames {

  /** The seven role names, in declaration order. */
  datatype RoleName = Admin | Editor | Author | Viewer | Contributor | Publisher | Reviewer
  {
    /** Position of this member in the enum declaration, counting from 0. */
    function Ordinal(): nat
    {
      match this
      case Admin => 0
      case Editor => 1
      case Author => 2
      case Viewer => 3
      case Contributor => 4
      case Publisher => 5
      case Reviewer => 6
    }
  }
}
