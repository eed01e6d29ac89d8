/** The protectable resources (src/auth/resources.ts). */
module Resources {

  /**
   * The enum itself declares only ArticleCreate, ArticleRead and UserManage,
   * but the default role table and the display-name tables use ten more
   * members; the type has all thirteen keys of the resource display-name
   * table, in that table's order (the first three are the declared ones,
   * ArticleCreate and ArticleRead being the deprecated legacy members).
   */
  datatype Resource =
    | ArticleCreate | ArticleRead | UserManage
    | ArticleDraft | ArticlePublished | ArticleArchived
    | UserView
    | CategoryManage | TagManage
    | MediaUpload | MediaManage
    | AnalyticsView
    | SettingsManage
  {
    /** Position of this member in the declaration order above, counting from 0. */
    function Ordinal(): nat
    {
      match this
      case ArticleCreate => 0
      case ArticleRead => 1
      case UserManage => 2
      case ArticleDraft => 3
      case ArticlePublished => 4
      case ArticleArchived => 5
      case UserView => 6
      case CategoryManage => 7
      case TagManage => 8
      case MediaUpload => 9
      case MediaManage => 10
      case AnalyticsView => 11
      case SettingsManage => 12
    }

    /** The two members kept only for backward compatibility. */
    predicate IsLegacy()
    {
      this == ArticleCreate || this == ArticleRead
    }
  }
}
