/** The decision logic of the auth types (src/auth/helpers.ts). */
module Helpers {
  import opened RoleNames
  import opened Permissions
  import opened Resources
  import opened Roles
  import opened DisplayNames

  /** A value that may be missing (`undefined` in the source). */
  datatype Option<T> = None | Some(value: T)

  /** Linear membership test over a list, as arrays' `includes` does it. */
  function Includes<T(==)>(s: seq<T>, x: T): (b: bool)
    ensures b <==> x in s
  {
    if s == [] then false else s[0] == x || Includes(s[1..], x)
  }

  /**
   * The default resource map of each role name. The match is exhaustive, so
   * the fall-through branch of the source has no counterpart here.
   */
  function DefaultRolePermissions(roleName: RoleName): (m: ResourceMap)
    ensures forall r :: r in m ==> |m[r]| > 0
    ensures ArticleCreate !in m && ArticleRead !in m
    ensures forall r :: r in m ==> Create !in m[r] && Update !in m[r]
  {
    match roleName
    case Admin =>
      // The widest default map; see AdminDefaultsCoverAll for what it does cover
      map[
        ArticleDraft := [Read, Write, Delete],
        ArticlePublished := [Read, Write, Delete],
        ArticleArchived := [Read, Write, Delete],
        UserView := [Read],
        UserManage := [Read, Write, Delete],
        CategoryManage := [Read, Write, Delete],
        TagManage := [Read, Write, Delete],
        MediaUpload := [Write],
        MediaManage := [Read, Write, Delete],
        AnalyticsView := [Read],
        SettingsManage := [Read, Write]
      ]
    case Editor =>
      // Admin's entries less user and settings management
      map[
        ArticleDraft := [Read, Write, Delete],
        ArticlePublished := [Read, Write, Delete],
        ArticleArchived := [Read, Write, Delete],
        UserView := [Read],
        CategoryManage := [Read, Write, Delete],
        TagManage := [Read, Write, Delete],
        MediaUpload := [Write],
        MediaManage := [Read, Write, Delete],
        AnalyticsView := [Read]
      ]
    case Author =>
      // Ownership ("own articles", "own media") is left to the application
      map[
        ArticleDraft := [Read, Write, Delete],
        ArticlePublished := [Read, Write],
        CategoryManage := [Read],
        TagManage := [Read],
        MediaUpload := [Write],
        MediaManage := [Read, Delete],
        AnalyticsView := [Read]
      ]
    case Viewer =>
      // Reading only, on published articles and analytics
      map[
        ArticlePublished := [Read],
        AnalyticsView := [Read]
      ]
    case Contributor =>
      // Drafts may be written; published and archived articles are absent
      map[
        ArticleDraft := [Read, Write],
        CategoryManage := [Read],
        TagManage := [Read],
        MediaUpload := [Write]
      ]
    case Publisher =>
      // Writes published and archived articles, only reads drafts
      map[
        ArticleDraft := [Read],
        ArticlePublished := [Read, Write],
        ArticleArchived := [Read, Write],
        CategoryManage := [Read],
        TagManage := [Read],
        AnalyticsView := [Read]
      ]
    case Reviewer =>
      // Writes drafts, only reads published articles
      map[
        ArticleDraft := [Read, Write],
        ArticlePublished := [Read],
        CategoryManage := [Read],
        TagManage := [Read],
        AnalyticsView := [Read]
      ]
  }

  /** Every role name, each once, in declaration order. */
  function AllRoleNames(): (rs: seq<RoleName>)
    ensures |rs| == 7
    ensures forall i :: 0 <= i < |rs| ==> rs[i].Ordinal() == i
    ensures forall n: RoleName :: n in rs
  {
    var rs := [Admin, Editor, Author, Viewer, Contributor, Publisher, Reviewer];
    assert forall n: RoleName :: n in rs by {
      forall n: RoleName ensures n in rs { EveryRoleName(n); }
    }
    rs
  }

  /** Every resource, each once, in declaration order. */
  function AllResources(): (rs: seq<Resource>)
    ensures |rs| == 13
    ensures forall i :: 0 <= i < |rs| ==> rs[i].Ordinal() == i
    ensures forall r: Resource :: r in rs
  {
    var rs := [ArticleCreate, ArticleRead, UserManage, ArticleDraft, ArticlePublished,
               ArticleArchived, UserView, CategoryManage, TagManage, MediaUpload,
               MediaManage, AnalyticsView, SettingsManage];
    assert forall r: Resource :: r in rs by {
      forall r: Resource ensures r in rs { EveryResource(r); }
    }
    rs
  }

  /** No value occurs twice in the list. */
  predicate Distinct<T(==)>(s: seq<T>)
  {
    forall i, j :: 0 <= i < j < |s| ==> s[i] != s[j]
  }

  /** Listing by declaration position leaves no room for repeats. */
  lemma EnumerationsDistinct()
    ensures Distinct(AllRoleNames())
    ensures Distinct(AllResources())
  {
  }

  /** A member's declaration position indexes it back out of the enumeration. */
  lemma OrdinalRoundTrip(n: RoleName, r: Resource)
    ensures n.Ordinal() < |AllRoleNames()| && AllRoleNames()[n.Ordinal()] == n
    ensures r.Ordinal() < |AllResources()| && AllResources()[r.Ordinal()] == r
  {
  }

  /**
   * The first group, in table order, whose member list includes `r`.
   * The group it returns lists `r` and no earlier group does; it returns
   * None exactly when no group lists `r`.
   */
  function FindGroup(groups: seq<GroupEntry>, r: Resource): (g: Option<ResourceGroupName>)
    ensures g.None? <==> forall i :: 0 <= i < |groups| ==> r !in groups[i].1
    ensures g.Some? ==> exists i :: 0 <= i < |groups| && groups[i].0 == g.value && r in groups[i].1
                                    && forall j :: 0 <= j < i ==> r !in groups[j].1
  {
    if groups == [] then None
    else if Includes(groups[0].1, r) then Some(groups[0].0)
    else
      var g := FindGroup(groups[1..], r);
      assert forall i :: 1 <= i < |groups| ==> groups[i] == groups[1..][i - 1];
      g
  }

  /** Every resource except the two legacy ones is listed in some group. */
  lemma GroupedUnlessLegacy(r: Resource)
    ensures r.IsLegacy() <==> forall i :: 0 <= i < |ResourceGroups()| ==> r !in ResourceGroups()[i].1
  {
    var gs := ResourceGroups();
    match r
    case ArticleCreate =>
    case ArticleRead =>
    case ArticleDraft => assert r in gs[0].1;
    case ArticlePublished => assert r in gs[0].1;
    case ArticleArchived => assert r in gs[0].1;
    case CategoryManage => assert r in gs[1].1;
    case TagManage => assert r in gs[1].1;
    case MediaUpload => assert r in gs[1].1;
    case MediaManage => assert r in gs[1].1;
    case UserView => assert r in gs[2].1;
    case UserManage => assert r in gs[2].1;
    case AnalyticsView => assert r in gs[3].1;
    case SettingsManage => assert r in gs[4].1;
  }

  /** The group a resource is shown under, or None for a resource in no group. */
  function ResourceGroup(r: Resource): (g: Option<ResourceGroupName>)
    ensures g.None? <==> r.IsLegacy()
    ensures g.Some? ==> InGroup(r, g.value)
  {
    GroupedUnlessLegacy(r);
    FindGroup(ResourceGroups(), r)
  }

  /**
   * The answer does not depend on the order of the table: a resource's group
   * is whichever group lists it.
   */
  lemma ResourceGroupExact(r: Resource, g: ResourceGroupName)
    ensures ResourceGroup(r) == Some(g) <==> InGroup(r, g)
  {
  }

  /** The examples of the documentation, and the legacy-commented UserManage. */
  lemma ResourceGroupExamples()
    ensures ResourceGroup(ArticleDraft) == Some(Articles)
    ensures ResourceGroup(MediaUpload) == Some(ContentManagement)
    ensures ResourceGroup(UserManage) == Some(Users)
    ensures ResourceGroup(ArticleDraft).value.Key() == "Articles"
    ensures ResourceGroup(MediaUpload).value.Key() == "Content Management"
    ensures ResourceGroup(ArticleCreate) == None && ResourceGroup(ArticleRead) == None
  {
    var gs := ResourceGroups();
    assert gs[0].0 == Articles && ArticleDraft in gs[0].1;
    ResourceGroupExact(ArticleDraft, Articles);
    assert gs[1].0 == ContentManagement && MediaUpload in gs[1].1;
    ResourceGroupExact(MediaUpload, ContentManagement);
    assert gs[2].0 == Users && UserManage in gs[2].1;
    ResourceGroupExact(UserManage, Users);
  }

  /**
   * Whether map `m` grants `p` on `r`: a resource that is not a key grants
   * nothing, and neither does an empty list.
   */
  function HasPermission(m: ResourceMap, r: Resource, p: Permission): (b: bool)
    ensures b <==> r in m && p in m[r]
    ensures r !in m ==> !b
    ensures r in m && m[r] == [] ==> !b
  {
    if r in m then Includes(m[r], p) else false
  }

  /** Only Admin's default map has a UserManage or a SettingsManage key. */
  lemma OnlyAdminManagesUsersAndSettings(roleName: RoleName)
    ensures UserManage in DefaultRolePermissions(roleName) <==> roleName == Admin
    ensures SettingsManage in DefaultRolePermissions(roleName) <==> roleName == Admin
  {
  }

  /** Editor's default map is Admin's without user and system management. */
  lemma EditorIsAdminWithoutManagement()
    ensures DefaultRolePermissions(Editor) == DefaultRolePermissions(Admin) - {UserManage, SettingsManage}
  {
  }

  /** Viewer's default map grants Read on published articles and analytics, and nothing else. */
  lemma ViewerReadOnly(r: Resource, p: Permission)
    ensures HasPermission(DefaultRolePermissions(Viewer), r, p) <==>
            p == Read && (r == ArticlePublished || r == AnalyticsView)
  {
  }

  /**
   * Contributor's default map lets it write drafts, and has no published or
   * archived articles: it cannot publish.
   */
  lemma ContributorDraftsOnly(p: Permission)
    ensures HasPermission(DefaultRolePermissions(Contributor), ArticleDraft, Write)
    ensures ArticlePublished !in DefaultRolePermissions(Contributor)
    ensures ArticleArchived !in DefaultRolePermissions(Contributor)
    ensures !HasPermission(DefaultRolePermissions(Contributor), ArticlePublished, p)
  {
  }

  /** Author's default map lets it write drafts and published articles and delete drafts. */
  lemma AuthorWritesArticles()
    ensures HasPermission(DefaultRolePermissions(Author), ArticleDraft, Write)
    ensures HasPermission(DefaultRolePermissions(Author), ArticleDraft, Delete)
    ensures HasPermission(DefaultRolePermissions(Author), ArticlePublished, Write)
    ensures !HasPermission(DefaultRolePermissions(Author), ArticlePublished, Delete)
    ensures ArticleArchived !in DefaultRolePermissions(Author)
  {
  }

  /** Publisher's default map lets it write published and archived articles, but not drafts. */
  lemma PublisherPublishes()
    ensures HasPermission(DefaultRolePermissions(Publisher), ArticlePublished, Write)
    ensures HasPermission(DefaultRolePermissions(Publisher), ArticleArchived, Write)
    ensures forall p :: HasPermission(DefaultRolePermissions(Publisher), ArticleDraft, p) <==> p == Read
  {
  }

  /** Reviewer's default map lets it write drafts, and only read published articles. */
  lemma ReviewerEditsDrafts()
    ensures HasPermission(DefaultRolePermissions(Reviewer), ArticleDraft, Write)
    ensures forall p :: HasPermission(DefaultRolePermissions(Reviewer), ArticlePublished, p) <==> p == Read
    ensures ArticleArchived !in DefaultRolePermissions(Reviewer)
  {
  }

  /** Admin's default map does not grant everything, its comment notwithstanding. */
  lemma AdminNotEverything()
    ensures !HasPermission(DefaultRolePermissions(Admin), MediaUpload, Read)
    ensures !HasPermission(DefaultRolePermissions(Admin), SettingsManage, Delete)
    ensures !HasPermission(DefaultRolePermissions(Admin), UserView, Write)
    ensures !HasPermission(DefaultRolePermissions(Admin), ArticleCreate, Read)
    ensures !HasPermission(DefaultRolePermissions(Admin), ArticleDraft, Create)
  {
  }

  /** Whatever any role's default map grants, Admin's default map grants too. */
  lemma AdminDefaultsCoverAll(roleName: RoleName, r: Resource, p: Permission)
    ensures HasPermission(DefaultRolePermissions(roleName), r, p) ==>
            HasPermission(DefaultRolePermissions(Admin), r, p)
  {
    var m, admin := DefaultRolePermissions(roleName), DefaultRolePermissions(Admin);
    if r in m && p in m[r] {
      match roleName
      case Admin =>
      case Editor =>
      case Author =>
      case Viewer =>
      case Contributor =>
      case Publisher =>
      case Reviewer =>
    }
  }
}
