/** Constant presentation tables keyed by the enumerations (src/auth/display-names.ts). */
module DisplayNames {
  import opened RoleNames
  import opened Resources

  /** The enumeration is closed: a role name is one of the seven members. */
  lemma EveryRoleName(n: RoleName)
    ensures n in {Admin, Editor, Author, Viewer, Contributor, Publisher, Reviewer}
  {
  }

  /** The enumeration is closed: a resource is one of the thirteen members. */
  lemma EveryResource(r: Resource)
    ensures r in {ArticleCreate, ArticleRead, UserManage, ArticleDraft, ArticlePublished,
                  ArticleArchived, UserView, CategoryManage, TagManage, MediaUpload,
                  MediaManage, AnalyticsView, SettingsManage}
  {
  }

  /** Human-readable name of each role; defined for every role name. */
  function RoleDisplayNames(): (m: map<RoleName, string>)
    ensures forall n: RoleName :: n in m
    ensures forall a, b :: a in m && b in m && m[a] == m[b] ==> a == b
  {
    var m := map[
      Admin := "Administrator",
      Editor := "Editor",
      Author := "Author",
      Viewer := "Viewer",
      Contributor := "Contributor",
      Publisher := "Publisher",
      Reviewer := "Reviewer"
    ];
    assert forall n: RoleName :: n in m by {
      forall n: RoleName ensures n in m { EveryRoleName(n); }
    }
    m
  }

  /** One-sentence description of each role; defined for every role name. */
  function RoleDescriptions(): (m: map<RoleName, string>)
    ensures forall n: RoleName :: n in m
  {
    var m := map[
      Admin := "Full system access with ability to manage all resources, users, and settings.",
      Editor := "Manages all content including articles, categories, tags, and media library.",
      Author := "Creates and manages own articles and media uploads.",
      Viewer := "Read-only access to published content and analytics.",
      Contributor := "Submits draft articles for review without publishing rights.",
      Publisher := "Publishes reviewed articles and manages published content lifecycle.",
      Reviewer := "Reviews and approves contributor submissions before publication."
    ];
    assert forall n: RoleName :: n in m by {
      forall n: RoleName ensures n in m { EveryRoleName(n); }
    }
    m
  }

  /** The marker in the label of a deprecated resource. */
  const DeprecatedMarker: string := "(deprecated)"

  /** `t` occurs in `s` starting at position `i`. */
  predicate OccursAt(s: string, t: string, i: int)
  {
    0 <= i && i + |t| <= |s| && s[i..i + |t|] == t
  }

  /** Whether a label contains the deprecation marker anywhere. */
  predicate IsDeprecatedLabel(s: string)
  {
    exists i | 0 <= i <= |s| :: OccursAt(s, DeprecatedMarker, i)
  }

  /** An occurrence of the marker starts with the characters '(' and 'd'. */
  lemma MarkerStart(s: string, i: int)
    requires OccursAt(s, DeprecatedMarker, i)
    ensures s[i] == '(' && s[i + 1] == 'd'
  {
    var w := s[i..i + |DeprecatedMarker|];
    assert s[i] == w[0] && s[i + 1] == w[1];
  }

  /** A label in which '(' is never followed by 'd' is not marked deprecated. */
  lemma NotDeprecated(s: string)
    requires forall i :: 0 <= i < |s| - 1 ==> s[i] != '(' || s[i + 1] != 'd'
    ensures !IsDeprecatedLabel(s)
  {
    forall i | 0 <= i <= |s| ensures !OccursAt(s, DeprecatedMarker, i) {
      if OccursAt(s, DeprecatedMarker, i) {
        MarkerStart(s, i);
      }
    }
  }

  /**
   * Human-readable name of each resource; defined for every resource.
   */
  function ResourceDisplayNames(): (m: map<Resource, string>)
    ensures forall r: Resource :: r in m
  {
    var m := map[
      ArticleCreate := "Create Articles (deprecated)",
      ArticleRead := "Read Articles (deprecated)",
      UserManage := "Manage Users (full)",
      ArticleDraft := "Draft Articles",
      ArticlePublished := "Published Articles",
      ArticleArchived := "Archived Articles",
      UserView := "View Users",
      CategoryManage := "Manage Categories",
      TagManage := "Manage Tags",
      MediaUpload := "Upload Media",
      MediaManage := "Manage Media Library",
      AnalyticsView := "View Analytics",
      SettingsManage := "Manage Settings"
    ];
    assert forall r: Resource :: r in m by {
      forall r: Resource ensures r in m { EveryResource(r); }
    }
    m
  }

  /** The two legacy labels carry the deprecation marker. */
  lemma LegacyLabelsDeprecated()
    ensures IsDeprecatedLabel(ResourceDisplayNames()[ArticleCreate])
    ensures IsDeprecatedLabel(ResourceDisplayNames()[ArticleRead])
  {
    var c, d := ResourceDisplayNames()[ArticleCreate], ResourceDisplayNames()[ArticleRead];
    assert c == "Create Articles (deprecated)" && c[16..] == DeprecatedMarker;
    assert OccursAt(c, DeprecatedMarker, 16);
    assert d == "Read Articles (deprecated)" && d[14..] == DeprecatedMarker;
    assert OccursAt(d, DeprecatedMarker, 14);
  }

  /** No other label carries the deprecation marker. */
  lemma OtherLabelsNotDeprecated(r: Resource)
    requires !r.IsLegacy()
    ensures !IsDeprecatedLabel(ResourceDisplayNames()[r])
  {
    var s := ResourceDisplayNames()[r];
    forall i | 0 <= i < |s| - 1 ensures s[i] != '(' || s[i + 1] != 'd' {
    }
    NotDeprecated(s);
  }

  /** Exactly the two legacy resources are labelled deprecated. */
  lemma DeprecatedExactlyLegacy(r: Resource)
    ensures IsDeprecatedLabel(ResourceDisplayNames()[r]) <==> r.IsLegacy()
  {
    if r.IsLegacy() {
      LegacyLabelsDeprecated();
    } else {
      OtherLabelsNotDeprecated(r);
    }
  }

  /** The keys of the resource group table. */
  datatype ResourceGroupName = Articles | ContentManagement | Users | Analytics | System
  {
    /** The key as written in the table. */
    function Key(): string
    {
      match this
      case Articles => "Articles"
      case ContentManagement => "Content Management"
      case Users => "Users"
      case Analytics => "Analytics"
      case System => "System"
    }
  }

  /** One entry of the group table: a group name and its member resources. */
  type GroupEntry = (ResourceGroupName, seq<Resource>)

  /**
   * The resource group table, as its entries are enumerated (insertion order).
   * The five names are distinct and no resource sits in two groups.
   */
  function ResourceGroups(): (gs: seq<GroupEntry>)
    ensures |gs| == 5
    ensures forall i, j :: 0 <= i < j < |gs| ==> gs[i].0 != gs[j].0
    ensures forall i, j :: 0 <= i < j < |gs| ==> Disjoint(gs[i].1, gs[j].1)
  {
    [
      (Articles, [ArticleDraft, ArticlePublished, ArticleArchived]),
      (ContentManagement, [CategoryManage, TagManage, MediaUpload, MediaManage]),
      (Users, [UserView, UserManage]),
      (Analytics, [AnalyticsView]),
      (System, [SettingsManage])
    ]
  }

  /** No resource occurs in both lists. */
  predicate Disjoint(a: seq<Resource>, b: seq<Resource>)
  {
    forall r :: r in a ==> r !in b
  }

  /** Resource `r` is listed under the group named `g`. */
  predicate InGroup(r: Resource, g: ResourceGroupName)
  {
    var gs := ResourceGroups();
    exists i :: 0 <= i < |gs| && gs[i].0 == g && r in gs[i].1
  }

  /** The group keys are pairwise distinct strings, so the names can stand for the keys. */
  lemma GroupKeysDistinct(a: ResourceGroupName, b: ResourceGroupName)
    ensures a.Key() == b.Key() ==> a == b
  {
  }
}
