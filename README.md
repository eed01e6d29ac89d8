# Role-based access-control types, modelled in Dafny

This project models the decision logic of a small role-based access-control
library for a content-publishing application. The library defines:

- a closed set of role names (Admin, Editor, Author, Viewer, Contributor,
  Publisher, Reviewer);
- a closed set of protectable resources;
- a permission vocabulary;
- a default resource-to-permissions map for each role name;
- a check of whether a resource map grants a permission on a resource;
- a lookup of the UI group a resource belongs to;
- constant display tables keyed by the enumerations.

All of it is pure, and every table is over a finite enumeration. The model
states and proves the table facts the code and its comments promise.

Modules, one per source file:

| module | file | source |
|---|---|---|
| `RoleNames` | role_names.dfy | src/auth/role-names.ts |
| `Permissions` | permissions.dfy | src/auth/permissions.ts |
| `Resources` | resources.dfy | src/auth/resources.ts |
| `Roles` | roles.dfy | src/auth/roles.ts |
| `UserTypes` | user.dfy | src/auth/user.ts |
| `DisplayNames` | display_names.dfy | src/auth/display-names.ts |
| `Helpers` | helpers.dfy | src/auth/helpers.ts |

Modelling decisions where the code is inconsistent with itself:

- **Resource.** The `Resource` enum (src/auth/resources.ts:6-10) declares only
  `ArticleCreate`, `ArticleRead` and `UserManage`. The default table and the
  display tables use ten more members. The `Resource` datatype has the 13 keys
  of the resource display-name table (src/auth/display-names.ts:62-89), in that
  table's order.
- **Permission.** The enum declares Create, Read, Update and Delete
  (src/auth/permissions.ts:5-10). The default table grants `Write` throughout
  and never uses Create or Update. `Write` is a constructor of its own. It is
  not rewritten as Create or Update, because the code gives no such rule.
- **Maps.** A permission list is a `seq<Permission>`, as in the code (an
  array, not a set). A role's resource map is a `map<Resource, seq<Permission>>`.
- **Group names.** The keys of the resource group table form the datatype
  `ResourceGroupName`. `Key()` gives each key's string. An `undefined` result
  is `None` of an `Option`.

The comments of the source promise more than its code does. The model
follows the code:

- A comment on `RoleName.Admin` speaks of "unrestricted access to all
  resources" (src/auth/role-names.ts:8). No code gives Admin a bypass, and no
  code checks a user or aggregates a user's roles. `hasPermission` on a single
  resource map is the only access decision.
- Admin's default map is commented "Full access to everything"
  (src/auth/helpers.ts:31). It does not grant everything: it has no key for
  the two legacy resources, grants only `Write` on `MediaUpload` and only
  `Read` on `UserView`, and never grants `Create` or `Update`. What the model
  proves is weaker and true: Admin's default map grants every pair that some
  other role's default map grants (`Helpers.AdminDefaultsCoverAll`). The gaps
  are proved too. The missing legacy keys and the absent `Create` and `Update`
  follow from the contract of `Helpers.DefaultRolePermissions`.
  `Helpers.AdminNotEverything` exhibits specific pairs Admin is not granted.
- `Role.name` is a free string, not a `RoleName` (src/auth/roles.ts:10).

## Model

| member | source | states |
|---|---|---|
| `Helpers.DefaultRolePermissions` | src/auth/helpers.ts:26-170 | defined for all seven role names; every list in every default map is non-empty; no default map has a key for the legacy `ArticleCreate` or `ArticleRead`; no default map grants `Create` or `Update` |
| `Helpers.OnlyAdminManagesUsersAndSettings` | src/auth/helpers.ts:30-163 | a role's default map has a `UserManage` key, or a `SettingsManage` key, exactly when the role is Admin |
| `Helpers.EditorIsAdminWithoutManagement` | src/auth/helpers.ts:74-110 | Editor's default map equals Admin's with the `UserManage` and `SettingsManage` entries removed ("no user/system management") |
| `Helpers.ViewerReadOnly` | src/auth/helpers.ts:128-133 | Viewer's default map grants `p` on `r` exactly when `p` is `Read` and `r` is `ArticlePublished` or `AnalyticsView` |
| `Helpers.ContributorDraftsOnly` | src/auth/helpers.ts:135-142 | Contributor's default map grants Write on drafts ("create drafts"), and has no `ArticlePublished` and no `ArticleArchived` key, so it grants nothing on published articles ("cannot publish") |
| `Helpers.AuthorWritesArticles` | src/auth/helpers.ts:112-126 | Author's default map grants Write on drafts and on published articles and Delete on drafts, but no Delete on published articles and no archived-article entry |
| `Helpers.PublisherPublishes` | src/auth/helpers.ts:144-153 | Publisher's default map grants Write on published and on archived articles ("publish and archive"); on drafts it grants a permission exactly when that permission is Read |
| `Helpers.ReviewerEditsDrafts` | src/auth/helpers.ts:155-163 | Reviewer's default map grants Write on drafts ("review and approve drafts"), on published articles a permission exactly when it is Read, and has no archived-article entry |
| `Helpers.AdminDefaultsCoverAll` | src/auth/helpers.ts:30-163 | every (resource, permission) pair that any role's default map grants, Admin's default map grants too |
| `Helpers.AdminNotEverything` | src/auth/helpers.ts:30-72 | despite the "Full access to everything" comment, Admin's default map grants no Read on `MediaUpload`, no Delete on `SettingsManage`, no Write on `UserView`, no Read on the legacy `ArticleCreate`, and no `Create` on drafts |
| `Helpers.AllRoleNames` | src/auth/helpers.ts:183-185 | seven role names; the one at position `i` is the `i`-th declared member; every role name occurs |
| `Helpers.AllResources` | src/auth/helpers.ts:199-201 | thirteen resources; the one at position `i` is the `i`-th member; every resource occurs |
| `Helpers.EnumerationsDistinct` | src/auth/helpers.ts:183-201 | no role name and no resource occurs twice in its enumeration |
| `Helpers.OrdinalRoundTrip` | src/auth/helpers.ts:183-201 | each member's declaration position picks that member back out of its enumeration |
| `Helpers.Includes` | src/auth/helpers.ts:220 | the linear `includes` scan returns true exactly when the value occurs in the list |
| `Helpers.FindGroup` | src/auth/helpers.ts:219-224 | the first-match search returns a group that lists the resource, with no earlier group listing it; it returns nothing exactly when no group lists the resource |
| `Helpers.ResourceGroup` | src/auth/helpers.ts:216-225 | the result is none exactly for the two legacy resources; otherwise it is a group that lists the resource |
| `Helpers.GroupedUnlessLegacy` | src/auth/display-names.ts:106-140 | every resource except `ArticleCreate` and `ArticleRead` is listed in some group; those two are in none |
| `Helpers.ResourceGroupExact` | src/auth/helpers.ts:216-225 | the result is group `g` exactly when `g` lists the resource, so the answer does not depend on the order of the table |
| `Helpers.ResourceGroupExamples` | src/auth/helpers.ts:212-213 | `ArticleDraft` is in "Articles", `MediaUpload` in "Content Management", the legacy-commented `UserManage` in "Users", and both legacy article resources in none; the first two answers have the key strings "Articles" and "Content Management" |
| `Helpers.HasPermission` | src/auth/helpers.ts:241-248 | true exactly when `r` is a key of the map and `p` occurs in its list; false for a missing key and for an empty list |
| `DisplayNames.RoleDisplayNames` | src/auth/display-names.ts:17-25 | has an entry for every role name; no two role names share a display name |
| `DisplayNames.RoleDescriptions` | src/auth/display-names.ts:38-51 | has an entry for every role name |
| `DisplayNames.ResourceDisplayNames` | src/auth/display-names.ts:62-89 | has an entry for every one of the 13 resources |
| `DisplayNames.DeprecatedExactlyLegacy` | src/auth/display-names.ts:63-65 | a resource's label contains "(deprecated)" anywhere exactly when the resource is `ArticleCreate` or `ArticleRead` |
| `DisplayNames.ResourceGroups` | src/auth/display-names.ts:106-140 | five groups, with pairwise distinct names and pairwise disjoint member lists |
| `DisplayNames.GroupKeysDistinct` | src/auth/display-names.ts:153 | distinct group names have distinct key strings |

## Left out

- The string values of the enums and the JSX examples in doc comments are left out. They are presentation only.
- The source's compile-time exhaustiveness trick is left out: the `never` assignment and the empty-object fall-through in `getDefaultRolePermissions`. A Dafny `match` over the datatype is exhaustive by construction, so no default branch exists.
- Each call of `getDefaultRolePermissions` returns a fresh object. Dafny maps are values, so object identity is not modelled.
- `Object.values` and `Object.entries` ordering is replaced by explicit sequences in declaration order. The group table is enumerated in insertion order.
- `User` and `Role` are datatypes with no operations, because no function in the code takes either. `User.isActive` is never read.
- Ownership rules ("own articles", "own media only") appear only in comments. No code enforces them, so they are not modelled.
- The re-export file src/auth/index.ts is not part of this model.
- `hasPermission` takes a `Partial<Record<...>>`, which in the source may also hold a key bound to `undefined`. The model treats such a key as absent, which is what the source does.
