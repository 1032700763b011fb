/** Permission matrices and their lookup (app/core/rbac.py). */
module Rbac {
  datatype PermKey =
    | Dashboard | Reports | Workbench | CaseManagement
    | Pipelines | UserManagement | RoleManagement | SystemSettings

  datatype PermAction = View | Edit

  /** One feature's entry in a matrix; either flag may be absent. */
  type Entry = map<PermAction, bool>
  type PermissionMap = map<PermKey, Entry>

  predicate HasPermission(perms: PermissionMap, key: PermKey, action: PermAction) {
    key in perms && action in perms[key] && perms[key][action]
  }

  const ALL_KEYS := {Dashboard, Reports, Workbench, CaseManagement,
                     Pipelines, UserManagement, RoleManagement, SystemSettings}

  function Matrix(view: set<PermKey>, edit: set<PermKey>): PermissionMap {
    map k | k in ALL_KEYS :: map[View := k in view, Edit := k in edit]
  }

  /** The default matrix of a role; an unknown role gets everything. */
  function DefaultPermissionsFor(role: string): PermissionMap {
    if role == "ra_lead" then
      Matrix(ALL_KEYS - {UserManagement, RoleManagement},
             ALL_KEYS - {UserManagement, RoleManagement, SystemSettings})
    else if role == "analyst" then
      Matrix(ALL_KEYS - {UserManagement, RoleManagement, SystemSettings}, {Workbench, CaseManagement})
    else if role == "viewer" then
      Matrix({Dashboard, Reports, Pipelines}, {})
    else
      Matrix(ALL_KEYS, ALL_KEYS)
  }

  /** The features for which a matrix sets a flag. */
  function Granted(perms: PermissionMap, action: PermAction): set<PermKey> {
    set k | k in perms && action in perms[k] && perms[k][action]
  }

  lemma HasPermissionIsGranted(perms: PermissionMap, key: PermKey, action: PermAction)
    ensures HasPermission(perms, key, action) <==> key in Granted(perms, action)
  {
  }

  /** An entry that only grants viewing admits viewing and refuses editing, whether
      its Edit flag is false or absent; a missing entry refuses both. */
  lemma ViewOnlyEntry(perms: PermissionMap, key: PermKey)
    ensures key in perms && perms[key] in {map[View := true, Edit := false], map[View := true]} ==>
              HasPermission(perms, key, View) && !HasPermission(perms, key, Edit)
    ensures key !in perms ==> !HasPermission(perms, key, View) && !HasPermission(perms, key, Edit)
  {
  }

  lemma MatrixGrants(view: set<PermKey>, edit: set<PermKey>)
    requires view <= ALL_KEYS && edit <= ALL_KEYS
    ensures var perms := Matrix(view, edit);
      && perms.Keys == ALL_KEYS && (forall k | k in perms :: perms[k].Keys == {View, Edit})
      && Granted(perms, View) == view && Granted(perms, Edit) == edit
  {
    var perms := Matrix(view, edit);
    assert forall k | k in ALL_KEYS :: perms[k] == map[View := k in view, Edit := k in edit];
  }

  /** The features a role may view, and edit, by default: only administrators and
      roles that are not listed manage users and roles. */
  function DefaultView(role: string): set<PermKey> {
    if role == "viewer" then {Dashboard, Reports, Pipelines}
    else if role == "analyst" then {Dashboard, Reports, Workbench, CaseManagement, Pipelines}
    else if role == "ra_lead" then {Dashboard, Reports, Workbench, CaseManagement, Pipelines, SystemSettings}
    else ALL_KEYS
  }

  function DefaultEdit(role: string): set<PermKey> {
    if role == "viewer" then {}
    else if role == "analyst" then {Workbench, CaseManagement}
    else if role == "ra_lead" then {Dashboard, Reports, Workbench, CaseManagement, Pipelines}
    else ALL_KEYS
  }

  lemma KeySets()
    ensures ALL_KEYS - {UserManagement, RoleManagement}
         == {Dashboard, Reports, Workbench, CaseManagement, Pipelines, SystemSettings}
    ensures ALL_KEYS - {UserManagement, RoleManagement, SystemSettings}
         == {Dashboard, Reports, Workbench, CaseManagement, Pipelines}
  {
  }

  lemma SlugsDiffer()
    ensures "ra_lead" != "analyst" && "ra_lead" != "viewer" && "analyst" != "viewer"
  {
    assert "ra_lead"[0] == 'r' && "analyst"[0] == 'a' && "viewer"[0] == 'v';
  }

  /** The default matrix has an entry with both flags for every feature, and they are
      set exactly for the role's features. */
  lemma DefaultsAre(role: string)
    ensures var perms := DefaultPermissionsFor(role);
      && perms.Keys == ALL_KEYS && (forall k | k in perms :: perms[k].Keys == {View, Edit})
      && Granted(perms, View) == DefaultView(role) && Granted(perms, Edit) == DefaultEdit(role)
  {
    KeySets();
    SlugsDiffer();
    assert DefaultPermissionsFor(role) == Matrix(DefaultView(role), DefaultEdit(role));
    MatrixGrants(DefaultView(role), DefaultEdit(role));
  }

  /** The matrix sets the flags that the role has by default. */
  predicate GrantsDefaults(perms: PermissionMap, role: string) {
    Granted(perms, View) == DefaultView(role) && Granted(perms, Edit) == DefaultEdit(role)
  }

  lemma DefaultsAreGranted(perms: PermissionMap, role: string)
    requires perms == DefaultPermissionsFor(role)
    ensures GrantsDefaults(perms, role)
  {
    DefaultsAre(role);
  }

  /** Each listed role may do by default what the one below it may, and an
      administrator everything. */
  lemma DefaultsIncrease(action: PermAction)
    ensures Granted(DefaultPermissionsFor("viewer"), action) <= Granted(DefaultPermissionsFor("analyst"), action)
         <= Granted(DefaultPermissionsFor("ra_lead"), action) <= Granted(DefaultPermissionsFor("admin"), action)
         == ALL_KEYS
  {
    SlugsDiffer();
    assert |"admin"| == 5 && |"ra_lead"| == 7 && |"analyst"| == 7 && |"viewer"| == 6;
    DefaultsAre("viewer");
    DefaultsAre("analyst");
    DefaultsAre("ra_lead");
    DefaultsAre("admin");
  }
}
