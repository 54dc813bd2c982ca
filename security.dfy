/**
 * API-key roles (app/security.py): each role has a comma-separated key
 * list read from the environment; a key resolves to the first role whose
 * list holds it, admin before auditor before user, and an endpoint guard
 * admits only the roles it names.  The environment values are parameters
 * (`None` for an unset variable).
 */
module Security {
  import opened Wrappers
  import opened Text

  datatype Role = Admin | Auditor | User

  function RoleName(role: Role): string {
    match role
    case Admin => "admin"
    case Auditor => "auditor"
    case User => "user"
  }

  /** `os.getenv(name, "").split(",")`. */
  function KeyList(env: Option<string>): (keys: seq<string>)
    ensures |keys| >= 1
  {
    Split(env.GetOr(""), ',')
  }

  /** The three environment values, `API_KEYS_ADMIN`, `API_KEYS_AUDITOR` and `API_KEYS_USER`. */
  datatype KeyConfig = KeyConfig(admin: Option<string>, auditor: Option<string>, user: Option<string>)

  /** `get_role_from_api_key`: exact membership tests in priority order. */
  function GetRoleFromApiKey(apiKey: string, config: KeyConfig): (role: Option<Role>)
    ensures role == Some(Admin) <==> apiKey in KeyList(config.admin)
    ensures role == Some(Auditor) <==> apiKey !in KeyList(config.admin) && apiKey in KeyList(config.auditor)
    ensures role == Some(User) <==>
      apiKey !in KeyList(config.admin) && apiKey !in KeyList(config.auditor) && apiKey in KeyList(config.user)
    ensures role == None <==>
      apiKey !in KeyList(config.admin) && apiKey !in KeyList(config.auditor) && apiKey !in KeyList(config.user)
  {
    if apiKey in KeyList(config.admin) then Some(Admin)
    else if apiKey in KeyList(config.auditor) then Some(Auditor)
    else if apiKey in KeyList(config.user) then Some(User)
    else None
  }

  /** An unset variable gives the list [""], so the empty key resolves to that role. */
  lemma EmptyKeyWhenUnset(config: KeyConfig)
    ensures config.admin.None? ==> GetRoleFromApiKey("", config) == Some(Admin)
    ensures config.admin == Some("k") && config.auditor.None? ==> GetRoleFromApiKey("", config) == Some(Auditor)
  {
    SplitWithoutSep("", ',');
    SplitWithoutSep("k", ',');
  }

  /** A key holding a comma never matches, since no list entry contains one. */
  lemma CommaKeyHasNoRole(apiKey: string, config: KeyConfig)
    requires exists i :: 0 <= i < |apiKey| && apiKey[i] == ','
    ensures GetRoleFromApiKey(apiKey, config) == None
  {
    JoinSplit(config.admin.GetOr(""), ',');
    JoinSplit(config.auditor.GetOr(""), ',');
    JoinSplit(config.user.GetOr(""), ',');
    var i :| 0 <= i < |apiKey| && apiKey[i] == ',';
    NotAmongParts(apiKey, i, config.admin.GetOr(""));
    NotAmongParts(apiKey, i, config.auditor.GetOr(""));
    NotAmongParts(apiKey, i, config.user.GetOr(""));
  }

  lemma NotAmongParts(apiKey: string, i: nat, env: string)
    requires i < |apiKey| && apiKey[i] == ','
    ensures apiKey !in Split(env, ',')
  {
    JoinSplit(env, ',');
  }

  /** Keys are compared without trimming: " key1" and "key1" are different keys. */
  lemma NoTrimming()
    ensures GetRoleFromApiKey("key1", KeyConfig(Some(" key1"), Some("a"), Some("u"))) == None
    ensures GetRoleFromApiKey(" key1", KeyConfig(Some(" key1"), Some("a"), Some("u"))) == Some(Admin)
  {
    SplitWithoutSep(" key1", ',');
    SplitWithoutSep("a", ',');
    SplitWithoutSep("u", ',');
  }

  /** What the `require_role(*roles)` dependency does: 403 with the resolved role, or that role. */
  datatype Access = Allowed(role: Role) | Forbidden(status: nat, got: string)

  /** The dependency built by `require_role(*roles)`, applied to a request's key. */
  function RequireRole(roles: seq<string>, apiKey: string, config: KeyConfig): (a: Access)
    ensures var role := GetRoleFromApiKey(apiKey, config);
      && (a.Allowed? <==> role.Some? && RoleName(role.value) in roles)
      && (a.Allowed? ==> Some(a.role) == role)
      && (a.Forbidden? ==> a.status == 403 && a.got == (if role.Some? then RoleName(role.value) else "none"))
  {
    var role := GetRoleFromApiKey(apiKey, config);
    if role.None? || RoleName(role.value) !in roles then
      Forbidden(403, if role.Some? then RoleName(role.value) else "none")
    else
      Allowed(role.value)
  }

  /** An admin-only guard admits exactly the keys in the admin list. */
  lemma AdminOnlyGuard(apiKey: string, config: KeyConfig)
    ensures RequireRole(["admin"], apiKey, config).Allowed? <==> apiKey in KeyList(config.admin)
  {
    var role := GetRoleFromApiKey(apiKey, config);
    if role.Some? && RoleName(role.value) in ["admin"] {
      assert role.value == Admin;
    }
  }
}
