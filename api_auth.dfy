// The role checks of the API (api/auth.py). Two environment variables list
// the keys granted the ADMIN and the READ_ONLY role; a role whose variable is
// unset or empty is granted to every caller. An endpoint names the roles it
// accepts and refuses a caller with none of them: 401 when the key has no
// role at all, 403 when it has only other roles.
module ApiAuth {
  import opened Wrappers
  import opened PyStrings
  import opened ApiUtils

  datatype Role = ADMIN | READ_ONLY

  /**
   * `None if not os.environ.get(name) else os.environ.get(name).split(",")`:
   * an unset or empty variable configures no list; otherwise its
   * comma-separated pieces are the keys.
   */
  function KeyList(env: Option<string>): (r: Option<seq<string>>)
    ensures r.None? <==> env.None? || env.value == ""
    ensures r.Some? ==> |r.value| >= 1 && Join(r.value, ",") == env.value
    ensures r.Some? ==> forall k :: k in r.value ==> !Contains(k, ",")
  {
    if env.None? || env.value == "" then None
    else
      JoinSplit(env.value, ",");
      SplitPiecesAvoidSep(env.value, ",");
      Some(Split(env.value, ","))
  }

  /** `api_keys_admin` and `api_keys_read_only`. */
  datatype ApiKeys = ApiKeys(admin: Option<seq<string>>, readOnly: Option<seq<string>>)

  function ApiKeysFromEnvironment(adminEnv: Option<string>, readOnlyEnv: Option<string>): ApiKeys
  {
    ApiKeys(KeyList(adminEnv), KeyList(readOnlyEnv))
  }

  /** `keys is None or api_key in keys`; a missing header (None) is in no list. */
  predicate Grants(keys: Option<seq<string>>, apiKey: Option<string>)
  {
    keys.None? || (apiKey.Some? && apiKey.value in keys.value)
  }

  /** `roles_from_api_key(api_key)`: ADMIN, then READ_ONLY, each when its list grants the key. */
  function RolesFromApiKey(keys: ApiKeys, apiKey: Option<string>): (roles: seq<Role>)
    ensures ADMIN in roles <==> Grants(keys.admin, apiKey)
    ensures READ_ONLY in roles <==> Grants(keys.readOnly, apiKey)
    ensures |roles| <= 2 && (|roles| == 2 ==> roles == [ADMIN, READ_ONLY])
    ensures forall i, j :: 0 <= i < j < |roles| ==> roles[i] != roles[j]
  {
    (if Grants(keys.admin, apiKey) then [ADMIN] else []) +
    (if Grants(keys.readOnly, apiKey) then [READ_ONLY] else [])
  }

  /** `[value for value in roles if value in array_of_roles]`. */
  function Accepted(roles: seq<Role>, required: seq<Role>): (r: seq<Role>)
    ensures forall x :: x in r <==> x in roles && x in required
    decreases |roles|
  {
    if roles == [] then []
    else (if roles[0] in required then [roles[0]] else []) + Accepted(roles[1..], required)
  }

  /**
   * `any_role(array_of_roles)`'s `check_role(api_key)`: passes when the key
   * holds one of the accepted roles, else raises 401 if it holds no role and
   * 403 if it holds only others.
   */
  function CheckRole(keys: ApiKeys, required: seq<Role>, apiKey: Option<string>): (r: Option<HttpException>)
    ensures r.None? <==> exists x :: x in RolesFromApiKey(keys, apiKey) && x in required
    ensures r.Some? ==> r.value.detail == NoDetail
    ensures r.Some? ==> (r.value.statusCode == 401 <==> RolesFromApiKey(keys, apiKey) == [])
    ensures r.Some? ==> r.value.statusCode in {401, 403}
  {
    var roles := RolesFromApiKey(keys, apiKey);
    var accepted := Accepted(roles, required);
    if |accepted| == 0 then
      Some(HttpException(if |roles| == 0 then 401 else 403, NoDetail))
    else
      assert accepted[0] in accepted;
      None
  }

  /** With neither variable set (or both empty), every key, even a missing one, gets both roles and passes an ADMIN check. */
  lemma UnconfiguredKeysOpenEverything(adminEnv: Option<string>, readOnlyEnv: Option<string>, apiKey: Option<string>)
    requires adminEnv == None || adminEnv == Some("")
    requires readOnlyEnv == None || readOnlyEnv == Some("")
    ensures RolesFromApiKey(ApiKeysFromEnvironment(adminEnv, readOnlyEnv), apiKey) == [ADMIN, READ_ONLY]
    ensures CheckRole(ApiKeysFromEnvironment(adminEnv, readOnlyEnv), [ADMIN], apiKey).None?
  {
    assert ADMIN in [ADMIN, READ_ONLY];
  }

  /** A key listed only for READ_ONLY is refused an ADMIN endpoint with 403. */
  lemma ReadOnlyKeyForbiddenAdmin(admin: seq<string>, readOnly: seq<string>, apiKey: string)
    requires apiKey !in admin && apiKey in readOnly
    ensures CheckRole(ApiKeys(Some(admin), Some(readOnly)), [ADMIN], Some(apiKey)) == Some(HttpException(403, NoDetail))
  {
    assert RolesFromApiKey(ApiKeys(Some(admin), Some(readOnly)), Some(apiKey)) == [READ_ONLY];
  }

  /** With both lists configured, a key in neither (or no key) is refused any endpoint with 401. */
  lemma UnknownKeyUnauthorized(admin: seq<string>, readOnly: seq<string>, apiKey: Option<string>, required: seq<Role>)
    requires apiKey.Some? ==> apiKey.value !in admin && apiKey.value !in readOnly
    ensures CheckRole(ApiKeys(Some(admin), Some(readOnly)), required, apiKey) == Some(HttpException(401, NoDetail))
  {
    assert RolesFromApiKey(ApiKeys(Some(admin), Some(readOnly)), apiKey) == [];
  }
}
