/** The authorization catalog an application publishes: roles and permissions are trimmed, checked and
  * put into a canonical order, and the claims mapping is the part that sessions depend on.
  */
module ClaimsCatalog {
  import opened Wrappers
  import Splitter

  datatype Permission = Permission(
    code: string, name: string, action: string, resource: string, resourceName: string, risk: string, grant: string)
  datatype Role = Role(code: string, name: string, description: string, permissions: seq<string>)
  datatype Manifest = Manifest(version: string, permissions: seq<Permission>, roles: seq<Role>, maxEffectiveRoles: int)

  datatype Claim = Claim(code: string, permissions: seq<string>)
  datatype Payload = Payload(
    version: string, permissions: seq<Permission>, roles: seq<Role>, maxEffectiveRoles: int, claims: seq<Claim>)

  datatype Error =
    | Incomplete | BadPolicy
    | PermissionIncomplete | BadRisk(code: string) | BadGrant(code: string) | DuplicatePermission(code: string)
    | DuplicateAction(resource: string, action: string)
    | RoleIncomplete | DuplicateRole(code: string) | UnknownPermission(role: string, permission: string)

  // ---------------------------------------------------------------- order

  /** Strings compare by code point, which is the order of their UTF-8 bytes. */
  predicate Less(a: string, b: string) {
    b != [] && (a == [] || a[0] < b[0] || (a[0] == b[0] && Less(a[1..], b[1..])))
  }

  function Insert<T>(x: T, sorted: seq<T>, key: T -> string): seq<T> {
    if sorted == [] || Less(key(x), key(sorted[0])) then [x] + sorted else [sorted[0]] + Insert(x, sorted[1..], key)
  }

  function SortBy<T>(items: seq<T>, key: T -> string): seq<T> {
    if items == [] then [] else Insert(items[|items| - 1], SortBy(items[..|items| - 1], key), key)
  }

  // ---------------------------------------------------------------- one item

  function Upper(s: string): string {
    seq(|s|, i requires 0 <= i < |s| => if 'a' <= s[i] <= 'z' then s[i] - 'a' + 'A' else s[i])
  }
  function Lower(s: string): string {
    seq(|s|, i requires 0 <= i < |s| => if 'A' <= s[i] <= 'Z' then s[i] - 'A' + 'a' else s[i])
  }

  function Cleaned(p: Permission): Permission {
    Permission(Splitter.Trim(p.code), Splitter.Trim(p.name), Splitter.Trim(p.action), Splitter.Trim(p.resource),
               Splitter.Trim(p.resourceName), Upper(Splitter.Trim(p.risk)), Upper(Splitter.Trim(p.grant)))
  }

  function ActionKey(p: Permission): string { p.resource + "\0" + Lower(p.action) }

  predicate Complete(p: Permission) { p.code != "" && p.name != "" && p.action != "" && p.resource != "" }
  predicate KnownRisk(p: Permission) { p.risk in {"LOW", "MEDIUM", "HIGH", "CRITICAL"} }
  predicate KnownGrant(p: Permission) { p.grant in {"", "DEFAULT", "SUPER_ADMIN_ONLY"} }

  /** The distinct non-blank values, trimmed, in the order they first occur. */
  function Distinct(values: seq<string>): seq<string> {
    if values == [] then []
    else
      var before := Distinct(values[..|values| - 1]);
      var v := Splitter.Trim(values[|values| - 1]);
      if v == "" || v in before then before else before + [v]
  }

  function Self(s: string): string { s }
  function RoleCode(r: Role): string { r.code }
  function PermissionCode(p: Permission): string { p.code }

  function SortedUniqueSpec(values: seq<string>): seq<string> { SortBy(Distinct(values), Self) }

  function CleanedRole(r: Role): Role {
    Role(Splitter.Trim(r.code), Splitter.Trim(r.name), Splitter.Trim(r.description), SortedUniqueSpec(r.permissions))
  }

  // ---------------------------------------------------------------- the whole manifest

  function Codes(permissions: seq<Permission>): set<string> { set p | p in permissions :: p.code }
  function ActionKeys(permissions: seq<Permission>): set<string> { set p | p in permissions :: ActionKey(p) }
  function RoleCodes(roles: seq<Role>): set<string> { set r | r in roles :: r.code }

  function AddPermission(before: seq<Permission>, raw: Permission): Result<seq<Permission>, Error> {
    var p := Cleaned(raw);
    if !Complete(p) then Failure(PermissionIncomplete)
    else if !KnownRisk(p) then Failure(BadRisk(p.code))
    else if !KnownGrant(p) then Failure(BadGrant(p.code))
    else if p.code in Codes(before) then Failure(DuplicatePermission(p.code))
    else if ActionKey(p) in ActionKeys(before) then Failure(DuplicateAction(p.resource, p.action))
    else Success(before + [p])
  }

  function ScanPermissions(items: seq<Permission>): Result<seq<Permission>, Error> {
    if items == [] then Success([])
    else
      match ScanPermissions(items[..|items| - 1])
      case Failure(e) => Failure(e)
      case Success(before) => AddPermission(before, items[|items| - 1])
  }

  function FirstUnknown(permissions: seq<string>, known: set<string>): Option<string> {
    if permissions == [] then None else if permissions[0] !in known then Some(permissions[0])
    else FirstUnknown(permissions[1..], known)
  }

  function AddRole(before: seq<Role>, raw: Role, known: set<string>): Result<seq<Role>, Error> {
    var r := CleanedRole(raw);
    if r.code == "" || r.name == "" then Failure(RoleIncomplete)
    else if r.code in RoleCodes(before) then Failure(DuplicateRole(r.code))
    else
      var unknown := FirstUnknown(r.permissions, known);
      if unknown.Some? then Failure(UnknownPermission(r.code, unknown.value)) else Success(before + [r])
  }

  function ScanRoles(items: seq<Role>, known: set<string>): Result<seq<Role>, Error> {
    if items == [] then Success([])
    else
      match ScanRoles(items[..|items| - 1], known)
      case Failure(e) => Failure(e)
      case Success(before) => AddRole(before, items[|items| - 1], known)
  }

  function ClaimsOf(roles: seq<Role>): seq<Claim> {
    seq(|roles|, i requires 0 <= i < |roles| => Claim(roles[i].code, roles[i].permissions))
  }

  function NormalizeSpec(m: Manifest): Result<Payload, Error> {
    if Splitter.Trim(m.version) == "" || m.permissions == [] || m.roles == [] then Failure(Incomplete)
    else if m.maxEffectiveRoles < 0 || m.maxEffectiveRoles > 10 then Failure(BadPolicy)
    else
      match ScanPermissions(m.permissions)
      case Failure(e) => Failure(e)
      case Success(permissions) =>
        match ScanRoles(m.roles, Codes(permissions))
        case Failure(e) => Failure(e)
        case Success(roles) =>
          var sorted := SortBy(roles, RoleCode);
          Success(Payload(Splitter.Trim(m.version), SortBy(permissions, PermissionCode), sorted, m.maxEffectiveRoles,
                          ClaimsOf(sorted)))
  }

  // ---------------------------------------------------------------- the loops

  method SortedUnique(values: seq<string>) returns (result: seq<string>)
    ensures result == SortedUniqueSpec(values)
  {
    hide Splitter.Trim;
    var seen: set<string> := {};
    result := [];
    for i := 0 to |values|
      invariant result == Distinct(values[..i]) && seen == set v | v in result
    {
      assert values[..i + 1][..i] == values[..i];
      var value := Splitter.Trim(values[i]);
      if value == "" { continue; }
      if value in seen { continue; }
      seen := seen + {value};
      result := result + [value];
    }
    assert values[..|values|] == values;
    result := SortBy(result, Self);
  }

  method NormalizePermissions(items: seq<Permission>) returns (r: Result<seq<Permission>, Error>, codes: set<string>)
    ensures r == ScanPermissions(items)
    ensures r.Success? ==> codes == Codes(r.value)
  {
    hide Splitter.Trim, Upper, ActionKey, Cleaned;
    var out: seq<Permission> := [];
    var actions: set<string> := {};
    codes := {};
    for i := 0 to |items|
      invariant ScanPermissions(items[..i]) == Success(out)
      invariant codes == Codes(out) && actions == ActionKeys(out)
    {
      assert items[..i + 1][..i] == items[..i];
      var item := Cleaned(items[i]);
      ghost var step := AddPermission(out, items[i]);
      if item.code == "" || item.name == "" || item.action == "" || item.resource == "" {
        ScanStops(items, i + 1);
        return Failure(PermissionIncomplete), codes;
      }
      if item.risk != "LOW" && item.risk != "MEDIUM" && item.risk != "HIGH" && item.risk != "CRITICAL" {
        ScanStops(items, i + 1);
        return Failure(BadRisk(item.code)), codes;
      }
      if item.grant != "" && item.grant != "DEFAULT" && item.grant != "SUPER_ADMIN_ONLY" {
        ScanStops(items, i + 1);
        return Failure(BadGrant(item.code)), codes;
      }
      if item.code in codes {
        ScanStops(items, i + 1);
        return Failure(DuplicatePermission(item.code)), codes;
      }
      if ActionKey(item) in actions {
        ScanStops(items, i + 1);
        return Failure(DuplicateAction(item.resource, item.action)), codes;
      }
      codes, actions := codes + {item.code}, actions + {ActionKey(item)};
      out := out + [item];
    }
    assert items[..|items|] == items;
    return Success(out), codes;
  }

  lemma {:induction false} ScanStops(items: seq<Permission>, k: nat)
    requires k <= |items| && ScanPermissions(items[..k]).Failure?
    ensures ScanPermissions(items) == ScanPermissions(items[..k])
    decreases |items| - k
  {
    hide AddPermission;
    if k == |items| {
      assert items[..k] == items;
    } else {
      assert items[..k + 1][..k] == items[..k];
      ScanStops(items, k + 1);
    }
  }

  lemma {:induction false} ScanRolesStops(items: seq<Role>, known: set<string>, k: nat)
    requires k <= |items| && ScanRoles(items[..k], known).Failure?
    ensures ScanRoles(items, known) == ScanRoles(items[..k], known)
    decreases |items| - k
  {
    hide AddRole;
    if k == |items| {
      assert items[..k] == items;
    } else {
      assert items[..k + 1][..k] == items[..k];
      ScanRolesStops(items, known, k + 1);
    }
  }

  lemma NoCodes()
    ensures RoleCodes([]) == {}
  {
  }

  lemma CodesSnoc(roles: seq<Role>, r: Role)
    ensures RoleCodes(roles + [r]) == RoleCodes(roles) + {r.code}
  {
    assert forall x :: x in roles + [r] <==> x in roles || x == r;
  }

  method NormalizeRoles(items: seq<Role>, known: set<string>) returns (r: Result<seq<Role>, Error>)
    ensures r == ScanRoles(items, known)
  {
    hide Splitter.Trim, SortedUniqueSpec, RoleCodes;
    assert RoleCodes([]) == {} by { NoCodes(); }
    var out: seq<Role> := [];
    var codes: set<string> := {};
    for i := 0 to |items|
      invariant ScanRoles(items[..i], known) == Success(out) && codes == RoleCodes(out)
    {
      assert items[..i + 1][..i] == items[..i];
      var item := items[i];
      var code, name, description := Splitter.Trim(item.code), Splitter.Trim(item.name),
          Splitter.Trim(item.description);
      if code == "" || name == "" {
        ScanRolesStops(items, known, i + 1);
        return Failure(RoleIncomplete);
      }
      if code in codes {
        ScanRolesStops(items, known, i + 1);
        return Failure(DuplicateRole(code));
      }
      codes := codes + {code};
      var permissions := SortedUnique(item.permissions);
      for j := 0 to |permissions|
        invariant FirstUnknown(permissions, known) == FirstUnknown(permissions[j..], known)
      {
        if permissions[j] !in known {
          ScanRolesStops(items, known, i + 1);
          return Failure(UnknownPermission(code, permissions[j]));
        }
        assert permissions[j..][1..] == permissions[j + 1..];
      }
      CodesSnoc(out, Role(code, name, description, permissions));
      out := out + [Role(code, name, description, permissions)];
    }
    assert items[..|items|] == items;
    return Success(out);
  }

  method NormalizeManifest(m: Manifest) returns (r: Result<Payload, Error>)
    ensures r == NormalizeSpec(m)
  {
    hide Splitter.Trim, ScanPermissions, ScanRoles;
    var version := Splitter.Trim(m.version);
    if version == "" || |m.permissions| == 0 || |m.roles| == 0 { return Failure(Incomplete); }
    if m.maxEffectiveRoles < 0 || m.maxEffectiveRoles > 10 { return Failure(BadPolicy); }
    var permissions, codes := NormalizePermissions(m.permissions);
    if permissions.Failure? { return Failure(permissions.error); }
    var roles := NormalizeRoles(m.roles, codes);
    if roles.Failure? { return Failure(roles.error); }
    var sorted := SortBy(roles.value, RoleCode);
    var claims: seq<Claim> := [];
    for i := 0 to |sorted|
      invariant claims == ClaimsOf(sorted[..i])
    {
      claims := claims + [Claim(sorted[i].code, sorted[i].permissions)];
    }
    assert sorted[..|sorted|] == sorted;
    return Success(Payload(version, SortBy(permissions.value, PermissionCode), sorted, m.maxEffectiveRoles, claims));
  }
}
