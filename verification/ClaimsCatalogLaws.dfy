/** What the published catalog says about the manifest it came from. */
module ClaimsCatalogLaws {
  import opened Wrappers
  import opened ClaimsCatalog
  import Splitter

  // ---------------------------------------------------------------- the order is total

  lemma {:induction false} LessTotal(a: string, b: string)
    ensures Less(a, b) || a == b || Less(b, a)
    ensures !(Less(a, b) && Less(b, a)) && !Less(a, a)
  {
    if a != [] {
      LessTotal(a[1..], a[1..]);
      if b != [] && a[0] == b[0] {
        LessTotal(a[1..], b[1..]);
        assert a == [a[0]] + a[1..] && b == [b[0]] + b[1..];
      }
    }
  }

  lemma {:induction false} LessTransitive(a: string, b: string, c: string)
    requires Less(a, b) && Less(b, c)
    ensures Less(a, c)
  {
    if a != [] && a[0] == b[0] == c[0] { LessTransitive(a[1..], b[1..], c[1..]); }
  }

  // ---------------------------------------------------------------- sorting

  predicate Ascending<T>(items: seq<T>, key: T -> string) {
    forall i, j :: 0 <= i < j < |items| ==> Less(key(items[i]), key(items[j]))
  }

  predicate DistinctKeys<T>(items: seq<T>, key: T -> string) {
    forall i, j :: 0 <= i < j < |items| ==> key(items[i]) != key(items[j])
  }

  lemma SmallestFirst<T>(x: T, sorted: seq<T>, key: T -> string)
    requires Ascending(sorted, key) && (sorted != [] ==> Less(key(x), key(sorted[0])))
    ensures Ascending([x] + sorted, key)
  {
    hide Less;
    forall j | 0 <= j < |sorted| ensures Less(key(x), key(sorted[j])) {
      if j > 0 { LessTransitive(key(x), key(sorted[0]), key(sorted[j])); }
    }
  }

  lemma TailAscends<T>(sorted: seq<T>, key: T -> string)
    requires Ascending(sorted, key) && sorted != []
    ensures Ascending(sorted[1..], key) && forall y :: y in sorted[1..] ==> Less(key(sorted[0]), key(y))
  {
    hide Less;
    forall y | y in sorted[1..] ensures Less(key(sorted[0]), key(y)) {
      var i :| 0 <= i < |sorted| - 1 && sorted[1..][i] == y;
      assert sorted[i + 1] == y;
    }
  }

  lemma FirstBefore<T>(first: T, rest: seq<T>, key: T -> string)
    requires Ascending(rest, key) && forall y :: y in rest ==> Less(key(first), key(y))
    ensures Ascending([first] + rest, key)
  {
    hide Less;
  }

  lemma {:induction false} InsertKeeps<T>(x: T, sorted: seq<T>, key: T -> string)
    requires Ascending(sorted, key) && forall y :: y in sorted ==> key(y) != key(x)
    ensures Ascending(Insert(x, sorted, key), key)
    ensures multiset(Insert(x, sorted, key)) == multiset(sorted) + multiset{x}
  {
    hide Less, Ascending;
    if sorted == [] || Less(key(x), key(sorted[0])) {
      SmallestFirst(x, sorted, key);
    } else {
      var rest := Insert(x, sorted[1..], key);
      TailAscends(sorted, key);
      InsertKeeps(x, sorted[1..], key);
      assert sorted == [sorted[0]] + sorted[1..];
      LessTotal(key(x), key(sorted[0]));
      forall y | y in rest ensures Less(key(sorted[0]), key(y)) {
        assert y in multiset(rest);
        assert y in sorted[1..] || y == x;
      }
      FirstBefore(sorted[0], rest, key);
    }
  }

  /** Sorting items with distinct keys gives the same items in strictly ascending order. */
  lemma {:induction false} SortBySorts<T>(items: seq<T>, key: T -> string)
    requires DistinctKeys(items, key)
    ensures Ascending(SortBy(items, key), key) && multiset(SortBy(items, key)) == multiset(items)
  {
    if items != [] {
      var n := |items| - 1;
      SortBySorts(items[..n], key);
      assert items == items[..n] + [items[n]];
      forall y | y in SortBy(items[..n], key) ensures key(y) != key(items[n]) {
        assert y in multiset(items[..n]);
      }
      InsertKeeps(items[n], SortBy(items[..n], key), key);
    }
  }

  /** Two strictly ascending lists of the same items are the same list. */
  lemma {:induction false} AscendingIsUnique<T>(a: seq<T>, b: seq<T>, key: T -> string)
    requires Ascending(a, key) && Ascending(b, key)
    requires forall x :: x in a <==> x in b
    ensures a == b
  {
    assert a != [] ==> a[0] in a;
    assert b != [] ==> b[0] in b;
    if a != [] && b != [] {
      assert a[0] in b;
      assert b[0] in a;
      SameHead(a, b, key);
      forall x ensures x in a[1..] <==> x in b[1..] {
        TailIs(a, x, key);
        TailIs(b, x, key);
      }
      AscendingIsUnique(a[1..], b[1..], key);
      assert a == [a[0]] + a[1..] && b == [b[0]] + b[1..];
    }
  }

  lemma SameHead<T>(a: seq<T>, b: seq<T>, key: T -> string)
    requires Ascending(a, key) && Ascending(b, key) && a != [] && b != [] && a[0] in b && b[0] in a
    ensures a[0] == b[0]
  {
    var i :| 0 <= i < |b| && b[i] == a[0];
    var j :| 0 <= j < |a| && a[j] == b[0];
    LessTotal(key(a[0]), key(b[0]));
  }

  lemma TailIs<T>(a: seq<T>, x: T, key: T -> string)
    requires Ascending(a, key) && a != []
    ensures x in a[1..] <==> x in a && x != a[0]
  {
    LessTotal(key(a[0]), key(a[0]));
    assert a == [a[0]] + a[1..];
    if x in a[1..] {
      var i :| 0 <= i < |a| - 1 && a[1..][i] == x;
      assert Less(key(a[0]), key(a[i + 1]));
    }
  }

  lemma SortOfSame<T>(a: seq<T>, b: seq<T>, key: T -> string)
    requires DistinctKeys(a, key) && DistinctKeys(b, key) && forall x :: x in a <==> x in b
    ensures SortBy(a, key) == SortBy(b, key)
  {
    SortBySorts(a, key);
    SortBySorts(b, key);
    forall x ensures x in SortBy(a, key) <==> x in SortBy(b, key) {
      assert x in multiset(a) <==> x in a;
      assert x in multiset(b) <==> x in b;
      assert x in multiset(SortBy(a, key)) <==> x in SortBy(a, key);
      assert x in multiset(SortBy(b, key)) <==> x in SortBy(b, key);
    }
    AscendingIsUnique(SortBy(a, key), SortBy(b, key), key);
  }

  // ---------------------------------------------------------------- permission lists

  /** The permissions a list grants, however it is written. */
  function Granted(values: seq<string>): set<string> {
    set v | v in values && Splitter.Trim(v) != "" :: Splitter.Trim(v)
  }

  lemma {:induction false} DistinctIs(values: seq<string>)
    ensures forall v :: v in Distinct(values) <==> v in Granted(values)
    ensures DistinctKeys(Distinct(values), Self)
  {
    hide Splitter.Trim;
    if values != [] {
      var n := |values| - 1;
      DistinctIs(values[..n]);
      assert values == values[..n] + [values[n]];
      assert Granted(values)
             == Granted(values[..n]) + (if Splitter.Trim(values[n]) == "" then {} else {Splitter.Trim(values[n])}) by {
        GrantedSnoc(values[..n], values[n]);
      }
    }
  }

  lemma GrantedSnoc(values: seq<string>, v: string)
    ensures Granted(values + [v]) == Granted(values) + (if Splitter.Trim(v) == "" then {} else {Splitter.Trim(v)})
  {
    hide Splitter.Trim;
    forall x
      ensures x in Granted(values + [v]) <==> x in Granted(values) || (Splitter.Trim(v) != "" && x == Splitter.Trim(v))
    {
      if x in Granted(values) {
        var y :| y in values && Splitter.Trim(y) == x && x != "";
        assert y in values + [v];
      }
      assert v in values + [v];
    }
  }

  /** A permission list's canonical form is its set of permissions in ascending order: two lists have
      the same form exactly when they grant the same. */
  lemma SortedUniqueIs(values: seq<string>)
    ensures Ascending(SortedUniqueSpec(values), Self)
    ensures forall v :: v in SortedUniqueSpec(values) <==> v in Granted(values)
  {
    hide Splitter.Trim, Granted;
    DistinctIs(values);
    SortBySorts(Distinct(values), Self);
    forall v ensures v in SortedUniqueSpec(values) <==> v in Distinct(values) {
      assert v in multiset(SortedUniqueSpec(values)) <==> v in multiset(Distinct(values));
    }
  }

  lemma SameListIffSameGrants(a: seq<string>, b: seq<string>)
    ensures SortedUniqueSpec(a) == SortedUniqueSpec(b) <==> Granted(a) == Granted(b)
  {
    hide Granted, SortedUniqueSpec;
    SortedUniqueIs(a);
    SortedUniqueIs(b);
    if Granted(a) == Granted(b) {
      AscendingIsUnique(SortedUniqueSpec(a), SortedUniqueSpec(b), Self);
    }
  }

  // ---------------------------------------------------------------- what is accepted

  predicate PermissionOk(p: Permission) { Complete(p) && KnownRisk(p) && KnownGrant(p) }

  predicate PermissionsOk(items: seq<Permission>) {
    && (forall i :: 0 <= i < |items| ==> PermissionOk(Cleaned(items[i])))
    && (forall i, j :: 0 <= i < j < |items| ==>
          && Cleaned(items[i]).code != Cleaned(items[j]).code
          && ActionKey(Cleaned(items[i])) != ActionKey(Cleaned(items[j])))
  }

  function CleanedAll(items: seq<Permission>): seq<Permission> {
    seq(|items|, i requires 0 <= i < |items| => Cleaned(items[i]))
  }

  lemma InCodes(ps: seq<Permission>, code: string)
    ensures code in Codes(ps) <==> exists i :: 0 <= i < |ps| && ps[i].code == code
  {
  }

  lemma InActions(ps: seq<Permission>, key: string)
    ensures key in ActionKeys(ps) <==> exists i :: 0 <= i < |ps| && ActionKey(ps[i]) == key
  {
  }

  /** The permission list is accepted exactly when every item is well formed and no two share a code or
      a resource and action; then it is the cleaned list. */
  lemma {:induction false} ScanPermissionsIs(items: seq<Permission>)
    ensures ScanPermissions(items).Success? <==> PermissionsOk(items)
    ensures PermissionsOk(items) ==> ScanPermissions(items).value == CleanedAll(items)
  {
    hide Cleaned, Codes, ActionKeys, ActionKey, Complete, KnownRisk, KnownGrant;
    if items != [] {
      var n := |items| - 1;
      var last := Cleaned(items[n]);
      ScanPermissionsIs(items[..n]);
      assert PermissionsOk(items) ==> PermissionsOk(items[..n]);
      if PermissionsOk(items[..n]) {
        var before := CleanedAll(items[..n]);
        InCodes(before, last.code);
        InActions(before, ActionKey(last));
        assert forall i :: 0 <= i < n ==> before[i] == Cleaned(items[i]);
        assert CleanedAll(items) == before + [last];
        LastOk(items, n, last, before);
      }
    }
  }

  lemma LastOk(items: seq<Permission>, n: nat, last: Permission, before: seq<Permission>)
    requires |items| == n + 1 && last == Cleaned(items[n]) && |before| == n
    requires forall i :: 0 <= i < n ==> before[i] == Cleaned(items[i])
    requires PermissionsOk(items[..n])
    ensures PermissionsOk(items) <==>
              && PermissionOk(last) && (forall i :: 0 <= i < n ==> before[i].code != last.code)
              && (forall i :: 0 <= i < n ==> ActionKey(before[i]) != ActionKey(last))
  {
    hide Cleaned, ActionKey, PermissionOk;
    assert forall i :: 0 <= i < n ==> items[..n][i] == items[i];
  }

  predicate RolesOk(items: seq<Role>, known: set<string>) {
    && (forall i :: 0 <= i < |items| ==> RoleOk(items[i], known))
    && (forall i, j :: 0 <= i < j < |items| ==> Splitter.Trim(items[i].code) != Splitter.Trim(items[j].code))
  }

  predicate RoleOk(r: Role, known: set<string>) {
    Splitter.Trim(r.code) != "" && Splitter.Trim(r.name) != "" && Granted(r.permissions) <= known
  }

  function CleanedRoles(items: seq<Role>): seq<Role> {
    seq(|items|, i requires 0 <= i < |items| => CleanedRole(items[i]))
  }

  lemma {:induction false} FirstUnknownIs(permissions: seq<string>, known: set<string>)
    ensures FirstUnknown(permissions, known).None? <==> forall p :: p in permissions ==> p in known
  {
    if permissions != [] {
      FirstUnknownIs(permissions[1..], known);
      assert permissions == [permissions[0]] + permissions[1..];
    }
  }

  lemma InRoleCodes(rs: seq<Role>, code: string)
    ensures code in RoleCodes(rs) <==> exists i :: 0 <= i < |rs| && rs[i].code == code
  {
  }

  lemma AddRoleIs(before: seq<Role>, raw: Role, known: set<string>)
    ensures AddRole(before, raw, known).Success? <==>
              RoleOk(raw, known) && forall i :: 0 <= i < |before| ==> before[i].code != Splitter.Trim(raw.code)
    ensures AddRole(before, raw, known).Success? ==> AddRole(before, raw, known).value == before + [CleanedRole(raw)]
  {
    hide Splitter.Trim, SortedUniqueSpec, Granted, RoleCodes;
    SortedUniqueIs(raw.permissions);
    FirstUnknownIs(SortedUniqueSpec(raw.permissions), known);
    InRoleCodes(before, Splitter.Trim(raw.code));
  }

  /** The role list is accepted exactly when every role is complete, grants only known permissions, and
      no two share a code. */
  lemma {:induction false} ScanRolesIs(items: seq<Role>, known: set<string>)
    ensures ScanRoles(items, known).Success? <==> RolesOk(items, known)
    ensures RolesOk(items, known) ==> ScanRoles(items, known).value == CleanedRoles(items)
  {
    hide Splitter.Trim, SortedUniqueSpec, RoleOk, AddRole;
    if items != [] {
      var n := |items| - 1;
      ScanRolesIs(items[..n], known);
      assert RolesOk(items, known) ==> RolesOk(items[..n], known);
      if RolesOk(items[..n], known) {
        var before := CleanedRoles(items[..n]);
        AddRoleIs(before, items[n], known);
        assert forall i :: 0 <= i < n ==> before[i] == CleanedRole(items[i]) && items[..n][i] == items[i];
        assert CleanedRoles(items) == before + [CleanedRole(items[n])];
      }
    }
  }

  /** A manifest is published exactly when it meets these conditions. */
  predicate ManifestOk(m: Manifest) {
    && Splitter.Trim(m.version) != "" && m.permissions != [] && m.roles != [] && 0 <= m.maxEffectiveRoles <= 10
    && PermissionsOk(m.permissions) && RolesOk(m.roles, Codes(CleanedAll(m.permissions)))
  }

  lemma PublishedIffOk(m: Manifest)
    ensures NormalizeSpec(m).Success? <==> ManifestOk(m)
    ensures ManifestOk(m) ==>
              var roles := SortBy(CleanedRoles(m.roles), RoleCode);
              NormalizeSpec(m).value
                  == Payload(Splitter.Trim(m.version), SortBy(CleanedAll(m.permissions), PermissionCode),
                                                roles, m.maxEffectiveRoles, ClaimsOf(roles))
  {
    hide Splitter.Trim, PermissionsOk, RolesOk, Codes, CleanedAll, CleanedRoles, ScanPermissions, ScanRoles, SortBy;
    ScanPermissionsIs(m.permissions);
    ScanRolesIs(m.roles, Codes(CleanedAll(m.permissions)));
  }

  // ---------------------------------------------------------------- the claims mapping

  /** What a session depends on: the permissions of every role code. */
  function Mapping(m: Manifest): map<string, set<string>>
    requires ManifestOk(m)
  {
    map r | r in m.roles :: Splitter.Trim(r.code) := Granted(r.permissions)
  }

  function ClaimCode(c: Claim): string { c.code }

  function Claims(m: Manifest): seq<Claim>
    requires ManifestOk(m)
  {
    PublishedIffOk(m);
    NormalizeSpec(m).value.claims
  }

  lemma ClaimsAre(m: Manifest)
    requires ManifestOk(m)
    ensures Claims(m) == ClaimsOf(SortBy(CleanedRoles(m.roles), RoleCode))
    ensures Ascending(Claims(m), ClaimCode)
    ensures forall c :: c in Claims(m) <==> exists i :: 0 <= i < |m.roles| && c == ClaimOf(m.roles[i])
  {
    hide Splitter.Trim, NormalizeSpec, PermissionsOk, Codes, SortBy, RoleOk, SortedUniqueSpec;
    PublishedIffOk(m);
    var roles := CleanedRoles(m.roles);
    SortBySorts(roles, RoleCode);
    var sorted := SortBy(roles, RoleCode);
    forall c ensures c in ClaimsOf(sorted) <==> exists i :: 0 <= i < |m.roles| && c == ClaimOf(m.roles[i]) {
      SameClaims(m.roles, sorted, c);
    }
  }

  function ClaimOf(r: Role): Claim { Claim(Splitter.Trim(r.code), SortedUniqueSpec(r.permissions)) }

  lemma SameClaims(items: seq<Role>, sorted: seq<Role>, c: Claim)
    requires multiset(sorted) == multiset(CleanedRoles(items))
    ensures c in ClaimsOf(sorted) <==> exists i :: 0 <= i < |items| && c == ClaimOf(items[i])
  {
    hide Splitter.Trim, SortedUniqueSpec;
    var roles := CleanedRoles(items);
    if c in ClaimsOf(sorted) {
      var k :| 0 <= k < |sorted| && ClaimsOf(sorted)[k] == c;
      assert sorted[k] in multiset(sorted);
      assert sorted[k] in multiset(roles);
      var i :| 0 <= i < |roles| && roles[i] == sorted[k];
      assert c == ClaimOf(items[i]);
    }
    if i :| 0 <= i < |items| && c == ClaimOf(items[i]) {
      assert roles[i] in multiset(roles);
      assert roles[i] in multiset(sorted);
      var k :| 0 <= k < |sorted| && sorted[k] == roles[i];
      assert ClaimsOf(sorted)[k] == c;
    }
  }

  /** The claims of a published manifest are, in ascending order, one entry for each role code of the
      mapping, with exactly that role's permissions in ascending order. */
  lemma ClaimIs(m: Manifest, c: Claim)
    requires ManifestOk(m)
    ensures c in Claims(m) <==>
              && c.code in Mapping(m) && Ascending(c.permissions, Self)
              && (forall v :: v in c.permissions <==> v in Mapping(m)[c.code])
  {
    hide Splitter.Trim, PermissionsOk, Codes, SortedUniqueSpec, Claims, Granted, RoleOk, Ascending;
    ClaimsAre(m);
    if c in Claims(m) {
      var i :| 0 <= i < |m.roles| && c == ClaimOf(m.roles[i]);
      SortedUniqueIs(m.roles[i].permissions);
      MappingAt(m, i);
    }
    if c.code in Mapping(m) && Ascending(c.permissions, Self)
       && forall v :: v in c.permissions <==> v in Mapping(m)[c.code] {
      var r :| r in m.roles && Splitter.Trim(r.code) == c.code;
      var i :| 0 <= i < |m.roles| && m.roles[i] == r;
      MappingAt(m, i);
      SortedUniqueIs(r.permissions);
      AscendingIsUnique(c.permissions, SortedUniqueSpec(r.permissions), Self);
      assert c == ClaimOf(m.roles[i]);
    }
  }

  lemma MappingAt(m: Manifest, i: nat)
    requires ManifestOk(m) && i < |m.roles|
    ensures Splitter.Trim(m.roles[i].code) in Mapping(m)
    ensures Mapping(m)[Splitter.Trim(m.roles[i].code)] == Granted(m.roles[i].permissions)
  {
    hide Splitter.Trim, PermissionsOk, Codes, Granted, RoleOk;
    assert m.roles[i] in m.roles;
  }

  /** Two published manifests have the same claims configuration exactly when they map the same role
      codes to the same sets of permissions, whatever the order, repetition, padding or wording. */
  lemma SameClaimsIffSameMapping(a: Manifest, b: Manifest)
    requires ManifestOk(a) && ManifestOk(b)
    ensures Claims(a) == Claims(b) <==> Mapping(a) == Mapping(b)
  {
    hide ManifestOk, Claims, Mapping, Ascending;
    if Claims(a) == Claims(b) {
      forall code ensures code in Mapping(a) <==> code in Mapping(b)
                  ensures code in Mapping(a) && code in Mapping(b) ==> Mapping(a)[code] == Mapping(b)[code]
      {
        if code in Mapping(a) { OneWay(a, b, code); }
        if code in Mapping(b) { OneWay(b, a, code); }
      }
    }
    if Mapping(a) == Mapping(b) {
      forall c ensures c in Claims(a) <==> c in Claims(b) {
        ClaimIs(a, c);
        ClaimIs(b, c);
      }
      ClaimsAre(a);
      ClaimsAre(b);
      AscendingIsUnique(Claims(a), Claims(b), ClaimCode);
    }
  }

  lemma OneWay(a: Manifest, b: Manifest, code: string)
    requires ManifestOk(a) && ManifestOk(b) && Claims(a) == Claims(b) && code in Mapping(a)
    ensures code in Mapping(b) && Mapping(b)[code] == Mapping(a)[code]
  {
    hide ManifestOk, Claims, Ascending, Splitter.Trim, Granted, SortedUniqueSpec;
    var c := SomeClaim(a, code);
    ClaimIs(a, c);
    ClaimIs(b, c);
  }

  lemma SomeClaim(m: Manifest, code: string) returns (c: Claim)
    requires ManifestOk(m) && code in Mapping(m)
    ensures c in Claims(m) && c.code == code
  {
    hide Splitter.Trim, PermissionsOk, Codes, SortedUniqueSpec, Claims, Granted, RoleOk, Ascending;
    var r :| r in m.roles && Splitter.Trim(r.code) == code;
    var i :| 0 <= i < |m.roles| && m.roles[i] == r;
    c := ClaimOf(r);
    ClaimsAre(m);
  }

  /** The whole payload, and so its checksum, ignores the order in which permissions and roles are listed. */
  lemma PayloadIgnoresOrder(a: Manifest, b: Manifest)
    requires ManifestOk(a) && ManifestOk(b) && a.version == b.version && a.maxEffectiveRoles == b.maxEffectiveRoles
    requires (forall p :: p in a.permissions <==> p in b.permissions) && (forall r :: r in a.roles <==> r in b.roles)
    ensures NormalizeSpec(a) == NormalizeSpec(b)
  {
    hide Splitter.Trim, NormalizeSpec, Codes, SortedUniqueSpec, Granted, RoleOk, PermissionOk, SortBy, Cleaned,
         ActionKey, ClaimsOf;
    PublishedIffOk(a);
    PublishedIffOk(b);
    forall p ensures p in CleanedAll(a.permissions) <==> p in CleanedAll(b.permissions) {
      CleanedIn(a.permissions, b.permissions, p);
      CleanedIn(b.permissions, a.permissions, p);
    }
    forall r ensures r in CleanedRoles(a.roles) <==> r in CleanedRoles(b.roles) {
      CleanedRoleIn(a.roles, b.roles, r);
      CleanedRoleIn(b.roles, a.roles, r);
    }
    SortOfSame(CleanedAll(a.permissions), CleanedAll(b.permissions), PermissionCode);
    SortOfSame(CleanedRoles(a.roles), CleanedRoles(b.roles), RoleCode);
  }

  lemma CleanedIn(a: seq<Permission>, b: seq<Permission>, p: Permission)
    requires forall x :: x in a ==> x in b
    ensures p in CleanedAll(a) ==> p in CleanedAll(b)
  {
    hide Cleaned;
    if p in CleanedAll(a) {
      var i :| 0 <= i < |a| && CleanedAll(a)[i] == p;
      assert a[i] in b;
      var j :| 0 <= j < |b| && b[j] == a[i];
      assert CleanedAll(b)[j] == p;
    }
  }

  lemma CleanedRoleIn(a: seq<Role>, b: seq<Role>, r: Role)
    requires forall x :: x in a ==> x in b
    ensures r in CleanedRoles(a) ==> r in CleanedRoles(b)
  {
    hide CleanedRole;
    if r in CleanedRoles(a) {
      var i :| 0 <= i < |a| && CleanedRoles(a)[i] == r;
      assert a[i] in b;
      var j :| 0 <= j < |b| && b[j] == a[i];
      assert CleanedRoles(b)[j] == r;
    }
  }
}
