/** What a catalog manifest must say to be published, what is published of it, and which mistake is reported
  * otherwise, in terms of the texts it was written with.
  */
module ClaimsCatalogMeaning {
  import opened Wrappers
  import opened ClaimsCatalog
  import opened ClaimsCatalogLaws
  import Splitter

  // ---------------------------------------------------------------- ASCII letters in either case

  predicate SameLetter(c: char, d: char) {
    || c == d || ('a' <= c <= 'z' && d as int == c as int - 32) || ('A' <= c <= 'Z' && d as int == c as int + 32)
  }

  /** The texts are the same up to the case of ASCII letters. */
  predicate Fold(a: string, b: string) { |a| == |b| && forall i :: 0 <= i < |a| ==> SameLetter(a[i], b[i]) }

  lemma LowerIffFold(a: string, b: string)
    ensures Lower(a) == Lower(b) <==> Fold(a, b)
  {
    if Lower(a) == Lower(b) {
      forall i | 0 <= i < |a| ensures SameLetter(a[i], b[i]) { assert Lower(a)[i] == Lower(b)[i]; }
    }
    if Fold(a, b) {
      forall i | 0 <= i < |a| ensures Lower(a)[i] == Lower(b)[i] { assert SameLetter(a[i], b[i]); }
    }
  }

  // A word in capitals is matched in any case.
  lemma UpperIffFold(s: string, word: string)
    requires forall c :: c in word ==> !('a' <= c <= 'z')
    ensures Upper(s) == word <==> Fold(s, word)
  {
    if Upper(s) == word {
      forall i | 0 <= i < |s| ensures SameLetter(s[i], word[i]) { assert Upper(s)[i] == word[i] && word[i] in word; }
    }
    if Fold(s, word) {
      forall i | 0 <= i < |s| ensures Upper(s)[i] == word[i] { assert SameLetter(s[i], word[i]) && word[i] in word; }
    }
  }

  // ---------------------------------------------------------------- one permission

  predicate Written(p: Permission) {
    && Splitter.Trim(p.code) != "" && Splitter.Trim(p.name) != "" && Splitter.Trim(p.action) != ""
    && Splitter.Trim(p.resource) != ""
  }

  predicate RiskKnown(p: Permission) {
    var risk := Splitter.Trim(p.risk);
    Fold(risk, "LOW") || Fold(risk, "MEDIUM") || Fold(risk, "HIGH") || Fold(risk, "CRITICAL")
  }

  predicate GrantKnown(p: Permission) {
    var grant := Splitter.Trim(p.grant);
    grant == "" || Fold(grant, "DEFAULT") || Fold(grant, "SUPER_ADMIN_ONLY")
  }

  predicate SameCode(p: Permission, q: Permission) { Splitter.Trim(p.code) == Splitter.Trim(q.code) }

  /** What two permissions must not share besides their code. */
  predicate SameKey(p: Permission, q: Permission) {
    Splitter.Trim(p.resource) + "\0" + Lower(Splitter.Trim(p.action))
    == Splitter.Trim(q.resource) + "\0" + Lower(Splitter.Trim(q.action))
  }

  lemma CleanedIs(p: Permission)
    ensures var q := Cleaned(p);
            && q.code == Splitter.Trim(p.code) && q.name == Splitter.Trim(p.name)
            && q.action == Splitter.Trim(p.action) && q.resource == Splitter.Trim(p.resource)
            && q.resourceName == Splitter.Trim(p.resourceName)
            && Fold(q.risk, Splitter.Trim(p.risk)) && Fold(q.grant, Splitter.Trim(p.grant))
            && (forall c :: c in q.risk || c in q.grant ==> !('a' <= c <= 'z'))
    ensures Complete(Cleaned(p)) <==> Written(p)
    ensures KnownRisk(Cleaned(p)) <==> RiskKnown(p)
    ensures KnownGrant(Cleaned(p)) <==> GrantKnown(p)
  {
    hide Splitter.Trim, Fold;
    RiskIs(Splitter.Trim(p.risk));
    GrantIs(Splitter.Trim(p.grant));
    UpperIs(Splitter.Trim(p.risk));
    UpperIs(Splitter.Trim(p.grant));
  }

  lemma UpperIs(s: string)
    ensures Fold(Upper(s), s) && (forall c :: c in Upper(s) ==> !('a' <= c <= 'z')) && (Upper(s) == "" <==> s == "")
  {
  }

  lemma RiskIs(risk: string)
    ensures Upper(risk) in {"LOW", "MEDIUM", "HIGH", "CRITICAL"}
        <==> Fold(risk, "LOW") || Fold(risk, "MEDIUM") || Fold(risk, "HIGH") || Fold(risk, "CRITICAL")
  {
    hide Upper, Fold;
    UpperIffFold(risk, "LOW");
    UpperIffFold(risk, "MEDIUM");
    UpperIffFold(risk, "HIGH");
    UpperIffFold(risk, "CRITICAL");
  }

  lemma GrantIs(grant: string)
    ensures Upper(grant) in {"", "DEFAULT", "SUPER_ADMIN_ONLY"}
        <==> grant == "" || Fold(grant, "DEFAULT") || Fold(grant, "SUPER_ADMIN_ONLY")
  {
    UpperIs(grant);
    UpperIffFold(grant, "DEFAULT");
    UpperIffFold(grant, "SUPER_ADMIN_ONLY");
  }

  lemma KeyIs(p: Permission, q: Permission)
    ensures ActionKey(Cleaned(p)) == ActionKey(Cleaned(q)) <==> SameKey(p, q)
  {
  }

  /** Sharing a key is sharing the resource and, in any case of its letters, the action - if no resource
      holds a NUL. */
  lemma SameKeyIs(p: Permission, q: Permission)
    requires '\0' !in Splitter.Trim(p.resource) && '\0' !in Splitter.Trim(q.resource)
    ensures SameKey(p, q) <==>
              Splitter.Trim(p.resource) == Splitter.Trim(q.resource)
              && Fold(Splitter.Trim(p.action), Splitter.Trim(q.action))
  {
    hide Splitter.Trim, Fold, Lower;
    KeyParts(Splitter.Trim(p.resource), Lower(Splitter.Trim(p.action)), Splitter.Trim(q.resource),
             Lower(Splitter.Trim(q.action)));
    LowerIffFold(Splitter.Trim(p.action), Splitter.Trim(q.action));
  }

  lemma KeyParts(a: string, b: string, c: string, d: string)
    requires '\0' !in a && '\0' !in c
    ensures a + "\0" + b == c + "\0" + d <==> a == c && b == d
  {
    var s, t := a + "\0" + b, c + "\0" + d;
    if s == t {
      assert s[|a|] == '\0' && t[|c|] == '\0';
      assert forall i :: 0 <= i < |a| ==> s[i] == a[i] && a[i] in a;
      assert forall i :: 0 <= i < |c| ==> t[i] == c[i] && c[i] in c;
      assert s[..|a|] == a && t[..|c|] == c;
      assert s[|a| + 1..] == b && t[|c| + 1..] == d;
    }
  }

  // ---------------------------------------------------------------- the manifest

  predicate PermissionsFit(items: seq<Permission>) {
    && (forall p :: p in items ==> Written(p) && RiskKnown(p) && GrantKnown(p))
    && (forall i, j :: 0 <= i < j < |items| ==> !SameCode(items[i], items[j]) && !SameKey(items[i], items[j]))
  }

  lemma PermissionsOkIff(items: seq<Permission>)
    ensures PermissionsOk(items) <==> PermissionsFit(items)
  {
    hide Cleaned, Written, RiskKnown, GrantKnown, SameKey, ActionKey, Complete, KnownRisk, KnownGrant, SameCode;
    forall i | 0 <= i < |items|
      ensures PermissionOk(Cleaned(items[i])) <==> Written(items[i]) && RiskKnown(items[i]) && GrantKnown(items[i])
    {
      CleanedIs(items[i]);
    }
    forall i, j | 0 <= i < j < |items|
      ensures Cleaned(items[i]).code == Cleaned(items[j]).code <==> SameCode(items[i], items[j])
      ensures ActionKey(Cleaned(items[i])) == ActionKey(Cleaned(items[j])) <==> SameKey(items[i], items[j])
    {
      CodesAre(items[i], items[j]);
      KeyIs(items[i], items[j]);
    }
    if PermissionsFit(items) {
      forall i | 0 <= i < |items| ensures PermissionOk(Cleaned(items[i])) { assert items[i] in items; }
    }
  }

  lemma CodesAre(p: Permission, q: Permission)
    ensures Cleaned(p).code == Cleaned(q).code <==> SameCode(p, q)
  {
  }

  /** The codes that roles may grant. */
  function KnownCodes(m: Manifest): set<string> { set p | p in m.permissions :: Splitter.Trim(p.code) }

  predicate RolesFit(m: Manifest) {
    && (forall r :: r in m.roles ==>
          && Splitter.Trim(r.code) != "" && Splitter.Trim(r.name) != ""
          && forall v :: v in r.permissions && Splitter.Trim(v) != "" ==> Splitter.Trim(v) in KnownCodes(m))
    && (forall i, j :: 0 <= i < j < |m.roles| ==> Splitter.Trim(m.roles[i].code) != Splitter.Trim(m.roles[j].code))
  }

  /** Exactly which manifests are published. */
  lemma PublishedIff(m: Manifest)
    ensures NormalizeSpec(m).Success? <==>
              && Splitter.Trim(m.version) != "" && m.permissions != [] && m.roles != []
              && 0 <= m.maxEffectiveRoles <= 10 && PermissionsFit(m.permissions) && RolesFit(m)
  {
    hide Splitter.Trim, PermissionsOk, PermissionsFit, NormalizeSpec, Cleaned;
    PublishedIffOk(m);
    PermissionsOkIff(m.permissions);
    KnownCodesAre(m);
    forall r | r in m.roles
      ensures Granted(r.permissions) <= KnownCodes(m)
          <==> forall v :: v in r.permissions && Splitter.Trim(v) != "" ==> Splitter.Trim(v) in KnownCodes(m)
    {
    }
  }

  lemma KnownCodesAre(m: Manifest)
    ensures Codes(CleanedAll(m.permissions)) == KnownCodes(m)
  {
    hide Splitter.Trim;
    var all := CleanedAll(m.permissions);
    forall code ensures code in Codes(all) <==> code in KnownCodes(m) {
      InCodes(all, code);
      if code in KnownCodes(m) {
        var p :| p in m.permissions && Splitter.Trim(p.code) == code;
        var i :| 0 <= i < |m.permissions| && m.permissions[i] == p;
        CleanedIs(p);
        assert all[i].code == code;
      }
      if i :| 0 <= i < |all| && all[i].code == code { CleanedIs(m.permissions[i]); }
    }
  }

  /** The permissions that are published: one for each item, trimmed, its risk and grant in capitals. */
  lemma PublishedPermissions(m: Manifest, q: Permission)
    requires NormalizeSpec(m).Success?
    ensures q in NormalizeSpec(m).value.permissions <==>
              exists p :: p in m.permissions && q == Cleaned(p)
    ensures |NormalizeSpec(m).value.permissions| == |m.permissions|
    ensures Ascending(NormalizeSpec(m).value.permissions, PermissionCode)
  {
    hide Splitter.Trim, NormalizeSpec, Cleaned, RolesOk, CleanedAll, SortBy, Ascending, CleanedRoles, ClaimsOf;
    PublishedIffOk(m);
    var all := CleanedAll(m.permissions);
    AllDistinct(m.permissions);
    SortBySorts(all, PermissionCode);
    SameMembers(SortBy(all, PermissionCode), all, q);
    InCleaned(m.permissions, q);
  }

  lemma AllDistinct(items: seq<Permission>)
    requires PermissionsOk(items)
    ensures DistinctKeys(CleanedAll(items), PermissionCode) && |CleanedAll(items)| == |items|
  {
    hide Cleaned, ActionKey, Complete, KnownRisk, KnownGrant;
  }

  lemma SameMembers<T>(a: seq<T>, b: seq<T>, x: T)
    requires multiset(a) == multiset(b)
    ensures |a| == |b| && (x in a <==> x in b)
  {
    assert |multiset(a)| == |a| && |multiset(b)| == |b|;
    assert (x in a <==> x in multiset(a)) && (x in b <==> x in multiset(b));
  }

  lemma InCleaned(items: seq<Permission>, q: Permission)
    ensures q in CleanedAll(items) <==> exists p :: p in items && q == Cleaned(p)
  {
    hide Cleaned;
    var all := CleanedAll(items);
    if p :| p in items && q == Cleaned(p) {
      var i :| 0 <= i < |items| && items[i] == p;
      assert all[i] == q;
    }
    if q in all {
      var i :| 0 <= i < |all| && all[i] == q;
      assert items[i] in items;
    }
  }

  // ---------------------------------------------------------------- which mistake is reported

  /** Item k is the first mistake, and `e` says which: the first of these that is wrong with it. */
  predicate Mistake(items: seq<Permission>, k: nat, e: Error)
    requires k < |items|
  {
    var p := items[k];
    match e
    case PermissionIncomplete => !Written(p)
    case BadRisk(code) => Written(p) && !RiskKnown(p) && code == Splitter.Trim(p.code)
    case BadGrant(code) => Written(p) && RiskKnown(p) && !GrantKnown(p) && code == Splitter.Trim(p.code)
    case DuplicatePermission(code) =>
      && Written(p) && RiskKnown(p) && GrantKnown(p) && code == Splitter.Trim(p.code)
      && exists j :: 0 <= j < k && SameCode(items[j], p)
    case DuplicateAction(resource, action) =>
      && Written(p) && RiskKnown(p) && GrantKnown(p) && (forall j :: 0 <= j < k ==> !SameCode(items[j], p))
      && (exists j :: 0 <= j < k && SameKey(items[j], p))
      && resource == Splitter.Trim(p.resource) && action == Splitter.Trim(p.action)
    case _ => false
  }

  /** A permission list that is not accepted is refused for the first item that is wrong, and with the first
      thing that is wrong with it. */
  lemma {:induction false} FirstMistake(items: seq<Permission>) returns (k: nat)
    requires ScanPermissions(items).Failure?
    ensures k < |items| && PermissionsFit(items[..k]) && Mistake(items, k, ScanPermissions(items).error)
  {
    hide AddPermission, PermissionsFit, Mistake;
    var n := |items| - 1;
    if ScanPermissions(items[..n]).Failure? {
      k := FirstMistake(items[..n]);
      assert items[..n][..k] == items[..k];
      MistakeOfFront(items, n, k, ScanPermissions(items).error);
    } else {
      k := n;
      ScanPermissionsIs(items[..n]);
      PermissionsOkIff(items[..n]);
      AddMistake(items, n, CleanedAll(items[..n]));
    }
  }

  lemma MistakeOfFront(items: seq<Permission>, n: nat, k: nat, e: Error)
    requires k < n <= |items| && Mistake(items[..n], k, e)
    ensures Mistake(items, k, e)
  {
    hide Written, RiskKnown, GrantKnown, SameCode, SameKey;
    assert forall j :: 0 <= j < n ==> items[..n][j] == items[j];
  }

  lemma AddMistake(items: seq<Permission>, n: nat, before: seq<Permission>)
    requires n < |items| && before == CleanedAll(items[..n]) && AddPermission(before, items[n]).Failure?
    ensures Mistake(items, n, AddPermission(before, items[n]).error)
  {
    hide Written, RiskKnown, GrantKnown, SameCode, SameKey, Complete, KnownRisk, KnownGrant, ActionKey, Cleaned;
    var p := items[n];
    var q := Cleaned(p);
    CleanedIs(p);
    InCodes(before, q.code);
    InActions(before, ActionKey(q));
    forall j | 0 <= j < n
      ensures before[j] == Cleaned(items[j])
      ensures before[j].code == q.code <==> SameCode(items[j], p)
      ensures ActionKey(before[j]) == ActionKey(q) <==> SameKey(items[j], p)
    {
      assert items[..n][j] == items[j];
      CodesAre(items[j], p);
      KeyIs(items[j], p);
    }
  }

  /** The same for roles; of several permissions that are not known the first in order is reported. */
  predicate RoleMistake(items: seq<Role>, k: nat, known: set<string>, e: Error)
    requires k < |items|
  {
    var r := items[k];
    var named := Splitter.Trim(r.code) != "" && Splitter.Trim(r.name) != "";
    match e
    case RoleIncomplete => !named
    case DuplicateRole(code) =>
      && named && code == Splitter.Trim(r.code)
      && exists j :: 0 <= j < k && Splitter.Trim(items[j].code) == code
    case UnknownPermission(code, permission) =>
      && named && code == Splitter.Trim(r.code)
      && (forall j :: 0 <= j < k ==> Splitter.Trim(items[j].code) != code)
      && permission in Granted(r.permissions) && permission !in known
      && forall v :: v in Granted(r.permissions) && v !in known ==> v == permission || Less(permission, v)
    case _ => false
  }

  lemma {:induction false} FirstRoleMistake(items: seq<Role>, known: set<string>) returns (k: nat)
    requires ScanRoles(items, known).Failure?
    ensures k < |items| && RolesOk(items[..k], known) && RoleMistake(items, k, known, ScanRoles(items, known).error)
  {
    hide AddRole, RolesOk, RoleMistake;
    var n := |items| - 1;
    if ScanRoles(items[..n], known).Failure? {
      k := FirstRoleMistake(items[..n], known);
      assert items[..n][..k] == items[..k];
      RoleMistakeOfFront(items, n, k, known, ScanRoles(items, known).error);
    } else {
      k := n;
      ScanRolesIs(items[..n], known);
      AddRoleMistake(items, n, CleanedRoles(items[..n]), known);
    }
  }

  lemma RoleMistakeOfFront(items: seq<Role>, n: nat, k: nat, known: set<string>, e: Error)
    requires k < n <= |items| && RoleMistake(items[..n], k, known, e)
    ensures RoleMistake(items, k, known, e)
  {
    hide Splitter.Trim, Granted, Less;
    assert forall j :: 0 <= j < n ==> items[..n][j] == items[j];
  }

  lemma AddRoleMistake(items: seq<Role>, n: nat, before: seq<Role>, known: set<string>)
    requires n < |items| && before == CleanedRoles(items[..n]) && AddRole(before, items[n], known).Failure?
    ensures RoleMistake(items, n, known, AddRole(before, items[n], known).error)
  {
    hide Splitter.Trim, Granted, SortedUniqueSpec, RoleCodes, Ascending, Less;
    var r := items[n];
    InRoleCodes(before, Splitter.Trim(r.code));
    forall j | 0 <= j < n ensures before[j].code == Splitter.Trim(items[j].code) {
      assert items[..n][j] == items[j] && before[j] == CleanedRole(items[j]);
    }
    SortedUniqueIs(r.permissions);
    UnknownIs(SortedUniqueSpec(r.permissions), known);
  }

  lemma {:induction false} UnknownIs(permissions: seq<string>, known: set<string>)
    requires Ascending(permissions, Self)
    ensures FirstUnknown(permissions, known).Some? ==>
              var first := FirstUnknown(permissions, known).value;
              && first in permissions && first !in known
              && forall v :: v in permissions && v !in known ==> v == first || Less(first, v)
  {
    hide Ascending, Less;
    if permissions != [] {
      TailAscends(permissions, Self);
      UnknownIs(permissions[1..], known);
      assert permissions == [permissions[0]] + permissions[1..];
    }
  }

  /** What is looked at first: the manifest as a whole, then its permissions, then its roles. */
  lemma ReportedAs(m: Manifest)
    requires NormalizeSpec(m).Failure?
    ensures var e := NormalizeSpec(m).error;
            var whole := Splitter.Trim(m.version) != "" && m.permissions != [] && m.roles != [];
            var inRange := 0 <= m.maxEffectiveRoles <= 10;
            && (e == Incomplete <==> !whole) && (e == BadPolicy <==> whole && !inRange)
            && (whole && inRange && !PermissionsFit(m.permissions) ==>
                  exists k :: 0 <= k < |m.permissions| && PermissionsFit(m.permissions[..k])
                              && Mistake(m.permissions, k, e))
            && (whole && inRange && PermissionsFit(m.permissions) ==>
                  exists k :: 0 <= k < |m.roles| && RolesOk(m.roles[..k], KnownCodes(m))
                              && RoleMistake(m.roles, k, KnownCodes(m), e))
  {
    hide Splitter.Trim, PermissionsFit, RolesOk, ScanPermissions, ScanRoles, PermissionsOk, KnownCodes, Codes;
    if Splitter.Trim(m.version) != "" && m.permissions != [] && m.roles != [] && 0 <= m.maxEffectiveRoles <= 10 {
      PermissionsOkIff(m.permissions);
      ScanPermissionsIs(m.permissions);
      if ScanPermissions(m.permissions).Failure? {
        var k := FirstMistake(m.permissions);
      } else {
        KnownCodesAre(m);
        var k := FirstRoleMistake(m.roles, KnownCodes(m));
      }
    }
  }

  /** The order of the published lists: a text comes before another if it is a part of its beginning, or has
      the smaller character where they first differ. */
  lemma {:induction false} LessIs(a: string, b: string)
    ensures Less(a, b) <==> a < b || exists k :: 0 <= k < |a| && k < |b| && a[..k] == b[..k] && a[k] < b[k]
  {
    if a != [] && b != [] && a[0] == b[0] {
      LessIs(a[1..], b[1..]);
      assert a == [a[0]] + a[1..] && b == [b[0]] + b[1..];
      if k :| 0 <= k < |a[1..]| && k < |b[1..]| && a[1..][..k] == b[1..][..k] && a[1..][k] < b[1..][k] {
        assert a[..k + 1] == [a[0]] + a[1..][..k] && b[..k + 1] == [b[0]] + b[1..][..k];
      }
      if k :| 0 <= k < |a| && k < |b| && a[..k] == b[..k] && a[k] < b[k] {
        assert a[1..][..k - 1] == a[..k][1..] && b[1..][..k - 1] == b[..k][1..];
      }
    }
  }

  /** The roles that are published: one for each item, with its trimmed texts and the permissions it grants in
      ascending order. */
  lemma PublishedRoles(m: Manifest, q: Role)
    requires NormalizeSpec(m).Success?
    ensures q in NormalizeSpec(m).value.roles <==>
              exists r :: r in m.roles
                && q.code == Splitter.Trim(r.code) && q.name == Splitter.Trim(r.name)
                && q.description == Splitter.Trim(r.description)
                && Ascending(q.permissions, Self) && forall v :: v in q.permissions <==> v in Granted(r.permissions)
    ensures |NormalizeSpec(m).value.roles| == |m.roles|
    ensures Ascending(NormalizeSpec(m).value.roles, RoleCode)
  {
    hide Splitter.Trim, NormalizeSpec, CleanedRole, CleanedRoles, PermissionsOk, SortBy, Ascending, Granted, CleanedAll;
    PublishedIffOk(m);
    var all := CleanedRoles(m.roles);
    RolesDistinct(m.roles, Codes(CleanedAll(m.permissions)));
    SortBySorts(all, RoleCode);
    SameMembers(SortBy(all, RoleCode), all, q);
    InCleanedRoles(m.roles, q);
    forall r | r in m.roles
      ensures q == CleanedRole(r) <==>
                && q.code == Splitter.Trim(r.code) && q.name == Splitter.Trim(r.name)
                && q.description == Splitter.Trim(r.description)
                && Ascending(q.permissions, Self) && forall v :: v in q.permissions <==> v in Granted(r.permissions)
    {
      CleanedRoleIs(r, q);
    }
  }

  lemma RolesDistinct(items: seq<Role>, known: set<string>)
    requires RolesOk(items, known)
    ensures DistinctKeys(CleanedRoles(items), RoleCode) && |CleanedRoles(items)| == |items|
  {
    hide Splitter.Trim, SortedUniqueSpec;
  }

  lemma InCleanedRoles(items: seq<Role>, q: Role)
    ensures q in CleanedRoles(items) <==> exists r :: r in items && q == CleanedRole(r)
  {
    hide CleanedRole;
    var all := CleanedRoles(items);
    if r :| r in items && q == CleanedRole(r) {
      var i :| 0 <= i < |items| && items[i] == r;
      assert all[i] == q;
    }
    if q in all {
      var i :| 0 <= i < |all| && all[i] == q;
      assert items[i] in items;
    }
  }

  lemma CleanedRoleIs(r: Role, q: Role)
    ensures q == CleanedRole(r) <==>
              && q.code == Splitter.Trim(r.code) && q.name == Splitter.Trim(r.name)
              && q.description == Splitter.Trim(r.description)
              && Ascending(q.permissions, Self) && forall v :: v in q.permissions <==> v in Granted(r.permissions)
  {
    hide Splitter.Trim, SortedUniqueSpec, Ascending, Granted;
    SortedUniqueIs(r.permissions);
    if Ascending(q.permissions, Self) && forall v :: v in q.permissions <==> v in Granted(r.permissions) {
      AscendingIsUnique(q.permissions, SortedUniqueSpec(r.permissions), Self);
    }
  }
}
