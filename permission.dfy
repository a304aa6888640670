/**
 * The role/route permission table and `CheckPermission`. The route constants live in a file that is
 * not part of this model, so each table route is `"/api" + routes(r)` for an abstract `RouteId r`.
 * Route patterns are read as literal text in which every ":id" stands for one non-empty path segment.
 */
module Permission {
  import opened Chars

  // ---------------------------------------------------------------- route patterns

  /** A route pattern after `strings.Replace(route, ":id", "[^/]+", -1)`. */
  datatype Token = Lit(c: char) | IdParam

  /** Replaces every ":id", scanning left to right without overlap, by a segment token. */
  function Tokenize(route: string): (toks: seq<Token>)
    ensures |toks| <= |route|
  {
    if route == [] then []
    else if |route| >= 3 && route[..3] == ":id" then [IdParam] + Tokenize(route[3..])
    else [Lit(route[0])] + Tokenize(route[1..])
  }

  /** Whole-string match of `^pattern$`: a literal matches itself, `IdParam` one or more non-'/' characters. */
  predicate MatchTokens(toks: seq<Token>, path: string)
    decreases |toks|
  {
    if toks == [] then path == []
    else match toks[0]
      case Lit(c) => path != [] && path[0] == c && MatchTokens(toks[1..], path[1..])
      case IdParam =>
        exists k :: 1 <= k <= |path| && '/' !in path[..k] && MatchTokens(toks[1..], path[k..])
  }

  predicate RouteMatches(pattern: string, path: string) { MatchTokens(Tokenize(pattern), path) }

  function Lits(s: string): (toks: seq<Token>)
    ensures |toks| == |s| && forall i :: 0 <= i < |s| ==> toks[i] == Lit(s[i])
  {
    seq(|s|, i requires 0 <= i < |s| => Lit(s[i]))
  }

  lemma {:induction false} TokenizeLiteralPrefix(p: string, q: string)
    requires ':' !in p
    ensures Tokenize(p + q) == Lits(p) + Tokenize(q)
  {
    if p != [] {
      assert (p + q)[1..] == p[1..] + q;
      assert (p + q)[0] == p[0] != ':';
      TokenizeLiteralPrefix(p[1..], q);
      assert Lits(p) == [Lit(p[0])] + Lits(p[1..]);
    } else {
      assert p + q == q;
    }
  }

  lemma {:induction false} MatchLiteralPrefix(p: string, rest: seq<Token>, path: string)
    ensures MatchTokens(Lits(p) + rest, path) <==> |p| <= |path| && path[..|p|] == p && MatchTokens(rest, path[|p|..])
  {
    if p != [] {
      assert (Lits(p) + rest)[0] == Lit(p[0]);
      assert (Lits(p) + rest)[1..] == Lits(p[1..]) + rest;
      if path != [] {
        MatchLiteralPrefix(p[1..], rest, path[1..]);
        if |p| <= |path| {
          assert path[1..][..|p| - 1] == path[1..|p|];
          assert path[1..][|p| - 1..] == path[|p|..];
          assert path[..|p|] == [path[0]] + path[1..|p|];
          assert p == [p[0]] + p[1..];
        }
      }
    } else {
      assert Lits(p) + rest == rest;
    }
  }

  /** A pattern without ":id" matches exactly itself. */
  lemma LiteralRouteMatchesOnlyItself(pattern: string, path: string)
    requires ':' !in pattern
    ensures RouteMatches(pattern, path) <==> path == pattern
  {
    TokenizeLiteralPrefix(pattern, []);
    assert pattern + [] == pattern;
    assert Lits(pattern) + [] == Lits(pattern);
    assert Tokenize(pattern) == Lits(pattern);
    MatchLiteralPrefix(pattern, [], path);
    if |pattern| <= |path| && path[..|pattern|] == pattern {
      assert MatchTokens([], path[|pattern|..]) <==> path[|pattern|..] == [];
      assert path == path[..|pattern|] + path[|pattern|..];
    }
  }

  lemma MatchSegment(path: string)
    ensures MatchTokens([IdParam], path) <==> path != [] && '/' !in path
  {
    assert [IdParam][1..] == [];
    if path != [] && '/' !in path {
      assert path[..|path|] == path && path[|path|..] == [];
    }
  }

  /** A pattern ending in ":id" matches its literal prefix followed by one non-empty segment. */
  lemma TrailingIdMatchesOneSegment(prefix: string, path: string)
    requires ':' !in prefix
    ensures RouteMatches(prefix + ":id", path) <==>
              (|prefix| < |path| && path[..|prefix|] == prefix && '/' !in path[|prefix|..])
  {
    TokenizeLiteralPrefix(prefix, ":id");
    var id := ":id";
    assert |id| >= 3 && id[..3] == ":id" && id[3..] == [];
    assert Tokenize(id) == [IdParam];
    MatchLiteralPrefix(prefix, [IdParam], path);
    if |prefix| <= |path| {
      MatchSegment(path[|prefix|..]);
    }
  }

  // ---------------------------------------------------------------- the table

  datatype RoutePermission = RoutePermission(route: string, roles: seq<string>, httpMethod: string)

  /** The route constants the table refers to. */
  datatype RouteId =
    | Logout | ResetPassword | UpdateUser | GetUserProfile
    | GetAdminUserList | CreateAdminUser | UpdateAdminUserProfile | UpdateAdminUserPassword
    | UpdateAdminUserStatus | DeleteAdminUser
    | KitInfo | KitInfoID | QuantitySummary | Customer | Order | AssignKit | ChangeOrderStatus
    | ViewCustomerWithOrders | Notification | LatestNotification | MarkNotificationAsRead
    | MarkAllNotificationsAsRead | OrderCount | FetchedKitRegistrationList | PatientUpdateStatus
    | PatientUploadReport | DeleteNotification | FetchedBarcodeDetails | FetchedLabsDetails

  const AllowedRoles: seq<string> := ["super-admin", "admin", "user"]

  const Everyone: seq<string> := ["super-admin", "admin", "user"]
  const SuperAdminOnly: seq<string> := ["super-admin"]
  const Staff: seq<string> := ["super-admin", "admin"]

  function Entry(routes: RouteId -> string, r: RouteId, roles: seq<string>, httpMethod: string): RoutePermission {
    RoutePermission("/api" + routes(r), roles, httpMethod)
  }

  /** `RoutePermissions`, in table order; an empty method allows every method. */
  function RoutePermissions(routes: RouteId -> string): (t: seq<RoutePermission>)
    ensures |t| == 29
  {
    [ Entry(routes, Logout, Everyone, "DELETE"),
      Entry(routes, ResetPassword, Everyone, "PATCH"),
      Entry(routes, UpdateUser, Everyone, "PATCH"),
      Entry(routes, GetUserProfile, Everyone, "GET"),
      Entry(routes, GetAdminUserList, SuperAdminOnly, "GET"),
      Entry(routes, CreateAdminUser, SuperAdminOnly, "POST"),
      Entry(routes, UpdateAdminUserProfile, SuperAdminOnly, "PATCH"),
      Entry(routes, UpdateAdminUserPassword, SuperAdminOnly, "PATCH"),
      Entry(routes, UpdateAdminUserStatus, SuperAdminOnly, "PATCH"),
      Entry(routes, DeleteAdminUser, SuperAdminOnly, "DELETE"),
      Entry(routes, KitInfo, Staff, ""),
      Entry(routes, KitInfoID, Staff, ""),
      Entry(routes, QuantitySummary, Staff, "GET"),
      Entry(routes, Customer, Staff, "GET"),
      Entry(routes, Order, Staff, "GET"),
      Entry(routes, AssignKit, Staff, "POST"),
      Entry(routes, ChangeOrderStatus, Staff, "PATCH"),
      Entry(routes, ViewCustomerWithOrders, Staff, "GET"),
      Entry(routes, Notification, Staff, ""),
      Entry(routes, LatestNotification, Staff, "GET"),
      Entry(routes, MarkNotificationAsRead, Staff, "PATCH"),
      Entry(routes, MarkAllNotificationsAsRead, Staff, "PATCH"),
      Entry(routes, OrderCount, Staff, "GET"),
      Entry(routes, FetchedKitRegistrationList, Staff, "GET"),
      Entry(routes, PatientUpdateStatus, Staff, "PATCH"),
      Entry(routes, PatientUploadReport, Staff, "PATCH"),
      Entry(routes, DeleteNotification, Staff, "DELETE"),
      Entry(routes, FetchedBarcodeDetails, Staff, "GET"),
      Entry(routes, FetchedLabsDetails, Staff, "GET") ]
  }

  // ---------------------------------------------------------------- CheckPermission

  /** Some listed role equals `role` once lower-cased. */
  predicate HasRole(roles: seq<string>, role: string) {
    exists j :: 0 <= j < |roles| && Lower(roles[j]) == role
  }

  /** An entry grants access when its pattern matches the whole path, its method (if any) matches, and it lists the role. */
  predicate EntryGrants(e: RoutePermission, role: string, route: string, httpMethod: string) {
    RouteMatches(e.route, route) && (e.httpMethod == "" || e.httpMethod == httpMethod) && HasRole(e.roles, role)
  }

  /** The role, lower-cased, must be an allowed role, and some entry must grant the request. */
  predicate Permitted(table: seq<RoutePermission>, userRole: string, route: string, httpMethod: string) {
    var role := Lower(userRole);
    HasRole(AllowedRoles, role) && exists i :: 0 <= i < |table| && EntryGrants(table[i], role, route, httpMethod)
  }

  method RoleListed(roles: seq<string>, role: string) returns (found: bool)
    ensures found <==> HasRole(roles, role)
  {
    var j := 0;
    while j < |roles|
      invariant 0 <= j <= |roles|
      invariant forall j' :: 0 <= j' < j ==> Lower(roles[j']) != role
    {
      if Lower(roles[j]) == role {
        return true;
      }
      j := j + 1;
    }
    return false;
  }

  /** `CheckPermission`: the role check, then the first granting entry of the table. */
  method CheckPermission(table: seq<RoutePermission>, userRole: string, route: string, httpMethod: string) returns (ok: bool)
    ensures ok <==> Permitted(table, userRole, route, httpMethod)
  {
    var role := Lower(userRole);
    var isValidRole := RoleListed(AllowedRoles, role);
    if !isValidRole {
      return false;
    }
    var i := 0;
    while i < |table|
      invariant 0 <= i <= |table|
      invariant forall i' :: 0 <= i' < i ==> !EntryGrants(table[i'], role, route, httpMethod)
    {
      var permission := table[i];
      if RouteMatches(permission.route, route) {
        if permission.httpMethod != "" && permission.httpMethod != httpMethod {
          i := i + 1;
          continue;
        }
        var listed := RoleListed(permission.roles, role);
        if listed {
          return true;
        }
      }
      i := i + 1;
    }
    return false;
  }

  // ---------------------------------------------------------------- properties of the table

  lemma LowerOfLowercase(s: string)
    requires forall i :: 0 <= i < |s| ==> !IsUpper(s[i])
    ensures Lower(s) == s
  {
  }

  /** Role names are compared case-insensitively. */
  lemma RoleCaseInsensitive(table: seq<RoutePermission>, userRole: string, route: string, httpMethod: string)
    ensures Permitted(table, Upper(userRole), route, httpMethod) == Permitted(table, userRole, route, httpMethod)
  {
    assert Lower(Upper(userRole)) == Lower(userRole);
  }

  /** The role "user" is granted only by the logout, reset-password, update-user and profile entries. */
  lemma UserOnlySelfService(routes: RouteId -> string, userRole: string, route: string, httpMethod: string)
    requires Lower(userRole) == "user"
    ensures var t := RoutePermissions(routes);
            Permitted(t, userRole, route, httpMethod) <==> exists i :: 0 <= i < 4 && EntryGrants(t[i], "user", route, httpMethod)
  {
    var t := RoutePermissions(routes);
    LowerOfLowercase("user");
    LowerOfLowercase("super-admin");
    LowerOfLowercase("admin");
    assert HasRole(AllowedRoles, "user") by { assert Lower(AllowedRoles[2]) == "user"; }
    forall i | 4 <= i < 29 ensures !HasRole(t[i].roles, "user") {
      assert forall j :: 0 <= j < |t[i].roles| ==> |Lower(t[i].roles[j])| != 4;
    }
    forall i | 0 <= i < 4 ensures HasRole(t[i].roles, "user") {
      assert Lower(t[i].roles[2]) == "user";
    }
  }

  /** A super-admin is permitted exactly on the paths and methods some entry matches; an unlisted path is refused. */
  lemma SuperAdminEverywhereListed(routes: RouteId -> string, userRole: string, route: string, httpMethod: string)
    requires Lower(userRole) == "super-admin"
    ensures var t := RoutePermissions(routes);
            Permitted(t, userRole, route, httpMethod) <==>
              exists i :: 0 <= i < 29 && RouteMatches(t[i].route, route) && (t[i].httpMethod == "" || t[i].httpMethod == httpMethod)
  {
    var t := RoutePermissions(routes);
    LowerOfLowercase("super-admin");
    assert HasRole(AllowedRoles, "super-admin") by { assert Lower(AllowedRoles[0]) == "super-admin"; }
    SuperAdminHeadsEveryEntry(routes);
    forall i | 0 <= i < 29 ensures HasRole(t[i].roles, "super-admin") {
      assert Lower(t[i].roles[0]) == "super-admin";
    }
  }

  /** Every entry of the table lists the super-admin role first. */
  lemma SuperAdminHeadsEveryEntry(routes: RouteId -> string)
    ensures var t := RoutePermissions(routes);
            forall i :: 0 <= i < |t| ==> |t[i].roles| > 0 && t[i].roles[0] == "super-admin"
  {
    var t := RoutePermissions(routes);
    forall i | 0 <= i < |t| ensures |t[i].roles| > 0 && t[i].roles[0] == "super-admin" {
      assert t[i].roles in {Everyone, SuperAdminOnly, Staff};
    }
  }

  /** A role outside the allowed list is refused on every route. */
  lemma UnknownRoleRefused(table: seq<RoutePermission>, userRole: string, route: string, httpMethod: string)
    requires Lower(userRole) !in AllowedRoles
    ensures !Permitted(table, userRole, route, httpMethod)
  {
    forall j | 0 <= j < |AllowedRoles| ensures Lower(AllowedRoles[j]) == AllowedRoles[j] {
      LowerOfLowercase(AllowedRoles[j]);
    }
  }
}
