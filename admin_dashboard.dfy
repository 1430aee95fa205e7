/**
 * The admin dashboard: it loads the user list, counts users per role,
 * shows each role as a badge, lets only super admins change roles, and
 * denies access below the admin role.
 *
 * Server replies are inputs.
 */
module AdminDashboard {
  import opened Wrappers
  import opened Text
  import opened UseAuth

  datatype UserWithRole = UserWithRole(id: string, email: string, fullName: string, createdAt: string, role: Role)

  /** The role's name as the server sends it. */
  function RoleName(r: Role): string {
    match r
    case NormalUser => "normal_user"
    case Admin => "admin"
    case SuperAdmin => "super_admin"
  }

  /** The number of users holding role `r`: `users.filter(u => u.role === r).length`. */
  function CountRole(users: seq<UserWithRole>, r: Role): (n: nat)
    ensures n <= |users|
  {
    if users == [] then 0 else (if users[0].role == r then 1 else 0) + CountRole(users[1..], r)
  }

  datatype Stats = Stats(totalUsers: nat, normalUsers: nat, admins: nat, superAdmins: nat)

  function StatsOf(users: seq<UserWithRole>): Stats {
    Stats(|users|, CountRole(users, NormalUser), CountRole(users, Admin), CountRole(users, SuperAdmin))
  }

  /** Every user holds exactly one of the three roles, so the role counts add up to the total. */
  lemma {:induction false} RoleCountsAddUp(users: seq<UserWithRole>)
    ensures var s := StatsOf(users); s.normalUsers + s.admins + s.superAdmins == s.totalUsers
  {
    if users != [] {
      RoleCountsAddUp(users[1..]);
    }
  }

  /** A count of a role is the number of positions holding it: adding a user adds one to its role only. */
  lemma {:induction false} CountRoleAppend(users: seq<UserWithRole>, u: UserWithRole, r: Role)
    ensures CountRole(users + [u], r) == CountRole(users, r) + (if u.role == r then 1 else 0)
  {
    if users == [] {
      assert [] + [u] == [u];
      assert [u][1..] == [];
    } else {
      assert (users + [u])[1..] == users[1..] + [u];
      CountRoleAppend(users[1..], u, r);
    }
  }

  /** `getRoleBadgeVariant`: the badge style of a role name; unknown names are secondary. */
  function BadgeVariant(role: string): (v: string)
    ensures role == "super_admin" <==> v == "destructive"
    ensures role == "admin" <==> v == "default"
    ensures role != "super_admin" && role != "admin" <==> v == "secondary"
  {
    match role
    case "super_admin" => "destructive"
    case "admin" => "default"
    case _ => "secondary"
  }

  /** `s.replace(from, to)` with a one-character pattern: only the first occurrence is replaced. */
  function ReplaceFirst(s: string, from: char, to: char): (r: string)
    ensures |r| == |s|
  {
    if s == [] then []
    else if s[0] == from then [to] + s[1..]
    else [s[0]] + ReplaceFirst(s[1..], from, to)
  }

  /** Without an occurrence the string is kept. */
  lemma {:induction false} ReplaceFirstAbsent(s: string, from: char, to: char)
    requires from !in s
    ensures ReplaceFirst(s, from, to) == s
  {
    if s != [] {
      ReplaceFirstAbsent(s[1..], from, to);
    }
  }

  /** The badge text of a role: `role.replace("_", " ")`. */
  function RoleText(r: Role): string {
    ReplaceFirst(RoleName(r), '_', ' ')
  }

  /** Before the first occurrence everything is kept, the occurrence is replaced, and everything after it is kept. */
  lemma {:induction false} ReplaceFirstAfter(p: string, from: char, to: char, q: string)
    requires from !in p
    ensures ReplaceFirst(p + [from] + q, from, to) == p + [to] + q
  {
    if p == [] {
      assert p + [from] + q == [from] + q;
    } else {
      assert (p + [from] + q)[1..] == p[1..] + [from] + q;
      ReplaceFirstAfter(p[1..], from, to, q);
    }
  }

  /** Each role name has one underscore, so its badge text has none left. */
  lemma NormalUserText()
    ensures RoleText(NormalUser) == "normal user"
  {
    ReplaceFirstAfter("normal", '_', ' ', "user");
    assert "normal" + "_" + "user" == "normal_user";
  }

  lemma AdminText()
    ensures RoleText(Admin) == "admin"
  {
    ReplaceFirstAbsent("admin", '_', ' ');
  }

  lemma SuperAdminText()
    ensures RoleText(SuperAdmin) == "super admin"
  {
    ReplaceFirstAfter("super", '_', ' ', "admin");
    assert "super" + "_" + "admin" == "super_admin";
  }

  /** A name with two underscores keeps the second: only the first is replaced. */
  lemma OnlyFirstUnderscore()
    ensures ReplaceFirst("a_b_c", '_', ' ') == "a b_c"
  {
    ReplaceFirstAfter("a", '_', ' ', "b_c");
    assert "a" + "_" + "b_c" == "a_b_c";
  }

  /** What the page shows the viewer. */
  datatype View = AccessDenied | Dashboard(canChangeRoles: bool)

  /** Admins and super admins see the dashboard; only super admins get the role selector. */
  function ViewFor(viewer: Option<Role>): (v: View)
    ensures v == AccessDenied <==> viewer.None? || viewer.value == NormalUser
    ensures v.Dashboard? ==> (v.canChangeRoles <==> viewer == Some(SuperAdmin))
  {
    if !HasRole(viewer, Admin) then AccessDenied
    else Dashboard(HasRole(viewer, SuperAdmin))
  }

  /** The name shown for a user: the full name, or "No Name". */
  function DisplayName(u: UserWithRole): (name: string)
    ensures name != ""
  {
    if u.fullName != "" then u.fullName else "No Name"
  }

  datatype UsersReply = UsersThrew | UsersNotOk | UsersOk(users: seq<UserWithRole>)
  datatype RoleReply = RoleThrew | RoleNotOk | RoleOk

  class AdminPage {
    var users: seq<UserWithRole>
    var loading: bool

    constructor()
      ensures users == [] && loading
    {
      users := [];
      loading := true;
    }

    /** `fetchUsers`: an ok reply replaces the list, any failure keeps it; loading ends. */
    method FetchUsers(reply: UsersReply)
      modifies this
      ensures !loading
      ensures reply.UsersOk? ==> users == reply.users
      ensures !reply.UsersOk? ==> users == old(users)
    {
      if reply.UsersOk? {
        users := reply.users;
      }
      loading := false;
    }

    /** `updateUserRole`: only a successful update reloads the list; the page's list is never edited locally. */
    method UpdateUserRole(userId: string, newRole: Role, reply: RoleReply, reload: UsersReply) returns (ok: bool)
      modifies this
      ensures ok <==> reply.RoleOk?
      ensures !ok ==> users == old(users) && loading == old(loading)
      ensures ok && reload.UsersOk? ==> users == reload.users && !loading
      ensures ok && !reload.UsersOk? ==> users == old(users) && !loading
    {
      ok := reply.RoleOk?;
      if ok {
        FetchUsers(reload);
      }
    }
  }
}
