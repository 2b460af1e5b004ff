/** The `User` entity of the Java back end: account status, the failed-login
    lockout counter, and authorisation by role and by explicit permission. */
module UserModel {
  import opened Common

  /** Failed attempts at which the account locks. */
  const LockThreshold: int := 5

  datatype UserStatus = Active | Inactive | Locked | Expired | Suspended

  datatype UserRole = Admin | Analyst | Viewer | Manager {
    /** `name()` of the Java enum constant. */
    function Name(): string {
      match this
      case Admin => "ADMIN"
      case Analyst => "ANALYST"
      case Viewer => "VIEWER"
      case Manager => "MANAGER"
    }

    /** The permission prefixes a non-admin role grants. */
    function Prefixes(): (ps: seq<string>)
      ensures ps == [] <==> this == Admin
    {
      match this
      case Admin => []
      case Analyst => ["ALERT_", "RULE_", "DASHBOARD_"]
      case Manager => ["REPORT_", "DASHBOARD_", "AGENT_"]
      case Viewer => ["DASHBOARD_VIEW", "REPORT_VIEW"]
    }

    /** `UserRole.hasPermission`: an admin holds every permission; another
        role holds those that start with one of its prefixes. */
    predicate HasPermission(permission: string) {
      match this
      case Admin => true
      case Analyst => "ALERT_" <= permission || "RULE_" <= permission || "DASHBOARD_" <= permission
      case Manager => "REPORT_" <= permission || "DASHBOARD_" <= permission || "AGENT_" <= permission
      case Viewer => "DASHBOARD_VIEW" <= permission || "REPORT_VIEW" <= permission
    }
  }

  /** Distinct roles have distinct names, so the authority `ROLE_<name>`
      identifies the role. */
  lemma {:induction false} RoleNamesDistinct(a: UserRole, b: UserRole)
    ensures a.Name() == b.Name() <==> a == b
  {
    if a != b {
      assert a.Name()[0] != b.Name()[0] || |a.Name()| != |b.Name()|;
    }
  }

  /** The switch of `UserRole.hasPermission` read as a table: a non-admin
      role grants exactly the permissions that start with one of its
      prefixes, and an admin grants all. */
  lemma {:induction false} GrantsByPrefix(role: UserRole, permission: string)
    ensures role == Admin ==> role.HasPermission(permission)
    ensures role != Admin ==>
              (role.HasPermission(permission) <==>
               exists i | 0 <= i < |role.Prefixes()| :: role.Prefixes()[i] <= permission)
  {
    var ps := role.Prefixes();
    if role != Admin && role.HasPermission(permission) {
      if ps[0] <= permission {
        assert 0 < |ps|;
      } else if ps[1] <= permission {
        assert 1 < |ps|;
      } else {
        assert 2 < |ps| && ps[2] <= permission;
      }
    }
  }

  /** Two strings that differ at a position both reach are not prefix-related. */
  lemma NotPrefix(a: string, b: string, i: nat)
    requires i < |a| && i < |b| && a[i] != b[i]
    ensures !(a <= b)
  {
  }

  /** A prefix of a prefix is a prefix. */
  lemma {:induction false} PrefixTransitive(a: string, b: string, c: string)
    requires a <= b && b <= c
    ensures a <= c
  {
    assert c[..|b|] == b;
    assert c[..|b|][..|a|] == c[..|a|];
  }

  /** Whatever a viewer may do, a manager may do too. */
  lemma {:induction false} ViewerWithinManager(permission: string)
    requires Viewer.HasPermission(permission)
    ensures Manager.HasPermission(permission)
  {
    if "DASHBOARD_VIEW" <= permission {
      PrefixTransitive("DASHBOARD_", "DASHBOARD_VIEW", permission);
    } else {
      PrefixTransitive("REPORT_", "REPORT_VIEW", permission);
    }
  }

  /** The roles are not ordered: a viewer may view reports, an analyst may not. */
  lemma ViewerNotWithinAnalyst()
    ensures Viewer.HasPermission("REPORT_VIEW") && !Analyst.HasPermission("REPORT_VIEW")
  {
    NotPrefix("ALERT_", "REPORT_VIEW", 0);
    NotPrefix("RULE_", "REPORT_VIEW", 1);
    NotPrefix("DASHBOARD_", "REPORT_VIEW", 0);
  }

  /** `Character.isWhitespace`: the Unicode space, line and paragraph
      separators other than the no-break spaces U+00A0, U+2007 and U+202F,
      together with the controls U+0009 to U+000D and U+001C to U+001F. */
  predicate IsJavaWhitespace(c: char) {
    || '\U{9}' <= c <= '\U{D}' || '\U{1C}' <= c <= '\U{20}'
    || c == '\U{1680}' || '\U{2000}' <= c <= '\U{2006}' || '\U{2008}' <= c <= '\U{200A}'
    || c == '\U{2028}' || c == '\U{2029}' || c == '\U{205F}' || c == '\U{3000}'
  }

  /** Spring's `StringUtils.hasText`: some character is not whitespace. */
  predicate HasText(s: string) {
    exists i | 0 <= i < |s| :: !IsJavaWhitespace(s[i])
  }

  /** The role authority `ROLE_<name>` always has text. */
  lemma RoleAuthorityHasText(role: UserRole)
    ensures HasText("ROLE_" + role.Name())
  {
    assert !IsJavaWhitespace(("ROLE_" + role.Name())[0]);
  }

  /** After `addPermission("")` or `addPermission(" ")`, `getAuthorities` throws. */
  lemma {:induction false} BlankPermissionThrows(u: User)
    requires "" in u.permissions || " " in u.permissions
    ensures u.Authorities() == Err(IllegalArgument)
  {
    if "" in u.permissions {
      assert !HasText("");
    } else {
      assert !HasText(" ");
    }
  }

  /** The failed-login part of a user's state. */
  datatype LoginState = LoginState(failedLoginAttempts: Int32, accountLocked: bool)

  /** `incrementFailedLoginAttempts` on that state: a Java `int` increment,
      and the lock is set once the counter is at least 5. */
  function RecordFailure(s: LoginState): (r: LoginState)
    ensures INT32_MIN <= s.failedLoginAttempts < INT32_MAX ==>
              r.failedLoginAttempts == s.failedLoginAttempts + 1
    ensures s.accountLocked ==> r.accountLocked
    ensures r.accountLocked <==> s.accountLocked || r.failedLoginAttempts >= LockThreshold
  {
    var n := Wrap32(s.failedLoginAttempts + 1);
    LoginState(n, s.accountLocked || n >= LockThreshold)
  }

  /** `n` consecutive failures. */
  function Failures(s: LoginState, n: nat): LoginState {
    if n == 0 then s else RecordFailure(Failures(s, n - 1))
  }

  /** From a reset state, `n` failures leave the counter at `n`, and the
      account is locked exactly when `n >= 5`. */
  lemma {:induction false} FailuresFromReset(n: nat)
    requires n <= INT32_MAX
    ensures Failures(LoginState(0, false), n).failedLoginAttempts == n
    ensures Failures(LoginState(0, false), n).accountLocked <==> n >= LockThreshold
  {
    if n > 0 {
      FailuresFromReset(n - 1);
    }
  }

  /** The counter is a Java `int`: one failure past 2^31 - 1 wraps it to a
      negative value, and the lock, once set, stays. */
  lemma CounterWraps()
    ensures RecordFailure(LoginState(INT32_MAX, true)) == LoginState(INT32_MIN, true)
  {
  }

  class User {
    var username: string
    var password: string
    var firstName: string
    var lastName: string
    var email: string
    var status: UserStatus
    var role: UserRole
    var lastLogin: Option<int>
    var failedLoginAttempts: Int32
    var accountLocked: bool
    var active: bool
    var permissions: set<string>

    /** The five-argument constructor; every other field takes its default. */
    constructor (username: string, password: string, firstName: string,
                 lastName: string, email: string)
      ensures this.username == username && this.password == password
      ensures this.firstName == firstName && this.lastName == lastName && this.email == email
      ensures status == Active && role == Analyst && lastLogin == None
      ensures failedLoginAttempts == 0 && !accountLocked && active && permissions == {}
    {
      this.username := username;
      this.password := password;
      this.firstName := firstName;
      this.lastName := lastName;
      this.email := email;
      status := Active;
      role := Analyst;
      lastLogin := None;
      failedLoginAttempts := 0;
      accountLocked := false;
      active := true;
      permissions := {};
    }

    function Login(): LoginState
      reads this
    {
      LoginState(failedLoginAttempts, accountLocked)
    }

    /** `isAccountNonExpired`. */
    predicate IsAccountNonExpired()
      reads this
    {
      status != Expired
    }

    /** `isAccountNonLocked`. */
    predicate IsAccountNonLocked()
      reads this
    {
      !accountLocked && status != Locked
    }

    /** `isEnabled`. */
    predicate IsEnabled()
      reads this
      ensures IsEnabled() ==> IsAccountNonExpired() && status != Locked
    {
      active && status == Active
    }

    /** `hasPermission`: an explicit permission, or one the role grants. */
    predicate HasPermission(permission: string)
      reads this
      ensures permission in permissions ==> HasPermission(permission)
      ensures role == Admin ==> HasPermission(permission)
    {
      permission in permissions || role.HasPermission(permission)
    }

    /** `getAuthorities`: the role authority and every explicit permission,
        each wrapped in a `SimpleGrantedAuthority`, whose constructor throws
        `IllegalArgumentException` for a blank text. The role authority is
        never blank, so it fails exactly when an explicit permission is. */
    function Authorities(): (r: Result<set<string>>)
      reads this
      ensures r.Err? <==> exists p | p in permissions :: !HasText(p)
      ensures r.Err? ==> r.error == IllegalArgument
      ensures r.Ok? ==> "ROLE_" + role.Name() in r.value && permissions <= r.value
      ensures r.Ok? ==> forall x | x in r.value :: x in permissions || x == "ROLE_" + role.Name()
    {
      RoleAuthorityHasText(role);
      if exists p | p in permissions :: !HasText(p) then Err(IllegalArgument)
      else Ok({"ROLE_" + role.Name()} + permissions)
    }

    method IncrementFailedLoginAttempts()
      modifies this`failedLoginAttempts, this`accountLocked
      ensures Login() == RecordFailure(old(Login()))
    {
      failedLoginAttempts := Wrap32(failedLoginAttempts + 1);
      if failedLoginAttempts >= LockThreshold {
        accountLocked := true;
      }
    }

    method ResetFailedLoginAttempts()
      modifies this`failedLoginAttempts, this`accountLocked
      ensures failedLoginAttempts == 0 && !accountLocked
    {
      failedLoginAttempts := 0;
      accountLocked := false;
    }

    /** `updateLastLogin`: record the time and reset the lockout state. */
    method UpdateLastLogin(now: int)
      modifies this`lastLogin, this`failedLoginAttempts, this`accountLocked
      ensures lastLogin == Some(now) && failedLoginAttempts == 0 && !accountLocked
    {
      lastLogin := Some(now);
      ResetFailedLoginAttempts();
    }

    method AddPermission(permission: string)
      modifies this`permissions
      ensures permissions == old(permissions) + {permission}
      ensures HasPermission(permission)
    {
      permissions := permissions + {permission};
    }

    /** Removes an explicit permission; a permission the role grants remains. */
    method RemovePermission(permission: string)
      modifies this`permissions
      ensures permissions == old(permissions) - {permission}
      ensures HasPermission(permission) == role.HasPermission(permission)
    {
      permissions := permissions - {permission};
    }
  }
}
