/** Users of the `wms` tree: the three roles, adding and disabling users,
    listing them, password authentication and the role gate the commands pass
    through. Password hashing is a parameter: `AddUser` receives the hash it
    stores, and `matches(hash, password)` stands for the bcrypt comparison. */
module Auth {
  import opened Base
  import opened Text
  import Sorting

  const RoleAdmin: String := "Admin"
  const RoleWorker: String := "Worker"
  const RoleReadOnly: String := "ReadOnly"

  const MinPasswordBytes := 4

  /** The page-size rule of ListUser. */
  const MaxLimit := 500
  const DefaultLimit := 100

  datatype AuthError =
    | InvalidUsername
    | InvalidPassword
    | InvalidRole
    | UserExists
    | HashFailed      // AddUser's "hash password"
    | UserNotFound
    | UserDisabled
    | AuthFailed
    | Forbidden

  datatype User = User(username: String, passwordHash: String, role: String, active: bool)

  datatype UserView = UserView(username: String, role: String, active: bool)

  datatype Principal = Principal(username: String, role: String)

  predicate IsRole(r: String) {
    r == RoleAdmin || r == RoleWorker || r == RoleReadOnly
  }

  /** The spellings NormalizeRole accepts, after trimming and lower-casing. */
  function RoleOf(lower: String): Option<String> {
    if lower == "admin" then Some(RoleAdmin)
    else if lower == "worker" then Some(RoleWorker)
    else if lower == "readonly" || lower == "read-only" || lower == "read_only" then Some(RoleReadOnly)
    else None
  }

  lemma RoleOfIsRole(lower: String)
    ensures RoleOf(lower).Some? ==> IsRole(RoleOf(lower).value)
  {
  }

  /** `NormalizeRole`: one of the three roles, or InvalidRole. */
  function NormalizeRole(r: String): (res: Result<String, AuthError>)
    ensures res.Ok? <==> RoleOf(ToLower(TrimSpace(r))).Some?
    ensures res.Ok? ==> IsRole(res.value) && res.value == RoleOf(ToLower(TrimSpace(r))).value
    ensures res.Err? ==> res.error == InvalidRole
  {
    RoleOfIsRole(ToLower(TrimSpace(r)));
    match RoleOf(ToLower(TrimSpace(r)))
    case Some(role) => Ok(role)
    case None => Err(InvalidRole)
  }

  lemma LowerAdmin()
    ensures ToLower(RoleAdmin) == "admin"
  {
    assert LowerChar('A') == 'a';
  }

  lemma LowerWorker()
    ensures ToLower(RoleWorker) == "worker"
  {
    assert LowerChar('W') == 'w';
  }

  lemma LowerReadOnly()
    ensures ToLower(RoleReadOnly) == "readonly"
  {
    assert LowerChar('R') == 'r';
    assert LowerChar('O') == 'o';
  }

  lemma RolesTrimmed()
    ensures IsTrimmed(RoleAdmin) && IsTrimmed(RoleWorker) && IsTrimmed(RoleReadOnly)
  {
  }

  lemma AdminNormal()
    ensures RoleOf(ToLower(TrimSpace(RoleAdmin))) == Some(RoleAdmin)
  {
    RolesTrimmed();
    TrimSpaceOfTrimmed(RoleAdmin);
    LowerAdmin();
  }

  lemma WorkerNormal()
    ensures RoleOf(ToLower(TrimSpace(RoleWorker))) == Some(RoleWorker)
  {
    RolesTrimmed();
    TrimSpaceOfTrimmed(RoleWorker);
    LowerWorker();
    RoleOfWorker();
  }

  lemma RoleOfWorker()
    ensures RoleOf("worker") == Some(RoleWorker)
  {
    assert |"worker"| != |"admin"|;
  }

  lemma ReadOnlyNormal()
    ensures RoleOf(ToLower(TrimSpace(RoleReadOnly))) == Some(RoleReadOnly)
  {
    RolesTrimmed();
    TrimSpaceOfTrimmed(RoleReadOnly);
    LowerReadOnly();
    RoleOfReadOnly();
  }

  /** Lower-casing is Unicode-aware: a dotted capital I and a Kelvin sign
      lower to ASCII letters, so these spellings are accepted too. */
  lemma DottedAdmin()
    ensures NormalizeRole("ADM\U{0130}N") == Ok(RoleAdmin)
  {
    LowerSpelling("ADM\U{0130}N", "admin");
    NormalizeTrimmed("ADM\U{0130}N");
  }

  lemma KelvinWorker()
    ensures NormalizeRole("WOR\U{212A}ER") == Ok(RoleWorker)
  {
    LowerSpelling("WOR\U{212A}ER", "worker");
    RoleOfWorker();
    NormalizeTrimmed("WOR\U{212A}ER");
  }

  /** A role name without surrounding space is looked up by its lower case. */
  lemma NormalizeTrimmed(r: String)
    requires IsTrimmed(r)
    ensures RoleOf(ToLower(r)).Some? ==> NormalizeRole(r) == Ok(RoleOf(ToLower(r)).value)
  {
    TrimSpaceOfTrimmed(r);
  }

  lemma LowerSpelling(r: String, lower: String)
    requires |r| == |lower|
    requires forall k :: 0 <= k < |r| ==> LowerChar(r[k]) == lower[k]
    ensures ToLower(r) == lower
  {
  }

  lemma RoleOfReadOnly()
    ensures RoleOf("readonly") == Some(RoleReadOnly)
  {
    assert |"readonly"| != |"admin"| && |"readonly"| != |"worker"|;
  }

  /** A role NormalizeRole returned normalises to itself. */
  lemma NormalizeRoleIdempotent(r: String)
    requires NormalizeRole(r).Ok?
    ensures NormalizeRole(NormalizeRole(r).value) == NormalizeRole(r)
  {
    var role := NormalizeRole(r).value;
    if role == RoleAdmin {
      AdminNormal();
    } else if role == RoleWorker {
      WorkerNormal();
    } else {
      ReadOnlyNormal();
    }
  }

  /** The user row with this name. */
  function FindUser(users: seq<User>, name: String): (r: Option<nat>)
    ensures r.Some? ==> r.value < |users| && users[r.value].username == name
    ensures r.Some? ==> forall k :: 0 <= k < r.value ==> users[k].username != name
    ensures r.None? <==> forall k :: 0 <= k < |users| ==> users[k].username != name
  {
    Find(users, (u: User) => u.username == name)
  }

  ghost predicate UsernamesUnique(users: seq<User>) {
    forall i, j :: 0 <= i < j < |users| ==> users[i].username != users[j].username
  }

  /** Every stored row: a non-empty name, a role, and no two rows with one name. */
  ghost predicate ValidUsers(users: seq<User>) {
    UsernamesUnique(users) && forall i :: 0 <= i < |users| ==> users[i].username != [] && IsRole(users[i].role)
  }

  lemma AddKeeps(users: seq<User>, u: User)
    requires ValidUsers(users)
    requires u.username != [] && IsRole(u.role) && FindUser(users, u.username).None?
    ensures ValidUsers(users + [u])
  {
    var all := users + [u];
    assert forall i :: 0 <= i < |users| ==> all[i] == users[i];
  }

  lemma DisableKeeps(users: seq<User>, k: nat)
    requires ValidUsers(users) && k < |users|
    ensures ValidUsers(users[k := users[k].(active := false)])
  {
    var after := users[k := users[k].(active := false)];
    assert forall i :: 0 <= i < |users| ==> after[i].username == users[i].username && after[i].role == users[i].role;
  }

  /** AddUser's checks, in order: name, password length in bytes, role,
      existence, then hashing. `hash` is what bcrypt made of the trimmed
      password, or None when it refused to hash it. The new row is active and
      carries the normalised role. */
  function PlanAddUser(users: seq<User>, username: String, role: String, password: String, hash: Option<String>)
    : (r: Result<User, AuthError>)
    ensures r == Err(InvalidUsername) <==> TrimSpace(username) == []
    ensures TrimSpace(username) != [] ==>
      (r == Err(InvalidPassword) <==> ByteLen(TrimSpace(password)) < MinPasswordBytes)
    ensures TrimSpace(username) != [] && ByteLen(TrimSpace(password)) >= MinPasswordBytes ==>
      (r == Err(InvalidRole) <==> NormalizeRole(role).Err?)
    ensures r.Ok? <==>
      TrimSpace(username) != [] && ByteLen(TrimSpace(password)) >= MinPasswordBytes && NormalizeRole(role).Ok?
      && FindUser(users, TrimSpace(username)).None? && hash.Some?
    ensures r.Ok? ==> r.value == User(TrimSpace(username), hash.value, NormalizeRole(role).value, true)
    ensures (TrimSpace(username) != [] && ByteLen(TrimSpace(password)) >= MinPasswordBytes
             && NormalizeRole(role).Ok? && FindUser(users, TrimSpace(username)).Some?) ==> r == Err(UserExists)
    ensures r == Err(HashFailed) <==>
      TrimSpace(username) != [] && ByteLen(TrimSpace(password)) >= MinPasswordBytes && NormalizeRole(role).Ok?
      && FindUser(users, TrimSpace(username)).None? && hash.None?
  {
    var name := TrimSpace(username);
    if name == [] then Err(InvalidUsername)
    else if ByteLen(TrimSpace(password)) < MinPasswordBytes then Err(InvalidPassword)
    else match NormalizeRole(role)
      case Err(e) => Err(e)
      case Ok(nRole) =>
        if FindUser(users, name).Some? then Err(UserExists)
        else match hash
          case None => Err(HashFailed)
          case Some(h) => Ok(User(name, h, nRole, true))
  }

  /** `Authenticate`: blank credentials and unknown users fail alike; a
      disabled user is reported before the password is compared. */
  function Authenticate(users: seq<User>, username: String, password: String, matches: (String, String) -> bool)
    : (r: Result<Principal, AuthError>)
    ensures TrimSpace(username) == [] || TrimSpace(password) == [] ==> r == Err(AuthFailed)
    ensures FindUser(users, TrimSpace(username)).None? ==> r == Err(AuthFailed)
    ensures r == Err(UserDisabled) <==>
      TrimSpace(username) != [] && TrimSpace(password) != []
      && FindUser(users, TrimSpace(username)).Some? && !users[FindUser(users, TrimSpace(username)).value].active
    ensures r.Ok? <==>
      TrimSpace(username) != [] && TrimSpace(password) != [] && FindUser(users, TrimSpace(username)).Some?
      && users[FindUser(users, TrimSpace(username)).value].active
      && matches(users[FindUser(users, TrimSpace(username)).value].passwordHash, TrimSpace(password))
    ensures r.Ok? ==>
      r.value == Principal(TrimSpace(username), users[FindUser(users, TrimSpace(username)).value].role)
    ensures r.Err? ==> r.error == AuthFailed || r.error == UserDisabled
  {
    var name := TrimSpace(username);
    var pass := TrimSpace(password);
    if name == [] || pass == [] then Err(AuthFailed)
    else match FindUser(users, name)
      case None => Err(AuthFailed)
      case Some(k) =>
        if !users[k].active then Err(UserDisabled)
        else if !matches(users[k].passwordHash, pass) then Err(AuthFailed)
        else Ok(Principal(users[k].username, users[k].role))
  }

  /** The first row of `users + [u]` named like `u` is `u`, when no earlier row has that name. */
  lemma FindAppended(users: seq<User>, u: User)
    requires FindUser(users, u.username).None?
    ensures FindUser(users + [u], u.username) == Some(|users|)
  {
    var all := users + [u];
    var r := FindUser(all, u.username);
    forall k | 0 <= k < |users| ensures all[k].username != u.username {
      assert all[k] == users[k];
    }
    assert all[|users|] == u;
  }

  /** A user just added can log in with the password whose hash was stored,
      and gets the normalised role. */
  lemma AddedUserAuthenticates(users: seq<User>, username: String, role: String, password: String, hash: Option<String>,
                               matches: (String, String) -> bool)
    requires PlanAddUser(users, username, role, password, hash).Ok?
    requires hash.Some? && matches(hash.value, TrimSpace(password))
    ensures Authenticate(users + [PlanAddUser(users, username, role, password, hash).value], username, password, matches)
      == Ok(Principal(TrimSpace(username), NormalizeRole(role).value))
  {
    var u := PlanAddUser(users, username, role, password, hash).value;
    var name := TrimSpace(username);
    assert u == User(name, hash.value, NormalizeRole(role).value, true);
    FindAppended(users, u);
    var all := users + [u];
    assert all[|users|] == u;
    assert TrimSpace(password) != [] by {
      assert ByteLen(TrimSpace(password)) >= MinPasswordBytes;
    }
  }

  /** A disabled user is refused whatever the password. */
  lemma DisabledUserRefused(users: seq<User>, k: nat, username: String, password: String,
                            matches: (String, String) -> bool)
    requires TrimSpace(username) != [] && TrimSpace(password) != []
    requires FindUser(users, TrimSpace(username)) == Some(k)
    ensures Authenticate(users[k := users[k].(active := false)], username, password, matches) == Err(UserDisabled)
  {
    var name := TrimSpace(username);
    var after := users[k := users[k].(active := false)];
    forall i | 0 <= i < k ensures after[i].username != name {
      assert after[i] == users[i];
    }
    var r := FindUser(after, name);
    assert after[k].username == name;
    assert r.Some?;
    assert r.value <= k;
    assert r.value >= k;
  }

  /** DisableUser's checks: a blank name is invalid, an unknown one not found. */
  function PlanDisable(users: seq<User>, username: String): (r: Result<nat, AuthError>)
    ensures r == Err(InvalidUsername) <==> TrimSpace(username) == []
    ensures r == Err(UserNotFound) <==>
      TrimSpace(username) != [] && forall k :: 0 <= k < |users| ==> users[k].username != TrimSpace(username)
    ensures r.Ok? <==> TrimSpace(username) != [] && exists k :: 0 <= k < |users| && users[k].username == TrimSpace(username)
    ensures r.Ok? ==> r.value < |users| && users[r.value].username == TrimSpace(username)
  {
    var name := TrimSpace(username);
    if name == [] then Err(InvalidUsername)
    else
      var found := FindUser(users, name);
      if found.None? then Err(UserNotFound) else Ok(found.value)
  }

  const UserVar: String := "WMS_USER"
  const PassVar: String := "WMS_PASS"

  /** `CredentialsFromEnv`: the trimmed user name and password variables. */
  function Credentials(env: Env): (String, String) {
    (TrimSpace(Getenv(env, UserVar)), TrimSpace(Getenv(env, PassVar)))
  }

  function UsernameKey(u: User): String { u.username }

  function ViewOf(u: User): UserView {
    UserView(u.username, u.role, u.active)
  }

  /** Each user shown without its password hash, in order. */
  function Views(users: seq<User>): (vs: seq<UserView>)
    ensures |vs| == |users|
    ensures forall i :: 0 <= i < |users| ==> vs[i] == ViewOf(users[i])
  {
    seq(|users|, i requires 0 <= i < |users| => ViewOf(users[i]))
  }

  /** Removing a user's row removes its view. */
  lemma ViewsRemoveOne(b: seq<User>, j: nat)
    requires j < |b|
    ensures multiset(Views(b)) == multiset(Views(RemoveAt(b, j))) + multiset{ViewOf(b[j])}
  {
    assert Views(b)[..j] == Views(RemoveAt(b, j))[..j];
    assert Views(b)[j + 1..] == Views(RemoveAt(b, j))[j..];
    RemoveOne(Views(b), j);
    assert RemoveAt(Views(b), j) == Views(RemoveAt(b, j));
  }

  /** Showing the users of two permutations of one table gives permutations
      of one list of views. */
  lemma {:induction false} ViewsPermute(a: seq<User>, b: seq<User>)
    requires multiset(a) == multiset(b)
    ensures multiset(Views(a)) == multiset(Views(b))
    decreases |a|
  {
    if a == [] {
      assert |b| == |multiset(b)| == 0;
    } else {
      var x := a[0];
      assert x in multiset(b);
      var j :| 0 <= j < |b| && b[j] == x;
      var rest := RemoveAt(b, j);
      TailPermutes(a, b, j);
      ViewsPermute(a[1..], rest);
      ViewsRemoveOne(b, j);
      ViewsRemoveOne(a, 0);
      assert RemoveAt(a, 0) == a[1..];
    }
  }

  /** ListUser's rows: the users in ascending name order, at most the
      clamped limit, each shown without its password hash. */
  function UserPage(users: seq<User>, limit: int): seq<UserView> {
    var page := Take(Sorting.SortBy(users, UsernameKey), ClampLimit(limit, MaxLimit, DefaultLimit));
    seq(|page|, i requires 0 <= i < |page| => ViewOf(page[i]))
  }

  lemma UserPageSpec(users: seq<User>, limit: int)
    ensures |UserPage(users, limit)| <= ClampLimit(limit, MaxLimit, DefaultLimit)
    ensures |users| <= ClampLimit(limit, MaxLimit, DefaultLimit) ==> |UserPage(users, limit)| == |users|
    ensures forall i, j :: 0 <= i < j < |UserPage(users, limit)| ==>
      Sorting.LessEq(UserPage(users, limit)[i].username, UserPage(users, limit)[j].username)
    ensures forall v :: v in UserPage(users, limit) ==> exists k :: 0 <= k < |users| && v == ViewOf(users[k])
    ensures |users| <= ClampLimit(limit, MaxLimit, DefaultLimit) ==> multiset(UserPage(users, limit)) == multiset(Views(users))
  {
    var n := ClampLimit(limit, MaxLimit, DefaultLimit);
    var page := Take(Sorting.SortBy(users, UsernameKey), n);
    var out := UserPage(users, limit);
    Sorting.SortedPage(users, UsernameKey, n);
    if |users| <= n {
      assert out == Views(page);
      ViewsPermute(page, users);
    }
    forall v | v in out ensures exists k :: 0 <= k < |users| && v == ViewOf(users[k]) {
      var i :| 0 <= i < |out| && out[i] == v;
      assert page[i] in page;
      var k :| 0 <= k < |users| && users[k] == page[i];
    }
    forall i, j | 0 <= i < j < |out| ensures Sorting.LessEq(out[i].username, out[j].username) {
      assert UsernameKey(page[i]) == out[i].username && UsernameKey(page[j]) == out[j].username;
    }
  }

  /** The page holds the lowest usernames: a user left off it sorts no
      lower than any user on it. */
  lemma UserPageLowest(users: seq<User>, limit: int)
    ensures forall u, i :: u in users && ViewOf(u) !in UserPage(users, limit) && 0 <= i < |UserPage(users, limit)| ==>
      Sorting.LessEq(UserPage(users, limit)[i].username, u.username)
  {
    var n := ClampLimit(limit, MaxLimit, DefaultLimit);
    var page := Take(Sorting.SortBy(users, UsernameKey), n);
    var out := UserPage(users, limit);
    forall j | 0 <= j < |page| ensures ViewOf(page[j]) in out {
      assert out[j] == ViewOf(page[j]);
    }
    forall u, i | u in users && ViewOf(u) !in out && 0 <= i < |out|
      ensures Sorting.LessEq(out[i].username, u.username)
    {
      assert page[i] in page && UsernameKey(page[i]) == out[i].username;
      Sorting.PageLeast(users, UsernameKey, n, u, page[i]);
    }
  }

  /** The loop of RequireRole: is `role` one of `allowed`? */
  method RoleAllowed(role: String, allowed: seq<String>) returns (ok: bool)
    ensures ok <==> role in allowed
  {
    var i := 0;
    while i < |allowed|
      invariant 0 <= i <= |allowed|
      invariant forall k :: 0 <= k < i ==> allowed[k] != role
    {
      if role == allowed[i] {
        return true;
      }
      i := i + 1;
    }
    return false;
  }

  /** The user table of one warehouse database. */
  class AuthService {
    var users: seq<User>

    ghost predicate Valid()
      reads this
    {
      ValidUsers(users)
    }

    constructor()
      ensures Valid() && users == []
    {
      users := [];
    }

    method AddUser(username: String, role: String, password: String, hash: Option<String>)
      returns (r: Result<UserView, AuthError>)
      requires Valid()
      modifies this
      ensures Valid()
      ensures match PlanAddUser(old(users), username, role, password, hash)
        case Ok(u) => r == Ok(ViewOf(u)) && users == old(users) + [u]
        case Err(e) => r == Err(e) && users == old(users)
    {
      match PlanAddUser(users, username, role, password, hash)
      case Err(e) =>
        r := Err(e);
      case Ok(u) =>
        AddKeeps(users, u);
        users := users + [u];
        r := Ok(ViewOf(u));
    }

    method DisableUser(username: String) returns (err: Option<AuthError>)
      requires Valid()
      modifies this
      ensures Valid()
      ensures match PlanDisable(old(users), username)
        case Ok(k) => err == None && users == old(users)[k := old(users)[k].(active := false)]
        case Err(e) => err == Some(e) && users == old(users)
    {
      match PlanDisable(users, username)
      case Err(e) =>
        err := Some(e);
      case Ok(k) =>
        DisableKeeps(users, k);
        users := users[k := users[k].(active := false)];
        err := None;
    }

    method ListUser(limit: int) returns (out: seq<UserView>)
      ensures out == UserPage(users, limit)
    {
      var page := Take(Sorting.SortBy(users, UsernameKey), ClampLimit(limit, MaxLimit, DefaultLimit));
      out := [];
      var i := 0;
      while i < |page|
        invariant 0 <= i <= |page|
        invariant |out| == i
        invariant forall k :: 0 <= k < i ==> out[k] == ViewOf(page[k])
      {
        out := out + [ViewOf(page[i])];
        i := i + 1;
      }
    }

    /** `RequireRole`: authenticate with the credentials from the environment,
        then admit the principal only when its role is one of `allowed`. */
    method RequireRole(env: Env, allowed: seq<String>, matches: (String, String) -> bool)
      returns (r: Result<Principal, AuthError>)
      ensures var a := Authenticate(users, Credentials(env).0, Credentials(env).1, matches);
        (a.Err? ==> r == a)
        && (a.Ok? && a.value.role in allowed ==> r == a)
        && (a.Ok? && a.value.role !in allowed ==> r == Err(Forbidden))
    {
      var cred := Credentials(env);
      var a := Authenticate(users, cred.0, cred.1, matches);
      if a.Err? {
        return a;
      }
      var ok := RoleAllowed(a.value.role, allowed);
      r := if ok then a else Err(Forbidden);
    }
  }
}
