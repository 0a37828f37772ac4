/**
 * `UserDb`: users and their roles. On disk a user is the directory
 * `data/users/<id>` and its roles the JSON array in `roles.json` inside it;
 * here the directory tree is a map from user id to the roles record, which
 * is absent until the first role is written. Key generation at creation is
 * shell-invoked PKI and is not part of this model.
 */
module UserDb {
  import opened Wrappers
  import opened Errors
  import Throw

  datatype Db = Db(users: map<string, Option<seq<string>>>)

  /** The request body of a user creation; `id` may be missing. */
  datatype User = User(id: Option<string>)

  const USER_NOT_FOUND := Error(NotFoundError, "User not found")
  const USER_EXISTS := Error(ConflictError, "User exists")
  const ROLE_HELD := Error(ConflictError, "User already has role")
  const ROLE_NOT_HELD := Error(NotFoundError, "User does not have role")
  /** `writeFile` into a user directory that does not exist. */
  const WRITE_FAILED := Error(PlainError, "ENOENT: no such file or directory")

  predicate Distinct(s: seq<string>) {
    forall i, j :: 0 <= i < j < |s| ==> s[i] != s[j]
  }

  /** Every roles record is duplicate-free. */
  ghost predicate Valid(db: Db) {
    forall id :: id in db.users && db.users[id].Some? ==> Distinct(db.users[id].value)
  }

  /** `throwIfEmpty(s, name)` on a string argument. */
  function Check(s: string, name: string): (r: Outcome<Error>)
    ensures r.Fail? <==> s == ""
    ensures r.Fail? ==> r.error == Throw.MissingInput(name)
  {
    Throw.ThrowIfEmpty(Throw.Str(s), name)
  }

  /** `roles.indexOf(x)`. */
  function IndexOf(s: seq<string>, x: string): (r: int)
    ensures -1 <= r < |s|
    ensures r == -1 <==> x !in s
    ensures r >= 0 ==> s[r] == x && x !in s[..r]
  {
    if s == [] then -1
    else if s[0] == x then 0
    else
      var i := IndexOf(s[1..], x);
      if i == -1 then -1
      else
        assert s[..i + 1] == [s[0]] + s[1..][..i];
        i + 1
  }

  /** `get(id)`: resolves to `true` or rejects. */
  function Get(db: Db, id: string): (r: Result<bool, Error>)
    ensures r.Ok? <==> id != "" && id in db.users
    ensures r.Ok? ==> r.value
    ensures id == "" ==> r == Err(Throw.MissingInput("id"))
    ensures id != "" && id !in db.users ==> r == Err(USER_NOT_FOUND)
  {
    var checked := Check(id, "id");
    if checked.Fail? then Err(checked.error)
    else if id in db.users then Ok(true) else Err(USER_NOT_FOUND)
  }

  /** `create(user)`: a new user starts without a roles record. */
  function Create(db: Db, user: Option<User>): (r: Result<Db, Error>)
    ensures user.None? ==> r == Err(Throw.MissingInput("User"))
    ensures user.Some? && Throw.OfString(user.value.id) in {Throw.Undefined, Throw.Str("")} ==> r == Err(Throw.MissingInput("user.id"))
    ensures r.Ok? <==> user.Some? && user.value.id.Some? && user.value.id.value != "" && user.value.id.value !in db.users
    ensures r.Ok? ==> r.value.users.Keys == db.users.Keys + {user.value.id.value}
    ensures user.Some? && user.value.id.Some? && user.value.id.value != "" && user.value.id.value in db.users
      ==> r == Err(USER_EXISTS)
    ensures r.Ok? ==> r.value.users[user.value.id.value].None?
    ensures r.Ok? ==> forall u :: u in db.users ==> r.value.users[u] == db.users[u]
  {
    var userChecked := Throw.ThrowIfEmpty(if user.None? then Throw.Undefined else Throw.Object, "User");
    if userChecked.Fail? then Err(userChecked.error)
    else
      var idChecked := Throw.ThrowIfEmpty(Throw.OfString(user.value.id), "user.id");
      if idChecked.Fail? then Err(idChecked.error)
      else
        var id := user.value.id.value;
        if id in db.users then Err(USER_EXISTS) else Ok(Db(db.users[id := None]))
  }

  /** `remove(id)`. */
  function Remove(db: Db, id: string): (r: Result<Db, Error>)
    ensures id == "" ==> r == Err(Throw.MissingInput("id"))
    ensures id != "" && id !in db.users ==> r == Err(USER_NOT_FOUND)
    ensures r.Ok? <==> id != "" && id in db.users
    ensures r.Ok? ==> r.value.users.Keys == db.users.Keys - {id}
    ensures r.Ok? ==> forall u :: u in r.value.users ==> r.value.users[u] == db.users[u]
  {
    var checked := Check(id, "id");
    if checked.Fail? then Err(checked.error)
    else if id in db.users then Ok(Db(db.users - {id})) else Err(USER_NOT_FOUND)
  }

  /** `roles(id)`: a missing roles record (or user) reads as no roles. */
  function Roles(db: Db, id: string): (r: Result<seq<string>, Error>)
    ensures id == "" ==> r == Err(Throw.MissingInput("id"))
    ensures id != "" ==> r.Ok?
    ensures id != "" && (id !in db.users || db.users[id].None?) ==> r.value == []
    ensures id != "" && id in db.users && db.users[id].Some? ==> r.value == db.users[id].value
  {
    var checked := Check(id, "id");
    if checked.Fail? then Err(checked.error)
    else if id in db.users && db.users[id].Some? then Ok(db.users[id].value) else Ok([])
  }

  /** `addRole(id, role)`. */
  function AddRole(db: Db, id: string, role: string): (r: Result<Db, Error>)
    ensures id == "" ==> r == Err(Throw.MissingInput("id"))
    ensures id != "" && role == "" ==> r == Err(Throw.MissingInput("role"))
    ensures id != "" && role != "" && role in Roles(db, id).value ==> r == Err(ROLE_HELD)
    ensures r.Ok? <==> id != "" && role != "" && id in db.users && role !in Roles(db, id).value
    ensures r.Ok? ==> Roles(r.value, id) == Ok(Roles(db, id).value + [role])
    ensures r.Ok? ==> r.value.users.Keys == db.users.Keys
    ensures r.Ok? ==> forall u :: u != id ==> Roles(r.value, u) == Roles(db, u)
  {
    var idChecked, roleChecked := Check(id, "id"), Check(role, "role");
    if idChecked.Fail? then Err(idChecked.error)
    else if roleChecked.Fail? then Err(roleChecked.error)
    else
      var roles := Roles(db, id).value;
      if role in roles then Err(ROLE_HELD)
      else if id !in db.users then Err(WRITE_FAILED)
      else Ok(Db(db.users[id := Some(roles + [role])]))
  }

  /** `removeRole(id, role)`: splices out the first occurrence. */
  function RemoveRole(db: Db, id: string, role: string): (r: Result<Db, Error>)
    ensures id == "" ==> r == Err(Throw.MissingInput("id"))
    ensures id != "" && role == "" ==> r == Err(Throw.MissingInput("role"))
    ensures id != "" && role != "" && role !in Roles(db, id).value ==> r == Err(ROLE_NOT_HELD)
    ensures r.Ok? <==> id != "" && role != "" && role in Roles(db, id).value
    ensures r.Ok? ==> id in db.users && r.value.users.Keys == db.users.Keys
    ensures r.Ok? ==> forall u :: u != id ==> Roles(r.value, u) == Roles(db, u)
  {
    var idChecked, roleChecked := Check(id, "id"), Check(role, "role");
    if idChecked.Fail? then Err(idChecked.error)
    else if roleChecked.Fail? then Err(roleChecked.error)
    else
      var roles := Roles(db, id).value;
      var i := IndexOf(roles, role);
      if i == -1 then Err(ROLE_NOT_HELD)
      else Ok(Db(db.users[id := Some(roles[..i] + roles[i + 1..])]))
  }

  /** What a successful `removeRole` leaves: the roles before and after the first occurrence, in order. */
  lemma RemoveRoleRoles(db: Db, id: string, role: string)
    requires RemoveRole(db, id, role).Ok?
    ensures var before := Roles(db, id).value;
      var after := Roles(RemoveRole(db, id, role).value, id).value;
      exists i :: 0 <= i < |before| && before[i] == role && role !in before[..i]
        && after == before[..i] + before[i + 1..]
  {
    var before := Roles(db, id).value;
    var i := IndexOf(before, role);
    assert 0 <= i < |before| && before[i] == role && role !in before[..i];
  }

  /** Exactly one occurrence goes: the multiset of roles loses one copy of `role`. */
  lemma RemoveRoleMultiset(db: Db, id: string, role: string)
    requires RemoveRole(db, id, role).Ok?
    ensures multiset(Roles(RemoveRole(db, id, role).value, id).value) + multiset{role}
      == multiset(Roles(db, id).value)
  {
    var before := Roles(db, id).value;
    var i := IndexOf(before, role);
    assert before == before[..i] + [role] + before[i + 1..];
  }

  lemma {:induction false} DistinctSnoc(s: seq<string>, x: string)
    requires Distinct(s) && x !in s
    ensures Distinct(s + [x])
  {
    forall i, j | 0 <= i < j < |s + [x]|
      ensures (s + [x])[i] != (s + [x])[j]
    {
      if j == |s| {
        assert (s + [x])[i] == s[i] && s[i] in s;
      }
    }
  }

  lemma {:induction false} DistinctSplice(s: seq<string>, i: nat)
    requires Distinct(s) && i < |s|
    ensures Distinct(s[..i] + s[i + 1..])
    ensures s[i] !in s[..i] + s[i + 1..]
  {
    var t := s[..i] + s[i + 1..];
    assert forall k :: 0 <= k < |t| ==> t[k] == if k < i then s[k] else s[k + 1];
    forall a, b | 0 <= a < b < |t|
      ensures t[a] != t[b]
    {
      var a', b' := if a < i then a else a + 1, if b < i then b else b + 1;
      assert a' < b' && t[a] == s[a'] && t[b] == s[b'];
    }
  }

  /** `addRole` keeps every roles list duplicate-free. */
  lemma AddRoleValid(db: Db, id: string, role: string)
    requires Valid(db) && AddRole(db, id, role).Ok?
    ensures Valid(AddRole(db, id, role).value)
  {
    var roles := Roles(db, id).value;
    DistinctSnoc(roles, role);
    var r := AddRole(db, id, role).value;
    forall u | u in r.users && r.users[u].Some?
      ensures Distinct(r.users[u].value)
    {
      if u != id {
        assert r.users[u] == db.users[u];
      }
    }
  }

  /** `removeRole` keeps every roles list duplicate-free, and on such a list the role is gone afterwards. */
  lemma RemoveRoleValid(db: Db, id: string, role: string)
    requires Valid(db) && RemoveRole(db, id, role).Ok?
    ensures Valid(RemoveRole(db, id, role).value)
    ensures role !in Roles(RemoveRole(db, id, role).value, id).value
  {
    var roles := Roles(db, id).value;
    var i := IndexOf(roles, role);
    DistinctSplice(roles, i);
    var r := RemoveRole(db, id, role).value;
    forall u | u in r.users && r.users[u].Some?
      ensures Distinct(r.users[u].value)
    {
      if u != id {
        assert r.users[u] == db.users[u];
      }
    }
  }

  /** Granting a role the user lacks and then revoking it restores the roles. */
  lemma AddThenRemoveRole(db: Db, id: string, role: string)
    requires AddRole(db, id, role).Ok?
    ensures RemoveRole(AddRole(db, id, role).value, id, role).Ok?
    ensures Roles(RemoveRole(AddRole(db, id, role).value, id, role).value, id) == Roles(db, id)
  {
    var roles := Roles(db, id).value;
    var db1 := AddRole(db, id, role).value;
    var grown := roles + [role];
    assert Roles(db1, id).value == grown;
    assert grown[|roles|] == role && grown[..|roles|] == roles;
    assert IndexOf(grown, role) == |roles|;
    assert grown[..|roles|] + grown[|roles| + 1..] == roles;
  }

  /** A created user exists and has no roles. */
  lemma CreateThenGet(db: Db, user: Option<User>)
    requires Create(db, user).Ok?
    ensures Get(Create(db, user).value, user.value.id.value) == Ok(true)
    ensures Roles(Create(db, user).value, user.value.id.value) == Ok([])
    ensures Create(Create(db, user).value, user) == Err(USER_EXISTS)
  {
  }

  /** A removed user is gone, and removing it again reports it missing. */
  lemma RemoveThenGet(db: Db, id: string)
    requires Remove(db, id).Ok?
    ensures Get(Remove(db, id).value, id) == Err(USER_NOT_FOUND)
    ensures Remove(Remove(db, id).value, id) == Err(USER_NOT_FOUND)
  {
  }

  /** Creating a user and removing it again restores the store. */
  lemma CreateThenRemove(db: Db, id: string)
    requires Create(db, Some(User(Some(id)))).Ok?
    ensures Remove(Create(db, Some(User(Some(id)))).value, id) == Ok(db)
  {
    assert Create(db, Some(User(Some(id)))).value.users - {id} == db.users;
  }
}
