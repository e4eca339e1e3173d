/**
 * The bundled user registry: the `User` record and its `update`, the
 * in-memory repository (a dict from id to user object, with a lazily created
 * shared instance), the duplicate-email rule and the user management
 * service. Stored users are objects: the service hands out the very object
 * the repository holds, and `update_user` / `deactivate_user` change it in
 * place. Ids (`uuid4()`) and clock readings (`datetime.utcnow()`) are
 * parameters.
 */
module UserRegistry {
  import opened Wrappers
  import OrderedDict

  /** A user id, in its text form. */
  type UserId = string

  /** A clock reading. */
  type Timestamp = int

  /** The fields of one user, as a value. */
  datatype Profile = Profile(id: UserId, name: string, email: string, createdAt: Timestamp,
                             updatedAt: Timestamp, isActive: bool)

  /** One keyword argument of `User.update`: an attribute with the value passed for it
      (`None` when the caller passed `None`), or a name that is no attribute of a user. */
  datatype Assignment =
    | SetName(name: Option<string>)
    | SetEmail(email: Option<string>)
    | SetActive(active: Option<bool>)
    | NoSuchField(field: string)

  /** The fields after the `setattr` loop of `update` over `kwargs`: an attribute whose
      value is not `None` takes it, anything else is skipped. */
  function Assigned(p: Profile, kwargs: seq<Assignment>): Profile
    decreases |kwargs|
  {
    if |kwargs| == 0 then p
    else
      var q := Assigned(p, kwargs[..|kwargs| - 1]);
      match kwargs[|kwargs| - 1]
      case SetName(Some(n)) => q.(name := n)
      case SetEmail(Some(e)) => q.(email := e)
      case SetActive(Some(b)) => q.(isActive := b)
      case _ => q
  }

  /** The loop never touches the id or the timestamps. */
  lemma {:induction false} AssignedKeepsIdentity(p: Profile, kwargs: seq<Assignment>)
    ensures Assigned(p, kwargs).id == p.id
    ensures Assigned(p, kwargs).createdAt == p.createdAt && Assigned(p, kwargs).updatedAt == p.updatedAt
    decreases |kwargs|
  {
    if |kwargs| > 0 {
      AssignedKeepsIdentity(p, kwargs[..|kwargs| - 1]);
    }
  }

  /** Arguments that are all `None` or unknown change nothing. */
  lemma {:induction false} AssignedNothing(p: Profile, kwargs: seq<Assignment>)
    requires forall k :: 0 <= k < |kwargs| ==>
      !(kwargs[k].SetName? && kwargs[k].name.Some?) && !(kwargs[k].SetEmail? && kwargs[k].email.Some?)
      && !(kwargs[k].SetActive? && kwargs[k].active.Some?)
    ensures Assigned(p, kwargs) == p
    decreases |kwargs|
  {
    if |kwargs| > 0 {
      AssignedNothing(p, kwargs[..|kwargs| - 1]);
    }
  }

  /** The arguments `update_user` passes. */
  function ServiceArguments(name: Option<string>, email: Option<string>, isActive: Option<bool>): seq<Assignment> {
    [SetName(name), SetEmail(email), SetActive(isActive)]
  }

  /** A `None` argument keeps its field and any other value, `False` included, replaces it. */
  lemma ServiceAssignment(p: Profile, name: Option<string>, email: Option<string>, isActive: Option<bool>)
    ensures Assigned(p, ServiceArguments(name, email, isActive))
         == p.(name := name.GetOr(p.name), email := email.GetOr(p.email), isActive := isActive.GetOr(p.isActive))
  {
    var kw := ServiceArguments(name, email, isActive);
    assert kw[..1][..0] == [] && kw[..2][..1] == kw[..1] && kw[..3] == kw;
    var p1 := Assigned(p, kw[..1]);
    assert p1 == p.(name := name.GetOr(p.name)) by {
      assert Assigned(p, kw[..1][..0]) == p;
    }
    var p2 := Assigned(p, kw[..2]);
    assert p2 == p1.(email := email.GetOr(p.email));
  }

  class User {
    const id: UserId
    var name: string
    var email: string
    const createdAt: Timestamp
    var updatedAt: Timestamp
    var isActive: bool

    function Fields(): Profile
      reads this
    {
      Profile(id, name, email, createdAt, updatedAt, isActive)
    }

    /** `User(name=..., email=...)`, with the generated id and the clock reading as parameters. */
    constructor(id: UserId, name: string, email: string, now: Timestamp)
      ensures Fields() == Profile(id, name, email, now, now, true)
    {
      this.id := id;
      this.name := name;
      this.email := email;
      createdAt := now;
      updatedAt := now;
      isActive := true;
    }

    /** `update(**kwargs)`: the assignments, then `updated_at` refreshed on every call. */
    method Update(kwargs: seq<Assignment>, now: Timestamp)
      modifies this
      ensures Fields() == Assigned(old(Fields()), kwargs).(updatedAt := now)
    {
      for k := 0 to |kwargs|
        invariant Fields() == Assigned(old(Fields()), kwargs[..k])
      {
        assert kwargs[..k + 1][..k] == kwargs[..k];
        match kwargs[k] {
          case SetName(Some(n)) => name := n;
          case SetEmail(Some(e)) => email := e;
          case SetActive(Some(b)) => isActive := b;
          case _ =>
        }
      }
      assert kwargs[..|kwargs|] == kwargs;
      updatedAt := now;
    }
  }

  /** The fields of each user of `us`, in order. */
  function ProfilesOf(us: seq<User>): (ps: seq<Profile>)
    reads us
    ensures |ps| == |us| && forall i :: 0 <= i < |us| ==> ps[i] == us[i].Fields()
  {
    if |us| == 0 then [] else ProfilesOf(us[..|us| - 1]) + [us[|us| - 1].Fields()]
  }

  /** No two users share an email. */
  predicate UniqueEmails(ps: seq<Profile>) {
    forall i, j :: 0 <= i < j < |ps| ==> ps[i].email != ps[j].email
  }

  /** `validate_new_user_data`: only the emails are compared. */
  function ValidateNewUserData(user: Profile, existing: seq<Profile>): Outcome<string> {
    if exists u :: u in existing && u.email == user.email then Fail("User with email already exists") else Pass
  }

  /** The rule refuses a user iff its email is taken, whatever its name and id. */
  lemma ValidateRefusesTakenEmail(user: Profile, existing: seq<Profile>)
    ensures ValidateNewUserData(user, existing).Fail? <==> exists i :: 0 <= i < |existing| && existing[i].email == user.email
    ensures forall other: Profile :: other.email == user.email ==> ValidateNewUserData(other, existing) == ValidateNewUserData(user, existing)
  {
    if exists u :: u in existing && u.email == user.email {
      var u :| u in existing && u.email == user.email;
      var i :| 0 <= i < |existing| && existing[i] == u;
    }
  }

  /** A new user added to emails that are unique, and that does not share one, keeps them unique. */
  lemma AddKeepsUnique(ps: seq<Profile>, k: nat, p: Profile)
    requires UniqueEmails(ps) && k <= |ps|
    requires forall i :: 0 <= i < |ps| ==> ps[i].email != p.email
    ensures UniqueEmails(if k < |ps| then ps[k := p] else ps + [p])
  {
  }

  /** The user objects of a dict, in its order. */
  function UsersOf(d: OrderedDict.Dict<User>): (us: seq<User>)
    ensures |us| == |d| && forall i :: 0 <= i < |d| ==> us[i] == d[i].1
  {
    seq(|d|, i requires 0 <= i < |d| => d[i].1)
  }

  /** Filing a user under its id replaces the fields at its old position or appends them. */
  lemma PutProfiles(d: OrderedDict.Dict<User>, user: User)
    ensures ProfilesOf(UsersOf(OrderedDict.Put(d, user.id, user)))
         == match OrderedDict.Find(d, user.id)
            case Some(k) => ProfilesOf(UsersOf(d))[k := user.Fields()]
            case None => ProfilesOf(UsersOf(d)) + [user.Fields()]
  {
  }

  /** Filing a user whose email nobody has keeps the emails unique. */
  lemma PutKeepsUnique(d: OrderedDict.Dict<User>, user: User)
    requires UniqueEmails(ProfilesOf(UsersOf(d)))
    requires forall i :: 0 <= i < |d| ==> d[i].1.email != user.email
    ensures UniqueEmails(ProfilesOf(UsersOf(OrderedDict.Put(d, user.id, user))))
  {
    PutProfiles(d, user);
    var ps := ProfilesOf(UsersOf(d));
    match OrderedDict.Find(d, user.id)
    case Some(k) => AddKeepsUnique(ps, k, user.Fields());
    case None => AddKeepsUnique(ps, |ps|, user.Fields());
  }

  class InMemoryUserRepository {
    var users: OrderedDict.Dict<User>

    /** Every user is filed under its own id, once. */
    ghost predicate Valid()
      reads this
    {
      && OrderedDict.DistinctKeys(users)
      && forall i :: 0 <= i < |users| ==> users[i].0 == users[i].1.id
    }

    constructor()
      ensures Valid() && users == []
    {
      users := [];
    }

    /** `list_all`: the stored users, in insertion order. */
    function ListAll(): (us: seq<User>)
      reads this
      ensures us == UsersOf(users)
    {
      UsersOf(users)
    }

    ghost function Objects(): set<User>
      reads this
    {
      set u | u in ListAll()
    }

    /** `get_by_id`. */
    function GetById(id: UserId): Option<User>
      reads this
    {
      OrderedDict.Get(users, id)
    }

    /** `add`: the user is filed under its id, replacing whatever was there. */
    method Add(user: User)
      requires Valid()
      modifies this
      ensures Valid()
      ensures users == OrderedDict.Put(old(users), user.id, user)
      ensures GetById(user.id) == Some(user)
      ensures forall id :: id != user.id ==> GetById(id) == old(GetById(id))
    {
      var before := users;
      OrderedDict.PutDistinct(users, user.id, user);
      OrderedDict.PutGet(users, user.id, user);
      forall id | id != user.id
        ensures OrderedDict.Get(OrderedDict.Put(before, user.id, user), id) == OrderedDict.Get(before, id)
      {
        OrderedDict.PutOther(before, user.id, user, id);
      }
      users := OrderedDict.Put(users, user.id, user);
    }
  }

  /** What `list_all` returns is exactly what `get_by_id` finds, one user per id. */
  lemma ListAllIsStored(repo: InMemoryUserRepository)
    requires repo.Valid()
    ensures forall u :: u in repo.ListAll() <==> repo.GetById(u.id) == Some(u)
    ensures forall i, j :: 0 <= i < j < |repo.ListAll()| ==> repo.ListAll()[i].id != repo.ListAll()[j].id
  {
    forall u | u in repo.ListAll()
      ensures repo.GetById(u.id) == Some(u)
    {
      var i :| 0 <= i < |repo.users| && repo.users[i].1 == u;
      assert OrderedDict.Find(repo.users, u.id) == Some(i);
    }
    forall u: User | repo.GetById(u.id) == Some(u)
      ensures u in repo.ListAll()
    {
      var i := OrderedDict.Find(repo.users, u.id).value;
      assert repo.ListAll()[i] == u;
    }
  }

  /** The class attribute `_instance` of `InMemoryUserRepository`. */
  class SharedRepository {
    var instance: Option<InMemoryUserRepository>

    constructor()
      ensures instance == None
    {
      instance := None;
    }

    /** `get_instance`: created empty on the first call, the same object on every later one. */
    method GetInstance() returns (repo: InMemoryUserRepository)
      modifies this
      ensures instance == Some(repo)
      ensures old(instance).Some? ==> repo == old(instance).value
      ensures old(instance).None? ==> fresh(repo) && repo.Valid() && repo.users == []
    {
      if instance.None? {
        var created := new InMemoryUserRepository();
        instance := Some(created);
      }
      repo := instance.value;
    }
  }

  datatype Error = ValueError(message: string) | NotFound(resource: string, key: string) | Conflict(message: string)

  class UserManagementService {
    const repo: InMemoryUserRepository

    constructor(repo: InMemoryUserRepository)
      ensures this.repo == repo
    {
      this.repo := repo;
    }

    /** The fields of every stored user. */
    function Stored(): seq<Profile>
      reads repo, repo.Objects()
    {
      ProfilesOf(repo.ListAll())
    }

    /** `create_user`: refused when the email is taken, otherwise filed and returned. */
    method CreateUser(user: User) returns (r: Result<User, Error>)
      requires repo.Valid()
      modifies repo
      ensures repo.Valid()
      ensures r.Failure? <==> exists i :: 0 <= i < |old(Stored())| && old(Stored())[i].email == user.email
      ensures r.Failure? ==> r.error == ValueError("User with email already exists") && repo.users == old(repo.users)
      ensures r.Success? ==> r.value == user && repo.users == OrderedDict.Put(old(repo.users), user.id, user)
      ensures r.Success? && UniqueEmails(old(Stored())) ==> UniqueEmails(Stored())
    {
      var existing := repo.ListAll();
      var profiles := ProfilesOf(existing);
      assert profiles == Stored();
      var verdict := ValidateNewUserData(user.Fields(), profiles);
      ValidateRefusesTakenEmail(user.Fields(), profiles);
      if verdict.Fail? {
        return Failure(ValueError(verdict.error));
      }
      assert forall i :: 0 <= i < |repo.users| ==> repo.users[i].1.email != user.email by {
        assert forall i :: 0 <= i < |repo.users| ==> profiles[i].email == repo.users[i].1.email;
      }
      ghost var filed := ProfilesOf(UsersOf(OrderedDict.Put(repo.users, user.id, user)));
      if UniqueEmails(profiles) {
        PutKeepsUnique(repo.users, user);
      }
      repo.Add(user);
      assert Stored() == filed;
      r := Success(user);
    }

    /** `get_user`. */
    function GetUser(id: UserId): (r: Result<User, Error>)
      reads repo
      ensures r.Failure? <==> repo.GetById(id).None?
      ensures r.Failure? ==> r.error == NotFound("User", id)
      ensures r.Success? ==> repo.GetById(id) == Some(r.value)
    {
      match repo.GetById(id)
      case None => Failure(NotFound("User", id))
      case Some(u) => Success(u)
    }

    /** The stored fields after the user at position `k` was updated with `kwargs` at `now`. */
    static function Revised(ps: seq<Profile>, k: nat, kwargs: seq<Assignment>, now: Timestamp): seq<Profile>
      requires k < |ps|
    {
      ps[k := Assigned(ps[k], kwargs).(updatedAt := now)]
    }

    /** `update` on the stored user at position `k`: only that user's fields change. */
    method UpdateStored(k: nat, kwargs: seq<Assignment>, now: Timestamp) returns (user: User)
      requires repo.Valid() && k < |repo.users|
      modifies repo.Objects()
      ensures user == repo.users[k].1
      ensures Stored() == Revised(old(Stored()), k, kwargs, now)
    {
      user := repo.users[k].1;
      assert repo.ListAll()[k] == user;
      ghost var before := Stored();
      user.Update(kwargs, now);
      forall i | 0 <= i < |repo.users| && i != k
        ensures repo.users[i].1 != user
      {
        assert repo.users[i].0 != repo.users[k].0;
      }
      assert Stored() == Revised(before, k, kwargs, now);
    }

    /** `update_user` as written: no check that a new email is free. */
    method UpdateUser(id: UserId, name: Option<string>, email: Option<string>, isActive: Option<bool>, now: Timestamp)
      returns (r: Result<User, Error>)
      requires repo.Valid()
      modifies repo.Objects()
      ensures repo.users == old(repo.users)
      ensures r.Failure? <==> old(repo.GetById(id)).None?
      ensures r.Failure? ==> r.error == NotFound("User", id) && Stored() == old(Stored())
      ensures r.Success? ==> var k := OrderedDict.Find(repo.users, id).value;
        && k < |old(Stored())|
        && r.value == repo.users[k].1
        && Stored() == Revised(old(Stored()), k, ServiceArguments(name, email, isActive), now)
    {
      r := GetUser(id);
      if r.Failure? {
        return;
      }
      var k := OrderedDict.Find(repo.users, id).value;
      var user := UpdateStored(k, ServiceArguments(name, email, isActive), now);
      r := Success(user);
    }

    /** `update_user` with the email check its imports suggest: an email held by another
        user is refused with a conflict and nothing changes. */
    method UpdateUserChecked(id: UserId, name: Option<string>, email: Option<string>, isActive: Option<bool>,
                             now: Timestamp)
      returns (r: Result<User, Error>)
      requires repo.Valid()
      modifies repo.Objects()
      ensures repo.users == old(repo.users)
      ensures old(repo.GetById(id)).None? ==> r == Failure(NotFound("User", id)) && Stored() == old(Stored())
      ensures old(repo.GetById(id)).Some? ==> var k := OrderedDict.Find(repo.users, id).value;
        && k < |old(Stored())|
        && (r.Failure? <==> email.Some? && exists j :: 0 <= j < |old(Stored())| && j != k && old(Stored())[j].email == email.value)
        && (r.Failure? ==> r.error == Conflict("User with email already exists"))
        && (r.Success? ==> r.value == repo.users[k].1
                           && Stored() == Revised(old(Stored()), k, ServiceArguments(name, email, isActive), now))
      ensures r.Failure? ==> Stored() == old(Stored())
      ensures UniqueEmails(old(Stored())) ==> UniqueEmails(Stored())
    {
      var found := GetUser(id);
      if found.Failure? {
        return found;
      }
      var k := OrderedDict.Find(repo.users, id).value;
      var stored := Stored();
      if email.Some? && exists j :: 0 <= j < |stored| && j != k && stored[j].email == email.value {
        return Failure(Conflict("User with email already exists"));
      }
      ghost var before := stored;
      var user := UpdateStored(k, ServiceArguments(name, email, isActive), now);
      if UniqueEmails(before) {
        RevisedKeepsUnique(before, k, name, email, isActive, now);
      }
      r := Success(user);
    }

    /** `deactivate_user`: the stored user is marked inactive, name and email kept. */
    method DeactivateUser(id: UserId, now: Timestamp) returns (r: Result<User, Error>)
      requires repo.Valid()
      modifies repo.Objects()
      ensures repo.users == old(repo.users)
      ensures r.Failure? <==> old(repo.GetById(id)).None?
      ensures r.Failure? ==> r.error == NotFound("User", id) && Stored() == old(Stored())
      ensures r.Success? ==> var k := OrderedDict.Find(repo.users, id).value;
        && k < |old(Stored())|
        && r.value == repo.users[k].1
        && Stored() == old(Stored())[k := old(Stored())[k].(isActive := false, updatedAt := now)]
      ensures UniqueEmails(old(Stored())) ==> UniqueEmails(Stored())
    {
      r := GetUser(id);
      if r.Failure? {
        return;
      }
      var k := OrderedDict.Find(repo.users, id).value;
      ghost var before := Stored();
      assert Assigned(before[k], [SetActive(Some(false))]) == before[k].(isActive := false) by {
        assert [SetActive(Some(false))][..0] == [];
      }
      var user := UpdateStored(k, [SetActive(Some(false))], now);
      assert forall i :: 0 <= i < |before| ==> Stored()[i].email == before[i].email;
      r := Success(user);
    }
  }

  /** An update whose email, if any, no other user holds keeps the emails unique. */
  lemma RevisedKeepsUnique(ps: seq<Profile>, k: nat, name: Option<string>, email: Option<string>,
                           isActive: Option<bool>, now: Timestamp)
    requires k < |ps| && UniqueEmails(ps)
    requires email.Some? ==> forall j :: 0 <= j < |ps| && j != k ==> ps[j].email != email.value
    ensures UniqueEmails(UserManagementService.Revised(ps, k, ServiceArguments(name, email, isActive), now))
  {
    ServiceAssignment(ps[k], name, email, isActive);
  }

  /** As written, `update_user` can give a user an email another user already has. */
  lemma UpdateCanDuplicateEmail()
    ensures var ps := [Profile("u1", "Ada", "ada@example.org", 0, 0, true),
                       Profile("u2", "Bob", "bob@example.org", 0, 0, true)];
      && UniqueEmails(ps)
      && !UniqueEmails(UserManagementService.Revised(ps, 1, ServiceArguments(None, Some("ada@example.org"), None), 1))
  {
    var ps := [Profile("u1", "Ada", "ada@example.org", 0, 0, true),
               Profile("u2", "Bob", "bob@example.org", 0, 0, true)];
    ServiceAssignment(ps[1], None, Some("ada@example.org"), None);
    var qs := UserManagementService.Revised(ps, 1, ServiceArguments(None, Some("ada@example.org"), None), 1);
    assert qs[0].email == qs[1].email;
  }
}
