/**
 * The user service: users by id, a second index from lower-cased email to
 * id, and an id counter. Registration refuses an email whose lower-cased
 * form is already indexed; login resolves the email through the index and
 * checks the password with the injected encoder.
 */
module UserService {
  import opened Wrappers
  import opened Entities
  import opened Text

  /** The three fields of the service. */
  datatype Users = Users(users: map<Id, User>, emailToUserId: map<string, Id>, idCounter: int)

  /** The counter is positive and above every stored id; each user is stored under its own id. */
  ghost predicate CounterBound(s: Users)
  {
    s.idCounter >= 1
    && (forall k :: k in s.users ==> k < s.idCounter)
    && (forall k :: k in s.users ==> s.users[k].id == k)
  }

  /** Every index entry leads to a stored user whose lower-cased email is the entry's key. */
  ghost predicate IndexSound(s: Users)
  {
    forall e :: e in s.emailToUserId ==>
      s.emailToUserId[e] in s.users && Lower(s.users[s.emailToUserId[e]].email) == e
  }

  /** Every stored user is reachable through the index under its lower-cased email. */
  ghost predicate IndexComplete(s: Users)
  {
    forall k :: k in s.users ==>
      Lower(s.users[k].email) in s.emailToUserId && s.emailToUserId[Lower(s.users[k].email)] == k
  }

  /** The invariant all three mutating operations keep. */
  ghost predicate StoreInvariant(s: Users)
  {
    CounterBound(s) && IndexSound(s)
  }

  const Empty := Users(map[], map[], 1)

  lemma EmptyValid()
    ensures StoreInvariant(Empty) && IndexComplete(Empty)
  {
  }

  /** `getUserByEmail`: the lower-cased email through the index, then the user map. */
  function ByEmail(s: Users, email: string): (r: Option<User>)
    ensures r.Some? <==> Lower(email) in s.emailToUserId && s.emailToUserId[Lower(email)] in s.users
    ensures IndexSound(s) && r.Some? ==> EqualsIgnoreCase(r.value.email, email)
  {
    var key := Lower(email);
    if key in s.emailToUserId && s.emailToUserId[key] in s.users
    then Some(s.users[s.emailToUserId[key]])
    else None
  }

  /** The lookup does not depend on the case of the email asked for. */
  lemma ByEmailIgnoresCase(s: Users, a: string, b: string)
    requires EqualsIgnoreCase(a, b)
    ensures ByEmail(s, a) == ByEmail(s, b)
  {
  }

  /** With a complete index, every stored user is found by its email in any case. */
  lemma ByEmailFindsStoredUser(s: Users, k: Id, email: string)
    requires IndexComplete(s)
    requires k in s.users && EqualsIgnoreCase(email, s.users[k].email)
    ensures ByEmail(s, email) == Some(s.users[k])
  {
  }

  /** `loginUser`: the user found by email, kept only when `matches(password, stored hash)`. */
  function Login(s: Users, email: string, password: string, matches: (string, string) -> bool): (r: Option<User>)
    ensures r.Some? <==> ByEmail(s, email).Some? && matches(password, ByEmail(s, email).value.password)
    ensures r.Some? ==> r == ByEmail(s, email)
  {
    match ByEmail(s, email)
    case Some(u) => if matches(password, u.password) then Some(u) else None
    case None => None
  }

  /**
   * `registerUser`: refused when the lower-cased email is indexed; otherwise
   * the user gets the counter's id, the encoded password and `now` as its
   * creation time, and its lower-cased email is indexed.
   */
  function Register(s: Users, user: User, encode: string -> string, now: Time): (r: (Users, Option<User>))
    ensures Lower(user.email) in s.emailToUserId <==> r.1.None?
    ensures r.1.None? ==> r.0 == s
    ensures r.1.Some? ==> r.1.value == user.(id := s.idCounter, password := encode(user.password), createdAt := now)
    ensures r.1.Some? ==> r.0.idCounter == s.idCounter + 1
  {
    var key := Lower(user.email);
    if key in s.emailToUserId then (s, None)
    else
      var stored := user.(id := s.idCounter, password := encode(user.password), createdAt := now);
      (Users(s.users[s.idCounter := stored], s.emailToUserId[key := s.idCounter], s.idCounter + 1), Some(stored))
  }

  /** A refused registration leaves the store as it was, whatever the case of the email. */
  lemma RegisterRejectsKnownEmail(s: Users, k: Id, user: User, encode: string -> string, now: Time)
    requires IndexComplete(s)
    requires k in s.users && EqualsIgnoreCase(user.email, s.users[k].email)
    ensures Register(s, user, encode, now) == (s, None)
  {
  }

  /** A successful registration adds exactly the new user and its index entry. */
  lemma RegisterAddsOnlyNewUser(s: Users, user: User, encode: string -> string, now: Time)
    requires StoreInvariant(s)
    requires Register(s, user, encode, now).1.Some?
    ensures var (t, r) := Register(s, user, encode, now);
      r.value.id !in s.users
      && t.users.Keys == s.users.Keys + {r.value.id}
      && (forall k :: k in s.users ==> t.users[k] == s.users[k])
      && t.emailToUserId.Keys == s.emailToUserId.Keys + {Lower(user.email)}
      && (forall e :: e in s.emailToUserId ==> t.emailToUserId[e] == s.emailToUserId[e])
  {
  }

  lemma RegisterKeepsValid(s: Users, user: User, encode: string -> string, now: Time)
    requires StoreInvariant(s)
    ensures StoreInvariant(Register(s, user, encode, now).0)
  {
    var t := Register(s, user, encode, now).0;
    if Lower(user.email) !in s.emailToUserId {
      forall e | e in t.emailToUserId
        ensures t.emailToUserId[e] in t.users && Lower(t.users[t.emailToUserId[e]].email) == e
      {
        if e != Lower(user.email) {
          assert t.emailToUserId[e] == s.emailToUserId[e] && s.emailToUserId[e] < s.idCounter;
        }
      }
    }
  }

  lemma RegisterKeepsComplete(s: Users, user: User, encode: string -> string, now: Time)
    requires StoreInvariant(s) && IndexComplete(s)
    ensures IndexComplete(Register(s, user, encode, now).0)
  {
    var t := Register(s, user, encode, now).0;
    if Lower(user.email) !in s.emailToUserId {
      forall k | k in t.users
        ensures Lower(t.users[k].email) in t.emailToUserId && t.emailToUserId[Lower(t.users[k].email)] == k
      {
        if k != s.idCounter {
          assert Lower(s.users[k].email) in s.emailToUserId;
        }
      }
    }
  }

  /** Right after registering, login by the email in any case succeeds exactly when the password matches its encoding. */
  lemma LoginAfterRegister(s: Users, user: User, encode: string -> string, now: Time,
                           email: string, password: string, matches: (string, string) -> bool)
    requires Register(s, user, encode, now).1.Some?
    requires EqualsIgnoreCase(email, user.email)
    ensures var (t, r) := Register(s, user, encode, now);
      Login(t, email, password, matches) == (if matches(password, encode(user.password)) then r else None)
  {
  }

  /**
   * `updateUser`: a present id has its user replaced, keeping the id and the
   * original creation time; when the email string changes, the index entry
   * moves from the old lower-cased email to the new one. The password is
   * stored as given and no other user's entry is checked.
   */
  function Update(s: Users, id: Id, user: User): (r: (Users, Option<User>))
    ensures id !in s.users <==> r.1.None?
    ensures r.1.None? ==> r.0 == s
    ensures r.1.Some? ==> r.1.value == user.(id := id, createdAt := s.users[id].createdAt)
    ensures r.1.Some? ==> r.0.users == s.users[id := r.1.value] && r.0.idCounter == s.idCounter
    ensures r.1.Some? && user.email == s.users[id].email ==> r.0.emailToUserId == s.emailToUserId
    ensures r.1.Some? && user.email != s.users[id].email ==>
      r.0.emailToUserId == (s.emailToUserId - {Lower(s.users[id].email)})[Lower(user.email) := id]
  {
    if id !in s.users then (s, None)
    else
      var existing := s.users[id];
      var stored := user.(id := id, createdAt := existing.createdAt);
      var index :=
        if user.email != existing.email
        then (s.emailToUserId - {Lower(existing.email)})[Lower(user.email) := id]
        else s.emailToUserId;
      (Users(s.users[id := stored], index, s.idCounter), Some(stored))
  }

  lemma UpdateKeepsValid(s: Users, id: Id, user: User)
    requires StoreInvariant(s)
    ensures StoreInvariant(Update(s, id, user).0)
  {
    var t := Update(s, id, user).0;
    if id in s.users {
      forall e | e in t.emailToUserId
        ensures t.emailToUserId[e] in t.users && Lower(t.users[t.emailToUserId[e]].email) == e
      {
      }
    }
  }

  /**
   * The update can take over another user's index entry: two registered
   * users, and the first renamed to the second's email, leave the second
   * unreachable by email and the index incomplete.
   */
  lemma UpdateCanOrphanAnotherUser()
    ensures var u1 := User(1, "a@shop.test", "h1", "A", "A", "", "", 0);
      var u2 := User(2, "b@shop.test", "h2", "B", "B", "", "", 0);
      var s := Users(map[1 := u1, 2 := u2], map["a@shop.test" := 1, "b@shop.test" := 2], 3);
      var t := Update(s, 1, u1.(email := "b@shop.test")).0;
      StoreInvariant(s) && IndexComplete(s) && StoreInvariant(t) && !IndexComplete(t)
      && ByEmail(t, "b@shop.test") == Some(t.users[1])
  {
    var u1 := User(1, "a@shop.test", "h1", "A", "A", "", "", 0);
    var u2 := User(2, "b@shop.test", "h2", "B", "B", "", "", 0);
    var s := Users(map[1 := u1, 2 := u2], map["a@shop.test" := 1, "b@shop.test" := 2], 3);
    assert Lower("a@shop.test") == "a@shop.test";
    assert Lower("b@shop.test") == "b@shop.test";
    assert "a@shop.test" != "b@shop.test" by { assert "a@shop.test"[0] != "b@shop.test"[0]; }
    assert StoreInvariant(s);
    assert IndexComplete(s);
    var t := Update(s, 1, u1.(email := "b@shop.test")).0;
    assert t.emailToUserId == map["b@shop.test" := 1];
    assert t.users[2] == u2;
    UpdateKeepsValid(s, 1, u1.(email := "b@shop.test"));
    assert !IndexComplete(t) by {
      assert 2 in t.users && t.emailToUserId[Lower(t.users[2].email)] == 1;
    }
  }

  /** `deleteUser`: true exactly when the id is present; the user and its lower-cased email entry go. */
  function Delete(s: Users, id: Id): (r: (Users, bool))
    ensures r.1 <==> id in s.users
    ensures !r.1 ==> r.0 == s
    ensures r.1 ==> r.0 == Users(s.users - {id}, s.emailToUserId - {Lower(s.users[id].email)}, s.idCounter)
  {
    if id in s.users
    then (Users(s.users - {id}, s.emailToUserId - {Lower(s.users[id].email)}, s.idCounter), true)
    else (s, false)
  }

  lemma DeleteKeepsValid(s: Users, id: Id)
    requires StoreInvariant(s)
    ensures StoreInvariant(Delete(s, id).0)
  {
    var t := Delete(s, id).0;
    if id in s.users {
      forall e | e in t.emailToUserId
        ensures t.emailToUserId[e] in t.users && Lower(t.users[t.emailToUserId[e]].email) == e
      {
        assert s.emailToUserId[e] != id;
      }
    }
  }

  lemma DeleteKeepsComplete(s: Users, id: Id)
    requires StoreInvariant(s) && IndexComplete(s)
    ensures IndexComplete(Delete(s, id).0)
  {
    var t := Delete(s, id).0;
    if id in s.users {
      forall k | k in t.users
        ensures Lower(t.users[k].email) in t.emailToUserId && t.emailToUserId[Lower(t.users[k].email)] == k
      {
        assert s.emailToUserId[Lower(s.users[k].email)] == k;
        assert Lower(s.users[k].email) != Lower(s.users[id].email);
      }
    }
  }

  /** After a deletion the user's email can be registered again. */
  lemma DeleteFreesEmail(s: Users, id: Id)
    requires StoreInvariant(s) && id in s.users
    ensures Lower(s.users[id].email) !in Delete(s, id).0.emailToUserId
  {
  }

  /** The service object; the password encoder is injected. */
  class UserStore {
    var users: map<Id, User>
    var emailToUserId: map<string, Id>
    var idCounter: int
    const encode: string -> string
    const matches: (string, string) -> bool

    function State(): Users
      reads this
    {
      Users(users, emailToUserId, idCounter)
    }

    ghost predicate Valid()
      reads this
    {
      StoreInvariant(State())
    }

    constructor(encode: string -> string, matches: (string, string) -> bool)
      ensures Valid() && IndexComplete(State())
      ensures State() == Empty
      ensures this.encode == encode && this.matches == matches
    {
      users := map[];
      emailToUserId := map[];
      idCounter := 1;
      this.encode := encode;
      this.matches := matches;
    }

    /** `getAllUsers`: every stored user, in no particular order. */
    function GetAllUsers(): (r: set<User>)
      requires Valid()
      reads this
      ensures forall u :: u in r <==> u.id in users && users[u.id] == u
    {
      set k | k in users :: users[k]
    }

    /** `getUserById`: a plain lookup. */
    function GetUserById(id: Id): (r: Option<User>)
      reads this
      ensures r.Some? <==> id in users
      ensures r.Some? ==> r.value == users[id]
    {
      if id in users then Some(users[id]) else None
    }

    /** `getUserByEmail`: resolved through the lower-cased index. */
    function GetUserByEmail(email: string): (r: Option<User>)
      reads this
      ensures r == ByEmail(State(), email)
      ensures r.Some? <==> Lower(email) in emailToUserId && emailToUserId[Lower(email)] in users
      ensures r.Some? ==> r.value == users[emailToUserId[Lower(email)]]
      ensures Valid() && r.Some? ==> EqualsIgnoreCase(r.value.email, email)
    {
      ByEmail(State(), email)
    }

    /** `loginUser`: the user found by email, when the password matches its stored hash. */
    function LoginUser(email: string, password: string): (r: Option<User>)
      reads this
      ensures r == Login(State(), email, password, matches)
      ensures r.Some? <==> GetUserByEmail(email).Some? && matches(password, GetUserByEmail(email).value.password)
      ensures r.Some? ==> r == GetUserByEmail(email)
    {
      Login(State(), email, password, matches)
    }

    method RegisterUser(user: User, now: Time) returns (r: Option<User>)
      requires Valid()
      modifies this
      ensures Valid()
      ensures (State(), r) == Register(old(State()), user, encode, now)
    {
      RegisterKeepsValid(State(), user, encode, now);
      var email := Lower(user.email);
      if email in emailToUserId {
        return None;
      }
      var id := idCounter;
      idCounter := idCounter + 1;
      var stored := user.(id := id, password := encode(user.password), createdAt := now);
      users := users[id := stored];
      emailToUserId := emailToUserId[email := id];
      return Some(stored);
    }

    method UpdateUser(id: Id, user: User) returns (r: Option<User>)
      requires Valid()
      modifies this
      ensures Valid()
      ensures (State(), r) == Update(old(State()), id, user)
    {
      UpdateKeepsValid(State(), id, user);
      if id in users {
        var existing := users[id];
        var stored := user.(id := id, createdAt := existing.createdAt);
        if user.email != existing.email {
          emailToUserId := emailToUserId - {Lower(existing.email)};
          emailToUserId := emailToUserId[Lower(user.email) := id];
        }
        users := users[id := stored];
        return Some(stored);
      }
      return None;
    }

    method DeleteUser(id: Id) returns (deleted: bool)
      requires Valid()
      modifies this
      ensures Valid()
      ensures (State(), deleted) == Delete(old(State()), id)
    {
      DeleteKeepsValid(State(), id);
      if id in users {
        var user := users[id];
        users := users - {id};
        emailToUserId := emailToUserId - {Lower(user.email)};
        return true;
      }
      return false;
    }
  }
}
