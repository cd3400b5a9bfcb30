/**
 * UserService: the user table and its transitions. Password hashing, hash comparison and
 * token signing are uninterpreted functions fixed when the table is made; a token is signed
 * over the user's id and the time it is issued at.
 */
module UserService {
  import opened Common
  import opened UserModel

  /** What a user table keeps true: ids are allocated below `nextId` and stored under
      themselves, every stored record passes its schema, and both unique indexes hold. */
  ghost predicate TableValid(users: Users, nextId: nat)
  {
    && (forall a :: a in users ==> a < nextId && users[a].id == a && Storable(users[a]))
    && UniqueEmails(users)
    && UniqueGoogleIds(users)
  }

  /** The table after `user.currentToken = token; user.save()`. */
  function WithToken(users: Users, id: UserId, token: string): (r: Users)
    requires id in users
    ensures r.Keys == users.Keys
    ensures r[id].currentToken == Some(token)
    ensures r[id] == users[id].(currentToken := Some(token))
    ensures forall a :: a in users && a != id ==> r[a] == users[a]
  {
    users[id := users[id].(currentToken := Some(token))]
  }

  /** Only one session is active per user: the latest token replaces every earlier one. */
  lemma {:induction false} LatestTokenWins(users: Users, id: UserId, earlier: string, later: string)
    requires id in users
    ensures WithToken(WithToken(users, id, earlier), id, later) == WithToken(users, id, later)
  {
    var once := WithToken(WithToken(users, id, earlier), id, later);
    assert forall a :: a in once ==> once[a] == WithToken(users, id, later)[a];
  }

  /** Recording a token keeps the table valid: no index or schema rule looks at it. */
  lemma {:induction false} WithTokenKeepsTable(users: Users, nextId: nat, id: UserId, token: string)
    requires TableValid(users, nextId) && id in users
    ensures TableValid(WithToken(users, id, token), nextId)
  {
    var r := WithToken(users, id, token);
    assert StoreErrors(r[id]) == StoreErrors(users[id]);
  }

  /** Saving a new user under the next id keeps the table valid when the record passes its
      schema and neither its e-mail address nor its Google id is taken. */
  lemma {:induction false} AddKeepsTable(users: Users, nextId: nat, u: User)
    requires TableValid(users, nextId) && u.id == nextId && Storable(u)
    requires forall a :: a in users ==> users[a].email != u.email
    requires u.googleId.Some? ==> forall a :: a in users ==> users[a].googleId != u.googleId
    ensures TableValid(users[nextId := u], nextId + 1)
  {
  }

  /** Saving a changed user keeps the table valid when it still passes its schema, keeps its
      e-mail address, and holds a Google id no other user holds. */
  lemma {:induction false} ReplaceKeepsTable(users: Users, nextId: nat, u: User)
    requires TableValid(users, nextId) && u.id in users && Storable(u)
    requires u.email == users[u.id].email
    requires u.googleId.Some? ==> forall a :: a in users && a != u.id ==> users[a].googleId != u.googleId
    ensures TableValid(users[u.id := u], nextId)
  {
  }

  /** The user `register` saves: the hash stands where the password was, no Google id, and
      no token yet. */
  function Registered(id: UserId, input: UserInput, hashed: string): User
  {
    User(id, input.username, input.email, Some(hashed), None, None, None)
  }

  /** The user `upsertGoogleUser` saves for an unknown e-mail address. */
  function GoogleAccount(id: UserId, googleId: string, email: string, username: string): User
  {
    User(id, Some(username), email, None, Some(googleId), None, None)
  }

  /** A successful sign-in: the user without the password, and the token issued. */
  datatype Session = Session(user: PublicUser, token: string)

  class UserTable {
    var users: Users
    var nextId: UserId
    const hash: (string, string) -> string
    const compare: (string, string) -> bool
    const sign: (UserId, int) -> string

    ghost predicate Valid()
      reads this
    {
      TableValid(users, nextId)
    }

    constructor (hash: (string, string) -> string, compare: (string, string) -> bool, sign: (UserId, int) -> string)
      ensures Valid() && users == map[] && nextId == 0
      ensures this.hash == hash && this.compare == compare && this.sign == sign
    {
      users := map[];
      nextId := 0;
      this.hash := hash;
      this.compare := compare;
      this.sign := sign;
    }

    /** `getMe`: the stored user, or "User not found". */
    method GetMe(id: UserId) returns (r: Result<User>)
      requires Valid()
      ensures id in users ==> r == Ok(users[id]) && r.value.id == id
      ensures id !in users ==> r == Err(UserNotFound)
    {
      if id in users {
        r := Ok(users[id]);
      } else {
        r := Err(UserNotFound);
      }
    }

    /** `createAvatar`: sets `avatar` on the user and returns the updated record. */
    method CreateAvatar(id: UserId, url: string) returns (r: Result<User>)
      requires Valid()
      modifies this
      ensures Valid() && nextId == old(nextId)
      ensures id !in old(users) ==> r == Err(UserNotFound) && users == old(users)
      ensures id in old(users) ==> users == old(users)[id := old(users)[id].(avatar := Some(url))] && r == Ok(users[id])
    {
      if id !in users {
        r := Err(UserNotFound);
        return;
      }
      var u := users[id].(avatar := Some(url));
      assert StoreErrors(u) == StoreErrors(users[id]);
      users := users[id := u];
      r := Ok(u);
    }

    /** `updateUsername`: sets `username` on the user and returns the updated record. */
    method UpdateUsername(id: UserId, name: string) returns (r: Result<User>)
      requires Valid()
      modifies this
      ensures Valid() && nextId == old(nextId)
      ensures id !in old(users) ==> r == Err(UserNotFound) && users == old(users)
      ensures id in old(users) ==> users == old(users)[id := old(users)[id].(username := Some(name))] && r == Ok(users[id])
    {
      if id !in users {
        r := Err(UserNotFound);
        return;
      }
      var u := users[id].(username := Some(name));
      assert StoreErrors(u) == StoreErrors(users[id]);
      users := users[id := u];
      r := Ok(u);
    }

    /** `register`: refuses a known e-mail address, hashes the password with `salt` (a missing
        password makes the hash fail), and saves the new user. */
    method Register(input: UserInput, salt: string) returns (r: Result<User>)
      requires Valid()
      modifies this
      ensures Valid()
      ensures r.Err? ==> users == old(users) && nextId == old(nextId)
      ensures FindByEmail(old(users), input.email, old(nextId)).Some? ==> r == Err(EmailAlreadyExists)
      ensures FindByEmail(old(users), input.email, old(nextId)).None? && input.password.None? ==> r == Err(IllegalArguments)
      ensures FindByEmail(old(users), input.email, old(nextId)).None? && input.password.Some? ==>
                var u := Registered(old(nextId), input, hash(input.password.value, salt));
                && (StoreErrors(u) != {} ==> r == Err(ValidationFailed(StoreErrors(u))))
                && (StoreErrors(u) == {} ==> r == Ok(u) && users == old(users)[old(nextId) := u] && nextId == old(nextId) + 1)
      ensures r.Ok? ==> r.value.password == Some(hash(input.password.value, salt)) && r.value.email == input.email
    {
      var found := FindByEmail(users, input.email, nextId);
      if found.Some? {
        r := Err(EmailAlreadyExists);
        return;
      }
      if input.password.None? {
        r := Err(IllegalArguments);
        return;
      }
      var u := Registered(nextId, input, hash(input.password.value, salt));
      if StoreErrors(u) != {} {
        r := Err(ValidationFailed(StoreErrors(u)));
        return;
      }
      users := users[nextId := u];
      nextId := nextId + 1;
      r := Ok(u);
    }

    /** `login`: an unknown address, a user without a password, or a password that does not
        match the hash gives "Invalid email or password"; otherwise a fresh token becomes the
        user's only valid one and is returned with the user. */
    method Login(email: string, password: string, now: int) returns (r: Result<Session>)
      requires Valid()
      modifies this
      ensures Valid() && nextId == old(nextId)
      ensures var found := FindByEmail(old(users), email, old(nextId));
              (found.None? || !Filled(old(users)[found.value].password)
               || !compare(password, old(users)[found.value].password.value))
              ==> r == Err(InvalidEmailOrPassword) && users == old(users)
      ensures var found := FindByEmail(old(users), email, old(nextId));
              (found.Some? && Filled(old(users)[found.value].password)
               && compare(password, old(users)[found.value].password.value))
              ==> && users == WithToken(old(users), found.value, sign(found.value, now))
                  && r == Ok(Session(Public(users[found.value]), sign(found.value, now)))
      ensures r.Ok? ==> r.value.user.email == email
    {
      var found := FindByEmail(users, email, nextId);
      if found.None? || !Filled(users[found.value].password) || !compare(password, users[found.value].password.value) {
        r := Err(InvalidEmailOrPassword);
        return;
      }
      var id := found.value;
      var token := sign(id, now);
      WithTokenKeepsTable(users, nextId, id, token);
      users := WithToken(users, id, token);
      r := Ok(Session(Public(users[id]), token));
    }

    /** `upsertGoogleUser`: creates the user for an unknown address, links the Google id to a
        known one only when it has none, and in every successful case issues a fresh token
        that becomes the user's only valid one. A save that breaks the schema or the unique
        Google id index changes nothing. */
    method UpsertGoogleUser(googleId: string, email: string, username: string, now: int) returns (r: Result<Session>)
      requires Valid()
      modifies this
      ensures Valid()
      ensures r.Err? ==> users == old(users) && nextId == old(nextId)
      ensures FindByEmail(old(users), email, old(nextId)).None? ==>
                var u := GoogleAccount(old(nextId), googleId, email, username);
                && (StoreErrors(u) != {} ==> r == Err(ValidationFailed(StoreErrors(u))))
                && (StoreErrors(u) == {} && GoogleIdHolders(old(users), googleId, old(nextId)) != {} ==> r == Err(DuplicateKey("googleId")))
                && (StoreErrors(u) == {} && GoogleIdHolders(old(users), googleId, old(nextId)) == {} ==>
                      && nextId == old(nextId) + 1
                      && users == old(users)[old(nextId) := u.(currentToken := Some(sign(old(nextId), now)))]
                      && r == Ok(Session(Public(users[old(nextId)]), sign(old(nextId), now))))
      ensures FindByEmail(old(users), email, old(nextId)).Some? ==>
                var id := FindByEmail(old(users), email, old(nextId)).value;
                var current := old(users)[id];
                && nextId == old(nextId)
                && (Filled(current.googleId) ==>
                      users == WithToken(old(users), id, sign(id, now)) && r == Ok(Session(Public(users[id]), sign(id, now))))
                && (!Filled(current.googleId) && GoogleIdHolders(old(users), googleId, id) != {} ==> r == Err(DuplicateKey("googleId")))
                && (!Filled(current.googleId) && GoogleIdHolders(old(users), googleId, id) == {} ==>
                      && users == old(users)[id := current.(googleId := Some(googleId), currentToken := Some(sign(id, now)))]
                      && r == Ok(Session(Public(users[id]), sign(id, now))))
      ensures r.Ok? ==> r.value.user.email == email
    {
      var found := FindByEmail(users, email, nextId);
      if found.None? {
        var id := nextId;
        var u := GoogleAccount(id, googleId, email, username);
        if StoreErrors(u) != {} {
          r := Err(ValidationFailed(StoreErrors(u)));
          return;
        }
        if GoogleIdHolders(users, googleId, id) != {} {
          r := Err(DuplicateKey("googleId"));
          return;
        }
        var token := sign(id, now);
        var saved := u.(currentToken := Some(token));
        assert StoreErrors(saved) == StoreErrors(u);
        forall a | a in users
          ensures users[a].googleId != Some(googleId)
        {
          assert a != id && a !in GoogleIdHolders(users, googleId, id);
        }
        AddKeepsTable(users, nextId, saved);
        users := users[id := saved];
        nextId := nextId + 1;
        r := Ok(Session(Public(saved), token));
        return;
      }
      var id := found.value;
      var user := users[id];
      StorableHasCredential(user);
      if !Filled(user.googleId) {
        if GoogleIdHolders(users, googleId, id) != {} {
          r := Err(DuplicateKey("googleId"));
          return;
        }
        forall a | a in users && a != id
          ensures users[a].googleId != Some(googleId)
        {
          assert a !in GoogleIdHolders(users, googleId, id);
        }
        user := user.(googleId := Some(googleId));
      }
      var token := sign(id, now);
      user := user.(currentToken := Some(token));
      assert StoreErrors(user) == {};
      ReplaceKeepsTable(users, nextId, user);
      users := users[id := user];
      r := Ok(Session(Public(user), token));
    }
  }
}
