/**
 * The in-memory user handlers (handlers/users.go): one package-level `users`
 * slice, modelled as the field of a `UserDirectory` object, with list, create,
 * get-by-id, partial update and delete. Every by-id handler finds the first
 * record carrying the id. As for projects, the `len + 1` id rule is replaced by
 * one more than the largest id in use, which keeps ids unique across deletes.
 */
module UserStore {
  import opened Wrappers
  import opened Numbers
  import opened Collections
  import opened Models

  const Year: int := 365 * 86400

  /** The record CreateUser builds: request fields verbatim, id and both timestamps from the server. */
  function NewUser(req: CreateUserRequest, id: int, now: Time): User {
    User(id, req.name, req.email, req.role, req.avatar, req.bio, req.website, req.location, req.skills, now, now)
  }

  /** The slice after CreateUser as written: the new user appended under id `len(users) + 1`. */
  function AppendUserByLength(us: seq<User>, req: CreateUserRequest, now: Time): seq<User> {
    us + [NewUser(req, |us| + 1, now)]
  }

  /**
   * The id rule as written, for users: delete id 1 from [1, 2], then create. The
   * new user gets id 2 again, and GET /users/2 answers with the older user, so the
   * new one can never be fetched.
   */
  lemma UserIdReusedAfterDelete(a: User, b: User, req: CreateUserRequest, now: Time)
    requires a.id == 1 && b.id == 2
    ensures var afterCreate := AppendUserByLength(RemoveAt([a, b], 0), req, now);
      && afterCreate[1].id == 2
      && !UniqueIds(afterCreate, UserId)
      && IndexOf(afterCreate, UserId, 2) == Some(0)
      && Lookup(afterCreate, UserId, "2", "Invalid user ID", "User not found") == Success(StatusOK, b)
  {
    LengthIdClashAfterDelete(a, b, NewUser(req, 2, now), UserId);
    assert Atoi("2") == Some(2) by {
      assert Itoa(2) == "2";
      AtoiItoa(2);
    }
  }

  /** CreateUser with the id rule corrected: one more than the largest id in use. */
  function AppendUser(us: seq<User>, req: CreateUserRequest, now: Time): seq<User> {
    us + [NewUser(req, FreshId(us, UserId), now)]
  }

  /**
   * With the corrected rule ids stay unique, GET of the new id answers with the new
   * user, and on a history without deletes the id is the one the code assigns.
   */
  lemma FreshCreateUserThenGet(us: seq<User>, req: CreateUserRequest, now: Time)
    ensures var r := AppendUser(us, req, now);
      && (UniqueIds(us, UserId) ==> UniqueIds(r, UserId))
      && IndexOf(r, UserId, FreshId(us, UserId)) == Some(|us|)
      && (FreshId(us, UserId) <= MaxInt ==>
            Lookup(r, UserId, Itoa(FreshId(us, UserId)), "Invalid user ID", "User not found")
            == Success(StatusOK, r[|us|]))
    ensures (forall j :: 0 <= j < |us| ==> us[j].id == j + 1) ==>
      AppendUser(us, req, now) == AppendUserByLength(us, req, now)
  {
    var next := FreshId(us, UserId);
    AppendFresh(us, UserId, NewUser(req, next, now));
    if next <= MaxInt {
      AtoiItoa(next);
    }
    if forall j :: 0 <= j < |us| ==> us[j].id == j + 1 {
      DenseIdsFreshIsLengthPlusOne(us, UserId);
    }
  }

  /** The user the package starts with: id 1, created a year before start-up, updated at start-up. */
  function SeedUser(now: Time): User {
    User(1, "\U{C774}\U{D601}\U{C8FC}", "hyoukjoo@example.com", "Backend Developer",
         "https://avatars.githubusercontent.com/u/12345678",
         "Backend engineer specializing in Go, microservices, and cloud architecture",
         "https://hyoukjoolee.github.io/portfolio", "Seoul, Korea",
         ["Go", "JavaScript", "TypeScript", "Docker", "AWS", "PostgreSQL"], now - Year, now)
  }

  /** The empty PUT body. */
  const NoUserChange := UpdateUserRequest(None, None, None, None, None, None, None, None)

  /** UpdateUser's overwrite of the stored record: each present field, then the modification time. */
  function ApplyUserUpdate(u: User, req: UpdateUserRequest, now: Time): User {
    u.(name := req.name.GetOr(u.name),
       email := req.email.GetOr(u.email),
       role := req.role.GetOr(u.role),
       avatar := req.avatar.GetOr(u.avatar),
       bio := req.bio.GetOr(u.bio),
       website := req.website.GetOr(u.website),
       location := req.location.GetOr(u.location),
       skills := req.skills.GetOr(u.skills),
       updatedAt := now)
  }

  /**
   * Exactly the present fields are overwritten, each with the request's value;
   * id and creation time are kept; the modification time is refreshed even by
   * an empty body.
   */
  lemma UserUpdateFields(u: User, req: UpdateUserRequest, now: Time)
    ensures var r := ApplyUserUpdate(u, req, now);
      && (req.name.Some? ==> r.name == req.name.value) && (r.name != u.name ==> req.name.Some?)
      && (req.email.Some? ==> r.email == req.email.value) && (r.email != u.email ==> req.email.Some?)
      && (req.role.Some? ==> r.role == req.role.value) && (r.role != u.role ==> req.role.Some?)
      && (req.avatar.Some? ==> r.avatar == req.avatar.value) && (r.avatar != u.avatar ==> req.avatar.Some?)
      && (req.bio.Some? ==> r.bio == req.bio.value) && (r.bio != u.bio ==> req.bio.Some?)
      && (req.website.Some? ==> r.website == req.website.value) && (r.website != u.website ==> req.website.Some?)
      && (req.location.Some? ==> r.location == req.location.value) && (r.location != u.location ==> req.location.Some?)
      && (req.skills.Some? ==> r.skills == req.skills.value) && (r.skills != u.skills ==> req.skills.Some?)
      && r.id == u.id && r.createdAt == u.createdAt && r.updatedAt == now
    ensures ApplyUserUpdate(u, NoUserChange, now) == u.(updatedAt := now)
  {
  }

  /**
   * No uniqueness check guards the email: giving one user another user's address
   * leaves two users with the same email.
   */
  lemma UpdateCanDuplicateEmail(us: seq<User>, i: nat, j: nat, now: Time)
    requires i < |us| && j < |us| && i != j
    ensures var updated := us[j := ApplyUserUpdate(us[j], NoUserChange.(email := Some(us[i].email)), now)];
      updated[i].email == updated[j].email && updated[i] == us[i]
  {
  }

  /**
   * While ids are unique, a delete that succeeded cannot be repeated: the second
   * lookup of the id answers 404.
   */
  lemma DeleteUserTwice(us: seq<User>, idText: string, i: nat)
    requires UniqueIds(us, UserId)
    requires Atoi(idText).Some? && IndexOf(us, UserId, Atoi(idText).value) == Some(i)
    ensures Lookup(RemoveAt(us, i), UserId, idText, "Invalid user ID", "User not found") ==
            Failure(StatusNotFound, Message("User not found"))
  {
    DeleteRemovesId(us, UserId, Atoi(idText).value, i);
  }

  class UserDirectory {
    var users: seq<User>

    /** No two users share an id. */
    predicate Valid()
      reads this
    {
      UniqueIds(users, UserId)
    }

    /** The single seeded user, created a year before start-up. */
    constructor (now: Time)
      ensures users == [SeedUser(now)]
      ensures |users| == 1 && users[0].id == 1 && users[0].email == "hyoukjoo@example.com"
      ensures users[0].createdAt == now - Year && users[0].updatedAt == now
      ensures Valid()
    {
      users := [SeedUser(now)];
    }

    /** GET /users: every user, and how many. */
    method GetUsers() returns (data: seq<User>, count: int)
      ensures data == users && count == |users|
    {
      data := users;
      count := |users|;
    }

    /** POST /users. */
    method CreateUser(body: Option<CreateUserRequest>, isEmail: string -> bool, now: Time) returns (r: Reply<User>)
      requires Valid()
      modifies this
      ensures Valid()
      ensures body.None? || !ValidCreateUser(body.value, isEmail) ==>
                r == Failure(StatusBadRequest, BindError) && users == old(users)
      ensures body.Some? && ValidCreateUser(body.value, isEmail) ==>
                users == AppendUser(old(users), body.value, now) &&
                r == Success(StatusCreated, users[|users| - 1]) &&
                IndexOf(users, UserId, r.value.id) == Some(|users| - 1)
    {
      if body.None? || !ValidCreateUser(body.value, isEmail) {
        return Failure(StatusBadRequest, BindError);
      }
      var created := NewUser(body.value, FreshId(users, UserId), now);
      AppendFresh(users, UserId, created);
      users := users + [created];
      return Success(StatusCreated, created);
    }

    /** GET /users/:id. */
    method GetUserByID(idText: string) returns (r: Reply<User>)
      ensures r == Lookup(users, UserId, idText, "Invalid user ID", "User not found")
    {
      var parsed := Atoi(idText);
      if parsed.None? {
        return Failure(StatusBadRequest, Message("Invalid user ID"));
      }
      var found := Find(users, UserId, parsed.value);
      if found.None? {
        return Failure(StatusNotFound, Message("User not found"));
      }
      return Success(StatusOK, users[found.value]);
    }

    /** PUT /users/:id: the id is checked before the body is read, the body before the search. */
    method UpdateUser(idText: string, body: Option<UpdateUserRequest>, now: Time) returns (r: Reply<User>)
      requires Valid()
      modifies this
      ensures Valid()
      ensures Atoi(idText).None? ==>
                r == Failure(StatusBadRequest, Message("Invalid user ID")) && users == old(users)
      ensures Atoi(idText).Some? && body.None? ==>
                r == Failure(StatusBadRequest, BindError) && users == old(users)
      ensures Atoi(idText).Some? && body.Some? ==>
                match IndexOf(old(users), UserId, Atoi(idText).value)
                case None =>
                  r == Failure(StatusNotFound, Message("User not found")) && users == old(users)
                case Some(i) =>
                  users == old(users)[i := ApplyUserUpdate(old(users)[i], body.value, now)] &&
                  r == Success(StatusOK, users[i])
    {
      var parsed := Atoi(idText);
      if parsed.None? {
        return Failure(StatusBadRequest, Message("Invalid user ID"));
      }
      if body.None? {
        return Failure(StatusBadRequest, BindError);
      }
      var found := Find(users, UserId, parsed.value);
      if found.None? {
        return Failure(StatusNotFound, Message("User not found"));
      }
      var i := found.value;
      ReplaceKeepsUniqueIds(users, UserId, i, ApplyUserUpdate(users[i], body.value, now));
      users := users[i := ApplyUserUpdate(users[i], body.value, now)];
      return Success(StatusOK, users[i]);
    }

    /**
     * DELETE /users/:id: splices out the first user with the id, keeping the others
     * in order; afterwards no user carries the id.
     */
    method DeleteUser(idText: string) returns (r: Reply<()>)
      requires Valid()
      modifies this
      ensures Valid()
      ensures Atoi(idText).Some? ==> IndexOf(users, UserId, Atoi(idText).value).None?
      ensures Atoi(idText).None? ==>
                r == Failure(StatusBadRequest, Message("Invalid user ID")) && users == old(users)
      ensures Atoi(idText).Some? ==>
                match IndexOf(old(users), UserId, Atoi(idText).value)
                case None =>
                  r == Failure(StatusNotFound, Message("User not found")) && users == old(users)
                case Some(i) =>
                  users == RemoveAt(old(users), i) && r == Success(StatusNoContent, ())
    {
      var parsed := Atoi(idText);
      if parsed.None? {
        return Failure(StatusBadRequest, Message("Invalid user ID"));
      }
      var found := Find(users, UserId, parsed.value);
      if found.None? {
        return Failure(StatusNotFound, Message("User not found"));
      }
      DeleteRemovesId(users, UserId, parsed.value, found.value);
      RemoveKeepsUniqueIds(users, UserId, found.value);
      users := RemoveAt(users, found.value);
      return Success(StatusNoContent, ());
    }
  }
}
