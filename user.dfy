/**
 * The user mutations (src/graphql/mutations/user.rs). Creating an account
 * needs no caller; the password is stored only as its bcrypt digest, and both
 * timestamps take the request's time. Changing the password and closing the
 * account are allowed only on the caller's own row; the target is looked up
 * first, so an id that names no user fails with `NotFound`.
 */
module UserMutations {
  import opened Wrappers
  import opened Errors
  import opened Schema
  import opened Query
  import opened Database

  datatype NewUser = NewUser(username: string, password: string)

  datatype UserChangeset = UserChangeset(id: int, password: string)

  const ForeignPassword: string := "Changing other users' passwords is forbidden."
  const LoginToChangePassword: string := "You must be logged in to change your password."
  const ForeignUserDeletion: string := "Deleting other users is forbidden."
  const LoginToCloseAccount: string := "You must be logged in to close your account."

  /** The stored row of a new account: the digest of its password, created and updated at `time`. */
  function NewUserRow(input: NewUser, time: int): (row: UserRow)
    ensures row.username == input.username && row.createdAt == row.updatedAt == time
    ensures forall attempt :: Verify(attempt, row.password) <==> attempt == input.password
  {
    UserRow(input.username, Hash(input.password), time, time)
  }

  /** The rows of a batch: each password hashed on its own, one time for every timestamp. */
  function NewUserRows(items: seq<NewUser>, time: int): (rows: seq<UserRow>)
    ensures |rows| == |items| && forall i :: 0 <= i < |items| ==> rows[i] == NewUserRow(items[i], time)
  {
    seq(|items|, i requires 0 <= i < |items| => NewUserRow(items[i], time))
  }

  function LoadUsers(t: Tables, ids: seq<int>): seq<User>
    requires forall i :: 0 <= i < |ids| ==> ids[i] in t.users
  {
    seq(|ids|, i requires 0 <= i < |ids| => LoadUser(t, ids[i]))
  }

  /** The users a batch returns: in input order, numbered from the first new id. */
  function BatchUsers(items: seq<NewUser>, time: int, first: int): (users: seq<User>)
    ensures |users| == |items|
    ensures forall i :: 0 <= i < |items| ==> users[i] == User(first + i, items[i].username, time, time)
  {
    seq(|items|, i requires 0 <= i < |items| => User(first + i, items[i].username, time, time))
  }

  /** Re-reading the users of a multi-row insert returns them as written, in input order. */
  lemma LoadBatchUsers(t: Tables, before: map<int, UserRow>, first: int, items: seq<NewUser>, time: int)
    requires t.users == Inserted(before, first, NewUserRows(items, time))
    ensures var ids := Consecutive(first, |items|); forall i :: 0 <= i < |ids| ==> ids[i] in t.users
    ensures LoadUsers(t, Consecutive(first, |items|)) == BatchUsers(items, time, first)
  {
    InsertedContents(before, first, NewUserRows(items, time));
  }

  /** `HandleInsert for users::table`: refused only by the unique username; a refused insert
      still uses up the id its row drew. */
  method HandleInsert(store: Store, input: NewUser, time: int) returns (r: Result<User, FieldError>)
    requires store.Valid()
    modifies store
    ensures store.Valid()
    ensures input.username in Usernames(old(store.users)) ==> r == Err(UniqueViolation)
    ensures r.Ok? <==> input.username !in Usernames(old(store.users))
    ensures r.Ok? ==>
      r.value == User(old(store.nextUser), input.username, time, time)
      && store.Snapshot() == old(store.Snapshot()).(users := old(store.users)[old(store.nextUser) := NewUserRow(input, time)])
      && store.Sequences() == old(store.Sequences()).(users := old(store.nextUser) + 1)
    ensures r.Err? ==>
      store.Snapshot() == old(store.Snapshot())
      && store.Sequences() == old(store.Sequences()).(users := old(store.nextUser) + 1)
  {
    var inserted := store.InsertUser(NewUserRow(input, time));
    if inserted.Err? {
      return Err(inserted.error);
    }
    r := Ok(LoadUser(store.Snapshot(), inserted.value));
  }

  /** `HandleBatchInsert for users::table`: one multi-row insert, refused as a whole when a
      username is taken or repeated within the batch; the ids drawn up to the refused row stay
      used up. */
  method HandleBatchInsert(store: Store, items: seq<NewUser>, time: int) returns (r: Result<seq<User>, FieldError>)
    requires store.Valid()
    modifies store
    ensures store.Valid()
    ensures !FreshUsernames(old(store.users), NewUserRows(items, time)) ==> r == Err(UniqueViolation)
    ensures r.Ok? <==> FreshUsernames(old(store.users), NewUserRows(items, time))
    ensures r.Ok? ==>
      r.value == BatchUsers(items, time, old(store.nextUser))
      && store.Snapshot() == old(store.Snapshot()).(users := Inserted(old(store.users), old(store.nextUser), NewUserRows(items, time)))
      && store.Sequences() == old(store.Sequences()).(users := old(store.nextUser) + |items|)
    ensures r.Err? ==>
      store.Snapshot() == old(store.Snapshot())
      && store.Sequences() == old(store.Sequences()).(
           users := old(store.nextUser) + FirstConflict(old(store.users), NewUserRows(items, time)) + 1)
      && old(store.nextUser) < store.nextUser <= old(store.nextUser) + |items|
  {
    var rows := NewUserRows(items, time);
    ghost var before := store.users;
    var inserted := store.InsertUsers(rows);
    if inserted.Err? {
      return Err(inserted.error);
    }
    LoadBatchUsers(store.Snapshot(), before, old(store.nextUser), items, time);
    r := Ok(LoadUsers(store.Snapshot(), inserted.value));
  }

  /** `HandleUpdate for users::table`: a caller may change only their own password. The digest
      and `updated_at` change; the username and `created_at` stay. Afterwards the stored digest
      verifies the new password and no other, so the old one no longer works unless it was the
      same. */
  method HandleUpdate(store: Store, caller: Option<int>, update: UserChangeset, time: int) returns (r: Result<User, FieldError>)
    requires store.Valid()
    modifies store
    ensures store.Valid()
    ensures store.Sequences() == old(store.Sequences())
    ensures caller.None? ==> r == Err(UnauthorizedError(LoginToChangePassword))
    ensures caller.Some? && update.id !in old(store.users) ==> r == Err(RecordNotFound)
    ensures caller.Some? && update.id in old(store.users) && update.id != caller.value ==>
              r == Err(UnauthorizedError(ForeignPassword))
    ensures r.Ok? <==> caller == Some(update.id) && update.id in old(store.users)
    ensures r.Ok? ==>
      var current := old(store.users)[update.id];
      r.value == User(update.id, current.username, current.createdAt, time)
      && store.Snapshot() == old(store.Snapshot()).(
           users := old(store.users)[update.id := current.(password := Hash(update.password), updatedAt := time)])
    ensures r.Ok? ==>
      forall attempt :: Verify(attempt, store.users[update.id].password) <==> attempt == update.password
    ensures r.Err? ==> store.Snapshot() == old(store.Snapshot())
  {
    if caller.None? {
      return Err(UnauthorizedError(LoginToChangePassword));
    }
    if update.id !in store.users {
      return Err(RecordNotFound);
    }
    if caller.value != update.id {
      return Err(UnauthorizedError(ForeignPassword));
    }
    var current := store.users[update.id];
    store.ReplaceUser(update.id, current.(password := Hash(update.password), updatedAt := time));
    r := Ok(LoadUser(store.Snapshot(), caller.value));
  }

  /** `HandleDelete for users::table`: a caller may close only their own account. */
  method HandleDelete(store: Store, caller: Option<int>, id: int) returns (r: Result<int, FieldError>)
    requires store.Valid()
    modifies store
    ensures store.Valid()
    ensures store.Sequences() == old(store.Sequences())
    ensures caller.None? ==> r == Err(UnauthorizedError(LoginToCloseAccount))
    ensures caller.Some? && id !in old(store.users) ==> r == Err(RecordNotFound)
    ensures caller.Some? && id in old(store.users) && id != caller.value ==> r == Err(UnauthorizedError(ForeignUserDeletion))
    ensures r.Ok? <==> caller == Some(id) && id in old(store.users)
    ensures r.Ok? ==> r.value == 1 && store.Snapshot() == old(store.Snapshot()).(users := old(store.users) - {id})
    ensures r.Err? ==> store.Snapshot() == old(store.Snapshot())
  {
    if caller.None? {
      return Err(UnauthorizedError(LoginToCloseAccount));
    }
    if id !in store.users {
      return Err(RecordNotFound);
    }
    if caller.value != id {
      return Err(UnauthorizedError(ForeignUserDeletion));
    }
    var count := store.DeleteUser(id);
    r := Ok(count);
  }
}
