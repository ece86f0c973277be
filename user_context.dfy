/**
 * The session store of lib/user-context.tsx: the signed-in user held by the
 * provider, mirrored under one localStorage key and read back on start.
 * localStorage is a map from key to stored value; JSON encoding is the
 * identity on these values.
 */
module UserContext {
  import opened Wrappers

  datatype User = User(name: string, email: string, company: string)

  /** What the pages keep in localStorage: the current user, or the signup user list. */
  datatype Stored = UserRecord(user: User) | UserList(users: seq<User>)

  const UserKey: string := "recruitai-user"
  const UsersKey: string := "recruitai-users"

  /** The storage after `setUser(u)`: the key is removed for `null`, else it holds `u`. */
  function StorageAfterSet(storage: map<string, Stored>, u: Option<User>): (r: map<string, Stored>)
    ensures u.None? ==> UserKey !in r
    ensures u.Some? ==> UserKey in r && r[UserKey] == UserRecord(u.value)
    ensures forall k :: k != UserKey ==> (k in r <==> k in storage)
    ensures forall k :: k != UserKey && k in r ==> r[k] == storage[k]
  {
    if u.None? then storage - {UserKey} else storage[UserKey := UserRecord(u.value)]
  }

  /** The user the start-up effect loads: the stored one, if any; otherwise the current one is kept. */
  function Loaded(storage: map<string, Stored>, current: Option<User>): (r: Option<User>)
    ensures UserKey in storage && storage[UserKey].UserRecord? ==> r == Some(storage[UserKey].user)
    ensures UserKey !in storage ==> r == current
  {
    if UserKey in storage && storage[UserKey].UserRecord? then Some(storage[UserKey].user) else current
  }

  /** After `setUser(u)`, a freshly mounted provider (user null, then the load effect) holds `u` again. */
  lemma SetThenReload(storage: map<string, Stored>, u: Option<User>)
    ensures Loaded(StorageAfterSet(storage, u), None) == u
  {
  }

  /** `setUser(null)` twice stores the same as once. */
  lemma ClearIdempotent(storage: map<string, Stored>)
    ensures StorageAfterSet(StorageAfterSet(storage, None), None) == StorageAfterSet(storage, None)
  {
  }

  class Session {
    var user: Option<User>
    var storage: map<string, Stored>

    /** The provider mounting over an existing localStorage: user starts null, then the effect loads. */
    constructor (storage0: map<string, Stored>)
      ensures storage == storage0
      ensures user == Loaded(storage0, None)
    {
      storage := storage0;
      user := None;
      new;
      if UserKey in storage && storage[UserKey].UserRecord? {
        user := Some(storage[UserKey].user);
      }
    }

    method SetUser(u: Option<User>)
      modifies this
      ensures user == u
      ensures storage == StorageAfterSet(old(storage), u)
    {
      if u.None? {
        storage := storage - {UserKey};
        user := None;
        return;
      }
      storage := storage[UserKey := UserRecord(u.value)];
      user := u;
    }
  }
}
