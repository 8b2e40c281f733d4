/**
 * The browser's session state: the signed-in user held by the auth
 * provider, mirrored into local storage under one key so that a reload
 * restores it. The user is any JSON value (`null` when signed out); the
 * storage is a map from keys to what `getItem` would give back.
 */
module AuthContext {
  import opened JsValues

  const StorageKey := "studypal_auth_user"

  /** `{ id: 'demo', name: 'Demo User' }`, the user of a login without one. */
  const DemoUser := JObj(map["id" := JStr("demo"), "name" := JStr("Demo User")])

  /** A stored item: empty text, the serialisation of a JSON value, or text `JSON.parse` rejects. */
  datatype Entry = EmptyText | JsonText(value: Json) | InvalidText

  /**
   * The initial user: the parsed stored value, or `null` when nothing (or
   * only empty text) is stored or the text does not parse.
   */
  function InitialUser(storage: map<string, Entry>): (u: Json)
    ensures StorageKey !in storage ==> u == JNull
    ensures u != JNull ==> StorageKey in storage && storage[StorageKey] == JsonText(u)
    ensures forall v :: StorageKey in storage && storage[StorageKey] == JsonText(v) ==> u == v
  {
    if StorageKey in storage && storage[StorageKey].JsonText? then storage[StorageKey].value else JNull
  }

  /** The storage effect has run for `user`: a truthy user is stored, a falsy one removed. */
  predicate Mirrors(user: Json, storage: map<string, Entry>) {
    && (Truthy(user) ==> StorageKey in storage && storage[StorageKey] == JsonText(user))
    && (!Truthy(user) ==> StorageKey !in storage)
  }

  /** The storage after the effect for `user`: only the session key changes. */
  function Mirrored(user: Json, storage: map<string, Entry>): (s: map<string, Entry>)
    ensures Mirrors(user, s)
    ensures forall k :: k != StorageKey ==> (k in s <==> k in storage)
    ensures forall k :: k != StorageKey && k in s ==> s[k] == storage[k]
  {
    if Truthy(user) then storage[StorageKey := JsonText(user)] else storage - {StorageKey}
  }

  /**
   * A reload restores the session: from storage that mirrors a user, the
   * initial user is that user when it is truthy, and `null` (signed out)
   * otherwise.
   */
  lemma ReloadRestoresSession(user: Json, storage: map<string, Entry>)
    requires Mirrors(user, storage)
    ensures Truthy(user) ==> InitialUser(storage) == user
    ensures !Truthy(user) ==> InitialUser(storage) == JNull
    ensures Truthy(InitialUser(storage)) <==> Truthy(user)
  {
  }

  /** `login(nextUser)`: the given user, or the demo user when none (undefined or null) is given. */
  function LoginUser(next: Option<Json>): (u: Json)
    ensures Truthy(u) <==> next.None? || next == Some(JNull) || Truthy(next.value)
    ensures u != DemoUser ==> next.Some? && u == next.value
    ensures next.Some? && next.value != JNull ==> u == next.value
  {
    if next.None? || next.value == JNull then DemoUser else next.value
  }

  /**
   * `updateUser(partial)`: a new object with the fields of the current user
   * (none when it is null) overwritten by those of `partial` (none when
   * absent). The result is an object, so it always counts as signed in.
   */
  function UpdatedUser(prev: Json, partial: Option<Json>): (u: Json)
    ensures u.JObj? && Truthy(u)
    ensures u.fields.Keys == Spread(prev).Keys + (if partial.Some? then Spread(partial.value).Keys else {})
    ensures partial.Some? ==> forall k :: k in Spread(partial.value) ==> u.fields[k] == Spread(partial.value)[k]
    ensures forall k :: k in Spread(prev) && (partial.None? || k !in Spread(partial.value)) ==>
      u.fields[k] == Spread(prev)[k]
  {
    JObj(Spread(prev) + (if partial.Some? then Spread(partial.value) else map[]))
  }

  /** An update with nothing in it keeps an object user as it is. */
  lemma EmptyUpdateKeepsUser(prev: Json)
    requires prev.JObj?
    ensures UpdatedUser(prev, None) == prev
    ensures UpdatedUser(prev, Some(JObj(map[]))) == prev
  {
    assert prev.fields + map[] == prev.fields;
  }

  /** Updating twice is updating once with the second partial over the first. */
  lemma {:induction false} UpdatesCompose(prev: Json, first: Json, second: Json)
    requires first.JObj? && second.JObj?
    ensures UpdatedUser(UpdatedUser(prev, Some(first)), Some(second)) ==
      UpdatedUser(prev, Some(JObj(first.fields + second.fields)))
  {
    assert (Spread(prev) + first.fields) + second.fields == Spread(prev) + (first.fields + second.fields);
  }

  /** The provider's state: the user and the browser storage it mirrors into. */
  class AuthStore {
    var user: Json
    var storage: map<string, Entry>

    /** The mirror invariant: after every change the effect has stored or removed the user. */
    ghost predicate Valid()
      reads this
    {
      Mirrors(user, storage)
    }

    /** `isAuthenticated`: `Boolean(user)`. */
    function IsAuthenticated(): (b: bool)
      reads this
      requires Valid()
      ensures b <==> StorageKey in storage
    {
      Truthy(user)
    }

    /** Mounting the provider: the user read from storage, then the effect's first run. */
    constructor(initial: map<string, Entry>)
      ensures Valid()
      ensures user == InitialUser(initial)
      ensures storage == Mirrored(InitialUser(initial), initial)
    {
      user := InitialUser(initial);
      storage := Mirrored(InitialUser(initial), initial);
    }

    /** `setUser(next)` followed by the effect, which stores a truthy user and removes a falsy one. */
    method SetUser(next: Json)
      modifies this
      ensures Valid()
      ensures user == next
      ensures storage == Mirrored(next, old(storage))
    {
      user := next;
      if Truthy(user) {
        storage := storage[StorageKey := JsonText(user)];
      } else {
        storage := storage - {StorageKey};
      }
    }

    /** `login(nextUser)`: signed in afterwards unless the given user is falsy but not null. */
    method Login(next: Option<Json>)
      modifies this
      ensures Valid()
      ensures user == LoginUser(next)
      ensures storage == Mirrored(LoginUser(next), old(storage))
    {
      SetUser(LoginUser(next));
    }

    /** `updateUser(partial)`: always signed in afterwards, even from a signed-out state. */
    method UpdateUser(partial: Option<Json>)
      modifies this
      ensures Valid()
      ensures user == UpdatedUser(old(user), partial)
      ensures storage == old(storage)[StorageKey := JsonText(user)]
      ensures IsAuthenticated()
    {
      SetUser(UpdatedUser(user, partial));
    }

    /** `logout()`: the user becomes null and the stored session is removed. */
    method Logout()
      modifies this
      ensures Valid()
      ensures user == JNull && !IsAuthenticated()
      ensures storage == old(storage) - {StorageKey}
    {
      SetUser(JNull);
    }
  }
}
