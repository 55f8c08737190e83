/** The process-wide login state: a user record mirrored in storage under
    'auth_user', restored at start-up. */
module Auth {
  import opened Js
  import opened Json
  import opened LocalStorage
  import ApiClient
  import Config

  /** The storage key of the auth context; the token store's keys are different. */
  const AuthUserKey: string := "auth_user"

  /** The user after the start-up restore, `JNull` standing for `null`:
      `JSON.parse` is the `parse` parameter, None meaning that it threw. */
  function RestoredUser(items: map<string, string>, parse: string -> Option<Json>): Json {
    if AuthUserKey in items && items[AuthUserKey] != "" && parse(items[AuthUserKey]).Some? then
      parse(items[AuthUserKey]).value
    else JNull
  }

  /** The storage after the start-up restore: an entry `JSON.parse` rejects is removed. */
  function RestoredItems(items: map<string, string>, parse: string -> Option<Json>): (r: map<string, string>)
    ensures AuthUserKey in r <==> AuthUserKey in items && (items[AuthUserKey] == "" || parse(items[AuthUserKey]).Some?)
    ensures forall k :: k in r ==> k in items && r[k] == items[k]
    ensures forall k :: k in items && k != AuthUserKey ==> k in r
  {
    if AuthUserKey in items && items[AuthUserKey] != "" && parse(items[AuthUserKey]).None? then
      items - {AuthUserKey}
    else items
  }

  class AuthProvider {
    var user: Json

    /** The provider starts with no user. */
    constructor ()
      ensures user == JNull && !IsAuthenticated()
    {
      user := JNull;
    }

    /** `isAuthenticated: !!user`. */
    predicate IsAuthenticated()
      reads this
    {
      Truthy(user)
    }

    /** The mount effect: a stored entry that parses becomes the user; one
        that does not is removed; without an entry the user stays `null`. */
    method Restore(store: Storage, parse: string -> Option<Json>)
      requires user == JNull
      modifies this, store
      ensures user == RestoredUser(old(store.items), parse)
      ensures store.items == RestoredItems(old(store.items), parse)
    {
      var saved := store.GetItem(AuthUserKey);
      if saved.Some? && saved.value != "" {
        match parse(saved.value) {
          case Some(v) => user := v;
          case None => store.RemoveItem(AuthUserKey);
        }
      }
    }

    /** `login(username, password)`: the password is not used. */
    method Login(store: Storage, username: string, password: string)
      modifies this, store
      ensures user == UserObject(username) && IsAuthenticated()
      ensures store.items == old(store.items)[AuthUserKey := StringifyUser(username)]
    {
      var userData := UserObject(username);
      user := userData;
      store.SetItem(AuthUserKey, StringifyUser(username));
    }

    /** `logout()`. */
    method Logout(store: Storage)
      modifies this, store
      ensures user == JNull && !IsAuthenticated()
      ensures store.items == old(store.items) - {AuthUserKey}
    {
      user := JNull;
      store.RemoveItem(AuthUserKey);
    }
  }

  /** Restoring what `login` stored gives back the same user, for any parser
      that reads the serialised record correctly; after `logout` nothing is
      restored. */
  lemma LoginThenRestore(items: map<string, string>, username: string, parse: string -> Option<Json>)
    requires parse(StringifyUser(username)) == Some(UserObject(username))
    ensures RestoredUser(items[AuthUserKey := StringifyUser(username)], parse) == UserObject(username)
    ensures RestoredItems(items[AuthUserKey := StringifyUser(username)], parse) == items[AuthUserKey := StringifyUser(username)]
    ensures RestoredUser(items - {AuthUserKey}, parse) == JNull
  {
    assert StringifyUser(username)[0] == '{';
  }

  /** With the canonical parser the round trip holds for every username. */
  lemma LoginThenRestoreCanonical(items: map<string, string>, username: string)
    ensures RestoredUser(items[AuthUserKey := StringifyUser(username)], ParseUserRecord) == UserObject(username)
  {
    ParseStringifyUser(username);
    LoginThenRestore(items, username, ParseUserRecord);
  }

  /** A stored value that parses to `null` or `false` restores a user that
      does not authenticate. */
  lemma FalsyRestoreNotAuthenticated(items: map<string, string>, parse: string -> Option<Json>)
    requires AuthUserKey in items && items[AuthUserKey] != ""
    requires parse(items[AuthUserKey]) == Some(JNull) || parse(items[AuthUserKey]) == Some(JBool(false))
    ensures !Truthy(RestoredUser(items, parse))
  {
  }

  /** The token store's `clearAuthToken` never touches 'auth_user', and the
      auth context's `logout` never touches the token store's keys. */
  lemma StoresIndependent(items: map<string, string>)
    ensures AuthUserKey in ApiClient.WithoutToken(items) <==> AuthUserKey in items
    ensures AuthUserKey in items ==> ApiClient.WithoutToken(items)[AuthUserKey] == items[AuthUserKey]
    ensures ApiClient.GetAuthToken(items - {AuthUserKey}) == ApiClient.GetAuthToken(items)
    ensures forall now :: ApiClient.IsTokenExpired(items - {AuthUserKey}, now) == ApiClient.IsTokenExpired(items, now)
  {
    ApiClient.ClearTokenFrame(items, AuthUserKey, 0);
    assert Config.TokenExpiryKey != AuthUserKey;
    assert (items - {AuthUserKey})[Config.TokenExpiryKey := ""] == items[Config.TokenExpiryKey := ""] - {AuthUserKey};
  }
}
