/**
 * The browser session: `AuthProvider` holds `user`, `token` and `isLoading`
 * in memory and mirrors the session in two local-storage entries, "user"
 * (the serialised user) and "token". It restores the session once when it is
 * mounted, and `login` and `logout` change memory and storage together.
 */
module AuthContext {
  import opened Wrappers
  import opened AuthTypes
  import UserJson

  const UserKey := "user"
  const TokenKey := "token"

  /** The browser's local storage: key to text. */
  type Storage = map<string, string>

  /** `localStorage.getItem(key)` tested for truth: present and not the empty string. */
  predicate Truthy(storage: Storage, key: string) {
    key in storage && storage[key] != ""
  }

  /** What the restore effect finds in storage. */
  datatype Restoration =
    | Restored(user: User, token: string)
    | NothingStored
    | ParseError    // the stored user text does not parse: the effect throws

  function Restore(storage: Storage): (r: Restoration)
    ensures r.NothingStored? <==> !Truthy(storage, UserKey) || !Truthy(storage, TokenKey)
    ensures r.Restored? <==>
      Truthy(storage, UserKey) && Truthy(storage, TokenKey) && UserJson.Decode(storage[UserKey]).Some?
    ensures r.ParseError? <==>
      Truthy(storage, UserKey) && Truthy(storage, TokenKey) && UserJson.Decode(storage[UserKey]).None?
    ensures r.Restored? ==>
      && Truthy(storage, TokenKey) && r.token == storage[TokenKey]
      && UserKey in storage && UserJson.Decode(storage[UserKey]) == Some(r.user)
  {
    if Truthy(storage, UserKey) && Truthy(storage, TokenKey) then
      match UserJson.Decode(storage[UserKey])
      case Some(u) => Restored(u, storage[TokenKey])
      case None => ParseError
    else NothingStored
  }

  /** Storage after `login(user, token)`: both entries written, every other entry kept. */
  function AfterLogin(storage: Storage, user: User, token: string): (r: Storage)
    ensures UserKey in r && r[UserKey] == UserJson.Encode(user)
    ensures TokenKey in r && r[TokenKey] == token
    ensures forall k :: k != UserKey && k != TokenKey ==> (k in r <==> k in storage)
    ensures forall k :: k != UserKey && k != TokenKey && k in storage ==> r[k] == storage[k]
  {
    storage[UserKey := UserJson.Encode(user)][TokenKey := token]
  }

  /** Storage after `logout()`: both entries removed, every other entry kept. */
  function AfterLogout(storage: Storage): (r: Storage)
    ensures UserKey !in r && TokenKey !in r
    ensures forall k :: k != UserKey && k != TokenKey ==> (k in r <==> k in storage)
    ensures forall k :: k in r ==> r[k] == storage[k]
  {
    storage - {UserKey, TokenKey}
  }

  /** A reload after `login(user, token)` brings back the same user and token, provided the token is not empty. */
  lemma ReloadAfterLogin(storage: Storage, user: User, token: string)
    requires token != ""
    ensures Restore(AfterLogin(storage, user, token)) == Restored(user, token)
  {
    UserJson.DecodeEncode(user);
  }

  /** An empty token is falsy: the session it was stored with does not survive a reload. */
  lemma ReloadAfterLoginWithEmptyToken(storage: Storage, user: User)
    ensures Restore(AfterLogin(storage, user, "")) == NothingStored
  {
  }

  /** A reload after `logout()` finds no session. */
  lemma ReloadAfterLogout(storage: Storage)
    ensures Restore(AfterLogout(storage)) == NothingStored
  {
  }

  /** The value the provider hands to its consumers. */
  datatype AuthContextValue = AuthContextValue(user: Option<User>, token: Option<string>, isAuthenticated: bool)

  const OutsideProvider := "useAuth must be used within an AuthProvider"

  /** `useAuth()`: the provider's value, or an error where there is no provider above. */
  function UseAuth(context: Option<AuthContextValue>): (r: Result<AuthContextValue, string>)
    ensures r.Success? <==> context.Some?
    ensures r.Success? ==> r.value == context.value
    ensures r.Failure? ==> r.error == OutsideProvider
  {
    match context
    case Some(value) => Success(value)
    case None => Failure(OutsideProvider)
  }

  class AuthProvider {
    var user: Option<User>
    var token: Option<string>
    var isLoading: bool
    /** The browser's local storage, which outlives the provider. */
    var storage: Storage

    /** User and token are held together or not at all. */
    ghost predicate Valid()
      reads this
    {
      user.Some? <==> token.Some?
    }

    /** A freshly mounted provider: nothing in memory, still loading. */
    constructor (storage: Storage)
      ensures Valid()
      ensures user == None && token == None && isLoading && this.storage == storage
    {
      user := None;
      token := None;
      isLoading := true;
      this.storage := storage;
    }

    /** `isAuthenticated: !!user`; in a valid provider, exactly when a token is held. */
    function IsAuthenticated(): (r: bool)
      reads this
      ensures Valid() ==> (r <==> token.Some?)
    {
      user.Some?
    }

    /** `{!isLoading && children}`: the children are shown only once loading is over. */
    predicate ChildrenShown()
      reads this
    {
      !isLoading
    }

    function Value(): (v: AuthContextValue)
      reads this
      ensures v.user == user && v.token == token
      ensures v.isAuthenticated <==> v.user.Some?
    {
      AuthContextValue(user, token, IsAuthenticated())
    }

    /**
     * The mount effect: when both entries are truthy, parse the user and set
     * user and token; then end loading. A stored user that does not parse
     * throws before anything is set, and loading never ends. Storage is only read.
     */
    method RestoreSession()
      requires Valid()
      modifies this
      ensures Valid() && storage == old(storage)
      ensures match Restore(storage)
        case Restored(u, t) => user == Some(u) && token == Some(t) && !isLoading
        case NothingStored => user == old(user) && token == old(token) && !isLoading
        case ParseError => user == old(user) && token == old(token) && isLoading == old(isLoading)
    {
      var storedUser := if UserKey in storage then Some(storage[UserKey]) else None;
      var storedToken := if TokenKey in storage then Some(storage[TokenKey]) else None;
      if storedUser.Some? && storedUser.value != "" && storedToken.Some? && storedToken.value != "" {
        var parsed := UserJson.Decode(storedUser.value);
        if parsed.None? {
          return;
        }
        user := parsed;
        token := storedToken;
      }
      isLoading := false;
    }

    method Login(u: User, t: string)
      modifies this
      ensures Valid() && IsAuthenticated()
      ensures user == Some(u) && token == Some(t) && isLoading == old(isLoading)
      ensures storage == AfterLogin(old(storage), u, t)
    {
      user := Some(u);
      token := Some(t);
      storage := storage[UserKey := UserJson.Encode(u)];
      storage := storage[TokenKey := t];
    }

    method Logout()
      modifies this
      ensures Valid() && !IsAuthenticated()
      ensures user == None && token == None && isLoading == old(isLoading)
      ensures storage == AfterLogout(old(storage))
    {
      user := None;
      token := None;
      storage := storage - {UserKey};
      storage := storage - {TokenKey};
    }
  }

  /** A page load: a new provider over what the browser kept, after its mount effect. */
  method Mount(storage: Storage) returns (p: AuthProvider)
    ensures fresh(p) && p.Valid() && p.storage == storage
    ensures match Restore(storage)
      case Restored(u, t) => p.user == Some(u) && p.token == Some(t) && p.IsAuthenticated() && p.ChildrenShown()
      case NothingStored => !p.IsAuthenticated() && p.ChildrenShown()
      case ParseError => !p.IsAuthenticated() && !p.ChildrenShown()
  {
    p := new AuthProvider(storage);
    p.RestoreSession();
  }

  /** Log in, then reload the page: the new provider is signed in as the same user with the same token. */
  method LoginThenReload(p: AuthProvider, u: User, t: string) returns (q: AuthProvider)
    requires t != ""
    modifies p
    ensures q.user == Some(u) && q.token == Some(t) && q.IsAuthenticated() && q.ChildrenShown()
  {
    p.Login(u, t);
    ReloadAfterLogin(old(p.storage), u, t);
    q := Mount(p.storage);
  }

  /** Log out, then reload the page: the new provider is signed out and shows its children. */
  method LogoutThenReload(p: AuthProvider) returns (q: AuthProvider)
    modifies p
    ensures !q.IsAuthenticated() && q.ChildrenShown()
  {
    p.Logout();
    ReloadAfterLogout(old(p.storage));
    q := Mount(p.storage);
  }
}
