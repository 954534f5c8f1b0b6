/** The client's authentication session: the tokens and the user profile
    kept in the browser's key/value storage, the queries over them, and the
    role-dependent choice of the API address. */
module Auth {

  import opened Wrappers

  const API_BASE_URL: string := "http://127.0.0.1:8000/api"
  const ACCESS_KEY: string := "accessToken"
  const REFRESH_KEY: string := "refreshToken"
  const USER_KEY: string := "user"

  /** The endpoint whose address depends on the role. */
  const ROLE_ENDPOINT: string := "popular-genres-region-age"

  /** The fields of `UserProfile` the session uses. */
  datatype UserProfile = UserProfile(
    username: string, email: string, firstName: string, lastName: string,
    birthDate: Option<string>, role: string)

  /** `LoginResponse`. */
  datatype Tokens = Tokens(refresh: string, access: string)

  /** A storage value: plain text, or the serialised profile written under
      `user` (serialising and parsing it back are taken as exact inverses). */
  datatype Stored = Text(text: string) | UserJson(profile: UserProfile)

  type Storage = map<string, Stored>

  /** `getAccessToken()`: the stored item, `null` when absent. */
  function AccessTokenIn(s: Storage): (token: Option<Stored>)
    ensures token.None? <==> ACCESS_KEY !in s
    ensures token.Some? ==> token.value == s[ACCESS_KEY]
  {
    if ACCESS_KEY in s then Some(s[ACCESS_KEY]) else None
  }

  /** `isAuthenticated()`: an access token is stored. */
  predicate IsAuthenticatedIn(s: Storage)
    ensures IsAuthenticatedIn(s) <==> ACCESS_KEY in s
  {
    AccessTokenIn(s).Some?
  }

  /** `getCurrentUser()`: the parsed profile; an absent or empty item is
      falsy and gives `null`. */
  function CurrentUserIn(s: Storage): (u: Option<UserProfile>)
    ensures u.Some? <==> USER_KEY in s && s[USER_KEY].UserJson?
  {
    if USER_KEY in s && s[USER_KEY].UserJson? then Some(s[USER_KEY].profile) else None
  }

  /** `user?.role || fallback`: the role when there is one and it is not empty. */
  function RoleOr(u: Option<UserProfile>, fallback: string): (role: string)
    ensures u.Some? && u.value.role != "" ==> role == u.value.role
    ensures u.None? || u.value.role == "" ==> role == fallback
  {
    if u.Some? && u.value.role != "" then u.value.role else fallback
  }

  /** `getCurrentUserRole()`. */
  function CurrentUserRoleIn(s: Storage): (role: string)
    ensures role != "guest" ==> USER_KEY in s && s[USER_KEY].UserJson? && role == s[USER_KEY].profile.role
    ensures USER_KEY !in s || !s[USER_KEY].UserJson? || s[USER_KEY].profile.role == "" ==> role == "guest"
  {
    RoleOr(CurrentUserIn(s), "guest")
  }

  /** `getRoleBasedApiUrl(endpoint)` for the current user `u`. */
  function RoleBasedApiUrl(u: Option<UserProfile>, endpoint: string): (url: string)
    ensures endpoint == ROLE_ENDPOINT && RoleOr(u, "listener") == "artist" ==>
      url == API_BASE_URL + "/music/artists/" + endpoint + "/"
    ensures endpoint == ROLE_ENDPOINT && RoleOr(u, "listener") != "artist" ==>
      url == API_BASE_URL + "/music/listeners/" + endpoint + "/"
    ensures endpoint != ROLE_ENDPOINT ==> url == API_BASE_URL + "/" + endpoint + "/"
  {
    var role := RoleOr(u, "listener");
    if endpoint == ROLE_ENDPOINT then
      if role == "artist" then API_BASE_URL + "/music/artists/" + endpoint + "/"
      else API_BASE_URL + "/music/listeners/" + endpoint + "/"
    else API_BASE_URL + "/" + endpoint + "/"
  }

  /** Only the role `artist` reaches the artist endpoint; a missing or
      empty role counts as a listener. */
  lemma ArtistAddressOnlyForArtists(u: Option<UserProfile>)
    ensures RoleBasedApiUrl(u, ROLE_ENDPOINT) == API_BASE_URL + "/music/artists/" + ROLE_ENDPOINT + "/"
      <==> u.Some? && u.value.role == "artist"
  {
    var artists := API_BASE_URL + "/music/artists/" + ROLE_ENDPOINT + "/";
    var listeners := API_BASE_URL + "/music/listeners/" + ROLE_ENDPOINT + "/";
    assert artists[|API_BASE_URL| + 7] == 'a';
    assert listeners[|API_BASE_URL| + 7] == 'l';
  }

  /** `storeAuthData(tokens, user)` on storage `s`. */
  function AfterStore(s: Storage, tokens: Tokens, user: UserProfile): (t: Storage)
    ensures t.Keys == s.Keys + {ACCESS_KEY, REFRESH_KEY, USER_KEY}
    ensures t[ACCESS_KEY] == Text(tokens.access) && t[REFRESH_KEY] == Text(tokens.refresh)
    ensures t[USER_KEY] == UserJson(user)
  {
    assert ACCESS_KEY != REFRESH_KEY && ACCESS_KEY != USER_KEY && REFRESH_KEY != USER_KEY;
    s[ACCESS_KEY := Text(tokens.access)][REFRESH_KEY := Text(tokens.refresh)][USER_KEY := UserJson(user)]
  }

  /** `logout()` on storage `s`. */
  function AfterLogout(s: Storage): (t: Storage)
    ensures t.Keys == s.Keys - {ACCESS_KEY, REFRESH_KEY, USER_KEY}
    ensures forall k :: k in t ==> t[k] == s[k]
  {
    s - {ACCESS_KEY, REFRESH_KEY, USER_KEY}
  }

  /** After storing, the session is authenticated with the new token, and
      the stored user, with its role, is the current one. */
  lemma StoreThenQuery(s: Storage, tokens: Tokens, user: UserProfile)
    ensures var t := AfterStore(s, tokens, user);
      && IsAuthenticatedIn(t)
      && AccessTokenIn(t) == Some(Text(tokens.access))
      && CurrentUserIn(t) == Some(user)
      && CurrentUserRoleIn(t) == (if user.role != "" then user.role else "guest")
  {
    assert ACCESS_KEY != REFRESH_KEY && ACCESS_KEY != USER_KEY;
  }

  /** After logging out, nobody is authenticated and the role is `guest`. */
  lemma LogoutThenQuery(s: Storage)
    ensures var t := AfterLogout(s);
      && !IsAuthenticatedIn(t)
      && AccessTokenIn(t).None?
      && CurrentUserIn(t).None?
      && CurrentUserRoleIn(t) == "guest"
  {
  }

  /** Logging out removes the three session keys and nothing else. */
  lemma LogoutKeepsOtherKeys(s: Storage, key: string)
    requires key != ACCESS_KEY && key != REFRESH_KEY && key != USER_KEY
    ensures key in AfterLogout(s) <==> key in s
    ensures key in s ==> AfterLogout(s)[key] == s[key]
  {
  }

  /** Storing rewrites the three session keys and nothing else. */
  lemma StoreKeepsOtherKeys(s: Storage, tokens: Tokens, user: UserProfile, key: string)
    requires key != ACCESS_KEY && key != REFRESH_KEY && key != USER_KEY
    ensures key in AfterStore(s, tokens, user) <==> key in s
    ensures key in s ==> AfterStore(s, tokens, user)[key] == s[key]
  {
  }

  /** The browser storage used by the session functions. */
  class AuthStore {
    var storage: Storage

    constructor(initial: Storage)
      ensures storage == initial
    {
      storage := initial;
    }

    function AccessToken(): Option<Stored>
      reads this
    {
      AccessTokenIn(storage)
    }

    predicate IsAuthenticated()
      reads this
    {
      IsAuthenticatedIn(storage)
    }

    function CurrentUser(): Option<UserProfile>
      reads this
    {
      CurrentUserIn(storage)
    }

    function CurrentUserRole(): string
      reads this
    {
      CurrentUserRoleIn(storage)
    }

    function RoleBasedApiUrlFor(endpoint: string): string
      reads this
    {
      RoleBasedApiUrl(CurrentUser(), endpoint)
    }

    /** `storeAuthData(tokens, user)`: three `setItem` calls. */
    method StoreAuthData(tokens: Tokens, user: UserProfile)
      modifies this
      ensures storage == AfterStore(old(storage), tokens, user)
      ensures IsAuthenticated() && AccessToken() == Some(Text(tokens.access)) && CurrentUser() == Some(user)
    {
      storage := storage[ACCESS_KEY := Text(tokens.access)];
      storage := storage[REFRESH_KEY := Text(tokens.refresh)];
      storage := storage[USER_KEY := UserJson(user)];
      StoreThenQuery(old(storage), tokens, user);
    }

    /** `logout()`: three `removeItem` calls. */
    method Logout()
      modifies this
      ensures storage == AfterLogout(old(storage))
      ensures !IsAuthenticated() && CurrentUser().None? && CurrentUserRole() == "guest"
    {
      storage := storage - {ACCESS_KEY};
      storage := storage - {REFRESH_KEY};
      storage := storage - {USER_KEY};
      assert storage == AfterLogout(old(storage));
    }
  }
}
