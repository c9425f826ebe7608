/** The HTTP client wrapper (src/services/api.ts): the bodies of the login
    and register requests, the request interceptor that attaches the bearer
    token, and the response interceptor that answers a 401 by refreshing the
    tokens and replaying the request. */
module Api {
  import opened Types
  import opened Text
  import opened Storage

  // ---------------------------------------------------------------------
  // Request bodies of `authAPI`

  datatype LoginBody = LoginBody(usernameOrEmail: string, password: string)

  datatype RegisterBody = RegisterBody(
    username: string,
    email: string,
    password: string,
    firstName: string,
    lastName: string)

  /** The body `authAPI.login` posts: the email goes in as the identifier. */
  function LoginRequest(email: string, password: string): (b: LoginBody)
    ensures b.usernameOrEmail == email && b.password == password
  {
    LoginBody(email, password)
  }

  /** The first and last name sent on registration: the first
      space-separated piece, and the remaining pieces rejoined with spaces,
      or the first piece again when that is empty. */
  function SplitName(name: string): (names: (string, string))
  {
    var parts := Split(name, ' ');
    var firstName := parts[0];
    var joined := Join(parts[1..], " ");
    (firstName, if joined == "" then firstName else joined)
  }

  /** The first name is the text before the first space; the last name is
      the text after it, or the first name again when that text is empty or
      there is no space at all. When the last name is not a copy, the two
      parts and one space rebuild the name. */
  lemma NameSplitMeaning(name: string)
    ensures ' ' !in SplitName(name).0 && SplitName(name).0 == BeforeFirst(name, ' ')
    ensures ' ' !in name ==> SplitName(name) == (name, name)
    ensures ' ' in name && name[IndexOf(name, ' ') + 1..] != "" ==>
      SplitName(name).1 == name[IndexOf(name, ' ') + 1..]
      && name == SplitName(name).0 + " " + SplitName(name).1
    ensures ' ' in name && name[IndexOf(name, ' ') + 1..] == "" ==> SplitName(name).1 == SplitName(name).0
  {
    if ' ' in name {
      LastNameAfterSpace(name);
      var i := IndexOf(name, ' ');
      AroundIndex(name, i);
      assert [name[i]] == " ";
    } else {
      assert Split(name, ' ') == [name];
    }
  }

  /** With a space in the name, the pieces after the first rejoin to the
      text after the first space. */
  lemma LastNameAfterSpace(name: string)
    requires ' ' in name
    ensures Join(Split(name, ' ')[1..], " ") == name[IndexOf(name, ' ') + 1..]
  {
    SplitRest(name, ' ');
    assert " " == [' '];
  }

  /** A string is the text before position `i`, the character at `i` and
      the text after it. */
  lemma AroundIndex(s: string, i: nat)
    requires i < |s|
    ensures s == s[..i] + [s[i]] + s[i + 1..]
  {
    assert s[i..] == [s[i]] + s[i + 1..];
    assert s == s[..i] + s[i..];
  }

  /** The username sent on registration: the text before the first `@` of
      the email, or all of it. */
  function UsernameFromEmail(email: string): (username: string)
    ensures '@' !in username
    ensures '@' !in email ==> username == email
    ensures '@' in email ==> username == email[..IndexOf(email, '@')]
    ensures '@' in email ==> email == username + ['@'] + email[|username| + 1..]
  {
    var username := BeforeFirst(email, '@');
    assert '@' in email ==> email == email[..IndexOf(email, '@')] + ['@'] + email[IndexOf(email, '@') + 1..];
    username
  }

  /** The body `authAPI.register` posts. */
  function RegisterRequest(name: string, email: string, password: string): (b: RegisterBody)
    ensures b.username == UsernameFromEmail(email) && b.email == email && b.password == password
    ensures (b.firstName, b.lastName) == SplitName(name)
  {
    var (firstName, lastName) := SplitName(name);
    RegisterBody(UsernameFromEmail(email), email, password, firstName, lastName)
  }

  // ---------------------------------------------------------------------
  // Interceptors

  const AuthorizationHeader := "Authorization"
  const LoginPath := "/login"

  function Bearer(token: string): string
  {
    "Bearer " + token
  }

  /** An outgoing request as the interceptors see it. */
  datatype RequestConfig = RequestConfig(url: string, headers: map<string, string>)

  /** The headers after the request interceptor: a bearer header when a
      non-empty `accessToken` is stored, the headers untouched otherwise. */
  function WithBearer(items: map<string, string>, headers: map<string, string>): (r: map<string, string>)
    ensures Truthy(Get(items, AccessTokenKey)) ==>
      r == headers[AuthorizationHeader := Bearer(items[AccessTokenKey])]
    ensures !Truthy(Get(items, AccessTokenKey)) ==> r == headers
  {
    var token := Get(items, AccessTokenKey);
    if Truthy(token) then headers[AuthorizationHeader := Bearer(token.value)] else headers
  }

  /** Attaching the bearer header twice is attaching it once. */
  lemma WithBearerIdempotent(items: map<string, string>, headers: map<string, string>)
    ensures WithBearer(items, WithBearer(items, headers)) == WithBearer(items, headers)
  {
  }

  /** A failed request as the response interceptor receives it. */
  datatype FailedRequest = FailedRequest(config: RequestConfig, error: HttpError)

  /** How the awaited `POST /api/auth/refresh` settled. */
  datatype RefreshOutcome = Refreshed(accessToken: string, refreshToken: string) | RefreshFailed

  /** What the response interceptor does with a failed request: replay it
      with this configuration (through the same interceptors, with no limit
      on how often), or reject with the original error. */
  datatype Handling = Replay(config: RequestConfig) | Reject(error: HttpError)

  /** The store after a successful refresh. */
  function RefreshedItems(items: map<string, string>, accessToken: string, refreshToken: string)
    : (r: map<string, string>)
    ensures Get(r, AccessTokenKey) == Some(accessToken) && Get(r, RefreshTokenKey) == Some(refreshToken)
    ensures forall k :: k != AccessTokenKey && k != RefreshTokenKey ==> Get(r, k) == Get(items, k)
  {
    items[AccessTokenKey := accessToken][RefreshTokenKey := refreshToken]
  }

  /** The store after a failed refresh. */
  function DroppedItems(items: map<string, string>): (r: map<string, string>)
    ensures AccessTokenKey !in r && RefreshTokenKey !in r
    ensures forall k :: k != AccessTokenKey && k != RefreshTokenKey ==> Get(r, k) == Get(items, k)
  {
    items - {AccessTokenKey, RefreshTokenKey}
  }

  /** The axios instance: the shared token store and the page location the
      response interceptor may redirect. */
  class ApiClient {
    const store: TokenStore
    var location: string

    constructor (store: TokenStore, location: string)
      ensures this.store == store && this.location == location
    {
      this.store := store;
      this.location := location;
    }

    /** The request interceptor. */
    method InterceptRequest(config: RequestConfig) returns (out: RequestConfig)
      ensures out.url == config.url
      ensures out.headers == WithBearer(store.items, config.headers)
    {
      var token := store.GetItem(AccessTokenKey);
      out := config;
      if token.Some? && token.value != "" {
        out := out.(headers := out.headers[AuthorizationHeader := Bearer(token.value)]);
      }
    }

    /** The response interceptor's error branch. `refresh` is how the refresh
        call settles if it is made; `refreshAuthorization` is the header that
        call carries, `None` when no call is made. */
    method InterceptError(failed: FailedRequest, refresh: RefreshOutcome)
      returns (handling: Handling, refreshAuthorization: Option<string>)
      modifies store, this`location
      ensures Get(store.items, TokenKey) == Get(old(store.items), TokenKey)
      ensures failed.error.status != Some(401) ==>
        handling == Reject(failed.error) && refreshAuthorization == None
        && store.items == old(store.items) && location == old(location)
      ensures failed.error.status == Some(401) && !Truthy(Get(old(store.items), RefreshTokenKey)) ==>
        handling == Reject(failed.error) && refreshAuthorization == None
        && store.items == old(store.items) && location == old(location)
      ensures failed.error.status == Some(401) && Truthy(Get(old(store.items), RefreshTokenKey)) ==>
        refreshAuthorization == Some(Bearer(old(store.items)[RefreshTokenKey]))
      ensures failed.error.status == Some(401) && Truthy(Get(old(store.items), RefreshTokenKey)) && refresh.Refreshed? ==>
        store.items == RefreshedItems(old(store.items), refresh.accessToken, refresh.refreshToken)
        && handling == Replay(failed.config.(headers :=
             failed.config.headers[AuthorizationHeader := Bearer(refresh.accessToken)]))
        && location == old(location)
      ensures failed.error.status == Some(401) && Truthy(Get(old(store.items), RefreshTokenKey)) && refresh.RefreshFailed? ==>
        store.items == DroppedItems(old(store.items)) && handling == Reject(failed.error) && location == LoginPath
    {
      refreshAuthorization := None;
      if failed.error.status == Some(401) {
        var refreshToken := store.GetItem(RefreshTokenKey);
        if refreshToken.Some? && refreshToken.value != "" {
          refreshAuthorization := Some(Bearer(refreshToken.value));
          match refresh {
            case Refreshed(accessToken, newRefreshToken) =>
              store.SetItem(AccessTokenKey, accessToken);
              store.SetItem(RefreshTokenKey, newRefreshToken);
              var config := failed.config.(headers := failed.config.headers[AuthorizationHeader := Bearer(accessToken)]);
              // `api.request` sends the configuration through the request
              // interceptor again.
              config := InterceptRequest(config);
              return Replay(config), refreshAuthorization;
            case RefreshFailed =>
              store.RemoveItem(AccessTokenKey);
              store.RemoveItem(RefreshTokenKey);
              location := LoginPath;
          }
        }
      }
      handling := Reject(failed.error);
    }
  }

  /** One call made through the axios instance, as the code awaiting it sees
      it. `first` is how the server answered the request, `refresh` how the
      refresh call would settle and `replayed` how the replayed request
      settles; `settled` is what the caller's `await` yields. */
  method Send<T>(client: ApiClient, config: RequestConfig, first: Reply<T>, refresh: RefreshOutcome,
                 replayed: Reply<T>)
    returns (settled: Reply<T>)
    modifies client.store, client`location
    ensures Get(client.store.items, TokenKey) == Get(old(client.store.items), TokenKey)
    ensures first.Resolved? ==> settled == first
    ensures first.Resolved? || first.error.status != Some(401)
            || !Truthy(Get(old(client.store.items), RefreshTokenKey)) ==>
      settled == first && client.store.items == old(client.store.items) && client.location == old(client.location)
    ensures first.Rejected? && first.error.status == Some(401)
            && Truthy(Get(old(client.store.items), RefreshTokenKey)) && refresh.Refreshed? ==>
      settled == replayed && client.location == old(client.location)
      && client.store.items == RefreshedItems(old(client.store.items), refresh.accessToken, refresh.refreshToken)
    ensures first.Rejected? && first.error.status == Some(401)
            && Truthy(Get(old(client.store.items), RefreshTokenKey)) && refresh.RefreshFailed? ==>
      settled == first && client.location == LoginPath
      && client.store.items == DroppedItems(old(client.store.items))
  {
    match first {
      case Resolved(_) =>
        settled := first;
      case Rejected(err) =>
        var handling, _ := client.InterceptError(FailedRequest(config, err), refresh);
        match handling {
          case Replay(_) => settled := replayed;
          case Reject(e) => settled := Rejected(e);
        }
    }
  }

  /** The replayed request passes through the same interceptors with no
      retry guard: when the replay is refused with a 401 again, a second
      refresh call is made and the request is replayed a second time. */
  method RepeatedRefresh(url: string, refreshToken: string, access1: string, access2: string)
    returns (first: Option<string>, second: Option<string>, replays: nat)
    requires refreshToken != ""
    ensures first == Some(Bearer(refreshToken)) && second.Some? && replays == 2
  {
    var store := new TokenStore(map[RefreshTokenKey := refreshToken]);
    var client := new ApiClient(store, "/tasks");
    var unauthorized := HttpError(Some(401), None, None, None);
    var config := RequestConfig(url, map[]);
    replays := 0;
    var handling;
    handling, first := client.InterceptError(FailedRequest(config, unauthorized), Refreshed(access1, "r1"));
    if handling.Replay? {
      replays := replays + 1;
      handling, second := client.InterceptError(FailedRequest(handling.config, unauthorized), Refreshed(access2, "r2"));
      if handling.Replay? {
        replays := replays + 1;
      }
    }
  }
}
