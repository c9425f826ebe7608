/** The session provider (src/contexts/AuthContext.tsx): the `user`,
    `token` and `loading` state, kept together with the persisted token
    store through start-up, login, registration and logout. */
module Auth {
  import opened Types
  import opened Storage
  import opened Api

  /** The fields the provider reads from a login or register reply. */
  datatype AuthResponse = AuthResponse(token: Option<string>, refreshToken: Option<string>, user: Option<User>)

  /** Why `login` or `register` threw: the request itself failed, or the
      reply lacked a token or a user. */
  datatype AuthFailure = RequestFailed(error: HttpError) | InvalidResponse

  const InvalidResponseMessage := "Invalid response from server"

  /** The reply carries a non-empty token and a user, so the provider can
      adopt it. */
  predicate Usable(response: AuthResponse)
  {
    Truthy(response.token) && response.user.Some?
  }

  /** The store after a successful login or registration: the token under
      `'token'`, the refresh token under `'refreshToken'` only when one came
      back; nothing else changes. */
  function AdoptedItems(items: map<string, string>, token: string, refreshToken: Option<string>)
    : (r: map<string, string>)
    ensures Get(r, TokenKey) == Some(token)
    ensures Truthy(refreshToken) ==> Get(r, RefreshTokenKey) == refreshToken
    ensures !Truthy(refreshToken) ==> Get(r, RefreshTokenKey) == Get(items, RefreshTokenKey)
    ensures forall k :: k != TokenKey && k != RefreshTokenKey ==> Get(r, k) == Get(items, k)
  {
    var withToken := items[TokenKey := token];
    if Truthy(refreshToken) then withToken[RefreshTokenKey := refreshToken.value] else withToken
  }

  /** The store after logout, or after a failed user fetch at start-up. */
  function ClearedItems(items: map<string, string>): (r: map<string, string>)
    ensures TokenKey !in r && RefreshTokenKey !in r
    ensures forall k :: k != TokenKey && k != RefreshTokenKey ==> Get(r, k) == Get(items, k)
  {
    items - {TokenKey, RefreshTokenKey}
  }

  /** The provider writes its token under `'token'` while the request
      interceptor reads `'accessToken'`: logging in does not change whether
      requests carry a bearer header. */
  lemma LoginLeavesBearerAlone(items: map<string, string>, token: string, refreshToken: Option<string>,
                               headers: map<string, string>)
    ensures WithBearer(AdoptedItems(items, token, refreshToken), headers) == WithBearer(items, headers)
  {
    assert Get(AdoptedItems(items, token, refreshToken), AccessTokenKey) == Get(items, AccessTokenKey);
  }

  /** Logout leaves `'accessToken'` in place, so a bearer header written by a
      refresh is still attached after logout. */
  lemma LogoutKeepsBearer(items: map<string, string>, headers: map<string, string>)
    ensures WithBearer(ClearedItems(items), headers) == WithBearer(items, headers)
  {
    assert Get(ClearedItems(items), AccessTokenKey) == Get(items, AccessTokenKey);
  }

  /** A refresh, successful or not, never touches the provider's `'token'`. */
  lemma RefreshKeepsSessionToken(items: map<string, string>, accessToken: string, refreshToken: string)
    ensures Get(RefreshedItems(items, accessToken, refreshToken), TokenKey) == Get(items, TokenKey)
    ensures Get(DroppedItems(items), TokenKey) == Get(items, TokenKey)
  {
  }

  class AuthProvider {
    const store: TokenStore
    var user: Option<User>
    var token: Option<string>
    var loading: bool

    /** No user without a (non-empty) token, and the `token` state mirrors
        what is stored under `'token'`. */
    ghost predicate Valid()
      reads this, store
    {
      && (user.Some? ==> Truthy(token))
      && token == Get(store.items, TokenKey)
    }

    /** The provider's first render: `token` is read from the store, no user
        yet, loading. */
    constructor (store: TokenStore)
      ensures this.store == store && Valid()
      ensures user == None && token == Get(store.items, TokenKey) && loading
    {
      this.store := store;
      user := None;
      token := Get(store.items, TokenKey);
      loading := true;
    }

    /** `initAuth`, run once on mount before anything else touches the
        session. `me` is how `userAPI.getMe()` settles; `fetched` says whether
        it was called. */
    method InitAuth(me: Reply<User>) returns (fetched: bool)
      requires Valid() && user == None
      modifies this, store
      ensures Valid() && !loading
      ensures fetched <==> Truthy(Get(old(store.items), TokenKey))
      ensures !fetched ==> user == None && token == old(token) && store.items == old(store.items)
      ensures fetched && me.Resolved? ==>
        user == Some(me.value) && token == Get(old(store.items), TokenKey) && store.items == old(store.items)
      ensures fetched && me.Rejected? ==>
        user == None && token == None && store.items == ClearedItems(old(store.items))
    {
      var storedToken := store.GetItem(TokenKey);
      fetched := storedToken.Some? && storedToken.value != "";
      if fetched {
        match me {
          case Resolved(userData) =>
            user := Some(userData);
            token := storedToken;
          case Rejected(_) =>
            store.RemoveItem(TokenKey);
            store.RemoveItem(RefreshTokenKey);
            token := None;
        }
      }
      loading := false;
    }

    /** The success path shared by `login` and `register`. */
    method Adopt(response: AuthResponse)
      requires Valid() && Usable(response)
      modifies this`user, this`token, store
      ensures Valid()
      ensures store.items == AdoptedItems(old(store.items), response.token.value, response.refreshToken)
      ensures token == response.token && user == response.user
    {
      store.SetItem(TokenKey, response.token.value);
      if response.refreshToken.Some? && response.refreshToken.value != "" {
        store.SetItem(RefreshTokenKey, response.refreshToken.value);
      }
      token := response.token;
      user := response.user;
    }

    /** `login`. `reply` is how `authAPI.login` settles; `body` is what it
        posts. On any failure the session and the store are left as the
        awaited call left them. */
    method Login(email: string, password: string, reply: Reply<AuthResponse>)
      returns (body: LoginBody, failure: Option<AuthFailure>)
      requires Valid()
      modifies this`user, this`token, store
      ensures Valid() && body == LoginRequest(email, password)
      ensures reply.Rejected? ==> failure == Some(RequestFailed(reply.error))
      ensures reply.Resolved? && !Usable(reply.value) ==> failure == Some(InvalidResponse)
      ensures failure.Some? ==> user == old(user) && token == old(token) && store.items == old(store.items)
      ensures reply.Resolved? && Usable(reply.value) ==>
        failure == None && user == reply.value.user && token == reply.value.token
        && store.items == AdoptedItems(old(store.items), reply.value.token.value, reply.value.refreshToken)
    {
      body := LoginRequest(email, password);
      failure := Settle(reply);
    }

    /** `register`: the same contract as `login`, for `authAPI.register`. */
    method Register(name: string, email: string, password: string, reply: Reply<AuthResponse>)
      returns (body: RegisterBody, failure: Option<AuthFailure>)
      requires Valid()
      modifies this`user, this`token, store
      ensures Valid() && body == RegisterRequest(name, email, password)
      ensures reply.Rejected? ==> failure == Some(RequestFailed(reply.error))
      ensures reply.Resolved? && !Usable(reply.value) ==> failure == Some(InvalidResponse)
      ensures failure.Some? ==> user == old(user) && token == old(token) && store.items == old(store.items)
      ensures reply.Resolved? && Usable(reply.value) ==>
        failure == None && user == reply.value.user && token == reply.value.token
        && store.items == AdoptedItems(old(store.items), reply.value.token.value, reply.value.refreshToken)
    {
      body := RegisterRequest(name, email, password);
      failure := Settle(reply);
    }

    /** What `login` and `register` do with the settled reply. */
    method Settle(reply: Reply<AuthResponse>) returns (failure: Option<AuthFailure>)
      requires Valid()
      modifies this`user, this`token, store
      ensures Valid()
      ensures reply.Rejected? ==> failure == Some(RequestFailed(reply.error))
      ensures reply.Resolved? && !Usable(reply.value) ==> failure == Some(InvalidResponse)
      ensures failure.Some? ==> user == old(user) && token == old(token) && store.items == old(store.items)
      ensures reply.Resolved? && Usable(reply.value) ==>
        failure == None && user == reply.value.user && token == reply.value.token
        && store.items == AdoptedItems(old(store.items), reply.value.token.value, reply.value.refreshToken)
    {
      match reply {
        case Rejected(err) =>
          failure := Some(RequestFailed(err));
        case Resolved(response) =>
          if !Usable(response) {
            failure := Some(InvalidResponse);
          } else {
            Adopt(response);
            failure := None;
          }
      }
    }

    /** `logout`. `authAPI` has no `logout` member, so the server call always
        throws and is swallowed; only the clean-up runs. */
    method Logout()
      requires Valid()
      modifies this`user, this`token, store
      ensures Valid()
      ensures user == None && token == None
      ensures store.items == ClearedItems(old(store.items))
    {
      store.RemoveItem(TokenKey);
      store.RemoveItem(RefreshTokenKey);
      token := None;
      user := None;
    }
  }

  /** Start-up with the user fetch sent through the axios instance: the
      fetch may itself meet a 401, refresh the tokens and be replayed, or
      drop them, before the provider sees how it settled. `first`, `refresh`
      and `replayed` are as for `Send`. */
  method StartUp(provider: AuthProvider, client: ApiClient, config: RequestConfig, first: Reply<User>,
                 refresh: RefreshOutcome, replayed: Reply<User>)
    returns (fetched: bool)
    requires provider.store == client.store && provider.Valid() && provider.user == None
    modifies provider, provider.store, client`location
    ensures provider.Valid() && !provider.loading
    ensures fetched <==> Truthy(Get(old(provider.store.items), TokenKey))
    ensures !fetched ==>
      provider.user == None && provider.store.items == old(provider.store.items) && client.location == old(client.location)
    ensures fetched && first.Resolved? ==>
      provider.user == Some(first.value) && provider.store.items == old(provider.store.items)
    ensures fetched && first.Rejected? && first.error.status == Some(401)
            && Truthy(Get(old(provider.store.items), RefreshTokenKey)) && refresh.Refreshed? && replayed.Resolved? ==>
      provider.user == Some(replayed.value) && provider.token == Get(old(provider.store.items), TokenKey)
      && provider.store.items == RefreshedItems(old(provider.store.items), refresh.accessToken, refresh.refreshToken)
    ensures fetched && first.Rejected? && first.error.status == Some(401)
            && Truthy(Get(old(provider.store.items), RefreshTokenKey)) && refresh.RefreshFailed? ==>
      provider.user == None && provider.token == None && client.location == LoginPath
      && provider.store.items == ClearedItems(DroppedItems(old(provider.store.items)))
    ensures fetched && first.Rejected?
            && (first.error.status != Some(401) || !Truthy(Get(old(provider.store.items), RefreshTokenKey))) ==>
      provider.user == None && provider.token == None && client.location == old(client.location)
      && provider.store.items == ClearedItems(old(provider.store.items))
    ensures fetched && first.Rejected? && first.error.status == Some(401)
            && Truthy(Get(old(provider.store.items), RefreshTokenKey)) && refresh.Refreshed? && replayed.Rejected? ==>
      provider.user == None && provider.token == None && client.location == old(client.location)
      && provider.store.items == ClearedItems(RefreshedItems(old(provider.store.items), refresh.accessToken, refresh.refreshToken))
  {
    var storedToken := provider.store.GetItem(TokenKey);
    var me := first;
    if storedToken.Some? && storedToken.value != "" {
      me := Send(client, config, first, refresh, replayed);
    }
    fetched := provider.InitAuth(me);
  }

  /** `login` with the request sent through the axios instance. A refused
      login with a stored refresh token goes through the refresh first: a
      failed refresh drops the interceptors' keys and redirects even though
      the login itself only throws. `first`, `refresh` and `replayed` are as
      for `Send`. */
  method LoginThroughClient(provider: AuthProvider, client: ApiClient, email: string, password: string,
                            config: RequestConfig, first: Reply<AuthResponse>, refresh: RefreshOutcome,
                            replayed: Reply<AuthResponse>)
    returns (body: LoginBody, failure: Option<AuthFailure>)
    requires provider.store == client.store && provider.Valid()
    modifies provider`user, provider`token, provider.store, client`location
    ensures provider.Valid() && body == LoginRequest(email, password)
    ensures failure.Some? ==> provider.user == old(provider.user) && provider.token == old(provider.token)
    ensures first.Resolved? ==>
      client.location == old(client.location)
      && (Usable(first.value) ==>
            failure == None && provider.user == first.value.user
            && provider.store.items == AdoptedItems(old(provider.store.items), first.value.token.value,
                                                    first.value.refreshToken))
      && (!Usable(first.value) ==> failure == Some(InvalidResponse) && provider.store.items == old(provider.store.items))
    ensures first.Rejected? && first.error.status == Some(401)
            && Truthy(Get(old(provider.store.items), RefreshTokenKey)) && refresh.RefreshFailed? ==>
      failure == Some(RequestFailed(first.error)) && client.location == LoginPath
      && provider.store.items == DroppedItems(old(provider.store.items))
    ensures first.Rejected? && first.error.status == Some(401)
            && Truthy(Get(old(provider.store.items), RefreshTokenKey)) && refresh.Refreshed?
            && replayed.Resolved? && Usable(replayed.value) ==>
      failure == None && provider.user == replayed.value.user
      && provider.store.items == AdoptedItems(
           RefreshedItems(old(provider.store.items), refresh.accessToken, refresh.refreshToken),
           replayed.value.token.value, replayed.value.refreshToken)
  {
    var reply := Send(client, config, first, refresh, replayed);
    body, failure := provider.Login(email, password, reply);
  }

  /** Logging in and then out: the user is set, and afterwards neither the
      user nor any session token remains. */
  method LoginThenLogout(email: string, password: string, token: string, refreshToken: string, who: User)
    returns (loggedIn: Option<User>, afterLogout: Option<User>, stored: map<string, string>)
    requires token != ""
    ensures loggedIn == Some(who)
    ensures afterLogout == None && TokenKey !in stored && RefreshTokenKey !in stored
  {
    var store := new TokenStore(map[]);
    var provider := new AuthProvider(store);
    var _, failure := provider.Login(email, password, Resolved(AuthResponse(Some(token), Some(refreshToken), Some(who))));
    loggedIn := provider.user;
    provider.Logout();
    afterLogout := provider.user;
    stored := store.items;
  }
}
