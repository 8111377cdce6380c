/** The client's session store and the storage rules of its HTTP interceptors
    (frontend/src/services/api.ts). localStorage is a map from keys to stored values; the
    session lives under the keys "token" and "user". Network answers are parameters. */
module Api {
  import opened Domain

  /** A localStorage value: plain text, or the JSON text of a user record. */
  datatype StoredValue = Text(text: string) | UserJson(user: User)

  type Storage = map<string, StoredValue>

  const TokenKey := "token"
  const UserKey := "user"
  const LoginPath := "/login"

  /** The session keys hold what this module writes there: text under "token", a user under "user". */
  ghost predicate WellFormed(st: Storage)
  {
    && (TokenKey in st ==> st[TokenKey].Text?)
    && (UserKey in st ==> st[UserKey].UserJson?)
  }

  /** `!!localStorage.getItem('token')`: a token is stored and it is not the empty string. */
  predicate IsAuthenticatedIn(st: Storage)
  {
    TokenKey in st && st[TokenKey] != Text("")
  }

  /** `getCurrentUser`: the stored user, if any. */
  function CurrentUserIn(st: Storage): (r: Option<User>)
    ensures WellFormed(st) ==> (r.Some? <==> UserKey in st)
    ensures r.Some? ==> UserKey in st && st[UserKey] == UserJson(r.value)
  {
    if UserKey in st && st[UserKey].UserJson? then Some(st[UserKey].user) else None
  }

  /** The request interceptor: the header value it attaches, if any. */
  function AuthorizationHeader(st: Storage): (h: Option<string>)
    ensures WellFormed(st) ==> (h.Some? <==> IsAuthenticatedIn(st))
    ensures h.Some? ==> TokenKey in st && st[TokenKey].Text? && h.value == "Bearer " + st[TokenKey].text
  {
    if TokenKey in st && st[TokenKey].Text? && st[TokenKey].text != "" then Some("Bearer " + st[TokenKey].text)
    else None
  }

  /** The storage without the two session keys; every other key is kept as it was. */
  function Cleared(st: Storage): (r: Storage)
    ensures TokenKey !in r && UserKey !in r
    ensures forall k :: k in r <==> k in st && k != TokenKey && k != UserKey
    ensures forall k :: k in r ==> r[k] == st[k]
  {
    st - {TokenKey, UserKey}
  }

  /** Clearing an already cleared storage changes nothing. */
  lemma ClearedIdempotent(st: Storage)
    ensures Cleared(Cleared(st)) == Cleared(st)
  {
  }

  /** A cleared storage holds no session: no bearer header, no user. */
  lemma ClearedHasNoSession(st: Storage)
    ensures !IsAuthenticatedIn(Cleared(st)) && CurrentUserIn(Cleared(st)) == None
    ensures AuthorizationHeader(Cleared(st)) == None
  {
  }

  /** An error as the client sees it: the response status (None when no response came
      back) and the `detail` field of the response body, if any. */
  datatype HttpError = HttpError(status: Option<int>, detail: Option<string>)

  /** How a request settles: with a body, or rejected with an error. */
  datatype HttpResult<T> = Success(body: T) | Failure(error: HttpError)

  /** The storage after the response interceptor has seen an error: a 401 clears the session. */
  function AfterError(st: Storage, e: HttpError): (r: Storage)
    ensures e.status == Some(401) ==> r == Cleared(st)
    ensures e.status != Some(401) ==> r == st
  {
    if e.status == Some(401) then Cleared(st) else st
  }

  /** What a successful login hands back. */
  datatype LoginResult = LoginResult(token: Token, user: User)

  /** The browser state the client touches: localStorage and the window's location. */
  class Browser {
    var storage: Storage
    var location: string

    ghost predicate Valid()
      reads this
    {
      WellFormed(storage)
    }

    constructor (initial: Storage, path: string)
      requires WellFormed(initial)
      ensures Valid() && storage == initial && location == path
    {
      storage := initial;
      location := path;
    }

    /** `authService.isAuthenticated`. */
    predicate IsAuthenticated()
      reads this
      ensures IsAuthenticated() <==> TokenKey in storage && storage[TokenKey] != Text("")
    {
      IsAuthenticatedIn(storage)
    }

    /** `authService.getCurrentUser`: none when no user entry is stored, else the stored user. */
    function GetCurrentUser(): (r: Option<User>)
      reads this
      requires Valid()
      ensures r.None? <==> UserKey !in storage
      ensures r.Some? ==> storage[UserKey] == UserJson(r.value)
    {
      CurrentUserIn(storage)
    }

    method SetItem(key: string, value: StoredValue)
      modifies this
      ensures storage == old(storage)[key := value] && location == old(location)
    {
      storage := storage[key := value];
    }

    method RemoveItem(key: string)
      modifies this
      ensures storage == old(storage) - {key} && location == old(location)
    {
      storage := storage - {key};
    }

    /** The response interceptor's error branch: on a 401 remove both session keys and go to
        the login page; the error is passed on to the caller in every case. */
    method OnResponseError(e: HttpError)
      requires Valid()
      modifies this
      ensures Valid()
      ensures storage == AfterError(old(storage), e)
      ensures location == if e.status == Some(401) then LoginPath else old(location)
    {
      if e.status == Some(401) {
        RemoveItem(TokenKey);
        RemoveItem(UserKey);
        location := LoginPath;
      }
    }

    /** One call through the client: the request carries the header the request interceptor
        derives from storage, and a failure passes through the response interceptor. */
    method Request<T>(outcome: HttpResult<T>) returns (r: HttpResult<T>, authorization: Option<string>)
      requires Valid()
      modifies this
      ensures Valid()
      ensures r == outcome
      ensures authorization == AuthorizationHeader(old(storage))
      ensures outcome.Success? ==> storage == old(storage) && location == old(location)
      ensures outcome.Failure? ==> storage == AfterError(old(storage), outcome.error)
      ensures outcome.Failure? ==>
        location == if outcome.error.status == Some(401) then LoginPath else old(location)
    {
      authorization := AuthorizationHeader(storage);
      if outcome.Failure? {
        OnResponseError(outcome.error);
      }
      r := outcome;
    }

    /** `authService.login`: request a token, store it, then request `/users/me` (which
        therefore carries the new token) and store the user. `tokenOutcome` and `meOutcome`
        are how the two requests settle; `meAuthorization` is the header of the second one,
        None when it is never sent. */
    method Login(tokenOutcome: HttpResult<Token>, meOutcome: HttpResult<User>)
      returns (r: HttpResult<LoginResult>, meAuthorization: Option<string>)
      requires Valid()
      modifies this
      ensures Valid()
      ensures tokenOutcome.Failure? ==>
        && r == Failure(tokenOutcome.error) && meAuthorization == None
        && storage == AfterError(old(storage), tokenOutcome.error)
        && location == if tokenOutcome.error.status == Some(401) then LoginPath else old(location)
      ensures tokenOutcome.Success? ==>
        meAuthorization == AuthorizationHeader(old(storage)[TokenKey := Text(tokenOutcome.body.accessToken)])
      ensures tokenOutcome.Success? && meOutcome.Success? ==>
        && r == Success(LoginResult(tokenOutcome.body, meOutcome.body))
        && storage == old(storage)[TokenKey := Text(tokenOutcome.body.accessToken)][UserKey := UserJson(meOutcome.body)]
        && location == old(location)
      ensures tokenOutcome.Success? && meOutcome.Failure? ==>
        && r == Failure(meOutcome.error)
        && storage == AfterError(old(storage)[TokenKey := Text(tokenOutcome.body.accessToken)], meOutcome.error)
        && location == if meOutcome.error.status == Some(401) then LoginPath else old(location)
    {
      var tokenResponse, _ := Request(tokenOutcome);
      if tokenResponse.Failure? {
        return Failure(tokenResponse.error), None;
      }
      var token := tokenResponse.body;
      SetItem(TokenKey, Text(token.accessToken));
      var userResponse, header := Request(meOutcome);
      meAuthorization := header;
      if userResponse.Failure? {
        return Failure(userResponse.error), meAuthorization;
      }
      SetItem(UserKey, UserJson(userResponse.body));
      r := Success(LoginResult(token, userResponse.body));
    }

    /** `authService.register`: the request goes through the interceptors; the session keys
        and the location change only if the answer is a 401, which ends the session. */
    method Register(outcome: HttpResult<User>) returns (r: HttpResult<User>)
      requires Valid()
      modifies this
      ensures Valid()
      ensures r == outcome
      ensures !(outcome.Failure? && outcome.error.status == Some(401)) ==>
        storage == old(storage) && location == old(location)
      ensures outcome.Failure? && outcome.error.status == Some(401) ==>
        storage == Cleared(old(storage)) && location == LoginPath
    {
      var header;
      r, header := Request(outcome);
    }

    /** `authService.logout`: remove both session keys and nothing else. */
    method Logout()
      requires Valid()
      modifies this
      ensures Valid()
      ensures storage == Cleared(old(storage)) && location == old(location)
    {
      RemoveItem(TokenKey);
      RemoveItem(UserKey);
    }
  }

  /** After a fully successful login with a non-empty token the client is authenticated as
      the user `/users/me` returned, and later requests carry that token. */
  lemma LoginEstablishesSession(st: Storage, token: Token, user: User)
    requires token.accessToken != ""
    ensures var after := st[TokenKey := Text(token.accessToken)][UserKey := UserJson(user)];
      && IsAuthenticatedIn(after)
      && CurrentUserIn(after) == Some(user)
      && AuthorizationHeader(after) == Some("Bearer " + token.accessToken)
  {
    var after := st[TokenKey := Text(token.accessToken)][UserKey := UserJson(user)];
    assert after[TokenKey] == Text(token.accessToken);
  }

  /** If `/users/me` fails with anything but a 401, the new token stays stored and the user
      entry is whatever it was before the login (absent on a fresh session). */
  lemma LoginHalfwayKeepsToken(st: Storage, token: Token, e: HttpError)
    requires e.status != Some(401)
    ensures var after := AfterError(st[TokenKey := Text(token.accessToken)], e);
      && after[TokenKey] == Text(token.accessToken)
      && CurrentUserIn(after) == CurrentUserIn(st)
  {
    var after := AfterError(st[TokenKey := Text(token.accessToken)], e);
    assert forall k :: k != TokenKey ==> (k in after <==> k in st);
    assert UserKey in after ==> after[UserKey] == st[UserKey];
  }
}
