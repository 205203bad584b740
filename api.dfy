/** src/config/api.js: the shared HTTP client's two interceptors, over the
    page's storage. */
module Api {
  import opened Wrappers
  import opened Storage

  const AuthorizationHeader := "Authorization"
  const Unauthorized := 401
  const LoginLocation := "/login"

  /** The outgoing request's configuration; only its headers are touched. */
  class RequestConfig {
    var headers: map<string, string>

    constructor (headers: map<string, string>)
      ensures this.headers == headers
    {
      this.headers := headers;
    }
  }

  /** A response that arrived with a 2xx status. */
  datatype HttpResponse = HttpResponse(status: int, data: string)

  /** A failed request: the response status when there was a response. */
  datatype HttpError = HttpError(status: Option<int>, message: string)

  /** How the interceptor settles the promise it is handed. */
  datatype Settled = Fulfilled(response: HttpResponse) | Rejected(error: HttpError)

  /** The request interceptor: with a token stored, set
      `Authorization: Bearer <token>` on the same configuration object and
      hand it on; otherwise hand it on untouched. */
  method OnRequest(config: RequestConfig, store: LocalStorage) returns (out: RequestConfig)
    modifies config
    ensures out == config
    ensures store.Holds(TokenKey) ==>
      config.headers == old(config.headers)[AuthorizationHeader := "Bearer " + store.items[TokenKey]]
    ensures !store.Holds(TokenKey) ==> config.headers == old(config.headers)
  {
    var token := store.GetItem(TokenKey);
    if token.Some? && token.value != "" {
      config.headers := config.headers[AuthorizationHeader := "Bearer " + token.value];
    }
    out := config;
  }

  /** The request interceptor's error side: the error is rejected again. */
  function OnRequestError(error: HttpError): (r: Settled)
    ensures r.Rejected? && r.error == error
  {
    Rejected(error)
  }

  /** The response interceptor's success side: the response passes through. */
  function OnResponse(response: HttpResponse): (r: Settled)
    ensures r.Fulfilled? && r.response == response
  {
    Fulfilled(response)
  }

  /** The response interceptor's error side: a 401 removes both session keys
      and sends the browser to "/login" (a full page load, returned here as
      `reload`); every error, 401 or not, is rejected again. */
  method OnResponseError(error: HttpError, store: LocalStorage) returns (r: Settled, reload: Option<string>)
    modifies store
    ensures r == Rejected(error)
    ensures reload.Some? <==> error.status == Some(Unauthorized)
    ensures reload.Some? ==> reload.value == LoginLocation
    ensures error.status == Some(Unauthorized) ==> store.items == old(store.items) - {TokenKey, UserKey}
    ensures error.status != Some(Unauthorized) ==> store.items == old(store.items)
  {
    reload := None;
    if error.status == Some(Unauthorized) {
      store.RemoveItem(TokenKey);
      store.RemoveItem(UserKey);
      reload := Some(LoginLocation);
    }
    r := Rejected(error);
  }

  /** After a 401 the request interceptor no longer sends a token. */
  method UnauthorizedThenRequest(error: HttpError, store: LocalStorage, config: RequestConfig) returns (r: Settled)
    requires error.status == Some(Unauthorized)
    modifies store, config
    ensures r == Rejected(error)
    ensures config.headers == old(config.headers)
  {
    var reload;
    r, reload := OnResponseError(error, store);
    var _ := OnRequest(config, store);
  }
}
