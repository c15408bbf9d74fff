/**
 * `TokenSync` of src/components/providers/session-provider.tsx: whenever the
 * session changes, it mirrors the session's access token into the browser's
 * `localStorage` under the key the API client reads, or removes that key
 * when the session holds no token.
 */
module SessionProvider {
  import opened Wrappers
  import opened Strings
  import Auth
  import Api
  import Browser

  const SYNC_KEY := "accessToken"

  /** The token written here is the token the API client reads. */
  lemma SameKeyAsClient()
    ensures SYNC_KEY == Api.ACCESS_TOKEN_KEY
  {
  }

  /** `(data as any)?.accessToken`: the session's token, if there is a session. */
  function SessionToken(data: Option<Auth.SessionValue>): (t: Option<string>)
    ensures data.None? ==> t.None?
    ensures data.Some? ==> t == data.value.accessToken
  {
    if data.Some? then data.value.accessToken else None
  }

  /** What one run of the effect leaves in the store. */
  function SyncedStore(store: map<string, string>, hasWindow: bool, token: Option<string>): (r: map<string, string>)
    ensures !hasWindow ==> r == store
    ensures hasWindow && OptTruthy(token) ==> SYNC_KEY in r && r[SYNC_KEY] == token.value
    ensures hasWindow && !OptTruthy(token) ==> SYNC_KEY !in r
    ensures forall k :: k != SYNC_KEY ==> (k in r <==> k in store)
    ensures forall k :: k != SYNC_KEY && k in r ==> r[k] == store[k]
  {
    if !hasWindow then store
    else if OptTruthy(token) then store[SYNC_KEY := token.value]
    else store - {SYNC_KEY}
  }

  /** Running the effect again for the same session changes nothing more. */
  lemma SyncIdempotent(store: map<string, string>, hasWindow: bool, token: Option<string>)
    ensures SyncedStore(SyncedStore(store, hasWindow, token), hasWindow, token) == SyncedStore(store, hasWindow, token)
  {
  }

  /** The store after a sync depends on the session alone, not on what it held under the key before. */
  lemma SyncForgetsPrevious(store: map<string, string>, previous: string, token: Option<string>)
    ensures SyncedStore(store[SYNC_KEY := previous], true, token) == SyncedStore(store - {SYNC_KEY}, true, token)
  {
  }

  /** The effect: with a window, set or remove the token; during server rendering, nothing. */
  method TokenSync(host: Browser.Host, data: Option<Auth.SessionValue>)
    modifies host
    ensures host.localStorage == SyncedStore(old(host.localStorage), host.hasWindow, SessionToken(data))
  {
    var accessToken := SessionToken(data);
    if !host.hasWindow {
      return;
    }
    if OptTruthy(accessToken) {
      host.SetItem(SYNC_KEY, accessToken.value);
    } else {
      host.RemoveItem(SYNC_KEY);
    }
  }

  /** After a sync with a window, the API client reads exactly the session's token (`null` for none or an empty one). */
  method SyncThenRead(host: Browser.Host, data: Option<Auth.SessionValue>) returns (read: Option<string>)
    requires host.hasWindow
    modifies host
    ensures OptTruthy(SessionToken(data)) ==> read == SessionToken(data)
    ensures !OptTruthy(SessionToken(data)) ==> read.None?
  {
    TokenSync(host, data);
    read := Api.GetAccessToken(host);
  }
}
