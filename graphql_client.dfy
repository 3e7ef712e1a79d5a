/**
 * The module-level state and pure rules of the GraphQL client: the stored
 * bearer token with its setter, clearer and getter, the `Authorization`
 * header chosen for every request, and the cache merge policy of the
 * paginated permissions query.
 */
module GraphqlClient {
  import opened Wrappers

  const OAuthClientId: string := ""
  const OAuthClientSecret: string := ""

  /**
   * `btoa(`${OAuthClientId}:${OAuthClientSecret}`)`. Base64 is not part of
   * this model; with the empty id and secret the encoding of ":" is "Og==".
   * No property below depends on this value.
   */
  const BasicAuthToken: string := "Og=="

  /** JavaScript truthiness of `string | null`: present and not empty. */
  predicate Truthy(token: Option<string>) {
    token.Some? && token.value != ""
  }

  /** The `Authorization` header the auth link adds, a function of the token alone. */
  function AuthorizationHeader(authToken: Option<string>): (header: string)
    ensures Truthy(authToken) ==> header == "Bearer " + authToken.value
    ensures !Truthy(authToken) ==> header == "Basic " + BasicAuthToken
  {
    if Truthy(authToken) then "Bearer " + authToken.value else "Basic " + BasicAuthToken
  }

  /** What a server reads from the header: the bearer token, if there is one. */
  function BearerToken(header: string): (t: Option<string>)
    ensures t.Some? ==> "Bearer " + t.value == header
  {
    if |header| >= 7 && header[..7] == "Bearer " then Some(header[7..]) else None
  }

  /**
   * The header carries the stored token exactly when it is truthy, and
   * carries it unchanged; otherwise it falls back to the application's
   * Basic credentials.
   */
  lemma HeaderCarriesToken(authToken: Option<string>)
    ensures BearerToken(AuthorizationHeader(authToken)) == if Truthy(authToken) then authToken else None
  {
    var h := AuthorizationHeader(authToken);
    if Truthy(authToken) {
      assert h[..7] == "Bearer " && h[7..] == authToken.value;
    } else {
      assert h[..6] == "Basic ";
      assert h[..7] != "Bearer " by {
        assert h[1] == 'a' && "Bearer "[1] == 'e';
      }
    }
  }

  /** An empty token is not a token: the request goes out with Basic credentials. */
  lemma EmptyTokenUsesBasic()
    ensures AuthorizationHeader(Some("")) == AuthorizationHeader(None) == "Basic " + BasicAuthToken
  {
  }

  /** The `merge` policy of `iamPaginatePermissions`: the incoming page replaces what is cached. */
  function MergePermissions<T>(existing: Option<T>, incoming: T): (merged: T)
    ensures merged == incoming
  {
    incoming
  }

  /** The module variable `authToken` and the three functions that access it. */
  class TokenStore {
    var authToken: Option<string>

    constructor ()
      ensures authToken == None
    {
      authToken := None;
    }

    method SetAuthToken(token: string)
      modifies this
      ensures authToken == Some(token)
    {
      authToken := Some(token);
    }

    method ClearAuthToken()
      modifies this
      ensures authToken == None
    {
      authToken := None;
    }

    method GetAuthToken() returns (token: Option<string>)
      ensures token == authToken
    {
      token := authToken;
    }

    /** The header the auth link computes when a request is sent. */
    method RequestAuthorization() returns (header: string)
      ensures header == AuthorizationHeader(authToken)
    {
      header := AuthorizationHeader(authToken);
    }
  }

  /**
   * A client of the store: the last token set is the one read back and the
   * one sent; after clearing, nothing is read back and Basic is sent.
   */
  method TokenLifecycle(first: string, second: string) returns (read: Option<string>, sent: string, cleared: Option<string>, sentAfterClear: string)
    ensures read == Some(second)
    ensures sent == AuthorizationHeader(Some(second))
    ensures cleared == None
    ensures sentAfterClear == "Basic " + BasicAuthToken
  {
    var store := new TokenStore();
    store.SetAuthToken(first);
    store.SetAuthToken(second);
    read := store.GetAuthToken();
    sent := store.RequestAuthorization();
    store.ClearAuthToken();
    cleared := store.GetAuthToken();
    sentAfterClear := store.RequestAuthorization();
  }
}
