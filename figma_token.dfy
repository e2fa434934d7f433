/**
 * `useFigmaToken`: the personal access token kept in the browser's local
 * storage, and whether the server has a token of its own.
 */
module FigmaToken {
  import opened Wrappers
  import opened Drafts

  const FIGMA_TOKEN_KEY: string := "figma_access_token"

  class TokenState {
    var token: Option<string>
    var isLoading: bool
    var hasServerToken: bool
    /** The browser's local storage, slot by slot. */
    var storage: map<string, string>

    /** The hook's initial state: no token, loading, no server token. */
    constructor(initialStorage: map<string, string>)
      ensures token == None && isLoading && !hasServerToken && storage == initialStorage
    {
      token := None;
      isLoading := true;
      hasServerToken := false;
      storage := initialStorage;
    }

    /** `hasToken`: a non-empty token of the user's own, or a server token. */
    function HasToken(): (r: bool)
      reads this
      ensures r <==> (token.Some? && token.value != "") || hasServerToken
      ensures !hasServerToken && token.None? ==> !r
    {
      Truthy(token) || hasServerToken
    }

    /**
     * `initializeToken`: the server's answer (`None` when the check failed)
     * sets `hasServerToken`, which otherwise keeps its value; the saved token
     * is loaded from storage either way and loading ends.
     */
    method Initialize(serverCheck: Option<bool>)
      modifies this
      ensures hasServerToken == (if serverCheck.Some? then serverCheck.value else old(hasServerToken))
      ensures token == (if FIGMA_TOKEN_KEY in storage then Some(storage[FIGMA_TOKEN_KEY]) else None)
      ensures !isLoading
      ensures storage == old(storage)
    {
      match serverCheck {
        case Some(b) =>
          hasServerToken := b;
        case None =>
      }
      token := if FIGMA_TOKEN_KEY in storage then Some(storage[FIGMA_TOKEN_KEY]) else None;
      isLoading := false;
    }

    /** `saveToken`: the token stored and made current; an empty token still counts as absent. */
    method SaveToken(newToken: string)
      modifies this
      ensures storage == old(storage)[FIGMA_TOKEN_KEY := newToken]
      ensures token == Some(newToken)
      ensures hasServerToken == old(hasServerToken) && isLoading == old(isLoading)
      ensures HasToken() <==> newToken != "" || hasServerToken
    {
      storage := storage[FIGMA_TOKEN_KEY := newToken];
      token := Some(newToken);
    }

    /** `clearToken`: the stored token removed; afterwards only a server token counts. */
    method ClearToken()
      modifies this
      ensures storage == old(storage) - {FIGMA_TOKEN_KEY}
      ensures token == None
      ensures hasServerToken == old(hasServerToken) && isLoading == old(isLoading)
      ensures HasToken() == hasServerToken
    {
      storage := storage - {FIGMA_TOKEN_KEY};
      token := None;
    }
  }
}
