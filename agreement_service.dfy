/** The client-token store of src/app/services/agreement.service.ts: the
    token is persisted in localStorage under one key and mirrored in the
    `clientToken$` holder; `currentAgreement$` holds the agreement of the
    last token the server accepted. */
module AgreementServices {
  import opened Wrappers
  import opened Storage
  import opened AgreementModel

  /** `CLIENT_TOKEN_KEY` */
  const ClientTokenKey: string := "ordify_client_token"

  /** The name of the header that carries the client token. */
  const ClientTokenHeader: string := "x-client-token"

  class AgreementService {
    const store: LocalStorage
    /** `clientToken$` */
    var clientToken: Option<string>
    /** `currentAgreement$` */
    var currentAgreement: Option<Agreement>

    /** The holder mirrors localStorage: a held token is the stored one, and
        a non-empty stored token is held. */
    ghost predicate Valid()
      reads this, store
    {
      && (clientToken.Some? ==> ClientTokenKey in store.items && store.items[ClientTokenKey] == clientToken.value)
      && (ClientTokenKey in store.items && store.items[ClientTokenKey] != "" ==> clientToken.Some?)
    }

    /** The service's constructor, which runs `loadStoredToken`. */
    constructor (store: LocalStorage)
      ensures this.store == store && Valid()
      ensures clientToken == (if Truthy(store.GetItem(ClientTokenKey)) then store.GetItem(ClientTokenKey) else None)
      ensures currentAgreement.None?
    {
      this.store := store;
      clientToken := None;
      currentAgreement := None;
      new;
      LoadStoredToken();
    }

    /** `loadStoredToken`: the holder takes the stored token only when it is
        present and non-empty. */
    method LoadStoredToken()
      modifies this`clientToken
      ensures Truthy(store.GetItem(ClientTokenKey)) ==> clientToken == store.GetItem(ClientTokenKey)
      ensures !Truthy(store.GetItem(ClientTokenKey)) ==> clientToken == old(clientToken)
    {
      var stored := store.GetItem(ClientTokenKey);
      if Truthy(stored) {
        clientToken := stored;
      }
    }

    /** `getClientToken`: the held token, which under `Valid()` is the one
        in localStorage, and is there whenever a non-empty one is stored. */
    function GetClientToken(): (r: Option<string>)
      reads this, store
      ensures r == clientToken
      ensures Valid() && r.Some? ==> store.GetItem(ClientTokenKey) == r
      ensures Valid() && Truthy(store.GetItem(ClientTokenKey)) ==> r.Some?
    {
      clientToken
    }

    /** `hasClientToken`: a token is held and it is not the empty string. */
    function HasClientToken(): (r: bool)
      reads this, store
      ensures r <==> clientToken.Some? && |clientToken.value| > 0
    {
      Truthy(GetClientToken())
    }

    /** `saveClientToken`: persist the token and publish it. */
    method SaveClientToken(token: string)
      requires Valid()
      modifies this, store
      ensures Valid()
      ensures store.items == old(store.items)[ClientTokenKey := token]
      ensures GetClientToken() == Some(token)
      ensures currentAgreement == old(currentAgreement)
    {
      store.SetItem(ClientTokenKey, token);
      clientToken := Some(token);
    }

    /** `clearClientToken`: forget the token and the agreement. */
    method ClearClientToken()
      requires Valid()
      modifies this, store
      ensures Valid()
      ensures store.items == old(store.items) - {ClientTokenKey}
      ensures GetClientToken().None? && !HasClientToken()
      ensures currentAgreement.None?
    {
      store.RemoveItem(ClientTokenKey);
      clientToken := None;
      currentAgreement := None;
    }

    /** The effect of `validateToken`'s reply: only an accepted token
        publishes its agreement. */
    method OnValidateTokenReply(response: TokenValidationResponse)
      modifies this`currentAgreement
      ensures response.valid ==> currentAgreement == Some(response.agreement)
      ensures !response.valid ==> currentAgreement == old(currentAgreement)
    {
      if response.valid {
        currentAgreement := Some(response.agreement);
      }
    }

    /** `validateStoredToken`: the token it asks the server to validate, or
        None (the source's `null`) when no token is held, in which case no
        request is made. */
    method ValidateStoredToken() returns (request: Option<string>)
      ensures request.None? <==> !HasClientToken()
      ensures request.Some? ==> request == clientToken && request.value != ""
    {
      var token := GetClientToken();
      if !Truthy(token) {
        return None;
      }
      request := token;
    }

    /** `getTokenHeaders`: `x-client-token` is present exactly when a token
        is held, and then carries that token; no other header is set. */
    function GetTokenHeaders(): (headers: map<string, string>)
      reads this, store
      ensures ClientTokenHeader in headers <==> HasClientToken()
      ensures ClientTokenHeader in headers ==> Some(headers[ClientTokenHeader]) == clientToken
      ensures headers.Keys <= {ClientTokenHeader}
    {
      var token := GetClientToken();
      if Truthy(token) then map[ClientTokenHeader := token.value] else map[]
    }
  }

  /** A scenario over the service's methods, not a function of the service:
      after a save, the token is held, stored and sent; after a clear, none
      of the three. */
  method SaveThenClear(s: AgreementService, token: string)
    requires s.Valid() && token != ""
    modifies s, s.store
  {
    s.SaveClientToken(token);
    assert s.GetClientToken() == Some(token) && s.store.GetItem(ClientTokenKey) == Some(token);
    assert s.GetTokenHeaders() == map[ClientTokenHeader := token];
    var request := s.ValidateStoredToken();
    assert request == Some(token);
    s.ClearClientToken();
    assert s.store.GetItem(ClientTokenKey).None? && s.GetTokenHeaders() == map[];
    request := s.ValidateStoredToken();
    assert request.None?;
  }
}
