/** The session state of src/app/services/auth.service.ts: `isAuth$`,
    `isAuthStatusLoading$` and the access token kept in localStorage. The
    HTTP replies of login, logout and refresh are inputs. */
module AuthServices {
  import opened Wrappers
  import opened Storage
  import opened Http

  /** `Role` (its declaring file is not part of this model): the elevated
      `USER` of a signed-in administrator and the baseline `CUSTOMER`. */
  datatype Role = User | Customer

  /** `ITokens` */
  datatype Tokens = Tokens(accessToken: string, refreshToken: string)

  /** The localStorage key of the access token. */
  const AccessTokenKey: string := "accessToken"

  class AuthService {
    const store: LocalStorage
    /** `isAuth$` */
    var isAuth: bool
    /** `isAuthStatusLoading$` */
    var isAuthStatusLoading: bool

    /** Both flags start false. */
    constructor (store: LocalStorage)
      ensures this.store == store
      ensures !isAuth && !isAuthStatusLoading
    {
      this.store := store;
      isAuth := false;
      isAuthStatusLoading := false;
    }

    /** The `tap` of `login` on a successful reply (a failed login changes
        nothing here). */
    method OnLoginReply(response: Tokens)
      modifies this`isAuth, store
      ensures store.items == old(store.items)[AccessTokenKey := response.accessToken]
      ensures isAuth
    {
      store.SetItem(AccessTokenKey, response.accessToken);
      isAuth := true;
    }

    /** The `tap` of `logout` on a successful reply. */
    method OnLogoutReply()
      modifies this`isAuth, store
      ensures store.items == old(store.items) - {AccessTokenKey}
      ensures !isAuth
    {
      store.RemoveItem(AccessTokenKey);
      isAuth := false;
    }

    /** `refresh` once its reply is in: success signs the session in, a 401
        signs it out, any other failure leaves it; the reply, error or not,
        is passed on unchanged. */
    method OnRefreshReply(reply: Result<Tokens, HttpError>) returns (passed: Result<Tokens, HttpError>)
      modifies this`isAuth
      ensures passed == reply
      ensures reply.Success? ==> isAuth
      ensures reply.Failure? && reply.error.status == 401 ==> !isAuth
      ensures reply.Failure? && reply.error.status != 401 ==> isAuth == old(isAuth)
    {
      match reply {
        case Success(_) =>
          isAuth := true;
        case Failure(error) =>
          if error.status == 401 {
            isAuth := false;
          }
      }
      passed := reply;
    }

    /** `checkAuth` when called: the status is loading until the refresh
        settles. */
    method CheckAuth()
      modifies this`isAuthStatusLoading
      ensures isAuthStatusLoading
    {
      isAuthStatusLoading := true;
    }

    /** `checkAuth`'s pipeline once the refresh reply is in: the refresh
        effect, the new access token stored on success, and the `finalize`
        that ends loading whatever the outcome. */
    method OnCheckAuthReply(reply: Result<Tokens, HttpError>) returns (passed: Result<Tokens, HttpError>)
      modifies this`isAuth, this`isAuthStatusLoading, store
      ensures passed == reply
      ensures !isAuthStatusLoading
      ensures reply.Success? ==> isAuth && store.items == old(store.items)[AccessTokenKey := reply.value.accessToken]
      ensures reply.Failure? ==> store.items == old(store.items)
      ensures reply.Failure? ==> isAuth == (reply.error.status != 401 && old(isAuth))
    {
      passed := OnRefreshReply(reply);
      if passed.Success? {
        store.SetItem(AccessTokenKey, passed.value.accessToken);
      }
      isAuthStatusLoading := false;
    }

    /** `getUserRole`: `USER` exactly while the session flag is set. */
    function GetUserRole(): (r: Role)
      reads this
      ensures r == User <==> isAuth
      ensures r == Customer <==> !isAuth
    {
      if isAuth then User else Customer
    }
  }
}
