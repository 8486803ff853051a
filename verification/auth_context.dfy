/**
 * The session provider (`app/context/AuthContext.tsx`): the signed-in user, a
 * loading flag, and the device store the token lives in under the key
 * "authToken". Every server reply and every storage failure is an input.
 */
module AuthContext {
  import opened Common
  import opened Http
  import opened TokenStorage
  import ApiService

  /** The provider's state: `user`, `loading`, and the device store it writes to. */
  class AuthProvider {
    var user: Option<ApiService.Fetched>
    var loading: bool
    const store: KeyValueStore

    constructor (store: KeyValueStore)
      ensures this.store == store && user.None? && loading
    {
      this.store := store;
      user := None;
      loading := true;
    }

    /** `isAuthenticated`: `!!user`, true exactly when a user is held. */
    predicate IsAuthenticated()
      reads this
      ensures IsAuthenticated() <==> user != None
    {
      user.Some?
    }

    /** `if (token)`: a non-empty string is stored under "authToken". */
    predicate HasSessionToken()
      reads this, store
    {
      var t := Lookup(store.items, ApiService.AuthKey);
      t.Some? && t.value != ""
    }

    /**
     * `checkAuthStatus`: with a stored token, ask the server whether it is
     * valid; if so fetch the profile and keep it when there is one, otherwise
     * forget the token. A failed storage read forgets the token too. Loading
     * ends false on every path. `verified` tells whether the token check was
     * sent.
     */
    method CheckAuthStatus(readFails: bool, verifyReply: Reply, profileReply: Reply) returns (verified: bool)
      modifies this, store
      ensures !loading
      ensures verified <==> !readFails && old(HasSessionToken())
      ensures readFails ==> store.items == old(store.items) - {ApiService.AuthKey} && user == old(user)
      ensures !readFails && !old(HasSessionToken()) ==> store.items == old(store.items) && user == old(user)
      ensures verified && !ApiService.VerifyToken(verifyReply) ==>
                store.items == old(store.items) - {ApiService.AuthKey} && user == old(user)
      ensures verified && ApiService.VerifyToken(verifyReply) ==>
                store.items == old(store.items)
                && (ApiService.Usable(ApiService.GetProfile(profileReply)) ==> user == ApiService.GetProfile(profileReply))
                && (!ApiService.Usable(ApiService.GetProfile(profileReply)) ==> user == old(user))
    {
      verified := false;
      if readFails {
        store.RemoveItem(ApiService.AuthKey);
      } else if HasSessionToken() {
        verified := true;
        var isValid := ApiService.VerifyToken(verifyReply);
        if isValid {
          var profile := ApiService.GetProfile(profileReply);
          if ApiService.Usable(profile) {
            user := profile;
          }
        } else {
          store.RemoveItem(ApiService.AuthKey);
        }
      }
      loading := false;
    }

    /**
     * `login`: on a successful sign-in with a token, store the token, then
     * fetch the profile; true only when a profile came back. The token is kept
     * even when the profile is missing. A failed write of the token ends the
     * call with false and changes nothing.
     */
    method Login(reply: Reply, writeFails: bool, profileReply: Reply) returns (ok: bool)
      modifies this, store
      ensures var r := ApiService.Login(reply);
              ok <==> r.success && r.token.Some? && r.token.value.Str? && r.token.value.s != "" && !writeFails
                      && ApiService.Usable(ApiService.GetProfile(profileReply))
      ensures ok ==> IsAuthenticated() && user == ApiService.GetProfile(profileReply)
      ensures !ok ==> user == old(user)
      ensures var r := ApiService.Login(reply);
              (r.success && r.token.Some? && r.token.value.Str? && r.token.value.s != "" && !writeFails ==>
                store.items == old(store.items)[ApiService.AuthKey := r.token.value.s])
              && (!(r.success && r.token.Some? && r.token.value.Str? && r.token.value.s != "" && !writeFails) ==>
                store.items == old(store.items))
      ensures loading == old(loading)
    {
      ok := false;
      var response := ApiService.Login(reply);
      if response.success && response.token.Some? && response.token.value.Str? && response.token.value.s != "" && !writeFails {
        store.SetItem(ApiService.AuthKey, response.token.value.s);
        var profile := ApiService.GetProfile(profileReply);
        if ApiService.Usable(profile) {
          user := profile;
          ok := true;
        }
      }
    }

    /** `register`: exactly whether the sign-up succeeded; the session is not touched. */
    method Register(reply: Reply) returns (ok: bool)
      ensures ok <==> ApiService.Registered(reply)
    {
      var response := ApiService.Register(reply);
      ok := response.success;
    }

    /** `logout`: forget the token, then the user; a failed delete changes nothing. */
    method Logout(removeFails: bool)
      modifies this, store
      ensures removeFails ==> store.items == old(store.items) && user == old(user)
      ensures !removeFails ==> store.items == old(store.items) - {ApiService.AuthKey} && !IsAuthenticated()
      ensures loading == old(loading)
    {
      if !removeFails {
        store.RemoveItem(ApiService.AuthKey);
        user := None;
      }
    }
  }

  /**
   * The token store of `tokenStorage` and the session provider use different
   * keys: what one writes the other never reads.
   */
  lemma TokenKeysDiffer(items: map<string, string>, token: string)
    ensures TokenKey != ApiService.AuthKey
    ensures Lookup(items[TokenKey := token], ApiService.AuthKey) == Lookup(items, ApiService.AuthKey)
    ensures Lookup(items[ApiService.AuthKey := token], TokenKey) == Lookup(items, TokenKey)
  {
    assert TokenKey[4] != ApiService.AuthKey[4];
  }

  /** A session started without a stored token stays signed out and sends nothing. */
  method FreshStart(verifyReply: Reply, profileReply: Reply) returns (p: AuthProvider, verified: bool)
    ensures !verified && !p.IsAuthenticated() && !p.loading
  {
    var s := new KeyValueStore();
    p := new AuthProvider(s);
    verified := p.CheckAuthStatus(false, verifyReply, profileReply);
  }

  /** A token written through `tokenStorage` does not sign the user in at the next start. */
  method TokenStorageSessionIsInvisible(token: string, verifyReply: Reply, profileReply: Reply)
    returns (p: AuthProvider, verified: bool)
    ensures !verified && !p.IsAuthenticated()
  {
    var s := new KeyValueStore();
    var _ := SaveToken(s, token, false);
    TokenKeysDiffer(map[], token);
    p := new AuthProvider(s);
    verified := p.CheckAuthStatus(false, verifyReply, profileReply);
  }
}
