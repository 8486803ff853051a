/**
 * The friends list overlay (`app/components/FriendsListOverlay.tsx`): a paged
 * list of accepted friends, loaded twenty at a time, reset when the overlay
 * opens or is pulled to refresh, extended when the end of the list is reached.
 * The token comes from the token store; the server's answer is an input.
 */
module FriendsList {
  import opened Common
  import opened Http
  import opened FriendsService
  import TokenStorage

  const PageSize := 20
  const AcceptedStatus := "accepted"

  class FriendsListOverlay {
    var friends: seq<FriendFlat>
    var isLoading: bool
    var isRefreshing: bool
    var currentPage: nat
    var hasMore: bool

    /** Pages are numbered from 1. */
    predicate Valid()
      reads this
    {
      currentPage >= 1
    }

    constructor()
      ensures Valid() && friends == [] && !isLoading && !isRefreshing && currentPage == 1 && hasMore
    {
      friends := [];
      isLoading := false;
      isRefreshing := false;
      currentPage := 1;
      hasMore := true;
    }

    /**
     * `loadFriends(page, reset)`. A load that is not a reset does nothing while
     * another is in progress. A reset first empties the list and goes back to
     * page 1. Without a token nothing is requested. A page that loads replaces
     * the list (page 1 or a reset) or is appended to it, and there is more to
     * load exactly when a full page came back. A failure on page 1 empties the
     * list. Every path that starts ends with neither loading nor refreshing.
     */
    method LoadFriends(page: nat, reset: bool, store: TokenStorage.KeyValueStore, readFails: bool, reply: Reply)
      returns (request: Option<Request>)
      requires Valid() && page >= 1
      modifies this
      ensures Valid()
      ensures isLoading && !reset ==> old(isLoading) && request.None?
      ensures old(isLoading) && !reset ==>
                friends == old(friends) && currentPage == old(currentPage) && hasMore == old(hasMore)
                && isLoading && isRefreshing == old(isRefreshing)
      ensures !(old(isLoading) && !reset) ==> !isLoading && !isRefreshing
      ensures !(old(isLoading) && !reset) ==>
                var token := if readFails then None else TokenStorage.Lookup(store.items, TokenStorage.TokenKey);
                var result := GetFriendsList(reply);
                (token.None? || token.value == "" ==>
                   request.None?
                   && (reset ==> friends == [] && currentPage == 1 && hasMore)
                   && (!reset ==> friends == old(friends) && currentPage == old(currentPage) && hasMore == old(hasMore)))
                && (token.Some? && token.value != "" ==>
                   request == Some(GetFriendsListRequest(token.value, AcceptedStatus, page, PageSize)))
                && (token.Some? && token.value != "" && result.success ==>
                   (reset || page == 1 ==> friends == result.data.value)
                   && (!reset && page != 1 ==> friends == old(friends) + result.data.value)
                   && currentPage == page
                   && (hasMore <==> |result.data.value| == PageSize))
                && (token.Some? && token.value != "" && !result.success ==>
                   (page == 1 || reset ==> friends == [])
                   && (page != 1 && !reset ==> friends == old(friends))
                   && (reset ==> currentPage == 1 && hasMore)
                   && (!reset ==> currentPage == old(currentPage) && hasMore == old(hasMore)))
    {
      request := None;
      if isLoading && !reset {
        return;
      }
      isLoading := true;
      if reset {
        friends := [];
        currentPage := 1;
        hasMore := true;
      }
      var token := TokenStorage.GetToken(store, readFails);
      if token.None? || token.value == "" {
        isLoading := false;
        isRefreshing := false;
        return;
      }
      request := Some(GetFriendsListRequest(token.value, AcceptedStatus, page, PageSize));
      ApplyResult(page, reset, GetFriendsList(reply));
      isLoading := false;
      isRefreshing := false;
    }

    /**
     * The answer of `loadFriends`: a page that loads replaces the list (page
     * 1 or a reset) or is appended to it and becomes the current page; a
     * failure on page 1 empties the list.
     */
    method ApplyResult(page: nat, reset: bool, result: Envelope<seq<FriendFlat>>)
      requires Valid() && page >= 1
      modifies this
      ensures Valid()
      ensures result.success && result.data.Some? ==>
                (reset || page == 1 ==> friends == result.data.value)
                && (!reset && page != 1 ==> friends == old(friends) + result.data.value)
                && currentPage == page
                && (hasMore <==> |result.data.value| == PageSize)
      ensures !(result.success && result.data.Some?) ==>
                (page == 1 ==> friends == []) && (page != 1 ==> friends == old(friends))
                && currentPage == old(currentPage) && hasMore == old(hasMore)
      ensures isLoading == old(isLoading) && isRefreshing == old(isRefreshing)
    {
      if result.success && result.data.Some? {
        var data := result.data.value;
        if reset || page == 1 {
          friends := data;
        } else {
          friends := friends + data;
        }
        currentPage := page;
        hasMore := |data| == PageSize;
      } else {
        if page == 1 {
          friends := [];
        }
      }
    }

    /** `onRefresh`: refreshing is shown, then the list is reloaded from page 1. */
    method OnRefresh(store: TokenStorage.KeyValueStore, readFails: bool, reply: Reply) returns (request: Option<Request>)
      requires Valid()
      modifies this
      ensures Valid() && !isLoading && !isRefreshing
      ensures var token := if readFails then None else TokenStorage.Lookup(store.items, TokenStorage.TokenKey);
              var result := GetFriendsList(reply);
              (token.None? || token.value == "" ==> friends == [] && hasMore && request.None?)
              && (token.Some? && token.value != "" ==>
                    request == Some(GetFriendsListRequest(token.value, AcceptedStatus, 1, PageSize)))
              && (token.Some? && token.value != "" && result.success ==>
                    friends == result.data.value && (hasMore <==> |result.data.value| == PageSize))
              && (token.Some? && token.value != "" && !result.success ==> friends == [] && hasMore)
      ensures currentPage == 1
    {
      isRefreshing := true;
      request := LoadFriends(1, true, store, readFails, reply);
    }

    /** `loadMore`: the next page is requested only when there is more and nothing is loading. */
    method LoadMore(store: TokenStorage.KeyValueStore, readFails: bool, reply: Reply) returns (request: Option<Request>)
      requires Valid()
      modifies this
      ensures Valid()
      ensures !(old(hasMore) && !old(isLoading)) ==>
                request.None? && friends == old(friends) && currentPage == old(currentPage)
                && hasMore == old(hasMore) && isLoading == old(isLoading) && isRefreshing == old(isRefreshing)
      ensures old(hasMore) && !old(isLoading) ==>
                var token := if readFails then None else TokenStorage.Lookup(store.items, TokenStorage.TokenKey);
                var result := GetFriendsList(reply);
                !isLoading && !isRefreshing
                && (token.None? || token.value == "" ==>
                      request.None? && friends == old(friends) && currentPage == old(currentPage) && hasMore)
                && (token.Some? && token.value != "" ==>
                      request == Some(GetFriendsListRequest(token.value, AcceptedStatus, old(currentPage) + 1, PageSize)))
                && (token.Some? && token.value != "" && result.success ==>
                      friends == old(friends) + result.data.value && currentPage == old(currentPage) + 1
                      && (hasMore <==> |result.data.value| == PageSize))
                && (token.Some? && token.value != "" && !result.success ==>
                      friends == old(friends) && currentPage == old(currentPage) && hasMore)
    {
      request := None;
      if hasMore && !isLoading {
        request := LoadFriends(currentPage + 1, false, store, readFails, reply);
      }
    }
  }

  /**
   * Opening the overlay and then scrolling to the end: a full first page
   * followed by a second page gives both pages in order, and the page counter
   * says 2.
   */
  method OpenThenScroll(store: TokenStorage.KeyValueStore, first: Reply, second: Reply)
    returns (overlay: FriendsListOverlay)
    requires TokenStorage.TokenKey in store.items && store.items[TokenStorage.TokenKey] != ""
    requires GetFriendsList(first).success && |GetFriendsList(first).data.value| == PageSize
    requires GetFriendsList(second).success
    ensures overlay.friends == GetFriendsList(first).data.value + GetFriendsList(second).data.value
    ensures overlay.currentPage == 2 && !overlay.isLoading
    ensures overlay.hasMore <==> |GetFriendsList(second).data.value| == PageSize
  {
    overlay := new FriendsListOverlay();
    var _ := overlay.LoadFriends(1, true, store, false, first);
    var _ := overlay.LoadMore(store, false, second);
  }
}
