/**
 * The friends hook (`app/hooks/friends/useFriends.ts`): the friends, received
 * and sent requests and the counters shown from them. The endpoints it is meant
 * to call are not wired yet: every loader empties its list and every mutation
 * reports failure, and the model says so.
 */
module FriendsHook {
  import opened Common

  const Accepted := "accepted"
  const Pending := "pending"

  datatype Friend = Friend(id: string, alias: string, friendshipStatus: string, createdAt: string)
  datatype FriendRequest = FriendRequest(id: string, fromUser: string, toUser: string, status: string, createdAt: string)

  /** The number of elements of `xs` that `keep` accepts: `xs.filter(keep).length`. */
  function Count<T>(xs: seq<T>, keep: T -> bool): (n: nat)
    ensures n <= |xs|
    decreases |xs|
  {
    if xs == [] then 0 else (if keep(xs[0]) then 1 else 0) + Count(xs[1..], keep)
  }

  /** Counting a concatenation adds the two counts. */
  lemma {:induction false} CountAppend<T>(xs: seq<T>, ys: seq<T>, keep: T -> bool)
    ensures Count(xs + ys, keep) == Count(xs, keep) + Count(ys, keep)
    decreases |xs|
  {
    if xs != [] {
      assert (xs + ys)[1..] == xs[1..] + ys;
      CountAppend(xs[1..], ys, keep);
    } else {
      assert xs + ys == ys;
    }
  }

  /** Every element counts exactly when every element is accepted. */
  lemma {:induction false} CountAll<T>(xs: seq<T>, keep: T -> bool)
    ensures Count(xs, keep) == |xs| <==> forall i :: 0 <= i < |xs| ==> keep(xs[i])
    decreases |xs|
  {
    if xs != [] {
      CountAll(xs[1..], keep);
      if forall i :: 0 <= i < |xs| ==> keep(xs[i]) {
        forall i | 0 <= i < |xs[1..]| ensures keep(xs[1..][i]) {
          assert xs[1..][i] == xs[i + 1];
        }
      }
    }
  }

  /** Nothing counts exactly when no element is accepted. */
  lemma {:induction false} CountNone<T>(xs: seq<T>, keep: T -> bool)
    ensures Count(xs, keep) == 0 <==> forall i :: 0 <= i < |xs| ==> !keep(xs[i])
    decreases |xs|
  {
    if xs != [] {
      CountNone(xs[1..], keep);
      if forall i :: 0 <= i < |xs| ==> !keep(xs[i]) {
        forall i | 0 <= i < |xs[1..]| ensures !keep(xs[1..][i]) {
          assert xs[1..][i] == xs[i + 1];
        }
      }
    }
  }

  /** `getFriendsCount`: the friends whose friendship is accepted. */
  function FriendsCount(friends: seq<Friend>): (n: nat)
    ensures n <= |friends|
    ensures n == |friends| <==> forall i :: 0 <= i < |friends| ==> friends[i].friendshipStatus == Accepted
    ensures n == 0 <==> forall i :: 0 <= i < |friends| ==> friends[i].friendshipStatus != Accepted
  {
    var keep := (f: Friend) => f.friendshipStatus == Accepted;
    CountAll(friends, keep);
    CountNone(friends, keep);
    Count(friends, keep)
  }

  /** `getPendingRequestsCount`: the received requests still pending. */
  function PendingRequestsCount(requests: seq<FriendRequest>): (n: nat)
    ensures n <= |requests|
    ensures n == |requests| <==> forall i :: 0 <= i < |requests| ==> requests[i].status == Pending
    ensures n == 0 <==> forall i :: 0 <= i < |requests| ==> requests[i].status != Pending
  {
    var keep := (r: FriendRequest) => r.status == Pending;
    CountAll(requests, keep);
    CountNone(requests, keep);
    Count(requests, keep)
  }

  /** The friends counter of two lists shown together is the sum of their counters. */
  lemma FriendsCountAppend(a: seq<Friend>, b: seq<Friend>)
    ensures FriendsCount(a + b) == FriendsCount(a) + FriendsCount(b)
  {
    CountAppend(a, b, (f: Friend) => f.friendshipStatus == Accepted);
  }

  /** The actions the hook offers on friendships, none of which reaches a server yet. */
  datatype Mutation =
    | SendRequest(userId: string)
    | AcceptRequest(requestId: string)
    | RejectRequest(requestId: string)
    | RemoveFriend(friendId: string)
    | BlockUser(userId: string)
    | UnblockUser(userId: string)

  class FriendsHookState {
    var friends: seq<Friend>
    var friendRequests: seq<FriendRequest>
    var sentRequests: seq<FriendRequest>
    var loading: bool
    var refreshing: bool
    var error: Option<string>

    constructor()
      ensures friends == [] && friendRequests == [] && sentRequests == []
      ensures !loading && !refreshing && error.None?
    {
      friends := [];
      friendRequests := [];
      sentRequests := [];
      loading := false;
      refreshing := false;
      error := None;
    }

    /** The number of accepted friendships: all of the list exactly when each is accepted, none exactly when none is. */
    function GetFriendsCount(): (n: nat)
      reads this
      ensures n <= |friends|
      ensures n == |friends| <==> forall i :: 0 <= i < |friends| ==> friends[i].friendshipStatus == Accepted
      ensures n == 0 <==> forall i :: 0 <= i < |friends| ==> friends[i].friendshipStatus != Accepted
    {
      FriendsCount(friends)
    }

    /** The number of pending received requests, with the same bounds. */
    function GetPendingRequestsCount(): (n: nat)
      reads this
      ensures n <= |friendRequests|
      ensures n == |friendRequests| <==> forall i :: 0 <= i < |friendRequests| ==> friendRequests[i].status == Pending
      ensures n == 0 <==> forall i :: 0 <= i < |friendRequests| ==> friendRequests[i].status != Pending
    {
      PendingRequestsCount(friendRequests)
    }

    /** `loadFriends`: the error is cleared, the list is emptied, loading ends. */
    method LoadFriends()
      modifies this
      ensures friends == [] && !loading && error.None?
      ensures friendRequests == old(friendRequests) && sentRequests == old(sentRequests) && refreshing == old(refreshing)
    {
      loading := true;
      error := None;
      friends := [];
      loading := false;
    }

    /** `loadFriendRequests`: the error is cleared and the received requests are emptied. */
    method LoadFriendRequests()
      modifies this
      ensures friendRequests == [] && error.None?
      ensures friends == old(friends) && sentRequests == old(sentRequests)
      ensures loading == old(loading) && refreshing == old(refreshing)
    {
      error := None;
      friendRequests := [];
    }

    /** `loadSentRequests`: the error is cleared and the sent requests are emptied. */
    method LoadSentRequests()
      modifies this
      ensures sentRequests == [] && error.None?
      ensures friends == old(friends) && friendRequests == old(friendRequests)
      ensures loading == old(loading) && refreshing == old(refreshing)
    {
      error := None;
      sentRequests := [];
    }

    /** Every mutation reports failure; with no `modifies`, no list can change. */
    method Mutate(m: Mutation) returns (ok: bool)
      ensures !ok
    {
      ok := false;
    }

    /** `refreshData`: the three loaders run, then refreshing ends; both counters read zero. */
    method RefreshData()
      modifies this
      ensures !refreshing && !loading && error.None?
      ensures friends == [] && friendRequests == [] && sentRequests == []
      ensures GetFriendsCount() == 0 && GetPendingRequestsCount() == 0
    {
      refreshing := true;
      LoadFriends();
      LoadFriendRequests();
      LoadSentRequests();
      refreshing := false;
    }
  }
}
