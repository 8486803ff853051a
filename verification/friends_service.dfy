/**
 * `friendsService` (`app/services/friendsService.ts`): the friends list, friend
 * requests and the answers to them, as functions of the server's reply.
 */
module FriendsService {
  import opened Common
  import opened Http

  const BaseUrl := "http://82.165.172.113:8745/api/v1"

  const ListError := "Erreur lors de la récupération des amis"
  const AddError := "Erreur lors de l'ajout d'ami"
  const RequestsError := "Erreur lors de la récupération des demandes d'amitié"
  const RespondError := "Erreur lors de la réponse à la demande d'amitié"

  // ---------------------------------------------------------------- friends list

  /** `FriendFlat`: one friend as the list screens show it. */
  datatype FriendFlat = FriendFlat(
    id: Option<Json>, alias: Option<Json>, avatar: Option<Json>,
    isPublic: bool, status: Option<Json>, createdAt: Option<Json>)

  /** `friend.profile.alias` can be read: the entry and its profile are neither null nor missing. */
  predicate Flattenable(f: Json) {
    !f.Null? && Prop(f, "profile").Some? && !Prop(f, "profile").value.Null?
  }

  /** One server entry flattened: the friend's user id, alias and avatar from its profile, always public. */
  function FlattenOne(f: Json): (r: FriendFlat)
    requires Flattenable(f)
    ensures r.id == Prop(f, "friend_user_id") && r.isPublic
    ensures r.alias == Prop(f.fields["profile"], "alias") && r.avatar == Prop(f.fields["profile"], "avatar")
    ensures r.status == Prop(f, "status") && r.createdAt == Prop(f, "created_at")
  {
    var p := f.fields["profile"];
    FriendFlat(Prop(f, "friend_user_id"), Prop(p, "alias"), Prop(p, "avatar"), true, Prop(f, "status"), Prop(f, "created_at"))
  }

  /** `.map(...)` over the entries; None when one of them throws. */
  function Flatten(items: seq<Json>): (r: Option<seq<FriendFlat>>)
    ensures r.Some? <==> forall i :: 0 <= i < |items| ==> Flattenable(items[i])
    ensures r.Some? ==> |r.value| == |items|
    ensures r.Some? ==> forall i :: 0 <= i < |items| ==> r.value[i] == FlattenOne(items[i])
    decreases |items|
  {
    if items == [] then Some([])
    else if !Flattenable(items[0]) then None
    else match Flatten(items[1..])
      case None => None
      case Some(rest) => Some([FlattenOne(items[0])] + rest)
  }

  /** `result.data?.friends || []`: always truthy, the friends when `data` holds a truthy `friends`. */
  function FriendsOf(body: Json): (r: Json)
    requires !body.Null?
    ensures Truthy(r)
    ensures Prop(body, "data").Some? && !Prop(body, "data").value.Null? && Present(Prop(Prop(body, "data").value, "friends")) ==>
              r == Prop(Prop(body, "data").value, "friends").value
    ensures Prop(body, "data").None? || Prop(body, "data").value.Null? || !Present(Prop(Prop(body, "data").value, "friends")) ==>
              r == Arr([])
  {
    match Prop(body, "data")
    case None => Arr([])
    case Some(d) => if d.Null? then Arr([]) else Or(Prop(d, "friends"), Arr([]))
  }

  /** The list can be mapped: it is an array and every entry can be flattened. */
  predicate Listable(v: Json) {
    v.Arr? && Flatten(v.items).Some?
  }

  /**
   * `getFriendsList`: on a 2xx reply, the entries under `data.friends` (none
   * when absent), flattened one for one; an entry that cannot be flattened or a
   * value that is not a list throws and gives the connection error.
   */
  function GetFriendsList(reply: Reply): (e: Envelope<seq<FriendFlat>>)
    ensures WellFormed(e)
    ensures e.success <==> Accepted(reply) && Listable(FriendsOf(BodyOf(reply)))
    ensures e.success ==> e.data == Flatten(FriendsOf(BodyOf(reply)).items)
    ensures Answered(reply) && !IsOk(reply.status) ==> e.message == Some(Preferred(BodyOf(reply), MessageOrError(ListError)))
    ensures !Answered(reply) || (IsOk(reply.status) && !Listable(FriendsOf(BodyOf(reply)))) ==> e == Failure(ConnectionError)
  {
    if !Answered(reply) then Failure(ConnectionError)
    else if IsOk(reply.status) then
      var friends := FriendsOf(BodyOf(reply));
      if Listable(friends) then Envelope(true, Flatten(friends.items), None) else Failure(ConnectionError)
    else Envelope(false, None, Some(Preferred(BodyOf(reply), MessageOrError(ListError))))
  }

  /** Friends sent at the top level of the body, outside `data`, are not read: the list is empty. */
  lemma TopLevelFriendsIgnored(status: int, entries: seq<Json>)
    requires IsOk(status)
    ensures GetFriendsList(Received(status, Parsed(Obj(map["friends" := Arr(entries)])))).data == Some([])
  {
  }

  /** `friends?status=<status>&page=<page>&limit=<limit>`. */
  function FriendsListQuery(status: string, page: nat, limit: nat): string {
    Param("status", status) + "&" + Param("page", NatToString(page)) + "&" + Param("limit", NatToString(limit))
  }

  function GetFriendsListRequest(token: string, status: string, page: nat, limit: nat): (r: Request)
    ensures r.verb == GET && r.headers == Bearer(token) && r.body.None?
    ensures r.url == BaseUrl + "/friends?" + FriendsListQuery(status, page, limit)
  {
    Request(GET, BaseUrl + "/friends?" + FriendsListQuery(status, page, limit), Bearer(token), None)
  }

  /** The status is inserted without encoding: the query keeps its three parameters as long as it holds no '&'. */
  lemma FriendsListQueryParameters(status: string, page: nat, limit: nat)
    requires Lacks(status, '&')
    ensures Split(FriendsListQuery(status, page, limit), "&")
            == [Param("status", status), Param("page", NatToString(page)), Param("limit", NatToString(limit))]
    ensures ParseDigits(NatToString(page)) == page && ParseDigits(NatToString(limit)) == limit
  {
    ParamLacksAmpersand("status", status);
    NumberLacksAmpersand(page);
    ParamLacksAmpersand("page", NatToString(page));
    NumberLacksAmpersand(limit);
    ParamLacksAmpersand("limit", NatToString(limit));
    ThreeParameters(Param("status", status), Param("page", NatToString(page)), Param("limit", NatToString(limit)));
    NatToStringRoundTrip(page);
    NatToStringRoundTrip(limit);
  }

  /** The defaults: accepted friends, first page, twenty per page. */
  lemma DefaultFriendsListUrl(token: string)
    ensures GetFriendsListRequest(token, "accepted", 1, 20).url
            == BaseUrl + "/friends?" + ("status=accepted" + "&" + "page=1" + "&" + "limit=20")
  {
    DefaultFriendsListQuery();
  }

  lemma DefaultFriendsListQuery()
    ensures FriendsListQuery("accepted", 1, 20) == "status=accepted" + "&" + "page=1" + "&" + "limit=20"
  {
    DefaultPageNumbers();
  }

  lemma DefaultPageNumbers()
    ensures NatToString(1) == "1" && NatToString(20) == "20"
  {
    assert NatToString(2) == "2" && NatToString(0) == "0";
  }

  // ---------------------------------------------------------------- add, requests, respond

  function AddFriendRequest(token: string, friendId: string): (r: Request)
    ensures r.verb == POST && r.url == BaseUrl + "/friends" && r.headers == JsonBearer(token)
    ensures r.body == Some(Obj(map["friend_id" := Str(friendId)]))
  {
    Request(POST, BaseUrl + "/friends", JsonBearer(token), Some(Obj(map["friend_id" := Str(friendId)])))
  }

  /** `addFriend`: `data` on a 2xx reply, else `message || error ||` the add error. */
  function AddFriend(reply: Reply): (e: Envelope<Json>)
    ensures WellFormed(e) && (e.success <==> Accepted(reply))
    ensures e.success ==> e.data == Prop(BodyOf(reply), "data")
    ensures Answered(reply) && !e.success ==> e.message == Some(Preferred(BodyOf(reply), MessageOrError(AddError)))
    ensures !Answered(reply) ==> e == Failure(ConnectionError)
  {
    Standard(reply, AsIs, MessageOrError(AddError))
  }

  function GetFriendRequestsRequest(token: string): (r: Request)
    ensures r.verb == GET && r.url == BaseUrl + "/friends/requests" && r.headers == Bearer(token)
    ensures r.body.None?
  {
    Request(GET, BaseUrl + "/friends/requests", Bearer(token), None)
  }

  /** `getFriendRequests`: `data || []` on a 2xx reply, else `message || error ||` the requests error. */
  function GetFriendRequests(reply: Reply): (e: Envelope<Json>)
    ensures WellFormed(e) && (e.success <==> Accepted(reply))
    ensures e.success ==> e.data == Some(Or(Prop(BodyOf(reply), "data"), Arr([])))
    ensures Answered(reply) && !e.success ==> e.message == Some(Preferred(BodyOf(reply), MessageOrError(RequestsError)))
    ensures !Answered(reply) ==> e == Failure(ConnectionError)
  {
    Standard(reply, OrEmptyList, MessageOrError(RequestsError))
  }

  /** The answer to a friend request. */
  datatype Decision = Accept | Decline

  function DecisionText(d: Decision): string {
    match d
    case Accept => "accepted"
    case Decline => "declined"
  }

  function RespondRequest(token: string, friendId: string, d: Decision): (r: Request)
    ensures r.verb == PUT && r.url == BaseUrl + "/friends/" + friendId + "/respond"
    ensures r.headers == JsonBearer(token) && r.body == Some(Obj(map["status" := Str(DecisionText(d))]))
  {
    Request(PUT, BaseUrl + "/friends/" + friendId + "/respond", JsonBearer(token),
            Some(Obj(map["status" := Str(DecisionText(d))])))
  }

  /** `respondToFriendRequest`: `data` on a 2xx reply, else `message || error ||` the respond error. */
  function RespondToFriendRequest(reply: Reply): (e: Envelope<Json>)
    ensures WellFormed(e) && (e.success <==> Accepted(reply))
    ensures e.success ==> e.data == Prop(BodyOf(reply), "data")
    ensures Answered(reply) && !e.success ==> e.message == Some(Preferred(BodyOf(reply), MessageOrError(RespondError)))
    ensures !Answered(reply) ==> e == Failure(ConnectionError)
  {
    Standard(reply, AsIs, MessageOrError(RespondError))
  }
}
