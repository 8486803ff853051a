/**
 * `usersService` (`app/services/usersService.ts`): user search and user
 * statistics, as functions of the server's reply.
 */
module UsersService {
  import opened Common
  import opened Http
  import opened Uri

  const BaseUrl := "http://82.165.172.113:8745/api/v1"
  const SearchError := "Erreur lors de la recherche d'utilisateurs"
  const StatsError := "Erreur lors de la récupération des statistiques"

  /** `q=<encoded query>&page=<page>&limit=<limit>`. */
  function SearchQuery(query: string, page: nat, limit: nat): string {
    Param("q", EncodeURIComponent(query)) + "&" + Param("page", NatToString(page)) + "&" + Param("limit", NatToString(limit))
  }

  function SearchRequest(token: string, query: string, page: nat, limit: nat): (r: Request)
    ensures r.verb == GET && r.headers == Bearer(token) && r.body.None?
    ensures r.url == BaseUrl + "/users/search?" + SearchQuery(query, page, limit)
  {
    Request(GET, BaseUrl + "/users/search?" + SearchQuery(query, page, limit), Bearer(token), None)
  }

  /**
   * Whatever the user typed, the query string holds exactly the three
   * parameters, and decoding `q` gives the UTF-8 bytes of the text typed.
   */
  lemma SearchQueryParameters(query: string, page: nat, limit: nat)
    ensures Split(SearchQuery(query, page, limit), "&")
            == [Param("q", EncodeURIComponent(query)), Param("page", NatToString(page)), Param("limit", NatToString(limit))]
    ensures PercentDecode(EncodeURIComponent(query)) == Some(Utf8String(query))
    ensures ParseDigits(NatToString(page)) == page && ParseDigits(NatToString(limit)) == limit
  {
    var q := EncodeURIComponent(query);
    assert Lacks(q, '&');
    ParamLacksAmpersand("q", q);
    NumberLacksAmpersand(page);
    ParamLacksAmpersand("page", NatToString(page));
    NumberLacksAmpersand(limit);
    ParamLacksAmpersand("limit", NatToString(limit));
    ThreeParameters(Param("q", q), Param("page", NatToString(page)), Param("limit", NatToString(limit)));
    EncodeDecodeRoundTrip(query);
    NatToStringRoundTrip(page);
    NatToStringRoundTrip(limit);
  }

  /** `searchUsers`: `data || []` on a 2xx reply, else `message || error ||` the search error. */
  function SearchUsers(reply: Reply): (e: Envelope<Json>)
    ensures WellFormed(e) && (e.success <==> Accepted(reply))
    ensures e.success ==> e.data == Some(Or(Prop(BodyOf(reply), "data"), Arr([])))
    ensures Answered(reply) && !e.success ==> e.message == Some(Preferred(BodyOf(reply), MessageOrError(SearchError)))
    ensures !Answered(reply) ==> e == Failure(ConnectionError)
  {
    Standard(reply, OrEmptyList, MessageOrError(SearchError))
  }

  function StatsRequest(token: string, userId: string): (r: Request)
    ensures r.verb == GET && r.url == BaseUrl + "/users/" + userId + "/stats" && r.headers == Bearer(token)
    ensures r.body.None?
  {
    Request(GET, BaseUrl + "/users/" + userId + "/stats", Bearer(token), None)
  }

  /** `getUserStats`: `data` on a 2xx reply, else `message || error ||` the statistics error. */
  function GetUserStats(reply: Reply): (e: Envelope<Json>)
    ensures WellFormed(e) && (e.success <==> Accepted(reply))
    ensures e.success ==> e.data == Prop(BodyOf(reply), "data")
    ensures Answered(reply) && !e.success ==> e.message == Some(Preferred(BodyOf(reply), MessageOrError(StatsError)))
    ensures !Answered(reply) ==> e == Failure(ConnectionError)
  {
    Standard(reply, AsIs, MessageOrError(StatsError))
  }
}
