/**
 * The user search hook (`app/hooks/ui/useUserSearch.ts`): the results of the
 * last search, whether one is running, the error to show, the query text and
 * whether anything was searched. The answer of the search call is an input:
 * either the envelope it resolved to or the name of the error it threw. The
 * 300 ms timer is a pending query that fires when the caller says so.
 */
module UserSearch {
  import opened Common

  /** Shown when the search call throws anything but an abort. */
  const SearchError := "Erreur lors de la recherche d'utilisateurs"
  const AbortName := "AbortError"

  /** What awaiting `apiService.searchUsers(query)` gave. */
  datatype SearchResponse =
    | Answer(success: bool, data: Option<Json>, message: Option<Json>)
    | Threw(name: string)

  /** `Array.isArray(v) ? v : []`. */
  function ArrayOrEmpty(v: Json): (r: seq<Json>)
    ensures v.Arr? ==> r == v.items
    ensures !v.Arr? ==> r == []
  {
    if v.Arr? then v.items else []
  }

  /**
   * The results kept from a truthy `data`: its `users` property when that is
   * truthy, else `data` itself, and only when the chosen value is an array.
   */
  function ResultsOf(data: Json): (r: seq<Json>)
    requires Truthy(data)
    ensures Present(Prop(data, "users")) ==> r == ArrayOrEmpty(data.fields["users"])
    ensures !Present(Prop(data, "users")) ==> r == ArrayOrEmpty(data)
  {
    ArrayOrEmpty(Or(Prop(data, "users"), Or(Some(data), Arr([]))))
  }

  /** A list sent under `users` wins over the object around it. */
  lemma UsersListWins(users: seq<Json>, rest: map<string, Json>)
    ensures ResultsOf(Obj(rest["users" := Arr(users)])) == users
  {
  }

  /** A bare list is taken as it is; any other value gives no results. */
  lemma BareListTaken(data: Json)
    requires Truthy(data) && !data.Obj?
    ensures ResultsOf(data) == (if data.Arr? then data.items else [])
  {
  }

  /**
   * The error left by an unsuccessful answer, the error having been cleared
   * first: a message is shown unless it says there is no result ("aucun") or
   * that the client is rate limited ("Trop de requêtes"); a message on which
   * `includes` cannot be called throws, which shows the default error.
   */
  function FailureError(message: Option<Json>): (r: Option<Json>)
    ensures !Present(message) ==> r == None
    ensures Present(message) && JsIncludes(message.value, "aucun").None? ==> r == Some(Str(SearchError))
    ensures Present(message) && message.value.Str? ==>
              var s := message.value.s;
              (r == Some(message.value) <==> !Includes(s, "aucun") && !Includes(s, "Trop de requêtes"))
              && (r != Some(message.value) ==> r == None)
    ensures Present(message) && message.value.Arr? ==>
              var m := message.value;
              (r == Some(m) <==> Str("aucun") !in m.items && Str("Trop de requêtes") !in m.items)
              && (r != Some(m) ==> r == None)
  {
    if !Present(message) then None
    else
      match JsIncludes(message.value, "aucun")
      case None => Some(Str(SearchError))
      case Some(noResult) =>
        if noResult || JsIncludes(message.value, "Trop de requêtes") == Some(true) then None
        else Some(message.value)
  }

  /** A server message is never shown when it reports that nothing matched. */
  lemma NoMatchIsNotAnError(s: string)
    requires s != "" && Includes(s, "aucun")
    ensures FailureError(Some(Str(s))) == None
  {
  }

  class UserSearchState {
    var searchResults: seq<Json>
    var loading: bool
    var error: Option<Json>
    var searchQuery: string
    var hasSearched: bool
    /** The query whose debounced search is scheduled, if any. */
    var pending: Option<string>

    constructor()
      ensures searchResults == [] && !loading && error.None? && searchQuery == "" && !hasSearched && pending.None?
    {
      searchResults := [];
      loading := false;
      error := None;
      searchQuery := "";
      hasSearched := false;
      pending := None;
    }

    method SetSearchQuery(query: string)
      modifies this
      ensures searchQuery == query
      ensures searchResults == old(searchResults) && loading == old(loading) && error == old(error)
      ensures hasSearched == old(hasSearched) && pending == old(pending)
    {
      searchQuery := query;
    }

    /** `clearSearch`: everything back to its initial value; a scheduled search stays scheduled. */
    method ClearSearch()
      modifies this
      ensures searchResults == [] && error.None? && searchQuery == "" && !hasSearched && !loading
      ensures pending == old(pending)
    {
      searchResults := [];
      error := None;
      searchQuery := "";
      hasSearched := false;
      loading := false;
    }

    /**
     * `debouncedSearch(query)`: a blank query clears the results without a
     * request. Otherwise the trimmed query is sent; a successful answer with
     * data gives its results, an unsuccessful one gives none and possibly an
     * error, a thrown error gives none and the default error, except an abort
     * which keeps the previous results. Loading ends on every searched path.
     */
    method DebouncedSearch(query: string, response: SearchResponse) returns (sent: Option<string>)
      modifies this
      ensures searchQuery == old(searchQuery) && pending == old(pending)
      ensures Trim(query) == "" ==>
                sent.None? && searchResults == [] && !hasSearched && error.None? && loading == old(loading)
      ensures Trim(query) != "" ==> sent == Some(Trim(query)) && hasSearched && !loading
      ensures Trim(query) != "" && response.Answer? && response.success && Present(response.data) ==>
                searchResults == ResultsOf(response.data.value) && error.None?
      ensures Trim(query) != "" && response.Answer? && !(response.success && Present(response.data)) ==>
                searchResults == [] && error == FailureError(response.message)
      ensures Trim(query) != "" && response.Threw? && response.name != AbortName ==>
                searchResults == [] && error == Some(Str(SearchError))
      ensures Trim(query) != "" && response.Threw? && response.name == AbortName ==>
                searchResults == old(searchResults) && error.None?
    {
      sent := None;
      if Trim(query) == "" {
        searchResults := [];
        hasSearched := false;
        error := None;
        return;
      }
      loading := true;
      error := None;
      hasSearched := true;
      sent := Some(Trim(query));
      match response {
        case Answer(success, data, message) =>
          if success && Present(data) {
            searchResults := ResultsOf(data.value);
          } else {
            searchResults := [];
            if Present(message) {
              var aucun := JsIncludes(message.value, "aucun");
              if aucun.None? {
                // `includes` is not a function of this message: the catch clause runs
                error := Some(Str(SearchError));
                searchResults := [];
              } else if !aucun.value && JsIncludes(message.value, "Trop de requêtes") != Some(true) {
                error := message;
              }
            }
          }
        case Threw(name) =>
          if name != AbortName {
            error := Some(Str(SearchError));
            searchResults := [];
          }
      }
      loading := false;
    }

    /**
     * `searchUsers(query)`: any scheduled search is cancelled; a blank query
     * clears everything at once, any other query is scheduled.
     */
    method SearchUsers(query: string)
      modifies this
      ensures Trim(query) == "" ==>
                pending.None? && searchResults == [] && error.None? && searchQuery == "" && !hasSearched && !loading
      ensures Trim(query) != "" ==>
                pending == Some(query) && searchResults == old(searchResults) && error == old(error)
                && searchQuery == old(searchQuery) && hasSearched == old(hasSearched) && loading == old(loading)
    {
      pending := None;
      if Trim(query) == "" {
        ClearSearch();
        return;
      }
      pending := Some(query);
    }

    /**
     * The 300 ms timer firing: the scheduled search runs once, with the
     * outcome `debouncedSearch` gives; with nothing scheduled nothing changes.
     */
    method TimerFires(response: SearchResponse) returns (sent: Option<string>)
      modifies this
      ensures pending.None? && searchQuery == old(searchQuery)
      ensures old(pending).None? ==>
                sent.None? && searchResults == old(searchResults) && error == old(error)
                && hasSearched == old(hasSearched) && loading == old(loading)
      ensures old(pending).Some? && Trim(old(pending).value) == "" ==>
                sent.None? && searchResults == [] && !hasSearched && error.None? && loading == old(loading)
      ensures old(pending).Some? && Trim(old(pending).value) != "" ==>
                sent == Some(Trim(old(pending).value)) && !loading && hasSearched
      ensures old(pending).Some? && Trim(old(pending).value) != "" && response.Answer? && response.success && Present(response.data) ==>
                searchResults == ResultsOf(response.data.value) && error.None?
      ensures old(pending).Some? && Trim(old(pending).value) != "" && response.Answer? && !(response.success && Present(response.data)) ==>
                searchResults == [] && error == FailureError(response.message)
      ensures old(pending).Some? && Trim(old(pending).value) != "" && response.Threw? && response.name != AbortName ==>
                searchResults == [] && error == Some(Str(SearchError))
      ensures old(pending).Some? && Trim(old(pending).value) != "" && response.Threw? && response.name == AbortName ==>
                searchResults == old(searchResults) && error.None?
    {
      sent := None;
      if pending.Some? {
        var query := pending.value;
        pending := None;
        sent := DebouncedSearch(query, response);
      }
    }

    /** Unmounting cancels the scheduled search. */
    method Unmount()
      modifies this
      ensures pending.None?
      ensures searchResults == old(searchResults) && error == old(error) && loading == old(loading)
      ensures searchQuery == old(searchQuery) && hasSearched == old(hasSearched)
    {
      pending := None;
    }
  }

  /** Typing two queries within the delay sends only the second one, trimmed. */
  method TypeTwiceThenWait(search: UserSearchState, first: string, second: string, response: SearchResponse)
    returns (sent: Option<string>)
    requires Trim(second) != ""
    modifies search
    ensures sent == Some(Trim(second)) && search.pending.None? && !search.loading
  {
    search.SearchUsers(first);
    search.SearchUsers(second);
    sent := search.TimerFires(response);
  }
}
