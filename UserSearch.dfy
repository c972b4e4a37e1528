/**
 * The opponent picker: which queries are sent to the user search, how the
 * search response is turned into users, and how selecting a user, clearing
 * the picker and focusing the input change the component's state.
 */
module UserSearch {
  import opened Wrappers
  import opened Text

  /** A Farcaster user as the picker keeps it. */
  datatype FarcasterUser = FarcasterUser(
    fid: int,
    username: string,
    displayName: string,
    pfpUrl: Option<string>,
    verifiedEth: seq<string>)

  /** The `verified_addresses` member of a user in the search response. */
  datatype RawVerified = RawVerified(ethAddresses: Option<seq<string>>)

  /** One user record of the search response; the optional members may be missing from the JSON. */
  datatype RawUser = RawUser(
    fid: int,
    username: string,
    displayName: string,
    pfpUrl: Option<string>,
    verifiedAddresses: Option<RawVerified>)

  /** The decoded body of a successful search response: `{ result?: { users?: [...] } }`. */
  datatype SearchResult = SearchResult(users: Option<seq<RawUser>>)
  datatype SearchBody = SearchBody(result: Option<SearchResult>)

  /** How the search request ended: it threw, or answered with a non-2xx or a 2xx status. */
  datatype SearchResponse = Threw | NotOk | Ok(body: SearchBody)

  /** The request the picker sends: the query and the result limit. */
  datatype SearchRequest = SearchRequest(query: string, limit: nat)

  const SearchLimit: nat := 5
  const SearchFailedToast := "Failed to search users"
  const NoAddressToast := "This user has no verified Ethereum address"

  /** The Ethereum addresses of a raw user, an empty list when any level of the member is missing. */
  function EthAddresses(v: Option<RawVerified>): (r: seq<string>)
    ensures v.None? || v.value.ethAddresses.None? ==> r == []
    ensures v.Some? && v.value.ethAddresses.Some? ==> r == v.value.ethAddresses.value
  {
    match v
    case None => []
    case Some(RawVerified(eth)) => eth.GetOr([])
  }

  /** The mapping of one response record to a picker user: the same identity, the addresses defaulted. */
  function MapUser(u: RawUser): (r: FarcasterUser)
    ensures r.fid == u.fid && r.username == u.username && r.displayName == u.displayName
    ensures r.pfpUrl == u.pfpUrl
    ensures r.verifiedEth == EthAddresses(u.verifiedAddresses)
  {
    FarcasterUser(u.fid, u.username, u.displayName, u.pfpUrl, EthAddresses(u.verifiedAddresses))
  }

  /** The users of a response body: one per record and in the same order, none when `result` or `users` is missing. */
  function MapUsers(body: SearchBody): (r: seq<FarcasterUser>)
    ensures body.result.None? || body.result.value.users.None? ==> r == []
    ensures body.result.Some? && body.result.value.users.Some? ==>
      var users := body.result.value.users.value;
      |r| == |users| && forall i :: 0 <= i < |r| ==> r[i] == MapUser(users[i])
  {
    match body.result
    case None => []
    case Some(SearchResult(None)) => []
    case Some(SearchResult(Some(users))) => seq(|users|, i requires 0 <= i < |users| => MapUser(users[i]))
  }

  /**
   * The search gate of `searchUsers`: a query is sent only when its trimmed
   * form is non-empty and the query itself (untrimmed) has a JavaScript
   * length of at least 2 UTF-16 code units.
   */
  function ShouldSearch(query: string): (r: bool)
    ensures r <==> !IsBlank(query) && Utf16Length(query) >= 2
  {
    TrimEmptyIffBlank(query);
    !(Trim(query) == [] || Utf16Length(query) < 2)
  }

  /** A query shorter than two code units is never sent, and neither is a blank one of any length. */
  lemma ShortOrBlankNotSearched(query: string)
    requires Utf16Length(query) < 2 || IsBlank(query)
    ensures !ShouldSearch(query)
  {
  }

  /** In particular the empty query and a single character up to U+FFFF are not sent. */
  lemma SingleBmpCharNotSearched(query: string)
    requires |query| <= 1 && (query == [] || query[0] as int <= 0xFFFF)
    ensures !ShouldSearch(query)
  {
    Utf16LengthBmp(query);
  }

  /** A single emoji above U+FFFF is two code units long, so it is sent. */
  lemma AstralCharSearched()
    ensures ShouldSearch("\U{1F600}")
  {
    AstralCharIsTwoUnits();
    assert !IsWhitespace("\U{1F600}"[0]);
  }

  /** A query of two or more characters with one non-whitespace character is sent, surrounding spaces included. */
  lemma PaddedQuerySearched(query: string, i: nat)
    requires |query| >= 2 && i < |query| && !IsWhitespace(query[i])
    ensures ShouldSearch(query)
  {
  }

  /** What `onSelectUser` receives: the chosen address and the username. */
  datatype Selection = Selection(address: string, username: string)

  /**
   * The selection a click on a user makes: the user's first verified address,
   * or nothing when the list is empty or its first entry is the empty string
   * (both falsy in JavaScript).
   */
  function SelectionOf(user: FarcasterUser): (r: Option<Selection>)
    ensures r.None? <==> user.verifiedEth == [] || user.verifiedEth[0] == ""
    ensures r.Some? ==> r.value.address == user.verifiedEth[0] && r.value.address != ""
    ensures r.Some? ==> r.value.username == user.username
  {
    if user.verifiedEth == [] || user.verifiedEth[0] == "" then None
    else Some(Selection(user.verifiedEth[0], user.username))
  }

  /** A user whose record had no `verified_addresses`, or no `eth_addresses` in it, cannot be selected. */
  lemma UnverifiedUserUnselectable(u: RawUser)
    requires u.verifiedAddresses.None? || u.verifiedAddresses.value.ethAddresses.None?
    ensures SelectionOf(MapUser(u)).None?
  {
  }

  /**
   * Every user a successful search lists carries its record's address list,
   * so a record with a non-empty first address is selectable with exactly that address.
   */
  lemma {:induction false} SearchedUserSelection(body: SearchBody, i: nat, eth: seq<string>)
    requires body.result.Some? && body.result.value.users.Some?
    requires i < |body.result.value.users.value|
    requires body.result.value.users.value[i].verifiedAddresses == Some(RawVerified(Some(eth)))
    requires eth != [] && eth[0] != ""
    ensures i < |MapUsers(body)|
    ensures SelectionOf(MapUsers(body)[i]) ==
      Some(Selection(eth[0], body.result.value.users.value[i].username))
  {
    var u := body.result.value.users.value[i];
    assert MapUsers(body)[i] == MapUser(u);
    assert MapUser(u).verifiedEth == eth;
  }

  /** The state of one picker instance. */
  class SearchBox {
    var searchQuery: string
    var searchResults: seq<FarcasterUser>
    var followers: seq<FarcasterUser>
    var isSearching: bool
    var showResults: bool
    var showFollowers: bool

    /** A fresh picker: empty query, no results, no followers, nothing shown. */
    constructor ()
      ensures searchQuery == "" && searchResults == [] && followers == []
      ensures !isSearching && !showResults && !showFollowers
    {
      searchQuery := "";
      searchResults := [];
      followers := [];
      isSearching := false;
      showResults := false;
      showFollowers := false;
    }

    /** The results dropdown is on screen: shown and non-empty. */
    predicate DropdownVisible()
      reads this
    {
      showResults && |searchResults| > 0
    }

    /** The "Choose from your following" button is on screen: no dropdown shown and some followers loaded. */
    predicate FollowingButtonVisible()
      reads this
    {
      !showResults && |followers| > 0
    }

    /** The input's `onChange`: the query becomes the typed text. */
    method SetQuery(text: string)
      modifies this`searchQuery
      ensures searchQuery == text
    {
      searchQuery := text;
    }

    /**
     * `searchUsers(query)`, with the request's outcome given as `response`.
     * A gated query only empties the results. A sent one ends with
     * `isSearching` false; a 2xx response replaces the results by the mapped
     * users and shows them; a thrown request raises the failure toast; a
     * non-2xx response changes nothing else.
     */
    method SearchUsers(query: string, response: SearchResponse) returns (request: Option<SearchRequest>, toast: Option<string>)
      modifies this`searchResults, this`showResults, this`isSearching
      ensures request.Some? <==> ShouldSearch(query)
      ensures request.Some? ==> request.value == SearchRequest(query, SearchLimit)
      ensures toast.Some? <==> request.Some? && response.Threw?
      ensures toast.Some? ==> toast.value == SearchFailedToast
      ensures request.None? ==>
        searchResults == [] && showResults == old(showResults) && isSearching == old(isSearching)
      ensures request.Some? ==> !isSearching
      ensures request.Some? && response.Ok? ==> searchResults == MapUsers(response.body) && showResults
      ensures request.Some? && !response.Ok? ==>
        searchResults == old(searchResults) && showResults == old(showResults)
    {
      if Trim(query) == [] || Utf16Length(query) < 2 {
        searchResults := [];
        return None, None;
      }
      isSearching := true;
      request := Some(SearchRequest(query, SearchLimit));
      toast := None;
      match response {
        case Ok(body) => {
          searchResults := MapUsers(body);
          showResults := true;
        }
        case NotOk => {
        }
        case Threw => {
          toast := Some(SearchFailedToast);
        }
      }
      isSearching := false;
    }

    /**
     * `handleSelectUser(user)`: a user without a usable first address is
     * refused with a toast and nothing changes; otherwise `onSelectUser`
     * receives the address and username, the query is emptied and both the
     * results and the following list are hidden (the results are kept).
     */
    method HandleSelectUser(user: FarcasterUser) returns (selected: Option<Selection>, toast: Option<string>)
      modifies this`searchQuery, this`showResults, this`showFollowers
      ensures selected == SelectionOf(user)
      ensures toast.Some? <==> selected.None?
      ensures toast.Some? ==> toast.value == NoAddressToast
      ensures selected.None? ==>
        searchQuery == old(searchQuery) && showResults == old(showResults) && showFollowers == old(showFollowers)
      ensures selected.Some? ==> searchQuery == "" && !showResults && !showFollowers
      ensures selected.Some? ==> !DropdownVisible() && (FollowingButtonVisible() <==> |followers| > 0)
    {
      if user.verifiedEth == [] || user.verifiedEth[0] == "" {
        return None, Some(NoAddressToast);
      }
      selected := Some(Selection(user.verifiedEth[0], user.username));
      toast := None;
      searchQuery := "";
      showResults := false;
      showFollowers := false;
    }

    /**
     * `handleClear`: the query and the results are emptied, the results
     * hidden, and `onClear` invoked when the parent passed one.
     */
    method HandleClear(hasOnClear: bool) returns (clearInvoked: bool)
      modifies this`searchQuery, this`searchResults, this`showResults
      ensures clearInvoked == hasOnClear
      ensures searchQuery == "" && searchResults == [] && !showResults
      ensures !DropdownVisible()
    {
      searchQuery := "";
      searchResults := [];
      showResults := false;
      clearInvoked := hasOnClear;
    }

    /** The input's `onFocus`: earlier results are shown again when there are any. */
    method HandleFocus()
      modifies this`showResults
      ensures showResults == (old(showResults) || |searchResults| > 0)
      ensures DropdownVisible() <==> |searchResults| > 0
    {
      if |searchResults| > 0 {
        showResults := true;
      }
    }

    /** The following button flips whether the following list is open. */
    method ToggleFollowers()
      modifies this`showFollowers
      ensures showFollowers == !old(showFollowers)
    {
      showFollowers := !showFollowers;
    }
  }
}
