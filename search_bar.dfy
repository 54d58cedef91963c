/**
 * The typeahead of components/search/SearchBar.tsx as a state machine.
 *
 * The component's state fields become the fields of class SearchBar. The
 * events that drive it are methods: typing, the 300 ms debounce timer
 * firing, a request settling, a key press, a click on a suggestion, hover,
 * focus, a click outside and the clear button. Each request the component
 * starts is named by a token; `controller` is the token of the
 * AbortController kept in `abortControllerRef`, `inFlight` the requests not
 * yet settled and `aborted` those whose controller was aborted.
 */
module Typeahead {
  import opened Common
  import opened Text
  import opened Ranking

  /** The text of `err.message` when the server answered with no usable `error` field. */
  const FallbackError: string := "Search failed"

  /** The keys handleKeyDown reacts to; every other key is `Other`. */
  datatype Key = ArrowDown | ArrowUp | Enter | Escape | Other

  /**
   * What the network did with a request: a 2xx answer with its `results`,
   * a non-2xx answer with the `error` field of its JSON body (if any), or
   * no answer at all, with the message `fetch` rejected with.
   */
  datatype FetchOutcome =
    | Delivered(results: seq<SearchResult>)
    | HttpError(errorField: Option<string>)
    | Rejected(message: string)

  /** ArrowDown: one step down, stopping at the last suggestion. */
  function StepDown(index: int, count: nat): (r: int)
    ensures -1 <= index <= count - 1 ==> -1 <= r <= count - 1
    ensures index < count - 1 ==> r == index + 1
    ensures index >= count - 1 ==> r == index
  {
    if index < count - 1 then index + 1 else index
  }

  /** ArrowUp: one step up, stopping at -1 (nothing selected). */
  function StepUp(index: int): (r: int)
    ensures r >= -1
    ensures index > 0 ==> r == index - 1
    ensures index <= 0 ==> r == -1
  {
    if index > 0 then index - 1 else -1
  }

  /** No wrap-around at either end, and the range [-1, count-1] is closed under both keys. */
  lemma NavigationClamped(index: int, count: nat)
    requires -1 <= index <= count - 1
    ensures -1 <= StepDown(index, count) <= count - 1 && -1 <= StepUp(index) <= count - 1
    ensures StepDown(count - 1, count) == count - 1
    ensures StepUp(-1) == -1 && StepUp(0) == -1
  {
  }

  /** Repeated ArrowDown presses from anywhere in range end at the last suggestion and stay there. */
  function PressDown(index: int, count: nat, times: nat): int
    decreases times
  {
    if times == 0 then index else PressDown(StepDown(index, count), count, times - 1)
  }

  lemma {:induction false} PressDownReachesLast(index: int, count: nat, times: nat)
    requires -1 <= index <= count - 1
    ensures PressDown(index, count, times) == if index + times <= count - 1 then index + times else count - 1
    decreases times
  {
    if times > 0 {
      PressDownReachesLast(StepDown(index, count), count, times - 1);
    }
  }

  /** handleSelect's `router.push` target: `/stalls/{id}` for a stall, otherwise `/items/{id}`. */
  function RouteFor(r: SearchResult): (url: string)
    ensures r.kind == Stall ==> url == "/stalls/" + IntText(r.id)
    ensures r.kind == Item ==> url == "/items/" + IntText(r.id)
  {
    if r.kind == Stall then "/stalls/" + IntText(r.id) else "/items/" + IntText(r.id)
  }

  /** A stall and an item never route to the same page. */
  lemma RoutesDistinguishKinds(a: SearchResult, b: SearchResult)
    requires a.kind == Stall && b.kind == Item
    ensures RouteFor(a) != RouteFor(b)
  {
    assert RouteFor(a)[1] == 's' && RouteFor(b)[1] == 'i';
  }

  /** A stall's page is named by its id: different stalls go to different pages. */
  lemma StallRouteInjective(a: SearchResult, b: SearchResult)
    requires a.kind == Stall && b.kind == Stall && a.id >= 0 && b.id >= 0
    requires RouteFor(a) == RouteFor(b)
    ensures a.id == b.id
  {
    var p := "/stalls/";
    assert Decimal(a.id) == RouteFor(a)[|p|..] == RouteFor(b)[|p|..] == Decimal(b.id);
    DecimalValue(a.id);
    DecimalValue(b.id);
  }

  /** The message a failed request that was not aborted leaves in `error`. */
  function FailureMessage(o: FetchOutcome): (m: string)
    requires !o.Delivered?
    ensures o.HttpError? && Filled(o.errorField) ==> m == o.errorField.value
    ensures o.HttpError? && !Filled(o.errorField) ==> m == FallbackError
    ensures o.Rejected? ==> m == o.message
  {
    match o
    case HttpError(field) => OrElse(field, FallbackError)
    case Rejected(message) => message
  }

  class SearchBar {
    var query: string
    var suggestions: seq<SearchResult>
    var isLoading: bool
    var isOpen: bool
    var selectedIndex: int
    var error: Option<string>
    /** The query a pending 300 ms timer was started for, if one is pending. */
    var timer: Option<string>
    /** `abortControllerRef.current`, as the token of the request it belongs to. */
    var controller: Option<nat>
    var inFlight: set<nat>
    var aborted: set<nat>
    var nextToken: nat

    /**
     * The state the component keeps consistent: a pending timer belongs to
     * the current query; an open panel has something to show; the selection
     * is -1 or a position in a non-empty list; every token was issued; and
     * at most one request that was not aborted is in flight, the one the
     * controller holds.
     */
    ghost predicate Valid()
      reads this
    {
      && (timer.Some? ==> timer.value == query)
      && (isOpen ==> suggestions != [])
      && -1 <= selectedIndex
      && (suggestions != [] ==> selectedIndex < |suggestions|)
      && (controller.Some? ==> controller.value < nextToken)
      && (forall t :: t in inFlight ==> t < nextToken)
      && (forall t :: t in aborted ==> t < nextToken)
      && (forall t :: t in inFlight && t !in aborted ==> controller == Some(t))
    }

    /** The tokens of requests in flight whose answer will still be applied. */
    function Live(): (live: set<nat>)
      reads this
      requires Valid()
      ensures forall t :: t in live ==> controller == Some(t)
      ensures |live| <= 1
    {
      var live := set t | t in inFlight && t !in aborted;
      if controller.Some? then
        assert live <= {controller.value};
        SubsetOfSingleton(live, controller.value);
        live
      else
        assert live == {};
        live
    }

    /** The first render: empty query, nothing shown, and the mount effect's timer pending. */
    constructor()
      ensures Valid()
      ensures query == "" && suggestions == [] && !isLoading && !isOpen && selectedIndex == -1
      ensures error == None && timer == Some("")
      ensures controller == None && inFlight == {} && aborted == {} && nextToken == 0
    {
      query := "";
      suggestions := [];
      isLoading := false;
      isOpen := false;
      selectedIndex := -1;
      error := None;
      timer := Some("");
      controller := None;
      inFlight := {};
      aborted := {};
      nextToken := 0;
    }

    /**
     * `setQuery(v)`. The debounce effect depends on `query`, so a change
     * cancels the pending timer and starts a new one; setting the same
     * value again re-runs nothing.
     */
    method SetQuery(v: string)
      requires Valid()
      modifies this
      ensures Valid()
      ensures query == v
      ensures timer == if v != old(query) then Some(v) else old(timer)
      ensures suggestions == old(suggestions) && isOpen == old(isOpen) && selectedIndex == old(selectedIndex)
      ensures error == old(error) && isLoading == old(isLoading)
      ensures controller == old(controller) && inFlight == old(inFlight) && aborted == old(aborted)
      ensures nextToken == old(nextToken)
    {
      if v != query {
        query := v;
        timer := Some(v);
      }
    }

    /**
     * `fetchSuggestions(q)` up to the `await`: abort the previous controller,
     * install a new one, and start the request with loading on and the
     * error cleared.
     */
    method Fetch() returns (token: nat)
      requires Valid()
      modifies this
      ensures Valid()
      ensures token == old(nextToken) && nextToken == token + 1
      ensures controller == Some(token)
      ensures inFlight == old(inFlight) + {token}
      ensures aborted == old(aborted) + (if old(controller).Some? then {old(controller).value} else {})
      ensures token in inFlight && token !in aborted
      ensures isLoading && error == None
      ensures query == old(query) && timer == old(timer) && suggestions == old(suggestions)
      ensures isOpen == old(isOpen) && selectedIndex == old(selectedIndex)
    {
      if controller.Some? {
        aborted := aborted + {controller.value};
      }
      token := nextToken;
      nextToken := nextToken + 1;
      controller := Some(token);
      inFlight := inFlight + {token};
      isLoading := true;
      error := None;
    }

    /**
     * The debounce timer fires for the current query: two or more
     * characters start a request, anything shorter empties and closes the
     * list and clears the error. A request already in flight is NOT aborted
     * in the short case.
     */
    method TimerElapsed() returns (started: Option<nat>)
      requires Valid() && timer.Some?
      modifies this
      ensures Valid()
      ensures timer == None && query == old(query)
      ensures |query| >= 2 ==> started.Some? && started.value == old(nextToken) && controller == started
      ensures |query| >= 2 ==> inFlight == old(inFlight) + {started.value} && started.value !in aborted
      ensures |query| >= 2 ==>
        aborted == old(aborted) + (if old(controller).Some? then {old(controller).value} else {})
      ensures |query| >= 2 ==> isLoading && error == None
      ensures |query| >= 2 ==> suggestions == old(suggestions) && isOpen == old(isOpen) && selectedIndex == old(selectedIndex)
      ensures |query| >= 2 ==> nextToken == old(nextToken) + 1
      ensures |query| < 2 ==> started.None? && suggestions == [] && !isOpen && error == None
      ensures |query| < 2 ==> inFlight == old(inFlight) && aborted == old(aborted) && controller == old(controller)
      ensures |query| < 2 ==> nextToken == old(nextToken)
      ensures |query| < 2 ==> isLoading == old(isLoading) && selectedIndex == old(selectedIndex)
    {
      timer := None;
      if |query| >= 2 {
        var token := Fetch();
        started := Some(token);
      } else {
        suggestions := [];
        isOpen := false;
        error := None;
        started := None;
      }
    }

    /**
     * Request `token` settles with what the network did for it. For a
     * request that was not aborted, a success replaces the list, opens the
     * panel iff it is non-empty and clears the selection, and a failure
     * records its message and empties and closes the list.
     *
     * Aborting a request makes whatever is still pending on it reject with
     * AbortError, which changes nothing but `isLoading`: `fetch` itself when
     * no answer had arrived (`Rejected`), and the `response.json()` of a 2xx
     * answer (`Delivered`). A non-2xx answer that arrived before the abort
     * is different: its `response.json()` rejection is swallowed by the
     * `.catch`, so the handler goes on to throw "Search failed", which is not
     * an AbortError and does empty and close the list. Either way `finally`
     * turns loading off.
     */
    method Settle(token: nat, outcome: FetchOutcome)
      requires Valid() && token in inFlight
      modifies this
      ensures Valid()
      ensures inFlight == old(inFlight) - {token} && aborted == old(aborted) && controller == old(controller)
      ensures !isLoading
      ensures query == old(query) && timer == old(timer) && nextToken == old(nextToken)
      ensures token in aborted && !outcome.HttpError? ==>
        suggestions == old(suggestions) && isOpen == old(isOpen) && selectedIndex == old(selectedIndex) && error == old(error)
      ensures token in aborted && outcome.HttpError? ==>
        error == Some(FallbackError) && suggestions == [] && !isOpen && selectedIndex == old(selectedIndex)
      ensures token !in aborted && outcome.Delivered? ==>
        suggestions == outcome.results && isOpen == (outcome.results != []) && selectedIndex == -1 && error == old(error)
      ensures token !in aborted && !outcome.Delivered? ==>
        error == Some(FailureMessage(outcome)) && suggestions == [] && !isOpen && selectedIndex == old(selectedIndex)
    {
      inFlight := inFlight - {token};
      if token !in aborted {
        match outcome {
          case Delivered(results) =>
            suggestions := results;
            isOpen := |results| > 0;
            selectedIndex := -1;
          case HttpError(_) =>
            error := Some(FailureMessage(outcome));
            suggestions := [];
            isOpen := false;
          case Rejected(_) =>
            error := Some(FailureMessage(outcome));
            suggestions := [];
            isOpen := false;
        }
      } else if outcome.HttpError? {
        error := Some(FailureMessage(HttpError(None)));
        suggestions := [];
        isOpen := false;
      }
      isLoading := false;
    }

    /** `handleSelect(result)`: take its name as the query, close the panel and route to its page. */
    method Select(i: nat) returns (url: string)
      requires Valid() && i < |suggestions|
      modifies this
      ensures Valid()
      ensures url == RouteFor(old(suggestions)[i])
      ensures query == old(suggestions)[i].name && !isOpen && selectedIndex == -1
      ensures suggestions == old(suggestions) && error == old(error) && isLoading == old(isLoading)
      ensures timer == if query != old(query) then Some(query) else old(timer)
      ensures controller == old(controller) && inFlight == old(inFlight) && aborted == old(aborted)
      ensures nextToken == old(nextToken)
    {
      var result := suggestions[i];
      SetQuery(result.name);
      isOpen := false;
      selectedIndex := -1;
      url := RouteFor(result);
    }

    /**
     * `handleKeyDown`: ignored while the panel is closed; arrows move the
     * selection within [-1, count-1]; Enter commits the selection if there
     * is one; Escape closes the panel and clears the selection.
     */
    method KeyDown(key: Key) returns (url: Option<string>)
      requires Valid()
      modifies this
      ensures Valid()
      ensures !old(isOpen) ==> url.None? && query == old(query) && isOpen == old(isOpen) && selectedIndex == old(selectedIndex)
      ensures old(isOpen) && key == ArrowDown ==>
        url.None? && selectedIndex == StepDown(old(selectedIndex), |suggestions|) && isOpen
      ensures old(isOpen) && key == ArrowUp ==> url.None? && selectedIndex == StepUp(old(selectedIndex)) && isOpen
      ensures old(isOpen) && key == Enter && old(selectedIndex) >= 0 ==>
        url == Some(RouteFor(old(suggestions)[old(selectedIndex)]))
        && query == old(suggestions)[old(selectedIndex)].name && !isOpen && selectedIndex == -1
      ensures old(isOpen) && key == Enter && old(selectedIndex) < 0 ==>
        url.None? && isOpen && selectedIndex == old(selectedIndex)
      ensures old(isOpen) && key == Escape ==> url.None? && !isOpen && selectedIndex == -1
      ensures key == Other ==> url.None? && isOpen == old(isOpen) && selectedIndex == old(selectedIndex)
      ensures !(old(isOpen) && key == Enter && old(selectedIndex) >= 0) ==> query == old(query) && timer == old(timer)
      ensures timer == if query != old(query) then Some(query) else old(timer)
      ensures suggestions == old(suggestions) && error == old(error) && isLoading == old(isLoading)
      ensures controller == old(controller) && inFlight == old(inFlight) && aborted == old(aborted)
      ensures nextToken == old(nextToken)
    {
      url := None;
      if !isOpen {
        return;
      }
      match key {
        case ArrowDown =>
          selectedIndex := StepDown(selectedIndex, |suggestions|);
        case ArrowUp =>
          selectedIndex := StepUp(selectedIndex);
        case Enter =>
          if selectedIndex >= 0 {
            var target := Select(selectedIndex);
            url := Some(target);
          }
        case Escape =>
          isOpen := false;
          selectedIndex := -1;
        case Other =>
      }
    }

    /** `onMouseEnter` on a rendered suggestion (the list shows only while open and error-free). */
    method Hover(i: nat)
      requires Valid() && isOpen && !Filled(error) && i < |suggestions|
      modifies this
      ensures Valid()
      ensures selectedIndex == i
      ensures query == old(query) && suggestions == old(suggestions) && isOpen == old(isOpen) && error == old(error)
      ensures isLoading == old(isLoading) && timer == old(timer)
      ensures controller == old(controller) && inFlight == old(inFlight) && aborted == old(aborted)
      ensures nextToken == old(nextToken)
    {
      selectedIndex := i;
    }

    /** `onFocus`: reopen the panel when there are suggestions to show. */
    method Focus()
      requires Valid()
      modifies this
      ensures Valid()
      ensures isOpen == (old(isOpen) || suggestions != [])
      ensures query == old(query) && suggestions == old(suggestions) && selectedIndex == old(selectedIndex)
      ensures error == old(error) && isLoading == old(isLoading) && timer == old(timer)
      ensures controller == old(controller) && inFlight == old(inFlight) && aborted == old(aborted)
      ensures nextToken == old(nextToken)
    {
      if |suggestions| > 0 {
        isOpen := true;
      }
    }

    /** A mouse-down outside the component closes the panel and nothing else. */
    method ClickOutside()
      requires Valid()
      modifies this
      ensures Valid()
      ensures !isOpen
      ensures query == old(query) && suggestions == old(suggestions) && selectedIndex == old(selectedIndex)
      ensures error == old(error) && isLoading == old(isLoading) && timer == old(timer)
      ensures controller == old(controller) && inFlight == old(inFlight) && aborted == old(aborted)
      ensures nextToken == old(nextToken)
    {
      isOpen := false;
    }

    /**
     * The clear button (shown only while the query is non-empty): empties
     * the query and the list, closes the panel and clears the error; the
     * selection is left as it was.
     */
    method Clear()
      requires Valid() && query != ""
      modifies this
      ensures Valid()
      ensures query == "" && suggestions == [] && !isOpen && error == None
      ensures selectedIndex == old(selectedIndex)
      ensures timer == Some("")
      ensures isLoading == old(isLoading) && controller == old(controller) && inFlight == old(inFlight) && aborted == old(aborted)
      ensures nextToken == old(nextToken)
    {
      SetQuery("");
      suggestions := [];
      isOpen := false;
      error := None;
    }

    /** The error banner: shown when there is an error and the query has two or more characters. */
    predicate ErrorShown()
      reads this
    {
      error.Some? && error.value != "" && |query| >= 2
    }

    /** The suggestion list: shown when the panel is open and there is no error. */
    predicate ListShown()
      reads this
    {
      isOpen && !(error.Some? && error.value != "")
    }
  }

  lemma SubsetOfSingleton(s: set<nat>, x: nat)
    requires s <= {x}
    ensures |s| <= 1
  {
    if s != {} {
      assert s == {x};
    }
  }

  /**
   * A request started for "ab" is still in flight when the query shrinks to
   * "a"; the short-query branch does not abort it, so its late success
   * opens the panel under a one-character query.
   */
  method StaleSuccessAfterShrink(stall: SearchResult) returns (open: bool, query: string, shown: seq<SearchResult>)
    ensures open && query == "a" && shown == [stall]
  {
    var bar := new SearchBar();
    bar.SetQuery("ab");
    var started := bar.TimerElapsed();
    var token := started.value;
    bar.SetQuery("a");
    var none := bar.TimerElapsed();
    assert token in bar.inFlight && token !in bar.aborted;
    bar.Settle(token, Delivered([stall]));
    return bar.isOpen, bar.query, bar.suggestions;
  }

  /**
   * A superseded request is aborted, but its `finally` still runs: when it
   * settles after the newer request has started, loading is shown as off
   * while the newer request is in flight, and the aborted answer is ignored.
   */
  method AbortedRequestEndsLoading(r1: seq<SearchResult>) returns (loading: bool, live: set<nat>, shown: seq<SearchResult>)
    ensures !loading && |live| == 1 && shown == []
  {
    var bar := new SearchBar();
    bar.SetQuery("ab");
    var first := bar.TimerElapsed();
    bar.SetQuery("abc");
    var second := bar.TimerElapsed();
    assert first.value in bar.inFlight && first.value in bar.aborted;
    bar.Settle(first.value, Delivered(r1));
    return bar.isLoading, bar.Live(), bar.suggestions;
  }

  /**
   * A request for "ab" is answered with a non-2xx status and is aborted by
   * the request for "abc" while its body is being read: the swallowed body
   * error leaves "Search failed", which empties and closes the list even
   * though the newer request is still in flight.
   */
  method AbortedErrorStillShown(field: Option<string>) returns (error: Option<string>, open: bool, live: set<nat>)
    ensures error == Some(FallbackError) && !open && |live| == 1
  {
    var bar := new SearchBar();
    bar.SetQuery("ab");
    var first := bar.TimerElapsed();
    bar.SetQuery("abc");
    var second := bar.TimerElapsed();
    assert first.value in bar.inFlight && first.value in bar.aborted;
    bar.Settle(first.value, HttpError(field));
    return bar.error, bar.isOpen, bar.Live();
  }
}
