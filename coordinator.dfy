/**
 * The selection-and-fetch rules of the App component as pure transitions: each event
 * applies its handler's state updates, then the re-render runs the `[selectedGenre]`
 * effect, and the outcome is the new state plus the `/games` requests issued.
 */
module Coordinator {
  import opened Catalog

  /** The component's four `useState` fields. */
  datatype UiState = UiState(
    genres: seq<Genre>,
    selectedGenre: Option<int>,
    games: seq<Game>,
    searchTerm: string)

  /** The initial values of the four fields. */
  const Initial: UiState := UiState([], None, [], "")

  /** JavaScript truthiness of `selectedGenre`: `null` and the id 0 are both falsy. */
  predicate Truthy(selected: Option<int>) {
    selected.Some? && selected.value != 0
  }

  /** The filter that governs a `/games` request. */
  datatype Filter = BySearch(term: string) | ByGenre(genre: Option<int>)

  /** Reference rule: a non-empty search term puts the fetch in search mode, otherwise genre mode. */
  function ActiveFilter(s: UiState): (f: Filter)
    ensures f.BySearch? <==> s.searchTerm != ""
  {
    if s.searchTerm != "" then BySearch(s.searchTerm) else ByGenre(s.selectedGenre)
  }

  /** A request of the shape `fetchGames` can send: page size 8, never both filters, never an empty search. */
  predicate WellFormedQuery(q: GamesQuery) {
    q.pageSize == PageSize && (q.search.Some? ==> q.search.value != "" && q.genres.None?)
  }

  /** The filter the catalog applies to a well-formed request. */
  function QueryFilter(q: GamesQuery): Filter
    requires WellFormedQuery(q)
  {
    if q.search.Some? then BySearch(q.search.value) else ByGenre(q.genres)
  }

  /** The `params` object of `fetchGames`, built from the current state. */
  function GamesRequest(s: UiState): (q: GamesQuery)
    ensures WellFormedQuery(q)
    ensures q.search.Some? <==> s.searchTerm != ""
    ensures s.searchTerm != "" ==> q.search == Some(s.searchTerm) && q.genres.None?
    ensures s.searchTerm == "" ==> q.genres == s.selectedGenre && q.search.None?
  {
    GamesQuery(
      genres := if s.searchTerm != "" then None else s.selectedGenre,
      search := if s.searchTerm != "" then Some(s.searchTerm) else None,
      pageSize := PageSize)
  }

  /** The request carries exactly the filter the reference rule selects. */
  lemma RequestCarriesActiveFilter(s: UiState)
    ensures WellFormedQuery(GamesRequest(s))
    ensures QueryFilter(GamesRequest(s)) == ActiveFilter(s)
  {
  }

  /** A well-formed request is determined by its filter: nothing else is sent. */
  lemma QueryDeterminedByFilter(q1: GamesQuery, q2: GamesQuery)
    requires WellFormedQuery(q1) && WellFormedQuery(q2)
    ensures QueryFilter(q1) == QueryFilter(q2) <==> q1 == q2
  {
  }

  /** New state after an event, and the `/games` requests the event issued, in order. */
  datatype Step = Step(next: UiState, issued: seq<GamesQuery>)

  /**
   * The `[selectedGenre]` effect after a render that moved the state from `before` to `after`:
   * React runs it only when `selectedGenre` changed, and its guard returns early when the
   * selection is falsy or a search term is present.
   */
  function SelectionEffect(before: UiState, after: UiState): (issued: seq<GamesQuery>)
    ensures |issued| <= 1
    ensures |issued| == 1 <==>
      after.selectedGenre != before.selectedGenre && Truthy(after.selectedGenre) && after.searchTerm == ""
    ensures |issued| == 1 ==> issued[0] == GamesQuery(after.selectedGenre, None, PageSize)
  {
    if after.selectedGenre == before.selectedGenre then []
    else if !Truthy(after.selectedGenre) || after.searchTerm != "" then []
    else [GamesRequest(after)]
  }

  /** Commits a handler's state change: the re-render, and the effect it may run. */
  function Render(before: UiState, after: UiState, direct: seq<GamesQuery>): Step {
    Step(after, direct + SelectionEffect(before, after))
  }

  /**
   * Response to the mount-time `/genres` request. On success the list replaces `genres`
   * and a non-empty list selects its first genre; a failure is only logged.
   */
  function OnGenres(s: UiState, res: Response<seq<Genre>>): (st: Step)
    ensures res.Failure? ==> st == Step(s, [])
    ensures res.Success? ==> st.next.genres == res.body
    ensures res.Success? && res.body != [] ==> st.next.selectedGenre == Some(res.body[0].id)
    ensures res.Success? && res.body == [] ==> st.next.selectedGenre == s.selectedGenre && st.issued == []
    ensures st.next.games == s.games && st.next.searchTerm == s.searchTerm
    ensures |st.issued| <= 1
    ensures |st.issued| == 1 <==>
      res.Success? && res.body != [] && Some(res.body[0].id) != s.selectedGenre
      && res.body[0].id != 0 && s.searchTerm == ""
    ensures |st.issued| == 1 ==> st.issued[0] == GamesQuery(Some(res.body[0].id), None, PageSize)
  {
    match res
    case Failure => Step(s, [])
    case Success(list) =>
      var after := s.(genres := list, selectedGenre := if |list| > 0 then Some(list[0].id) else s.selectedGenre);
      Render(s, after, [])
  }

  /**
   * A click on a sidebar genre: selects it and clears the search term. The effect then
   * fetches that genre, unless it was already selected or its id is falsy.
   */
  function ClickGenre(s: UiState, id: int): (st: Step)
    ensures st.next == s.(selectedGenre := Some(id), searchTerm := "")
    ensures |st.issued| <= 1
    ensures |st.issued| == 1 <==> s.selectedGenre != Some(id) && id != 0
    ensures |st.issued| == 1 ==> st.issued[0] == GamesQuery(Some(id), None, PageSize)
  {
    Render(s, s.(selectedGenre := Some(id), searchTerm := ""), [])
  }

  /** A keystroke in the search box: sets the search term; nothing is fetched. */
  function TypeSearch(s: UiState, text: string): (st: Step)
    ensures st.next == s.(searchTerm := text)
    ensures st.issued == []
  {
    Render(s, s.(searchTerm := text), [])
  }

  /** Submitting the search form: exactly one request built from the current state, whatever the selection. */
  function SubmitSearch(s: UiState): (st: Step)
    ensures st.next == s
    ensures |st.issued| == 1 && WellFormedQuery(st.issued[0]) && QueryFilter(st.issued[0]) == ActiveFilter(s)
    ensures s.searchTerm != "" ==> st.issued == [GamesQuery(None, Some(s.searchTerm), PageSize)]
    ensures s.searchTerm == "" ==> st.issued == [GamesQuery(s.selectedGenre, None, PageSize)]
  {
    Render(s, s, [GamesRequest(s)])
  }

  /** `res.data.results || []`: a response without results is an empty list. */
  function ResultsOrEmpty(results: Option<seq<Game>>): (games: seq<Game>)
    ensures results.Some? ==> games == results.value
    ensures results.None? ==> games == []
  {
    match results
    case Some(list) => list
    case None => []
  }

  /**
   * Response to any `/games` request: on success the results replace `games` wholesale,
   * whichever request they answer; a failure is only logged.
   */
  function OnGames(s: UiState, res: Response<Option<seq<Game>>>): (st: Step)
    ensures res.Failure? ==> st.next == s
    ensures res.Success? ==> st.next == s.(games := ResultsOrEmpty(res.body))
    ensures st.issued == []
  {
    match res
    case Failure => Step(s, [])
    case Success(results) => Render(s, s.(games := ResultsOrEmpty(results)), [])
  }

  /** The events the component reacts to. */
  datatype Event =
    | GenresLoaded(genresResult: Response<seq<Genre>>)
    | GenreClicked(id: int)
    | SearchTyped(text: string)
    | SearchSubmitted
    | GamesLoaded(gamesResult: Response<Option<seq<Game>>>)

  function Dispatch(s: UiState, e: Event): Step {
    match e
    case GenresLoaded(res) => OnGenres(s, res)
    case GenreClicked(id) => ClickGenre(s, id)
    case SearchTyped(text) => TypeSearch(s, text)
    case SearchSubmitted => SubmitSearch(s)
    case GamesLoaded(res) => OnGames(s, res)
  }

  /** Applies events in order with a given step, collecting every request issued. */
  function Fold(step: (UiState, Event) -> Step, s: UiState, events: seq<Event>): Step
    decreases |events|
  {
    if events == [] then Step(s, [])
    else
      var first := step(s, events[0]);
      var rest := Fold(step, first.next, events[1..]);
      Step(rest.next, first.issued + rest.issued)
  }

  /** Applies events in order, collecting every request issued. */
  function Run(s: UiState, events: seq<Event>): Step
  {
    Fold(Dispatch, s, events)
  }

  /** Every request issued by any sequence of events is well formed, so its page size is 8. */
  lemma {:induction false} RunIssuesWellFormed(s: UiState, events: seq<Event>)
    ensures forall q :: q in Run(s, events).issued ==> WellFormedQuery(q)
    decreases |events|
  {
    if events != [] {
      RunIssuesWellFormed(Dispatch(s, events[0]).next, events[1..]);
    }
  }

  /** Each event issues at most one request. */
  lemma {:induction false} AtMostOneRequestPerEvent(s: UiState, events: seq<Event>)
    ensures |Run(s, events).issued| <= |events|
    decreases |events|
  {
    if events != [] {
      AtMostOneRequestPerEvent(Dispatch(s, events[0]).next, events[1..]);
    }
  }

  predicate AllTyping(events: seq<Event>) {
    forall i :: 0 <= i < |events| ==> events[i].SearchTyped?
  }

  /** Typing any number of keystrokes issues no request and changes only the search term. */
  lemma {:induction false} TypingNeverFetches(s: UiState, events: seq<Event>)
    requires AllTyping(events)
    ensures Run(s, events).issued == []
    ensures Run(s, events).next
      == s.(searchTerm := if events == [] then s.searchTerm else events[|events| - 1].text)
    decreases |events|
  {
    if events != [] {
      assert AllTyping(events[1..]) by {
        forall i | 0 <= i < |events[1..]| ensures events[1..][i].SearchTyped? {
          assert events[1..][i] == events[i + 1];
        }
      }
      TypingNeverFetches(Dispatch(s, events[0]).next, events[1..]);
    }
  }

  predicate NoGamesResponse(events: seq<Event>) {
    forall i :: 0 <= i < |events| ==> !events[i].GamesLoaded?
  }

  /** Only a `/games` response changes `games`. */
  lemma {:induction false} GamesChangeOnlyOnResponse(s: UiState, events: seq<Event>)
    requires NoGamesResponse(events)
    ensures Run(s, events).next.games == s.games
    decreases |events|
  {
    if events != [] {
      assert NoGamesResponse(events[1..]) by {
        forall i | 0 <= i < |events[1..]| ensures !events[1..][i].GamesLoaded? {
          assert events[1..][i] == events[i + 1];
        }
      }
      GamesChangeOnlyOnResponse(Dispatch(s, events[0]).next, events[1..]);
    }
  }

  predicate NoSuccessfulGamesResponse(events: seq<Event>) {
    forall i :: 0 <= i < |events| ==> !(events[i].GamesLoaded? && events[i].gamesResult.Success?)
  }

  /** Only a successful `/games` response changes `games`: a failed one is only logged. */
  lemma {:induction false} GamesChangeOnlyOnSuccess(s: UiState, events: seq<Event>)
    requires NoSuccessfulGamesResponse(events)
    ensures Run(s, events).next.games == s.games
    decreases |events|
  {
    if events != [] {
      assert NoSuccessfulGamesResponse(events[1..]) by {
        forall i | 0 <= i < |events[1..]|
          ensures !(events[1..][i].GamesLoaded? && events[1..][i].gamesResult.Success?)
        {
          assert events[1..][i] == events[i + 1];
        }
      }
      GamesChangeOnlyOnSuccess(Dispatch(s, events[0]).next, events[1..]);
    }
  }

  predicate NoGenresResponse(events: seq<Event>) {
    forall i :: 0 <= i < |events| ==> !events[i].GenresLoaded?
  }

  /** Only a `/genres` response changes `genres`: selecting, searching and game responses never do. */
  lemma {:induction false} GenresChangeOnlyOnResponse(s: UiState, events: seq<Event>)
    requires NoGenresResponse(events)
    ensures Run(s, events).next.genres == s.genres
    decreases |events|
  {
    if events != [] {
      assert NoGenresResponse(events[1..]) by {
        forall i | 0 <= i < |events[1..]| ensures !events[1..][i].GenresLoaded? {
          assert events[1..][i] == events[i + 1];
        }
      }
      GenresChangeOnlyOnResponse(Dispatch(s, events[0]).next, events[1..]);
    }
  }

  /** Re-clicking the selected genre clears the search but issues no request. */
  lemma ReclickClearsSearchWithoutFetch(s: UiState, id: int)
    requires s.selectedGenre == Some(id)
    ensures ClickGenre(s, id).issued == []
    ensures ClickGenre(s, id).next == s.(searchTerm := "")
  {
  }

  /** Folding two event sequences one after the other, with any step, is folding their concatenation. */
  lemma {:induction false} FoldAppend(step: (UiState, Event) -> Step, s: UiState, a: seq<Event>, b: seq<Event>)
    ensures Fold(step, s, a + b).next == Fold(step, Fold(step, s, a).next, b).next
    ensures Fold(step, s, a + b).issued == Fold(step, s, a).issued + Fold(step, Fold(step, s, a).next, b).issued
    decreases |a|
  {
    if a == [] {
      assert a + b == b;
    } else {
      assert (a + b)[0] == a[0] && (a + b)[1..] == a[1..] + b;
      FoldAppend(step, step(s, a[0]).next, a[1..], b);
    }
  }

  /** Running two event sequences one after the other is running their concatenation. */
  lemma RunAppend(s: UiState, a: seq<Event>, b: seq<Event>)
    ensures Run(s, a + b).next == Run(Run(s, a).next, b).next
    ensures Run(s, a + b).issued == Run(s, a).issued + Run(Run(s, a).next, b).issued
  {
    FoldAppend(Dispatch, s, a, b);
  }

  /**
   * Last writer wins: after any event sequence, `games` is the result of the most recently
   * arrived successful games response, whichever request it answered; failed responses
   * arriving after it change nothing.
   */
  lemma LastSuccessShown(s: UiState, pre: seq<Event>, r: Option<seq<Game>>, post: seq<Event>)
    requires NoSuccessfulGamesResponse(post)
    ensures Run(s, pre + [GamesLoaded(Success(r))] + post).next.games == ResultsOrEmpty(r)
  {
    var e := [GamesLoaded(Success(r))];
    RunAppend(s, pre + e, post);
    RunAppend(s, pre, e);
    var mid := Run(s, pre).next;
    assert e[0] == GamesLoaded(Success(r)) && e[1..] == [];
    var last := Dispatch(mid, e[0]);
    assert last.next == OnGames(mid, Success(r)).next;
    assert Fold(Dispatch, mid, e) == Step(Fold(Dispatch, last.next, []).next, last.issued + Fold(Dispatch, last.next, []).issued);
    GamesChangeOnlyOnSuccess(Run(s, pre + e).next, post);
  }

}
