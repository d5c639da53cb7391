/**
 * The App component as an object: its four state fields are updated in place by event
 * handlers and promise callbacks, and every `/games` request it issues is appended to a log.
 * Each method is specified by the matching transition of module Coordinator.
 */
module AppComponent {
  import opened Catalog
  import opened Coordinator

  /** The log indices `from` up to, not including, `to`. */
  function Span(from: nat, to: nat): set<nat>
    decreases to - from
  {
    if from >= to then {} else {from} + Span(from + 1, to)
  }

  class App {
    var genres: seq<Genre>
    var selectedGenre: Option<int>
    var games: seq<Game>
    var searchTerm: string
    /** Every `/games` request issued so far, in order of issue. */
    var requests: seq<GamesQuery>
    /** Indices into `requests` of the requests whose response has not arrived. */
    var pending: set<nat>
    /** The mount-time `/genres` request has not been answered yet. */
    var genresPending: bool

    /** The four state fields as one value. */
    function State(): UiState
      reads this
    {
      UiState(genres, selectedGenre, games, searchTerm)
    }

    ghost predicate Valid()
      reads this
    {
      (forall k :: k in pending ==> k < |requests|)
      && (forall i :: 0 <= i < |requests| ==> WellFormedQuery(requests[i]))
      && (genresPending ==> genres == [] && selectedGenre == None)
    }

    /**
     * Mounting: the fields take their initial values and the `/genres` request goes out.
     * The first run of the `[selectedGenre]` effect sees `null` and returns.
     */
    constructor ()
      ensures Valid() && State() == Initial
      ensures requests == [] && pending == {} && genresPending
    {
      genres, selectedGenre, games, searchTerm := [], None, [], "";
      requests, pending := [], {};
      genresPending := true;
    }

    /** `fetchGames`: sends one `/games` request built from the current state. */
    method FetchGames()
      requires Valid()
      modifies this`requests, this`pending
      ensures Valid()
      ensures requests == old(requests) + [GamesRequest(State())]
      ensures pending == old(pending) + {|old(requests)|}
    {
      requests := requests + [GamesRequest(State())];
      pending := pending + {|requests| - 1};
    }

    /** The `[selectedGenre]` effect, run after a render whose previous state was `before`. */
    method RunSelectionEffect(before: UiState)
      requires Valid()
      modifies this`requests, this`pending
      ensures Valid()
      ensures requests == old(requests) + SelectionEffect(before, State())
      ensures pending == old(pending) + Span(|old(requests)|, |requests|)
    {
      if selectedGenre == before.selectedGenre {
        // the dependency did not change: React does not run the effect
        assert Span(|requests|, |requests|) == {};
        return;
      }
      if !Truthy(selectedGenre) || searchTerm != "" {
        assert Span(|requests|, |requests|) == {};
        return;
      }
      FetchGames();
      assert Span(|old(requests)|, |requests|) == {|old(requests)|};
    }

    /** The `/genres` response arrives (once, for the request sent at mount). */
    method OnGenresResponse(res: Response<seq<Genre>>)
      requires Valid() && genresPending
      modifies this
      ensures Valid() && !genresPending
      ensures State() == OnGenres(old(State()), res).next
      ensures requests == old(requests) + OnGenres(old(State()), res).issued
      ensures pending == old(pending) + Span(|old(requests)|, |requests|)
    {
      var before := State();
      genresPending := false;
      match res
      case Failure =>
        // only logged
        assert Span(|requests|, |requests|) == {};
      case Success(list) =>
        genres := list;
        if |list| > 0 {
          selectedGenre := Some(list[0].id);
        }
        RunSelectionEffect(before);
    }

    /** A click on the `i`-th sidebar entry. */
    method OnGenreClick(i: nat)
      requires Valid() && i < |genres|
      modifies this
      ensures Valid() && genresPending == old(genresPending)
      ensures State() == ClickGenre(old(State()), old(genres[i].id)).next
      ensures requests == old(requests) + ClickGenre(old(State()), old(genres[i].id)).issued
      ensures pending == old(pending) + Span(|old(requests)|, |requests|)
    {
      var before := State();
      selectedGenre := Some(genres[i].id);
      searchTerm := "";
      RunSelectionEffect(before);
    }

    /** The search box's `onChange`. */
    method OnSearchInput(text: string)
      requires Valid()
      modifies this
      ensures Valid() && genresPending == old(genresPending)
      ensures State() == TypeSearch(old(State()), text).next
      ensures requests == old(requests) && pending == old(pending)
    {
      var before := State();
      searchTerm := text;
      RunSelectionEffect(before);
    }

    /** `handleSearch`: the search form is submitted. */
    method OnSearchSubmit()
      requires Valid()
      modifies this
      ensures Valid() && genresPending == old(genresPending)
      ensures State() == old(State())
      ensures requests == old(requests) + SubmitSearch(old(State())).issued
      ensures pending == old(pending) + {|old(requests)|}
    {
      FetchGames();
    }

    /**
     * The response to the `k`-th `/games` request arrives. Whether or not a later request
     * was issued since, a success replaces `games` (last writer wins).
     */
    method OnGamesResponse(k: nat, res: Response<Option<seq<Game>>>)
      requires Valid() && k in pending
      modifies this
      ensures Valid() && genresPending == old(genresPending)
      ensures State() == OnGames(old(State()), res).next
      ensures requests == old(requests) && pending == old(pending) - {k}
    {
      var before := State();
      pending := pending - {k};
      match res
      case Failure =>
        // only logged
      case Success(results) =>
        games := ResultsOrEmpty(results);
        RunSelectionEffect(before);
    }
  }
}
