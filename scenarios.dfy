/**
 * Clients of the App class: concrete event sequences and what the class's contracts
 * let a caller conclude about them.
 */
module Scenarios {
  import opened Catalog
  import opened Coordinator
  import opened AppComponent

  /** The genre list loads: the first genre is selected and fetched in genre mode. */
  method InitialLoad() returns (selected: Option<int>, issued: seq<GamesQuery>)
    ensures selected == Some(1)
    ensures issued == [GamesQuery(Some(1), None, 8)]
  {
    var app := new App();
    app.OnGenresResponse(Success([Genre(1, "Action", ""), Genre(2, "Indie", "")]));
    selected, issued := app.selectedGenre, app.requests;
  }

  /** Choosing another genre while a search term is typed clears it and fetches that genre. */
  method GenreSwitchClearsSearch() returns (term: string, issued: seq<GamesQuery>)
    ensures term == ""
    ensures issued == [GamesQuery(Some(1), None, 8), GamesQuery(Some(2), None, 8)]
  {
    var app := new App();
    app.OnGenresResponse(Success([Genre(1, "Action", ""), Genre(2, "Indie", "")]));
    app.OnSearchInput("zelda");
    app.OnGenreClick(1);
    term, issued := app.searchTerm, app.requests;
  }

  /** With a genre selected and a search term typed, submitting sends the search alone. */
  method SearchPrecedence() returns (issued: seq<GamesQuery>)
    ensures issued == [GamesQuery(Some(1), None, 8), GamesQuery(None, Some("mario"), 8)]
  {
    var app := new App();
    app.OnGenresResponse(Success([Genre(1, "Action", "")]));
    app.OnSearchInput("mario");
    app.OnSearchSubmit();
    issued := app.requests;
  }

  /** Keystrokes alone send nothing. */
  method TypingDoesNotFetch() returns (term: string, issued: seq<GamesQuery>)
    ensures term == "ab" && issued == []
  {
    var app := new App();
    app.OnSearchInput("a");
    app.OnSearchInput("ab");
    term, issued := app.searchTerm, app.requests;
  }

  /** A games response without results shows no games rather than failing. */
  method EmptyResultTolerance(shown: seq<Game>) returns (games: seq<Game>)
    ensures games == []
  {
    var app := new App();
    app.OnSearchSubmit();
    app.OnGamesResponse(0, Success(Some(shown)));
    app.OnSearchSubmit();
    app.OnGamesResponse(1, Success(None));
    games := app.games;
  }

  /** A failed genre list leaves the selection and the games as they were. */
  method FailureIsolation(shown: seq<Game>) returns (selected: Option<int>, games: seq<Game>)
    ensures selected == None && games == shown
  {
    var app := new App();
    app.OnSearchSubmit();
    app.OnGamesResponse(0, Success(Some(shown)));
    app.OnGenresResponse(Failure);
    selected, games := app.selectedGenre, app.games;
  }

  /**
   * Two genres clicked in quick succession; the first request's response arrives last
   * and overwrites the games of the genre now selected.
   */
  method StaleResponseOverwrites(action: seq<Game>, indie: seq<Game>)
    returns (selected: Option<int>, games: seq<Game>)
    ensures selected == Some(2) && games == action
  {
    var app := new App();
    app.OnGenresResponse(Success([Genre(1, "Action", ""), Genre(2, "Indie", "")]));
    app.OnGenreClick(1);
    app.OnGamesResponse(1, Success(Some(indie)));
    app.OnGamesResponse(0, Success(Some(action)));
    selected, games := app.selectedGenre, app.games;
  }

  /** Re-clicking the selected genre clears the search term and sends nothing. */
  method ReclickSendsNothing() returns (term: string, issued: seq<GamesQuery>)
    ensures term == "" && issued == [GamesQuery(Some(1), None, 8)]
  {
    var app := new App();
    app.OnGenresResponse(Success([Genre(1, "Action", "")]));
    app.OnSearchInput("zelda");
    app.OnGenreClick(0);
    term, issued := app.searchTerm, app.requests;
  }
}
