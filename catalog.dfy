/** Entities exchanged with the game-catalog web API, as the App component consumes them. */
module Catalog {

  datatype Option<T> = None | Some(value: T)

  /** Outcome of one asynchronous catalog call: the `.then` branch or the `.catch` branch. */
  datatype Response<T> = Success(body: T) | Failure

  /** A genre as listed by `/genres`. */
  datatype Genre = Genre(id: int, name: string, imageBackground: string)

  /** The `platform` object of one `parent_platforms` entry (the wrapping `{ platform: ... }` is flattened). */
  datatype Platform = Platform(slug: string, name: string)

  /** A game as listed by `/games`; `metacritic` and `parent_platforms` may be absent. */
  datatype Game = Game(
    id: int,
    name: string,
    backgroundImage: string,
    metacritic: Option<int>,
    parentPlatforms: Option<seq<Platform>>)

  /** Number of games asked for in every `/games` request. */
  const PageSize: int := 8

  /**
   * Query parameters of one `/games` request; a parameter that is `undefined` or `null`
   * is not sent, which is `None` here.
   */
  datatype GamesQuery = GamesQuery(genres: Option<int>, search: Option<string>, pageSize: int)
}
