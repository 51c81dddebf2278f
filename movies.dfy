// `get_movie_recommendations`: one TMDB list query, exclusion of what the user has
// already been shown (or any result when everything was shown), a history row for
// the chosen film, then a detail query. Any failure gives None; there is no static
// fallback for films.
module Movies {
  import opened Wrappers
  import opened Text
  import opened Lists
  import opened Store
  import opened Chance

  /** The list query: by genre when a genre id is given, the popular list otherwise. */
  datatype MovieQuery = Discover(genreId: string) | Popular

  /** The fields of the detail response the bot reads; `genreNames` holds one entry per
      element of `genres`, absent where that element has no `name`. */
  datatype MovieDetail = MovieDetail(
    title: Option<string>,
    originalTitle: Option<string>,
    releaseDate: Option<string>,
    voteAverage: Option<string>,
    genreNames: seq<Option<string>>,
    overview: Option<string>,
    posterPath: Option<string>)

  /** The catalog as the bot sees it: each list query answers with the `results` entries'
      ids (`str(movie['id'])`, absent when an entry has no `id`), and each detail query
      is keyed by the film's id. A missing or empty `results` is the empty list. */
  datatype MovieApi = MovieApi(
    list: MovieQuery -> Fetch<seq<Option<string>>>,
    details: string -> Fetch<MovieDetail>)

  /** The film shown to the user. `rating` carries `vote_average` as printed, since the
      model has no floating point. */
  datatype MovieItem = MovieItem(
    id: string,
    title: string,
    originalTitle: string,
    year: string,
    rating: string,
    genres: string,
    overview: string,
    posterUrl: Option<string>)

  /** What one call returns, and the history rows it appended, in order. */
  datatype MovieOutcome = MovieOutcome(movie: Option<MovieItem>, written: seq<HistoryEntry>)

  const UnknownYear := "Год неизвестен"
  const PosterBase := "https://image.tmdb.org/t/p/w500"

  function ListQuery(genreId: string): (q: MovieQuery)
    ensures q.Discover? <==> genreId != ""
    ensures q.Discover? ==> q.genreId == genreId
  {
    if genreId != "" then Discover(genreId) else Popular
  }

  predicate AllHaveIds(results: seq<Option<string>>) {
    forall i :: 0 <= i < |results| ==> results[i].Some?
  }

  /** The results whose id the user has not been shown. */
  function Unseen(results: seq<Option<string>>, shown: set<string>): seq<Option<string>> {
    Filter(results, (r: Option<string>) => r.Some? && r.value !in shown)
  }

  /** The list a film is drawn from: the unseen results, or all of them when every one
      has been shown; without a user, all of them. */
  function Pool(results: seq<Option<string>>, user: UserId, history: seq<HistoryEntry>): seq<Option<string>> {
    if Given(user) && |Unseen(results, ShownIds(history, user, "movie"))| > 0
    then Unseen(results, ShownIds(history, user, "movie"))
    else results
  }

  /** The year: the first four characters of a non-empty release date. */
  function Year(releaseDate: Option<string>): (year: string)
    ensures releaseDate.Some? && releaseDate.value != "" ==>
              |year| == (if |releaseDate.value| < 4 then |releaseDate.value| else 4) &&
              year <= releaseDate.value
    ensures (releaseDate.None? || releaseDate.value == "") ==> year == UnknownYear
  {
    if releaseDate.Some? && releaseDate.value != "" then Prefix(releaseDate.value, 4) else UnknownYear
  }

  function PosterUrl(posterPath: Option<string>): (url: Option<string>)
    ensures url.Some? <==> posterPath.Some? && posterPath.value != ""
    ensures url.Some? ==> url.value == PosterBase + posterPath.value
  {
    if posterPath.Some? && posterPath.value != "" then Some(PosterBase + posterPath.value) else None
  }

  predicate AllNamed(names: seq<Option<string>>) {
    forall i :: 0 <= i < |names| ==> names[i].Some?
  }

  function Names(names: seq<Option<string>>): seq<string>
    requires AllNamed(names)
  {
    seq(|names|, i requires 0 <= i < |names| => names[i].value)
  }

  /** The item built from the detail response, with the field defaults the bot uses. */
  function Describe(id: string, d: MovieDetail): MovieItem
    requires AllNamed(d.genreNames)
  {
    MovieItem(
      id,
      d.title.GetOr("Название неизвестно"),
      d.originalTitle.GetOr(""),
      Year(d.releaseDate),
      d.voteAverage.GetOr("0"),
      Join(Names(d.genreNames), ", "),
      d.overview.GetOr("Описание отсутствует"),
      PosterUrl(d.posterPath))
  }

  /** `get_movie_recommendations(genre_id, user_id)` against the given catalog and history.
      A KeyError (an entry without `id`, a genre without `name`) is caught like any other
      error and gives None. */
  function Resolve(genreId: string, user: UserId, history: seq<HistoryEntry>, api: MovieApi, rng: Rng): MovieOutcome
    requires Fair(rng)
  {
    match api.list(ListQuery(genreId))
    case Failed => MovieOutcome(None, [])
    case Received(results) =>
      if |results| == 0 then MovieOutcome(None, [])
      else if Given(user) && !AllHaveIds(results) then MovieOutcome(None, [])
      else
        var chosen := Choice(Pool(results, user, history), rng, MovieCandidate);
        if chosen.None? then MovieOutcome(None, [])
        else
          var written := RecordShown(user, "movie", chosen.value);
          match api.details(chosen.value)
          case Failed => MovieOutcome(None, written)
          case Received(d) =>
            if AllNamed(d.genreNames) then MovieOutcome(Some(Describe(chosen.value, d)), written)
            else MovieOutcome(None, written)
  }

  // ---------------------------------------------------------------------------
  // What the resolution promises

  lemma PoolWithin(results: seq<Option<string>>, user: UserId, history: seq<HistoryEntry>)
    ensures forall r :: r in Pool(results, user, history) ==> r in results
    ensures |results| > 0 ==> |Pool(results, user, history)| > 0
  {
  }

  /** The film comes from the catalog's answer to the query, never from static content,
      and when a user is given its id is exactly the one recorded in the history. */
  lemma {:induction false} MovieFromCatalog(genreId: string, user: UserId, history: seq<HistoryEntry>, api: MovieApi, rng: Rng)
    requires Fair(rng)
    ensures var r := Resolve(genreId, user, history, api, rng);
            r.movie.Some? ==>
              api.list(ListQuery(genreId)).Received? &&
              Some(r.movie.value.id) in api.list(ListQuery(genreId)).body &&
              api.details(r.movie.value.id).Received? &&
              r.written == RecordShown(user, "movie", r.movie.value.id)
  {
    if api.list(ListQuery(genreId)).Received? {
      PoolWithin(api.list(ListQuery(genreId)).body, user, history);
    }
  }

  /** While some result has not been shown to the user, the film drawn (and recorded) is one
      of those; the row is appended whatever the detail query then does. */
  lemma {:induction false} MovieAvoidsShown(genreId: string, user: UserId, history: seq<HistoryEntry>, api: MovieApi, rng: Rng)
    requires Fair(rng) && Given(user)
    requires api.list(ListQuery(genreId)).Received?
    requires AllHaveIds(api.list(ListQuery(genreId)).body)
    requires exists i :: 0 <= i < |api.list(ListQuery(genreId)).body| &&
               api.list(ListQuery(genreId)).body[i].value !in ShownIds(history, user, "movie")
    ensures var r := Resolve(genreId, user, history, api, rng);
            exists id :: id !in ShownIds(history, user, "movie") &&
              Some(id) in api.list(ListQuery(genreId)).body &&
              r.written == [HistoryEntry(user, "movie", id)] &&
              (r.movie.Some? ==> r.movie.value.id == id)
  {
    var results := api.list(ListQuery(genreId)).body;
    var shown := ShownIds(history, user, "movie");
    var i :| 0 <= i < |results| && results[i].value !in shown;
    assert results[i] in Unseen(results, shown);
    var chosen := Choice(Pool(results, user, history), rng, MovieCandidate);
    assert chosen in Unseen(results, shown);
  }

  /** When every result has been shown already, the film is drawn from all of them rather
      than the call failing for want of a new one. */
  lemma {:induction false} MovieExhaustedTakesAny(genreId: string, user: UserId, history: seq<HistoryEntry>, api: MovieApi, rng: Rng)
    requires Fair(rng) && Given(user)
    requires api.list(ListQuery(genreId)).Received?
    requires |api.list(ListQuery(genreId)).body| > 0
    requires AllHaveIds(api.list(ListQuery(genreId)).body)
    requires forall i :: 0 <= i < |api.list(ListQuery(genreId)).body| ==>
               api.list(ListQuery(genreId)).body[i].value in ShownIds(history, user, "movie")
    ensures var r := Resolve(genreId, user, history, api, rng);
            exists id :: id in ShownIds(history, user, "movie") &&
              Some(id) in api.list(ListQuery(genreId)).body &&
              r.written == [HistoryEntry(user, "movie", id)]
  {
    var results := api.list(ListQuery(genreId)).body;
    var shown := ShownIds(history, user, "movie");
    assert forall r :: r in results ==> !(r.Some? && r.value !in shown);
    var chosen := Choice(results, rng, MovieCandidate);
    assert chosen in results;
  }

  /** None exactly when the list query fails or is empty, an entry lacks its id (with a
      user, any entry; without, the one drawn), the detail query fails, or a genre lacks
      its name. */
  lemma {:induction false} MovieNoneCases(genreId: string, user: UserId, history: seq<HistoryEntry>, api: MovieApi, rng: Rng)
    requires Fair(rng)
    ensures var r := Resolve(genreId, user, history, api, rng);
            var list := api.list(ListQuery(genreId));
            r.movie.None? <==>
              list.Failed? || |list.body| == 0 ||
              (Given(user) && !AllHaveIds(list.body)) ||
              (var chosen := Choice(Pool(list.body, user, history), rng, MovieCandidate);
               chosen.None? || api.details(chosen.value).Failed? ||
               !AllNamed(api.details(chosen.value).body.genreNames))
  {
  }

  /** A failed detail query still leaves the history row of the film that was drawn:
      the row is written before the detail is asked for. */
  lemma {:induction false} MovieRecordedBeforeDetail(genreId: string, user: UserId, history: seq<HistoryEntry>, api: MovieApi, rng: Rng)
    requires Fair(rng) && Given(user)
    requires api.list(ListQuery(genreId)).Received?
    requires |api.list(ListQuery(genreId)).body| > 0
    requires AllHaveIds(api.list(ListQuery(genreId)).body)
    requires forall id :: api.details(id).Failed?
    ensures var r := Resolve(genreId, user, history, api, rng);
            r.movie.None? && |r.written| == 1 && r.written[0].user == user && r.written[0].category == "movie"
  {
    var results := api.list(ListQuery(genreId)).body;
    PoolWithin(results, user, history);
    var chosen := Choice(Pool(results, user, history), rng, MovieCandidate);
    assert chosen in results;
  }

  // ---------------------------------------------------------------------------
  // The adapter as the bot runs it, step by step, against the store

  method GetMovieRecommendations(store: Store, genreId: string, user: UserId, api: MovieApi, rng: Rng)
    returns (movie: Option<MovieItem>)
    requires Fair(rng)
    modifies store
    ensures var r := Resolve(genreId, user, old(store.history), api, rng);
            movie == r.movie && store.history == old(store.history) + r.written
    ensures store.users == old(store.users) && store.preferences == old(store.preferences)
  {
    var response := api.list(ListQuery(genreId));
    if response.Failed? || |response.body| == 0 {
      return None;
    }
    var results := response.body;
    var chosen;
    if Given(user) {
      if !AllHaveIds(results) {
        return None;
      }
      var filtered := Unseen(results, ShownIds(store.history, user, "movie"));
      if |filtered| > 0 {
        chosen := Choice(filtered, rng, MovieCandidate);
      } else {
        chosen := Choice(results, rng, MovieCandidate);
      }
    } else {
      chosen := Choice(results, rng, MovieCandidate);
    }
    if chosen.None? {
      return None;
    }
    store.RecordIfGiven(user, "movie", chosen.value);
    var detail := api.details(chosen.value);
    if detail.Failed? || !AllNamed(detail.body.genreNames) {
      return None;
    }
    movie := Some(Describe(chosen.value, detail.body));
  }
}
