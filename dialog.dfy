// The bot's conversation: a ConversationHandler with five states, one callback handler
// per state guarded by a pattern, `/start` as the entry point (re-entry allowed) and
// `/cancel` as the way out. A callback no state accepts goes to the catch-all handler
// registered beside the conversation; its returned state is not the conversation's,
// so the stored state stays as it was.
module Dialog {
  import opened Wrappers
  import opened Text
  import opened Store
  import opened Chance
  import opened Rating
  import Movies
  import Music
  import Books

  /** `START_ROUTES, GENRE_SELECTION, MOVIE_ACTIONS, MUSIC_ACTIONS, BOOK_ACTIONS`; END is a
      user without a state. */
  datatype State = StartRoutes | GenreSelection | MovieActions | MusicActions | BookActions

  /** `context.user_data`: the last item shown in each category. */
  datatype UserData = UserData(
    currentMovie: Option<Movies.MovieItem>,
    currentMusic: Option<Music.MusicItem>,
    currentBook: Option<Books.BookItem>)

  const NoData := UserData(None, None, None)

  /** The three catalogs as one callback finds them. */
  datatype Net = Net(movies: Movies.MovieApi, spotify: Music.SpotifyApi, books: Books.BooksApi)

  /** What one handler call did: the state it returned, the user's context after it, and the
      preference and history rows it appended. */
  datatype Turn = Turn(next: State, data: UserData, preferences: seq<Preference>, written: seq<HistoryEntry>)

  /** A handler that changed nothing but may have moved the conversation. */
  function Move(next: State, data: UserData): (t: Turn)
    ensures t.next == next && t.data == data && t.preferences == [] && t.written == []
  {
    Turn(next, data, [], [])
  }

  // ---------------------------------------------------------------------------
  // The pattern table

  /** Each state's `CallbackQueryHandler` pattern, read with `re.match`: an alternative
      `^x.*` is a prefix test, an alternative `^x$` the whole token (or the token and a
      final newline). */
  predicate Accepts(state: State, token: string) {
    match state
    case StartRoutes =>
      StartsWith(token, "category_") || MatchesWhole(token, "help") ||
      MatchesWhole(token, "back_to_main") || MatchesWhole(token, "start_over")
    case GenreSelection =>
      StartsWith(token, "movie_") || StartsWith(token, "music_") || StartsWith(token, "book_") ||
      MatchesWhole(token, "back_to_main")
    case MovieActions =>
      StartsWith(token, "rate_movie_") || StartsWith(token, "movie_") ||
      MatchesWhole(token, "category_movies") || MatchesWhole(token, "back_to_main")
    case MusicActions =>
      StartsWith(token, "rate_music_") || StartsWith(token, "music_") ||
      MatchesWhole(token, "category_music") || MatchesWhole(token, "back_to_main")
    case BookActions =>
      StartsWith(token, "rate_book_") || StartsWith(token, "book_") ||
      MatchesWhole(token, "category_books") || MatchesWhole(token, "back_to_main")
  }

  /** The three buttons of the main menu. */
  predicate IsCategoryToken(token: string) {
    token == "category_movies" || token == "category_music" || token == "category_books"
  }

  // ---------------------------------------------------------------------------
  // The handlers, as functions of what they read

  /** `handle_category_selection`: the category buttons open the genre menu, everything else
      (`help`, `back_to_main`, `start_over`, any other `category_` token) returns to the
      main menu. `handle_fallback_callback` returns the same state for every token. */
  function CategorySelection(token: string): (next: State)
    ensures next == GenreSelection <==> IsCategoryToken(token)
    ensures next == StartRoutes <==> !IsCategoryToken(token)
  {
    if token == "category_movies" || token == "category_music" || token == "category_books"
    then GenreSelection
    else StartRoutes
  }

  /** A film request: MOVIE_ACTIONS and the film remembered when one came back; when none
      did, `otherwise` with the context as it was. */
  function MovieRequest(genreId: string, otherwise: State, user: UserId, data: UserData,
                        history: seq<HistoryEntry>, net: Net, rng: Rng): (t: Turn)
    requires Fair(rng)
    ensures var r := Movies.Resolve(genreId, user, history, net.movies, rng);
            (r.movie.Some? ==> t.next == MovieActions && t.data == data.(currentMovie := r.movie)) &&
            (r.movie.None? ==> t.next == otherwise && t.data == data)
    ensures t.written == Movies.Resolve(genreId, user, history, net.movies, rng).written
    ensures t.preferences == []
  {
    var r := Movies.Resolve(genreId, user, history, net.movies, rng);
    match r.movie
    case Some(m) => Turn(MovieActions, data.(currentMovie := Some(m)), [], r.written)
    case None => Turn(otherwise, data, [], r.written)
  }

  /** A track request: a track always comes back, so MUSIC_ACTIONS with the track remembered. */
  function MusicRequest(genre: string, user: UserId, data: UserData, net: Net, rng: Rng): (t: Turn)
    requires Fair(rng)
    ensures t.next == MusicActions
    ensures t.data == data.(currentMusic := Some(Music.Resolve(genre, user, net.spotify, rng).music))
    ensures t.written == Music.Resolve(genre, user, net.spotify, rng).written
    ensures t.preferences == []
  {
    var r := Music.Resolve(genre, user, net.spotify, rng);
    Turn(MusicActions, data.(currentMusic := Some(r.music)), [], r.written)
  }

  /** A book request: a book always comes back, so BOOK_ACTIONS with the book remembered. */
  function BookRequest(genre: string, user: UserId, data: UserData, history: seq<HistoryEntry>,
                       net: Net, rng: Rng): (t: Turn)
    requires Fair(rng)
    ensures t.next == BookActions
    ensures t.data == data.(currentBook := Some(Books.Resolve(genre, user, history, net.books, rng).book))
    ensures t.written == Books.Resolve(genre, user, history, net.books, rng).written
    ensures t.preferences == []
  {
    var r := Books.Resolve(genre, user, history, net.books, rng);
    Turn(BookActions, data.(currentBook := Some(r.book)), [], r.written)
  }

  /** `handle_genre_selection`: no preference is ever saved here, and only `back_to_main`
      leaves for the main menu. */
  function GenreStep(user: UserId, token: string, data: UserData, history: seq<HistoryEntry>,
                     net: Net, rng: Rng): (t: Turn)
    requires Fair(rng)
    ensures t.preferences == []
    ensures t.next == StartRoutes <==> token == "back_to_main"
  {
    StartsWithAt(token, "movie_genre_", 0);
    StartsWithAt(token, "music_genre_", 0);
    StartsWithAt(token, "book_genre_", 1);
    if StartsWith(token, "movie_genre_") then
      MovieRequest(LastPart(token, '_'), GenreSelection, user, data, history, net, rng)
    else if token == "movie_random" then
      MovieRequest("", GenreSelection, user, data, history, net, rng)
    else if StartsWith(token, "music_genre_") then
      MusicRequest(LastPart(token, '_'), user, data, net, rng)
    else if token == "music_random" then
      MusicRequest(Choice(Music.MusicGenres, rng, RandomMusicGenre), user, data, net, rng)
    else if StartsWith(token, "book_genre_") then
      BookRequest(LastPart(token, '_'), user, data, history, net, rng)
    else if token == "book_random" then
      BookRequest("", user, data, history, net, rng)
    else if token == "back_to_main" then Move(StartRoutes, data)
    else Move(GenreSelection, data)
  }

  /** A rating button, read with the corrected `ParseRating`: the preference is saved only
      when an item of the category is in the context, with that item's genre field and the id
      and score the token carries. A token that cannot be read raises, which changes
      nothing. */
  function RatingTurn(state: State, category: string, genre: Option<string>, user: UserId,
                      token: string, data: UserData): (t: Turn)
    ensures t.next == state && t.data == data && t.written == []
    ensures |t.preferences| <= 1
    ensures forall p :: p in t.preferences ==>
              p.user == user && p.category == category && Some(p.genre) == genre &&
              ParseRating(category, token) == Some(Rated(p.itemId, p.rating))
  {
    match ParseRating(category, token)
    case None => Move(state, data)
    case Some(rated) =>
      if genre.Some? then Turn(state, data, [Preference(user, category, genre.value, rated.itemId, rated.rating)], [])
      else Move(state, data)
  }

  /** The rating branch as the handlers are written: the token is split at every `_` and
      must give exactly four pieces and an integer score; any other token raises ValueError
      before the row is saved, which changes nothing. */
  function RatingTurnAsWritten(state: State, category: string, genre: Option<string>, user: UserId,
                               token: string, data: UserData): (t: Turn)
    ensures t.next == state && t.data == data && t.written == []
    ensures |t.preferences| <= 1
    ensures forall p :: p in t.preferences ==>
              p.user == user && p.category == category && Some(p.genre) == genre &&
              RatingAsWritten(token) == Some(Rated(p.itemId, p.rating))
  {
    match RatingAsWritten(token)
    case None => Move(state, data)
    case Some(rated) =>
      if genre.Some? then Turn(state, data, [Preference(user, category, genre.value, rated.itemId, rated.rating)], [])
      else Move(state, data)
  }

  /** `handle_movie_actions`; a film's genre field is its joined genre names. */
  function MovieActionsStep(user: UserId, token: string, data: UserData, history: seq<HistoryEntry>,
                            net: Net, rng: Rng): (t: Turn)
    requires Fair(rng)
    ensures t.preferences != [] ==> StartsWith(token, "rate_movie_")
    ensures t.written != [] ==> token == "movie_random"
    ensures t.next == GenreSelection ==> token == "category_movies"
    ensures t.next == StartRoutes ==> token == "back_to_main"
    ensures t.next != MovieActions ==> t.data == data
  {
    if StartsWith(token, "rate_movie_") then
      RatingTurn(MovieActions, "movie",
                 if data.currentMovie.Some? then Some(data.currentMovie.value.genres) else None,
                 user, token, data)
    else if token == "movie_random" then
      MovieRequest("", MovieActions, user, data, history, net, rng)
    else if token == "category_movies" then Move(GenreSelection, data)
    else if token == "back_to_main" then Move(StartRoutes, data)
    else Move(MovieActions, data)
  }

  /** `handle_music_actions`; a track's genre field is empty, and "more music" only opens the
      genre menu. */
  function MusicActionsStep(user: UserId, token: string, data: UserData): (t: Turn)
    ensures t.data == data && t.written == []
    ensures t.preferences != [] ==> StartsWith(token, "rate_music_")
    ensures t.next == GenreSelection ==> token == "music_random" || token == "category_music"
    ensures t.next == StartRoutes ==> token == "back_to_main"
  {
    if StartsWith(token, "rate_music_") then
      RatingTurn(MusicActions, "music", if data.currentMusic.Some? then Some("") else None,
                 user, token, data)
    else if token == "music_random" then Move(GenreSelection, data)
    else if token == "category_music" then Move(GenreSelection, data)
    else if token == "back_to_main" then Move(StartRoutes, data)
    else Move(MusicActions, data)
  }

  /** `handle_book_actions`; a book's genre field is its joined categories. */
  function BookActionsStep(user: UserId, token: string, data: UserData, history: seq<HistoryEntry>,
                           net: Net, rng: Rng): (t: Turn)
    requires Fair(rng)
    ensures t.preferences != [] ==> StartsWith(token, "rate_book_")
    ensures t.written != [] ==> token == "book_random"
    ensures t.next == GenreSelection ==> token == "category_books"
    ensures t.next == StartRoutes ==> token == "back_to_main"
    ensures t.next != BookActions ==> t.data == data
  {
    if StartsWith(token, "rate_book_") then
      RatingTurn(BookActions, "book",
                 if data.currentBook.Some? then Some(data.currentBook.value.categories) else None,
                 user, token, data)
    else if token == "book_random" then
      BookRequest("", user, data, history, net, rng)
    else if token == "category_books" then Move(GenreSelection, data)
    else if token == "back_to_main" then Move(StartRoutes, data)
    else Move(BookActions, data)
  }

  /** The handler of `state`, for a token its pattern accepted. */
  function Step(state: State, user: UserId, token: string, data: UserData,
                history: seq<HistoryEntry>, net: Net, rng: Rng): (t: Turn)
    requires Fair(rng)
    ensures |t.preferences| <= 1
    ensures forall p :: p in t.preferences ==> p.user == user
    ensures t.preferences != [] ==> state != StartRoutes && state != GenreSelection && StartsWith(token, "rate_")
    ensures t.written != [] ==> state == GenreSelection || (state == MovieActions && token == "movie_random") ||
                                (state == BookActions && token == "book_random")
    ensures state == StartRoutes ==> t == Move(CategorySelection(token), data)
  {
    StartsWithLonger(token, "rate_", "movie_");
    StartsWithLonger(token, "rate_", "music_");
    StartsWithLonger(token, "rate_", "book_");
    match state
    case StartRoutes => Move(CategorySelection(token), data)
    case GenreSelection => GenreStep(user, token, data, history, net, rng)
    case MovieActions => MovieActionsStep(user, token, data, history, net, rng)
    case MusicActions => MusicActionsStep(user, token, data)
    case BookActions => BookActionsStep(user, token, data, history, net, rng)
  }

  /** The user's context, empty before anything was stored in it. */
  function DataOf(userData: map<UserId, UserData>, user: UserId): UserData {
    if user in userData then userData[user] else NoData
  }

  /** Whether the conversation, rather than the catch-all handler, takes the callback. */
  predicate Routed(states: map<UserId, State>, user: UserId, token: string) {
    user in states && Accepts(states[user], token)
  }

  // ---------------------------------------------------------------------------
  // What the handlers promise

  /** `back_to_main` is accepted in every state and always leads to the main menu, with
      nothing fetched or saved. */
  lemma BackToMainFromEveryState(state: State, user: UserId, data: UserData,
                                 history: seq<HistoryEntry>, net: Net, rng: Rng)
    requires Fair(rng)
    ensures Accepts(state, "back_to_main")
    ensures Step(state, user, "back_to_main", data, history, net, rng) == Move(StartRoutes, data)
  {
    var t := "back_to_main";
    StartsWithAt(t, "movie_genre_", 0);
    StartsWithAt(t, "music_genre_", 0);
    StartsWithAt(t, "book_genre_", 1);
    StartsWithAt(t, "rate_movie_", 0);
    StartsWithAt(t, "rate_music_", 0);
    StartsWithAt(t, "rate_book_", 0);
  }

  /** From the main menu the three category buttons open the genre menu and every other
      accepted token stays in the main menu; nothing is fetched or saved. */
  lemma StartRoutesTransitions(user: UserId, token: string, data: UserData,
                               history: seq<HistoryEntry>, net: Net, rng: Rng)
    requires Fair(rng) && Accepts(StartRoutes, token)
    ensures var t := Step(StartRoutes, user, token, data, history, net, rng);
            t.data == data && t.preferences == [] && t.written == [] &&
            (IsCategoryToken(token) ==> t.next == GenreSelection) &&
            (!IsCategoryToken(token) ==> t.next == StartRoutes)
  {
  }

  /** The category buttons are accepted in the main menu. */
  lemma CategoryTokensAccepted(token: string)
    requires IsCategoryToken(token)
    ensures Accepts(StartRoutes, token)
  {
    assert token[..|"category_"|] == "category_";
  }

  /** In an ACTIONS state a token the handler does not name keeps the state, with nothing
      fetched or saved. */
  lemma UnnamedTokensKeepState(state: State, user: UserId, token: string, data: UserData,
                               history: seq<HistoryEntry>, net: Net, rng: Rng)
    requires Fair(rng)
    requires state == MovieActions || state == MusicActions || state == BookActions
    requires !StartsWith(token, "rate_")
    requires token !in {"movie_random", "music_random", "book_random", "category_movies",
                        "category_music", "category_books", "back_to_main"}
    ensures Step(state, user, token, data, history, net, rng) == Move(state, data)
  {
    assert token != "movie_random" && token != "music_random" && token != "book_random";
    assert token != "category_movies" && token != "category_music" && token != "category_books";
    assert token != "back_to_main";
    match state
    case MovieActions =>
      StartsWithLonger(token, "rate_", "movie_");
      assert !StartsWith(token, "rate_movie_");
      assert MovieActionsStep(user, token, data, history, net, rng) == Move(state, data);
    case MusicActions =>
      StartsWithLonger(token, "rate_", "music_");
      assert !StartsWith(token, "rate_music_");
      assert MusicActionsStep(user, token, data) == Move(state, data);
    case BookActions =>
      StartsWithLonger(token, "rate_", "book_");
      assert !StartsWith(token, "rate_book_");
      assert BookActionsStep(user, token, data, history, net, rng) == Move(state, data);
  }

  /** In the genre menu an accepted token that names no request and is not `back_to_main`
      (`movie_x`, say) keeps the genre menu, with nothing fetched or saved. */
  lemma GenreMenuOtherTokensStay(user: UserId, token: string, data: UserData,
                                 history: seq<HistoryEntry>, net: Net, rng: Rng)
    requires Fair(rng)
    requires !StartsWith(token, "movie_genre_") && !StartsWith(token, "music_genre_") &&
             !StartsWith(token, "book_genre_")
    requires token !in {"movie_random", "music_random", "book_random", "back_to_main"}
    ensures Step(GenreSelection, user, token, data, history, net, rng) == Move(GenreSelection, data)
  {
  }

  /** "Another film" and "another book" stay in their ACTIONS state whatever the catalog
      answered; the context is updated only when an item came back. */
  lemma RandomRequestStays(user: UserId, data: UserData, history: seq<HistoryEntry>, net: Net, rng: Rng)
    requires Fair(rng)
    ensures var t := Step(MovieActions, user, "movie_random", data, history, net, rng);
            var r := Movies.Resolve("", user, history, net.movies, rng);
            t.next == MovieActions && t.written == r.written &&
            t.data == (if r.movie.Some? then data.(currentMovie := r.movie) else data)
    ensures var t := Step(BookActions, user, "book_random", data, history, net, rng);
            var r := Books.Resolve("", user, history, net.books, rng);
            t.next == BookActions && t.written == r.written && t.data == data.(currentBook := Some(r.book))
  {
    StartsWithAt("movie_random", "rate_movie_", 0);
    StartsWithAt("book_random", "rate_book_", 0);
  }

  /** "More music" in MUSIC_ACTIONS goes back to the genre menu without asking Spotify. */
  lemma MoreMusicOpensGenres(user: UserId, data: UserData, history: seq<HistoryEntry>, net: Net, rng: Rng)
    requires Fair(rng)
    ensures Step(MusicActions, user, "music_random", data, history, net, rng) == Move(GenreSelection, data)
  {
    StartsWithAt("music_random", "rate_music_", 0);
  }

  /** In each ACTIONS state the button back to its own category opens the genre menu, with
      the context kept and nothing fetched or saved. */
  lemma OwnCategoryButtonOpensGenres(user: UserId, data: UserData, history: seq<HistoryEntry>, net: Net, rng: Rng)
    requires Fair(rng)
    ensures Accepts(MovieActions, "category_movies") &&
            Step(MovieActions, user, "category_movies", data, history, net, rng) == Move(GenreSelection, data)
    ensures Accepts(MusicActions, "category_music") &&
            Step(MusicActions, user, "category_music", data, history, net, rng) == Move(GenreSelection, data)
    ensures Accepts(BookActions, "category_books") &&
            Step(BookActions, user, "category_books", data, history, net, rng) == Move(GenreSelection, data)
  {
    StartsWithAt("category_movies", "rate_movie_", 0);
    StartsWithAt("category_music", "rate_music_", 0);
    StartsWithAt("category_books", "rate_book_", 0);
  }

  /** In the genre menu a film request leads to MOVIE_ACTIONS exactly when a film came back,
      and the film is remembered exactly then. */
  lemma FilmRequestSucceedsIff(user: UserId, token: string, data: UserData,
                               history: seq<HistoryEntry>, net: Net, rng: Rng)
    requires Fair(rng)
    requires StartsWith(token, "movie_genre_") || token == "movie_random"
    ensures var genreId := if token == "movie_random" then "" else LastPart(token, '_');
            var r := Movies.Resolve(genreId, user, history, net.movies, rng);
            var t := Step(GenreSelection, user, token, data, history, net, rng);
            (t.next == MovieActions <==> r.movie.Some?) &&
            (t.next != MovieActions ==> t.next == GenreSelection && t.data == data) &&
            (r.movie.Some? ==> t.data == data.(currentMovie := r.movie)) &&
            t.written == r.written && t.preferences == []
  {
    StartsWithAt("movie_random", "movie_genre_", 6);
    var genreId := if token == "movie_random" then "" else LastPart(token, '_');
    assert Step(GenreSelection, user, token, data, history, net, rng)
        == MovieRequest(genreId, GenreSelection, user, data, history, net, rng);
  }

  /** In the genre menu a track request, for a named genre or a drawn one, always leads to
      MUSIC_ACTIONS with the resolved track remembered and the resolution's rows written. */
  lemma TrackRequestSucceeds(user: UserId, token: string, data: UserData,
                             history: seq<HistoryEntry>, net: Net, rng: Rng)
    requires Fair(rng)
    requires StartsWith(token, "music_genre_") || token == "music_random"
    ensures var genre := if token == "music_random" then Choice(Music.MusicGenres, rng, RandomMusicGenre)
                         else LastPart(token, '_');
            var r := Music.Resolve(genre, user, net.spotify, rng);
            var t := Step(GenreSelection, user, token, data, history, net, rng);
            t.next == MusicActions && t.data == data.(currentMusic := Some(r.music)) &&
            t.written == r.written && t.preferences == []
  {
    StartsWithAt(token, "movie_genre_", 2);
    StartsWithAt(token, "music_genre_", 6);
    var genre := if token == "music_random" then Choice(Music.MusicGenres, rng, RandomMusicGenre)
                 else LastPart(token, '_');
    assert Step(GenreSelection, user, token, data, history, net, rng)
        == MusicRequest(genre, user, data, net, rng);
  }

  /** In the genre menu a book request, for a named genre or none, always leads to
      BOOK_ACTIONS with the resolved book remembered and the resolution's rows written. */
  lemma BookRequestSucceeds(user: UserId, token: string, data: UserData,
                            history: seq<HistoryEntry>, net: Net, rng: Rng)
    requires Fair(rng)
    requires StartsWith(token, "book_genre_") || token == "book_random"
    ensures var genre := if token == "book_random" then "" else LastPart(token, '_');
            var r := Books.Resolve(genre, user, history, net.books, rng);
            var t := Step(GenreSelection, user, token, data, history, net, rng);
            t.next == BookActions && t.data == data.(currentBook := Some(r.book)) &&
            t.written == r.written && t.preferences == []
  {
    BookTokensNameNoOtherRequest(token);
    var genre := if token == "book_random" then "" else LastPart(token, '_');
    assert GenreStep(user, token, data, history, net, rng) == BookRequest(genre, user, data, history, net, rng);
  }

  /** A book request token is not a film or track request token. */
  lemma BookTokensNameNoOtherRequest(token: string)
    requires StartsWith(token, "book_genre_") || token == "book_random"
    ensures !StartsWith(token, "movie_genre_") && token != "movie_random"
    ensures !StartsWith(token, "music_genre_") && token != "music_random"
    ensures token == "book_random" ==> !StartsWith(token, "book_genre_")
  {
    StartsWithAt(token, "movie_genre_", 0);
    StartsWithAt(token, "music_genre_", 0);
    if token == "book_random" {
      StartsWithAt(token, "book_genre_", 5);
    } else {
      StartsWithAt(token, "book_genre_", 0);
    }
  }

  /** The rating branch saves the parsed rating under the given genre, and nothing without one. */
  lemma RatingTurnSaves(state: State, category: string, genre: Option<string>, user: UserId,
                        token: string, data: UserData, itemId: string, rating: int)
    requires ParseRating(category, token) == Some(Rated(itemId, rating))
    ensures RatingTurn(state, category, genre, user, token, data)
         == if genre.Some? then Turn(state, data, [Preference(user, category, genre.value, itemId, rating)], [])
            else Move(state, data)
  {
  }

  /** Any token the movie reading parses is saved as that reading says. */
  lemma FilmRatingStep(user: UserId, token: string, data: UserData, history: seq<HistoryEntry>,
                       net: Net, rng: Rng, itemId: string, rating: int)
    requires Fair(rng)
    requires ParseRating("movie", token) == Some(Rated(itemId, rating))
    ensures var t := Step(MovieActions, user, token, data, history, net, rng);
            t.next == MovieActions && t.data == data && t.written == [] &&
            t.preferences == (if data.currentMovie.Some?
                              then [Preference(user, "movie", data.currentMovie.value.genres, itemId, rating)]
                              else [])
  {
    assert "rate_" + "movie" + "_" == "rate_movie_";
    assert StartsWith(token, "rate_movie_");
    assert Step(MovieActions, user, token, data, history, net, rng) == MovieActionsStep(user, token, data, history, net, rng);
    assert MovieActionsStep(user, token, data, history, net, rng) == RatingTurn(MovieActions, "movie", if data.currentMovie.Some? then Some(data.currentMovie.value.genres) else None, user, token, data);
    RatingTurnSaves(MovieActions, "movie", if data.currentMovie.Some? then Some(data.currentMovie.value.genres) else None, user, token, data, itemId, rating);
  }

  /** A rating button under the film last shown saves one preference with the film's
      genres, the id on the button and its score, and keeps the state; with no film in the
      context nothing is saved. */
  lemma FilmRatingSaved(user: UserId, itemId: string, rating: int, data: UserData,
                       history: seq<HistoryEntry>, net: Net, rng: Rng)
    requires Fair(rng)
    ensures var t := Step(MovieActions, user, RateToken("movie", itemId, rating), data, history, net, rng);
            t.next == MovieActions && t.data == data && t.written == [] &&
            t.preferences == (if data.currentMovie.Some?
                              then [Preference(user, "movie", data.currentMovie.value.genres, itemId, rating)]
                              else [])
  {
    ParseRatingRoundTrip("movie", itemId, rating);
    FilmRatingStep(user, RateToken("movie", itemId, rating), data, history, net, rng, itemId, rating);
  }

  /** Any token the music reading parses is saved as that reading says. */
  lemma TrackRatingStep(user: UserId, token: string, data: UserData, history: seq<HistoryEntry>,
                        net: Net, rng: Rng, itemId: string, rating: int)
    requires Fair(rng)
    requires ParseRating("music", token) == Some(Rated(itemId, rating))
    ensures var t := Step(MusicActions, user, token, data, history, net, rng);
            t.next == MusicActions && t.data == data && t.written == [] &&
            t.preferences == (if data.currentMusic.Some?
                              then [Preference(user, "music", "", itemId, rating)]
                              else [])
  {
    assert "rate_" + "music" + "_" == "rate_music_";
    assert StartsWith(token, "rate_music_");
    assert Step(MusicActions, user, token, data, history, net, rng) == MusicActionsStep(user, token, data);
    assert MusicActionsStep(user, token, data) == RatingTurn(MusicActions, "music", if data.currentMusic.Some? then Some("") else None, user, token, data);
    RatingTurnSaves(MusicActions, "music", if data.currentMusic.Some? then Some("") else None, user, token, data, itemId, rating);
  }

  /** The same for a track, whose genre field is empty. The id may hold `_`, as the fallback
      catalog's ids do. */
  lemma TrackRatingSaved(user: UserId, itemId: string, rating: int, data: UserData,
                        history: seq<HistoryEntry>, net: Net, rng: Rng)
    requires Fair(rng)
    ensures var t := Step(MusicActions, user, RateToken("music", itemId, rating), data, history, net, rng);
            t.next == MusicActions && t.data == data && t.written == [] &&
            t.preferences == (if data.currentMusic.Some?
                              then [Preference(user, "music", "", itemId, rating)]
                              else [])
  {
    ParseRatingRoundTrip("music", itemId, rating);
    TrackRatingStep(user, RateToken("music", itemId, rating), data, history, net, rng, itemId, rating);
  }

  /** Any token the book reading parses is saved as that reading says. */
  lemma BookRatingStep(user: UserId, token: string, data: UserData, history: seq<HistoryEntry>,
                       net: Net, rng: Rng, itemId: string, rating: int)
    requires Fair(rng)
    requires ParseRating("book", token) == Some(Rated(itemId, rating))
    ensures var t := Step(BookActions, user, token, data, history, net, rng);
            t.next == BookActions && t.data == data && t.written == [] &&
            t.preferences == (if data.currentBook.Some?
                              then [Preference(user, "book", data.currentBook.value.categories, itemId, rating)]
                              else [])
  {
    assert "rate_" + "book" + "_" == "rate_book_";
    assert StartsWith(token, "rate_book_");
    assert Step(BookActions, user, token, data, history, net, rng) == BookActionsStep(user, token, data, history, net, rng);
    assert BookActionsStep(user, token, data, history, net, rng) == RatingTurn(BookActions, "book", if data.currentBook.Some? then Some(data.currentBook.value.categories) else None, user, token, data);
    RatingTurnSaves(BookActions, "book", if data.currentBook.Some? then Some(data.currentBook.value.categories) else None, user, token, data, itemId, rating);
  }

  /** The same for a book, whose genre field is its joined categories. */
  lemma BookRatingSaved(user: UserId, itemId: string, rating: int, data: UserData,
                       history: seq<HistoryEntry>, net: Net, rng: Rng)
    requires Fair(rng)
    ensures var t := Step(BookActions, user, RateToken("book", itemId, rating), data, history, net, rng);
            t.next == BookActions && t.data == data && t.written == [] &&
            t.preferences == (if data.currentBook.Some?
                              then [Preference(user, "book", data.currentBook.value.categories, itemId, rating)]
                              else [])
  {
    ParseRatingRoundTrip("book", itemId, rating);
    BookRatingStep(user, RateToken("book", itemId, rating), data, history, net, rng, itemId, rating);
  }

  /** As the handlers are written, rating a track or a book of the static catalogs saves
      nothing and keeps the state, while the corrected branch saves it whenever the item is
      in the context. */
  lemma FallbackRatingDroppedAsWritten(state: State, category: string, genre: Option<string>, user: UserId,
                                       n: int, rating: int, data: UserData)
    requires category == "music" || category == "book"
    requires 10000 <= n <= 99999
    ensures RatingTurnAsWritten(state, category, genre, user, RateToken(category, FallbackId(n), rating), data)
         == Move(state, data)
    ensures genre.Some? ==>
              RatingTurn(state, category, genre, user, RateToken(category, FallbackId(n), rating), data).preferences
              == [Preference(user, category, genre.value, FallbackId(n), rating)]
  {
    FallbackRatingLost(n, rating);
    ParseRatingRoundTrip(category, FallbackId(n), rating);
    RatingTurnSaves(state, category, genre, user, RateToken(category, FallbackId(n), rating), data,
                    FallbackId(n), rating);
  }

  /** For a button whose id holds no `_`, the handlers as written and the corrected branch
      do the same. */
  lemma RatingTurnAgreesWithoutUnderscore(state: State, category: string, genre: Option<string>,
                                          user: UserId, itemId: string, rating: int, data: UserData)
    requires '_' !in category && '_' !in itemId
    ensures RatingTurnAsWritten(state, category, genre, user, RateToken(category, itemId, rating), data)
         == RatingTurn(state, category, genre, user, RateToken(category, itemId, rating), data)
  {
    RatingAsWrittenIff(category, itemId, rating);
    ParseRatingRoundTrip(category, itemId, rating);
  }

  /** A token starting `rate_movie_` is accepted in MOVIE_ACTIONS only. */
  lemma FilmRatingPrefixRouted(state: State, token: string)
    requires StartsWith(token, "rate_movie_")
    ensures Accepts(state, token) <==> state == MovieActions
  {
    StartsWithAt(token, "rate_movie_", 0);
    StartsWithAt(token, "rate_movie_", 5);
    StartsWithAt(token, "category_", 0);
    StartsWithAt(token, "movie_", 0);
    StartsWithAt(token, "music_", 0);
    StartsWithAt(token, "book_", 0);
    StartsWithAt(token, "rate_music_", 7);
    StartsWithAt(token, "rate_book_", 5);
  }

  /** A token starting `rate_music_` is accepted in MUSIC_ACTIONS only. */
  lemma TrackRatingPrefixRouted(state: State, token: string)
    requires StartsWith(token, "rate_music_")
    ensures Accepts(state, token) <==> state == MusicActions
  {
    StartsWithAt(token, "rate_music_", 0);
    StartsWithAt(token, "rate_music_", 5);
    StartsWithAt(token, "rate_music_", 7);
    StartsWithAt(token, "category_", 0);
    StartsWithAt(token, "movie_", 0);
    StartsWithAt(token, "music_", 0);
    StartsWithAt(token, "book_", 0);
    StartsWithAt(token, "rate_movie_", 7);
    StartsWithAt(token, "rate_book_", 5);
  }

  /** A token starting `rate_book_` is accepted in BOOK_ACTIONS only. */
  lemma BookRatingPrefixRouted(state: State, token: string)
    requires StartsWith(token, "rate_book_")
    ensures Accepts(state, token) <==> state == BookActions
  {
    StartsWithAt(token, "rate_book_", 0);
    StartsWithAt(token, "rate_book_", 5);
    StartsWithAt(token, "category_", 0);
    StartsWithAt(token, "movie_", 0);
    StartsWithAt(token, "music_", 0);
    StartsWithAt(token, "book_", 0);
    StartsWithAt(token, "rate_movie_", 5);
    StartsWithAt(token, "rate_music_", 5);
  }

  // ---------------------------------------------------------------------------
  // The conversation as the bot keeps it

  class Conversation {
    /** The ConversationHandler's state per user; a user without one is at END. */
    var states: map<UserId, State>
    /** `context.user_data` per user. */
    var userData: map<UserId, UserData>
    const store: Store

    /** Only registered users are in a conversation or have a context: `/start` registers
        the user before it sets the first state. */
    predicate Valid()
      reads this, store
    {
      states.Keys <= store.users.Keys && userData.Keys <= store.users.Keys
    }

    constructor (store: Store)
      ensures this.store == store && states == map[] && userData == map[]
      ensures Valid()
    {
      this.store := store;
      states := map[];
      userData := map[];
    }

    /** `/start`: registers the user (INSERT OR IGNORE) and opens the main menu; allowed
        from any state, or none. */
    method Start(user: User) returns (next: State)
      requires Valid()
      modifies this, store
      ensures Valid()
      ensures next == StartRoutes
      ensures states == old(states)[user.id := StartRoutes] && userData == old(userData)
      ensures store.users == Registered(old(store.users), user)
      ensures store.preferences == old(store.preferences) && store.history == old(store.history)
    {
      store.RegisterUser(user);
      next := StartRoutes;
      states := states[user.id := next];
    }

    /** `/cancel`: heard only while the user is in the conversation; ends it. */
    method Cancel(user: UserId)
      requires Valid()
      modifies this
      ensures Valid()
      ensures states == old(states) - {user} && userData == old(userData)
      ensures user !in states
    {
      if user in states {
        states := states - {user};
      }
    }

    /** The genre menu's handler against the store. */
    method HandleGenreSelection(user: UserId, token: string, net: Net, rng: Rng) returns (next: State)
      requires Fair(rng)
      modifies this, store
      ensures var t := GenreStep(user, token, DataOf(old(userData), user), old(store.history), net, rng);
              next == t.next && userData == old(userData)[user := t.data] &&
              store.history == old(store.history) + t.written
      ensures states == old(states)
      ensures store.users == old(store.users) && store.preferences == old(store.preferences)
    {
      var data := DataOf(userData, user);
      if StartsWith(token, "movie_genre_") || token == "movie_random" {
        var genreId := if StartsWith(token, "movie_genre_") then LastPart(token, '_') else "";
        var movie := Movies.GetMovieRecommendations(store, genreId, user, net.movies, rng);
        if movie.Some? {
          data := data.(currentMovie := movie);
          next := MovieActions;
        } else {
          next := GenreSelection;
        }
      } else if StartsWith(token, "music_genre_") || token == "music_random" {
        var genre := if StartsWith(token, "music_genre_") then LastPart(token, '_')
                     else Choice(Music.MusicGenres, rng, RandomMusicGenre);
        var music := Music.GetMusicRecommendations(store, genre, user, net.spotify, rng);
        data := data.(currentMusic := Some(music));
        next := MusicActions;
      } else if StartsWith(token, "book_genre_") || token == "book_random" {
        var genre := if StartsWith(token, "book_genre_") then LastPart(token, '_') else "";
        var book := Books.GetBookRecommendations(store, genre, user, net.books, rng);
        data := data.(currentBook := Some(book));
        next := BookActions;
      } else if token == "back_to_main" {
        next := StartRoutes;
      } else {
        next := GenreSelection;
      }
      userData := userData[user := data];
    }

    /** A rating button in an ACTIONS state: the preference row, if any. */
    method Rate(state: State, category: string, genre: Option<string>, user: UserId, token: string)
      returns (next: State)
      modifies store
      ensures var t := RatingTurn(state, category, genre, user, token, DataOf(userData, user));
              next == t.next && store.preferences == old(store.preferences) + t.preferences
      ensures store.users == old(store.users) && store.history == old(store.history)
    {
      next := state;
      var rated := ParseRating(category, token);
      if rated.Some? && genre.Some? {
        store.SavePreference(Preference(user, category, genre.value, rated.value.itemId, rated.value.rating));
      }
    }

    /** The film actions' handler against the store. */
    method HandleMovieActions(user: UserId, token: string, net: Net, rng: Rng) returns (next: State)
      requires Fair(rng)
      modifies this, store
      ensures var t := MovieActionsStep(user, token, DataOf(old(userData), user), old(store.history), net, rng);
              next == t.next && userData == old(userData)[user := t.data] &&
              store.history == old(store.history) + t.written &&
              store.preferences == old(store.preferences) + t.preferences
      ensures states == old(states) && store.users == old(store.users)
    {
      var data := DataOf(userData, user);
      if StartsWith(token, "rate_movie_") {
        var genre := if data.currentMovie.Some? then Some(data.currentMovie.value.genres) else None;
        next := Rate(MovieActions, "movie", genre, user, token);
      } else if token == "movie_random" {
        var movie := Movies.GetMovieRecommendations(store, "", user, net.movies, rng);
        if movie.Some? {
          data := data.(currentMovie := movie);
        }
        next := MovieActions;
      } else if token == "category_movies" {
        next := GenreSelection;
      } else if token == "back_to_main" {
        next := StartRoutes;
      } else {
        next := MovieActions;
      }
      userData := userData[user := data];
    }

    /** The music actions' handler against the store. */
    method HandleMusicActions(user: UserId, token: string) returns (next: State)
      modifies this, store
      ensures var t := MusicActionsStep(user, token, DataOf(old(userData), user));
              next == t.next && userData == old(userData)[user := t.data] &&
              store.preferences == old(store.preferences) + t.preferences
      ensures states == old(states) && store.users == old(store.users) && store.history == old(store.history)
    {
      var data := DataOf(userData, user);
      if StartsWith(token, "rate_music_") {
        var genre := if data.currentMusic.Some? then Some("") else None;
        next := Rate(MusicActions, "music", genre, user, token);
      } else if token == "music_random" || token == "category_music" {
        next := GenreSelection;
      } else if token == "back_to_main" {
        next := StartRoutes;
      } else {
        next := MusicActions;
      }
      userData := userData[user := data];
    }

    /** The book actions' handler against the store. */
    method HandleBookActions(user: UserId, token: string, net: Net, rng: Rng) returns (next: State)
      requires Fair(rng)
      modifies this, store
      ensures var t := BookActionsStep(user, token, DataOf(old(userData), user), old(store.history), net, rng);
              next == t.next && userData == old(userData)[user := t.data] &&
              store.history == old(store.history) + t.written &&
              store.preferences == old(store.preferences) + t.preferences
      ensures states == old(states) && store.users == old(store.users)
    {
      var data := DataOf(userData, user);
      if StartsWith(token, "rate_book_") {
        var genre := if data.currentBook.Some? then Some(data.currentBook.value.categories) else None;
        next := Rate(BookActions, "book", genre, user, token);
      } else if token == "book_random" {
        var book := Books.GetBookRecommendations(store, "", user, net.books, rng);
        data := data.(currentBook := Some(book));
        next := BookActions;
      } else if token == "category_books" {
        next := GenreSelection;
      } else if token == "back_to_main" {
        next := StartRoutes;
      } else {
        next := BookActions;
      }
      userData := userData[user := data];
    }

    /** One callback from `user`. When the user's state accepts the token, that state's
        handler runs and its returned state is stored; otherwise the catch-all handler
        answers, and its returned state is only a return value. */
    method Callback(user: UserId, token: string, net: Net, rng: Rng) returns (reply: State)
      requires Fair(rng) && Valid()
      modifies this, store
      ensures Valid()
      ensures Routed(old(states), user, token) ==>
                var t := Step(old(states)[user], user, token, DataOf(old(userData), user),
                              old(store.history), net, rng);
                reply == t.next && states == old(states)[user := t.next] &&
                userData == old(userData)[user := t.data] &&
                store.history == old(store.history) + t.written &&
                store.preferences == old(store.preferences) + t.preferences
      ensures !Routed(old(states), user, token) ==>
                reply == CategorySelection(token) && states == old(states) && userData == old(userData) &&
                store.history == old(store.history) && store.preferences == old(store.preferences)
      ensures store.users == old(store.users)
      ensures forall p :: p in store.preferences[|old(store.preferences)|..] ==> p.user in store.users
    {
      if !(user in states && Accepts(states[user], token)) {
        reply := CategorySelection(token);
        return;
      }
      var state := states[user];
      match state {
        case StartRoutes =>
          reply := CategorySelection(token);
          userData := userData[user := DataOf(userData, user)];
        case GenreSelection =>
          reply := HandleGenreSelection(user, token, net, rng);
        case MovieActions =>
          reply := HandleMovieActions(user, token, net, rng);
        case MusicActions =>
          reply := HandleMusicActions(user, token);
        case BookActions =>
          reply := HandleBookActions(user, token, net, rng);
      }
      states := states[user := reply];
    }
  }

  /** A token no state of the user accepts leaves the conversation where it was: in
      particular a category button pressed from an ACTIONS state of another category does
      not open the genre menu, though the catch-all handler shows it. */
  lemma CrossCategoryButtonIgnored(states: map<UserId, State>, user: UserId)
    requires user in states && states[user] == MovieActions
    ensures !Routed(states, user, "category_books") && !Routed(states, user, "category_music")
    ensures CategorySelection("category_books") == GenreSelection
  {
    StartsWithAt("category_books", "movie_", 0);
    StartsWithAt("category_music", "movie_", 0);
    StartsWithAt("category_books", "rate_movie_", 0);
    StartsWithAt("category_music", "rate_movie_", 0);
  }
}
