# Movie, music and book recommender bot, in Dafny

This project models a Telegram bot that recommends films (TMDB), music (Spotify) and
books (Google Books). It models the bot's two coupled cores and proves properties of
them.

**The conversation.** A ConversationHandler has five states: `START_ROUTES`,
`GENRE_SELECTION`, `MOVIE_ACTIONS`, `MUSIC_ACTIONS` and `BOOK_ACTIONS`. Each state has
one callback handler, guarded by a pattern.
- `/start` registers the user and opens the main menu. `/cancel` ends the conversation.
- A callback that no pattern of the user's state accepts goes to a catch-all handler.
- Module `Dialog` holds these parts:
  - the pattern table;
  - each handler as a pure function from the token, the fetched item and the user's
    context to a `Turn`: the returned state, the new context, and the preference and
    history rows written;
  - a `Conversation` class holding the per-user state map and the per-user
    `context.user_data` map, with one method per handler, each proved against its
    function.

**Recommendation resolution.** Modules `Movies`, `Music` and `Books` each model one
adapter:
- a pure `Resolve` function returns the item and the history rows the call appends;
- a method runs the same steps against the `Store` class and is proved equal to
  `Resolve`.

Other modules:
- `Store` holds the three SQLite tables as in-memory maps and sequences.
- `Chance` models `random.choice`, `random.randint` and `generate_random_id`.
- `Rating` holds the rating-button tokens.
- `Text`, `Lists` and `Wrappers` hold string, list and option helpers with Python's
  meaning.

Randomness is a parameter. `rng(site, n)` is the index drawn among `n` possibilities at
one choice point of an event. The only assumption about it is that it is in range
(`Fair`).

Each HTTP request becomes an abstract answer: it failed (network error, error status,
undecodable body), or it returned the fields the bot reads. Missing JSON fields are
`None`. Python's truthiness is kept throughout: an empty genre means no genre, and user
id 0 means no user.

The bot's catch-all handler is registered outside the ConversationHandler. Its returned
state is therefore only a return value, and the stored conversation state does not
change. `Dialog.Conversation.Callback` models it that way. The returned value is the
same as `handle_category_selection`'s for every token, so the model uses
`Dialog.CategorySelection` for both.

## Model

| member | source | states |
|---|---|---|
| Store.Store.RegisterUser | main.py:128-138 | INSERT OR IGNORE: the users table becomes `Registered(old, user)`; preferences and history are unchanged |
| Store.Registered | main.py:131-134 | the key set gains the user's id; an existing row for that id is kept unchanged, otherwise the new row is stored; other rows are untouched |
| Store.RegisterIdempotent | main.py:131-134 | registering the same id again, whatever its other fields, leaves the table as after the first registration |
| Store.Store.SavePreference | main.py:141-151 | appends exactly the given preference row; users and history are unchanged |
| Store.Store.SaveRecommendationHistory | main.py:154-164 | appends exactly one (user, category, item) row; users and preferences are unchanged |
| Store.Store.RecordIfGiven | main.py:227-228 | history grows by `RecordShown`: one row when a user is given, none otherwise |
| Store.RecordShown | main.py:227-228 | one row (user, category, id) when the user id is truthy, no row for user 0 |
| Store.ShownIds | main.py:208-214 | an id is in the result iff the history holds a row (user, category, id) |
| Store.ShownIdsAppend | main.py:154-164 | appending rows adds exactly the appended rows' ids to what a user was shown |
| Chance.Choice | main.py:219 | `random.choice` returns an element of the list |
| Chance.RandInt | main.py:189 | `random.randint(lo, hi)` lies in [lo, hi] |
| Chance.FallbackId | main.py:189 | 14 characters: `fallback_` followed by five digits |
| Chance.GenerateRandomId | main.py:188-189 | the id is `fallback_` + n for some n in [10000, 99999] |
| Chance.FallbackIdRoundTrip | main.py:189 | the number drawn reads back out of the id |
| Chance.FallbackIdInjective | main.py:189 | two draws give the same id iff they drew the same number |
| Movies.ListQuery | main.py:195-198 | the genre's discover list iff a genre id is given, else the popular list |
| Movies.Year | main.py:239 | first four characters of a non-empty release date, else `Год неизвестен` |
| Movies.PosterUrl | main.py:244-245 | a URL iff the poster path is non-empty, and then the w500 base plus the path |
| Movies.Pool | main.py:216-222 | the unseen results for a user while any remain, all results otherwise (stated by `Movies.PoolWithin`, `Movies.MovieAvoidsShown` and `Movies.MovieExhaustedTakesAny`) |
| Movies.Describe | main.py:236-256 | the film item built from the detail fields with the bot's defaults (stated through `Movies.Year` and `Movies.PosterUrl`) |
| Movies.Resolve | main.py:193-260 | `get_movie_recommendations` as a function of the catalog, the history and the draws (stated by the `Movie…` lemmas below) |
| Movies.PoolWithin | main.py:216-224 | the list a film is drawn from lies within the results and is non-empty when they are |
| Movies.MovieFromCatalog | main.py:205-256 | a returned film's id is among the list query's ids, its detail query succeeded, and the rows written are exactly its history row |
| Movies.MovieAvoidsShown | main.py:216-219 | while some result is unseen, the film drawn and recorded is one the user has not been shown |
| Movies.MovieExhaustedTakesAny | main.py:220-222 | when every result was shown, a film is still drawn from all results and recorded |
| Movies.MovieNoneCases | main.py:205-260 | None iff the list fails or is empty, an id is missing, the detail query fails or a genre lacks its name |
| Movies.MovieRecordedBeforeDetail | main.py:226-234 | a failed detail query returns None but leaves the drawn film's history row |
| Movies.GetMovieRecommendations | main.py:193-260 | the step-by-step adapter returns `Resolve`'s film and appends exactly its rows |
| Music.SearchGenre | main.py:318-320 | the mapped Spotify words for a known genre, the token itself otherwise; empty iff no genre |
| Music.PlusForSpaces | main.py:322 | same length, every space replaced by `+`, every other character kept |
| Music.Present | main.py:395 | the ids present, at most as many as items; an id is in the result iff it is present in the list |
| Music.TrackSearchQuery | main.py:325 | the track search sends `genre:` followed by the prepared query |
| Music.PickUsable | main.py:367-371 | a drawn track is one of the list's tracks that has an id |
| Music.FindTrack | main.py:318-432 | the search chain (tracks, then playlists, then new releases) ends in a track id or in the fallback (stated by `Music.MusicFailureEndsInFallback`, `Music.NewReleasesOnlyWithoutGenre`, `Music.FindTrackProvenance` and `Music.PlaylistsOnlyAfterEmptyTrackSearch`) |
| Music.DescribeTrack | main.py:455-478 | the track item built from the detail fields, with a drawn id when the detail has none |
| Music.Resolve | main.py:303-488 | `get_music_recommendations` as a function of the token, the answers and the draws (stated by `Music.MusicFound` for success and the `Music…` lemmas below for the fallbacks) |
| Music.FindTrackProvenance | main.py:318-427 | a found id comes from the genre track search; or, when that search returned no tracks, from the items of a playlist the playlist search returned; or, without a genre, from the tracks of an album among the new releases |
| Music.PlaylistsOnlyAfterEmptyTrackSearch | main.py:333-347 | when the track search failed or returned tracks, the playlist answers do not affect the outcome |
| Music.MusicFound | main.py:433-481 | when a track is found and its detail query answers, the result is the described track and the rows are that track's `music` row, none without a user |
| Music.FallbackRecord | main.py:499-555 | the catalog entry carries the drawn id, no preview, the placeholder image and the Spotify home URL |
| Music.FallbackGenreKey | main.py:562-567 | a known genre selects its own entry; any other genre selects one of the six |
| Music.Fallback | main.py:491-567 | the fallback appends exactly the history row of the id it returns |
| Music.MusicFailureEndsInFallback | main.py:303-488 | no token, any failed search stage or a failed detail query all end in the fallback track; the rows are the found track's row (if any) and then the fallback's |
| Music.MusicDetailFailureWritesTwoRows | main.py:434-438 | the found track is recorded before the detail query, so a failed detail query leaves two rows for one call |
| Music.MusicRows | main.py:434-438 | at most two rows, all the user's and in category music; none without a user, at least one with one |
| Music.NewReleasesOnlyWithoutGenre | main.py:386-427 | with a genre the new-releases route is never consulted; without one only it is |
| Music.FallbackContentFixed | main.py:562-564 | a known genre's fallback track is the same on every call except for its id |
| Music.RockWhenSpotifyIsDown | main.py:491-564 | rock with every search failing gives the fixed rock track, a fresh fallback id and exactly one row |
| Music.GetMusicRecommendationsFallback | main.py:491-567 | the step-by-step fallback returns `Fallback`'s track and appends exactly its rows |
| Music.GetMusicRecommendations | main.py:303-488 | the step-by-step adapter returns `Resolve`'s track and appends exactly its rows |
| Books.BookQuery | main.py:672-682 | `subject:<genre> OR <Russian words>` for a genre; `subject:<one of six categories>` without one |
| Books.Answer | main.py:690-697 | the answer used is the keyed one, except that a 403 with a key is replaced by the unkeyed answer |
| Books.FilterUnseenRussian | main.py:719-726 | the loop returns the Russian or language-less unseen volumes in order, and fails iff some volume lacks an id |
| Books.FilterRussian | main.py:737-742 | the loop returns exactly the Russian or language-less volumes, in order |
| Books.PublishedDateAsWritten | main.py:763-765 | the date as written: a missing date becomes the placeholder, which is then cut to four characters like any date |
| Books.PublishedYear | main.py:763-765 | a present date is cut to its first four characters; a missing one is reported as unknown in full |
| Books.PublishedYearAgreesWhenPresent | main.py:763-765 | for every present date the corrected year equals what the source writes |
| Books.DescribeBookDate | main.py:763-765 | the book shown carries the source's date whenever the volume has one; only a dateless volume shows the whole placeholder where the source shows `Дата` |
| Books.DescribeBook | main.py:758-785 | the book item built from `volumeInfo` with the bot's defaults, the corrected year and the cut description |
| Books.Description | main.py:767-768 | a description of at most 300 characters is kept; a longer one becomes its first 300 characters plus `...` |
| Books.FallbackRecord | main.py:589-650 | the catalog entry carries the drawn id, the placeholder image and the Google Books home URL |
| Books.FallbackGenreKey | main.py:659-664 | a known genre selects its own entry; any other genre selects one of the six |
| Books.Fallback | main.py:579-664 | the fallback appends exactly the history row of the id it returns |
| Books.Candidates | main.py:685-748 | the volumes a book is drawn from, or None where the bot goes to the fallback before drawing (stated by `Books.FetchCandidates` and `Books.BookEmptyGoesToFallback`) |
| Books.Resolve | main.py:666-789 | `get_book_recommendations` as a function of the catalog, the history and the draws (stated by the `Book…` lemmas below) |
| Books.BookPicksUnseenRussian | main.py:706-774 | a drawn book is in the answer, is Russian or language-less, was not shown to the user before, is described from its own fields and is recorded |
| Books.BookEmptyGoesToFallback | main.py:727-748 | an error, an empty answer or an empty filter result gives the fallback catalog's book with a `fallback_` id |
| Books.BookOneRowPerCall | main.py:750-755 | every call appends exactly the row of the book it returns, and none without a user |
| Books.ForbiddenKeyRetriedWithout | main.py:693-697 | after a 403 with the key, the candidates, the book and the rows are exactly those of a run without a key |
| Books.GetBookRecommendationsFallback | main.py:579-664 | the step-by-step fallback returns `Fallback`'s book and appends exactly its rows |
| Books.FetchCandidates | main.py:671-748 | query, answer and filter loop give exactly `Candidates` |
| Books.GetBookRecommendations | main.py:666-789 | the step-by-step adapter returns `Resolve`'s book and appends exactly its rows |
| Text.Split | main.py:1711 | Python's `str.split` on one character: at least one piece, no piece holds the separator, and joining the pieces gives the string back (`Text.SplitHasNoSeparator`, `Text.SplitJoin`) |
| Text.ParseInt | main.py:1712 | Python's `int` on an optional sign and digits; it reads back every integer's decimal text (`Text.IntToStringRoundTrip`) |
| Rating.RateToken | main.py:1019-1020 | a rating button's data starts with `rate_<category>_` |
| Rating.RatingAsWritten | main.py:1529-1530 | the four-piece split of the handlers, as written |
| Rating.RatingAsWrittenIff | main.py:1529-1530 | the as-written split reads a button back exactly when the id holds no `_`; otherwise it raises |
| Rating.FallbackRatingLost | main.py:1709-1712 | a button under a fallback track or book cannot be read back as written |
| Rating.ParseRating | main.py:1527-1530 | a token read successfully starts with its category's prefix |
| Rating.ParseRatingRoundTrip | main.py:1019-1020 | every button's id and score read back exactly, whatever the id holds |
| Rating.ParseRatingExtendsAsWritten | main.py:1529-1530 | wherever the as-written split succeeds, the corrected reading gives the same result |
| Dialog.Accepts | main.py:2353-2366 | each state's callback pattern under `re.match`: `^x.*` a prefix test, `^x$` the whole token |
| Dialog.CategorySelection | main.py:844-984 | GENRE_SELECTION iff the token is one of the three category buttons, START_ROUTES otherwise |
| Dialog.MovieRequest | main.py:1004-1069 | a film request leads to MOVIE_ACTIONS with the film remembered when one came back and to `otherwise` with the context unchanged when none did; it writes the adapter's rows and no preference |
| Dialog.MusicRequest | main.py:1160-1236 | a track request leads to MUSIC_ACTIONS with the resolved track remembered; it writes the adapter's rows and no preference |
| Dialog.BookRequest | main.py:1343-1417 | a book request leads to BOOK_ACTIONS with the resolved book remembered; it writes the adapter's rows and no preference |
| Dialog.GenreStep | main.py:986-1518 | `handle_genre_selection` never saves a preference, and leads to START_ROUTES exactly for `back_to_main` |
| Dialog.MovieActionsStep | main.py:1520-1700 | only a `rate_movie_` token saves a preference, only `movie_random` writes history, only `category_movies` opens the genre menu (and it does, by `Dialog.OwnCategoryButtonOpensGenres`) and only `back_to_main` the main menu; the context changes only when MOVIE_ACTIONS is kept |
| Dialog.OwnCategoryButtonOpensGenres | main.py:1640-1674 | in each ACTIONS state the button of its own category is accepted and moves to GENRE_SELECTION with the context unchanged, nothing fetched and nothing saved (also main.py:1775-1809 and main.py:1962-1996) |
| Dialog.MusicActionsStep | main.py:1702-1835 | nothing is fetched or remembered; only a `rate_music_` token saves a preference; only `music_random` or `category_music` opens the genre menu (`category_music` does, by `Dialog.OwnCategoryButtonOpensGenres`) and only `back_to_main` the main menu |
| Dialog.BookActionsStep | main.py:1837-2022 | only a `rate_book_` token saves a preference, only `book_random` writes history, only `category_books` opens the genre menu (and it does, by `Dialog.OwnCategoryButtonOpensGenres`) and only `back_to_main` the main menu |
| Dialog.Step | main.py:2353-2366 | at most one preference, the user's, saved only by a rating token in an ACTIONS state; history is written only in the genre menu or by a `movie_random`/`book_random` request; START_ROUTES only moves between menus |
| Dialog.RatingTurnAsWritten | main.py:1709-1737 | the rating branch as written: the state and context are kept, and at most one preference is saved, with the id and score the four-piece split reads |
| Dialog.RatingTurn | main.py:1527-1555 | the state and context are kept; at most one preference, the user's, in the category, with the item's genre field and the id and score read from the token |
| Dialog.BackToMainFromEveryState | main.py:2353-2366 | `back_to_main` is accepted in every state and leads to START_ROUTES, with nothing fetched or saved |
| Dialog.StartRoutesTransitions | main.py:850-984 | from START_ROUTES the category buttons lead to GENRE_SELECTION and every other accepted token stays; nothing is saved |
| Dialog.CategoryTokensAccepted | main.py:2354 | the three category buttons are accepted in START_ROUTES |
| Dialog.UnnamedTokensKeepState | main.py:1700 | in an ACTIONS state an accepted token that the handler does not name keeps the state and changes nothing |
| Dialog.GenreMenuOtherTokensStay | main.py:1518 | in GENRE_SELECTION an accepted token that names no request keeps the state and changes nothing |
| Dialog.RandomRequestStays | main.py:1557-1698 | `movie_random` and `book_random` stay in their ACTIONS state whatever the catalog answered; the film is remembered only when one came back |
| Dialog.MoreMusicOpensGenres | main.py:1739-1765 | `music_random` in MUSIC_ACTIONS opens the genre menu without a fetch |
| Dialog.FilmRequestSucceedsIff | main.py:993-1146 | a film request leads to MOVIE_ACTIONS iff a film came back, and remembers it exactly then; otherwise it stays with the context unchanged |
| Dialog.TrackRequestSucceeds | main.py:1147-1329 | `music_genre_<g>` and `music_random` lead to MUSIC_ACTIONS with exactly the resolved track remembered and its rows written; the random genre is a draw from the genre list |
| Dialog.BookRequestSucceeds | main.py:1330-1501 | `book_genre_<g>` and `book_random` lead to BOOK_ACTIONS with exactly the resolved book remembered and its rows written |
| Dialog.RatingTurnSaves | main.py:1527-1555 | the rating branch saves exactly the parsed id and score under the item's genre, and nothing when no item is in the context |
| Dialog.FilmRatingStep | main.py:1527-1555 | in MOVIE_ACTIONS any token the rating reading parses saves that rating and keeps the state |
| Dialog.TrackRatingStep | main.py:1709-1737 | the same in MUSIC_ACTIONS |
| Dialog.BookRatingStep | main.py:1844-1872 | the same in BOOK_ACTIONS |
| Dialog.FilmRatingSaved | main.py:1527-1555 | rating the shown film saves one preference with its genres, the button's id and score; nothing without a film in the context |
| Dialog.TrackRatingSaved | main.py:1709-1737 | with the corrected reading, rating a track saves one preference with an empty genre, the button's id and score; nothing without a track in the context |
| Dialog.BookRatingSaved | main.py:1844-1872 | with the corrected reading, rating a book saves one preference with its categories, the button's id and score; nothing without a book in the context |
| Dialog.FallbackRatingDroppedAsWritten | main.py:1709-1712 | as written, a rating button under a fallback track or book changes nothing; the corrected branch saves that rating |
| Dialog.RatingTurnAgreesWithoutUnderscore | main.py:1527-1530 | for every id without `_` the branch as written and the corrected one give the same turn |
| Dialog.FilmRatingPrefixRouted | main.py:2353-2366 | a token starting `rate_movie_`, as every film rating button does, is accepted in MOVIE_ACTIONS and in no other state |
| Dialog.TrackRatingPrefixRouted | main.py:2353-2366 | a token starting `rate_music_` is accepted in MUSIC_ACTIONS and in no other state |
| Dialog.BookRatingPrefixRouted | main.py:2353-2366 | a token starting `rate_book_` is accepted in BOOK_ACTIONS and in no other state |
| Dialog.CrossCategoryButtonIgnored | main.py:2359-2360 | from MOVIE_ACTIONS the book and music category buttons are not routed to the conversation |
| Dialog.Conversation.Start | main.py:800-818 | registers the user and sets START_ROUTES from any state; keeps only registered users in conversation |
| Dialog.Conversation.Cancel | main.py:838-842 | removes the user's state (END) and nothing else |
| Dialog.Conversation.HandleGenreSelection | main.py:986-1518 | returns `GenreStep`'s state, stores its context and appends its rows |
| Dialog.Conversation.HandleMovieActions | main.py:1520-1700 | returns `MovieActionsStep`'s state, stores its context and appends its rows and preferences |
| Dialog.Conversation.Rate | main.py:1709-1720 | the state returned is `RatingTurn`'s and the preferences grow by exactly its row; users and history are unchanged |
| Dialog.Conversation.HandleMusicActions | main.py:1702-1835 | returns `MusicActionsStep`'s state and appends its preference; history is unchanged |
| Dialog.Conversation.HandleBookActions | main.py:1837-2022 | returns `BookActionsStep`'s state, stores its context and appends its rows and preferences |
| Dialog.Conversation.Callback | main.py:2351-2388 | a token the user's state accepts runs that state's handler and stores its state; any other token leaves states, context and tables unchanged; every preference it saves belongs to a registered user |

## Left out

- Telegram rendering is left out: keyboards, message edits, photos, deletions and Markdown text. Only returned states, context entries and table rows are modelled.
- The `except Exception` branches of the handlers are left out. Each adapter catches its own errors, so these branches are reached only when rendering or the database fails.
- HTTP, JSON decoding and the SSL retries of `get_spotify_token` are left out. Each request is an abstract answer, and the token is an optional string.
- SQLite connections, the schema and the timestamp columns are left out. The tables are in-memory values.
- `random` is a parameter. The model does not capture the distribution of draws.
- `show_history`, `help_command`, `get_user_preferences`, `error_handler`, the `/movies`, `/music` and `/books` commands, `main()` wiring and app.py are not part of this model.
- Movies.Describe: `vote_average` is a float and is carried as its printed text.
- Movies.Resolve: a KeyError on a missing id or genre name is modelled as the None it produces. JSON value types (a non-list `results`, a non-string name) are not modelled.
- Text.ParseInt: it accepts an optional sign and ASCII digits. Python's `int` also strips surrounding whitespace and accepts underscores between digits and other Unicode digits. Button tokens never carry these.
- Dialog.Conversation.Callback: a catch-all reply of GENRE_SELECTION does not move the conversation. The handler sits outside the ConversationHandler, so only the stored state matters. The callback patterns are applied with `re.match` semantics.
- Dialog.Conversation.Callback: in START_ROUTES the user's context entry is written back unchanged. This matches the framework, which creates `user_data` for every user it sees.
- Dialog.RatingTurn: the conversation reads rating buttons with the corrected `Rating.ParseRating` (first row of Findings). As written, `split("_")` raises ValueError for a button whose id holds `_`, including every `fallback_` id, and nothing is saved. `Dialog.RatingTurnAsWritten` and `Dialog.FallbackRatingDroppedAsWritten` state that behaviour. `Dialog.RatingTurnAgreesWithoutUnderscore` shows that the two agree on every other id.
- Dialog.Step: reads rating tokens with the corrected reading described for Dialog.RatingTurn.
- Dialog.MusicActionsStep: reads rating tokens with the corrected reading described for Dialog.RatingTurn.
- Dialog.BookActionsStep: reads rating tokens with the corrected reading described for Dialog.RatingTurn.
- Dialog.Conversation.Callback: reads rating tokens with the corrected reading described for Dialog.RatingTurn.
- Dialog.RatingTurnSaves: states the corrected branch. For an id holding `_` the source saves nothing (see Dialog.RatingTurn above).
- Dialog.TrackRatingStep: saves a rating of a fallback track, which the source loses at main.py:1711 (see Dialog.RatingTurn above).
- Dialog.BookRatingStep: saves a rating of a fallback book or of a volume id holding `_`, which the source loses at main.py:1846 (see Dialog.RatingTurn above).
- Dialog.TrackRatingSaved: holds for every id with the corrected reading. As written it holds only for ids without `_`.
- Dialog.BookRatingSaved: holds for every id with the corrected reading. As written it holds only for ids without `_`.
- Dialog.Conversation.Rate: stores the row the corrected reading gives. The source stores none for an id holding `_`.
- Dialog.Conversation.HandleMusicActions: stores the rating of a fallback track, which the source never saves (see Dialog.RatingTurn above).
- Dialog.Conversation.HandleBookActions: stores the rating of a fallback book or of an id holding `_`, which the source never saves (see Dialog.RatingTurn above).
- Music.FindTrack: the source keeps an item whose `id` key is present with a null value (main.py:338, 354, 368, 395, 411). It then stores a row with a NULL id and asks for `/v1/tracks/None`, which fails and adds the fallback's row. The model reads such an item as one without an id: a drawn track or playlist leads to the fallback, and the filtered playlist items, albums and album tracks skip it.
- Books.DescribeBook: uses the corrected `Books.PublishedYear` (second row of Findings). A volume without `publishedDate` is shown with the whole `Дата неизвестна` where the source shows `Дата`. `Books.DescribeBookDate` states that this is the only difference.
- Books.Resolve: a dateless volume's year differs from the source's as described for Books.DescribeBook.
- Books.GetBookRecommendations: a dateless volume's year differs from the source's as described for Books.DescribeBook.

## Findings

| source | as written | input that shows it | evidently intended | confidence | as-written member | corrected member |
|---|---|---|---|---|---|---|
| main.py:1711 | `_, _, music_id, rating = callback_data.split("_")` unpacks exactly four pieces; the same appears at main.py:1529 and main.py:1846 | `rate_music_fallback_12345_5`, the button under any fallback track, which splits into five pieces and raises ValueError, so the rating is never saved | split the score off at the last `_` after the `rate_<category>_` prefix | high (not executed) | Rating.RatingAsWritten, Rating.FallbackRatingLost, Dialog.RatingTurnAsWritten, Dialog.FallbackRatingDroppedAsWritten | Rating.ParseRating, Rating.ParseRatingRoundTrip, Dialog.RatingTurn |
| main.py:763-765 | `volumeInfo.get('publishedDate', 'Дата неизвестна')`, then every value of length 4 or more is cut to 4 characters | a volume without `publishedDate` is shown with year `Дата` | cut only a date that is present and keep the placeholder whole | medium (not executed) | Books.PublishedDateAsWritten, Books.PublishedDateAsWrittenCutsPlaceholder | Books.PublishedYear, Books.PublishedYearAgreesWhenPresent, Books.DescribeBook |
