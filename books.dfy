// `get_book_recommendations` and `get_book_recommendations_fallback`: one Google Books
// query (retried without the API key when the key is refused), a filter keeping books
// in Russian or without a language (and, with a user, not already shown), a random
// pick, and normalised fields. An error, an empty answer or an empty filter result
// ends in the static fallback catalog, so a book is always returned.
module Books {
  import opened Wrappers
  import opened Text
  import opened Lists
  import opened Store
  import opened Chance

  /** `BOOK_GENRE_RUSSIAN`: the bot's genre token to its Russian subject words. */
  const BookGenreRussian: map<string, string> := map[
    "fiction" := "художественная литература",
    "fantasy" := "фэнтези",
    "science" := "наука",
    "history" := "история",
    "biography" := "биография",
    "poetry" := "поэзия"]

  /** The subjects searched when no genre is given. */
  const RandomCategories: seq<string> := ["роман", "фантастика", "детектив", "история", "биография", "поэзия"]

  /** The fallback catalog's keys, in the order of its dictionary. */
  const BookGenres: seq<string> := ["fiction", "fantasy", "science", "history", "biography", "poetry"]

  const UnknownDate := "Дата неизвестна"
  const DescriptionLimit := 300

  /** The fields of a volume's `volumeInfo` the bot reads. */
  datatype VolumeInfo = VolumeInfo(
    title: Option<string>,
    authors: Option<seq<string>>,
    publishedDate: Option<string>,
    description: Option<string>,
    categories: Option<seq<string>>,
    language: Option<string>,
    thumbnail: Option<string>,
    previewLink: Option<string>)

  /** One element of `items`; a missing `volumeInfo` is one with every field absent. */
  datatype Volume = Volume(id: Option<string>, info: VolumeInfo)

  /** One HTTP answer: none at all (network error, timeout, undecodable body), or a status
      and the `items` list (empty when missing). */
  datatype BooksReply = NoReply | Reply(status: int, items: seq<Volume>)

  /** Google Books as the bot sees it, for a query with and without the API key. */
  datatype BooksApi = BooksApi(
    hasKey: bool,
    withKey: string -> BooksReply,
    withoutKey: string -> BooksReply)

  datatype BookItem = BookItem(
    id: string,
    title: string,
    authors: string,
    publishedDate: string,
    description: string,
    categories: string,
    imageUrl: Option<string>,
    previewLink: Option<string>)

  /** What one call returns, and the history rows it appended, in order. */
  datatype BookOutcome = BookOutcome(book: BookItem, written: seq<HistoryEntry>)

  // ---------------------------------------------------------------------------
  // Query and reply

  /** The `q` sent: the genre as a subject or its Russian words; with no genre, one of
      six subjects drawn at random. */
  function BookQuery(genre: string, rng: Rng): (q: string)
    requires Fair(rng)
    ensures genre != "" ==>
              q == "subject:" + genre + " OR " +
                   (if genre in BookGenreRussian then BookGenreRussian[genre] else genre)
    ensures genre == "" ==> exists c :: c in RandomCategories && q == "subject:" + c
  {
    if genre != "" then
      "subject:" + genre + " OR " + (if genre in BookGenreRussian then BookGenreRussian[genre] else genre)
    else
      "subject:" + Choice(RandomCategories, rng, BookCategory)
  }

  /** The answer the bot goes on with: with a key, a 403 is retried once without it. */
  function Answer(api: BooksApi, query: string): (r: BooksReply)
    ensures !api.hasKey ==> r == api.withoutKey(query)
    ensures api.hasKey && !(api.withKey(query).Reply? && api.withKey(query).status == 403) ==>
              r == api.withKey(query)
    ensures api.hasKey && api.withKey(query).Reply? && api.withKey(query).status == 403 ==>
              r == api.withoutKey(query)
  {
    if api.hasKey then
      var first := api.withKey(query);
      if first.Reply? && first.status == 403 then api.withoutKey(query) else first
    else api.withoutKey(query)
  }

  /** `raise_for_status()` raises for client and server errors. */
  predicate IsErrorStatus(status: int) {
    400 <= status < 600
  }

  // ---------------------------------------------------------------------------
  // Filtering

  /** `language == 'ru' or not language`, with `language` defaulting to ''. */
  predicate IsRussian(v: Volume) {
    v.info.language.None? || v.info.language.value == "" || v.info.language.value == "ru"
  }

  predicate AllHaveIds(items: seq<Volume>) {
    forall i :: 0 <= i < |items| ==> items[i].id.Some?
  }

  /** What the loop over `items` keeps when a user is given. */
  function UnseenRussian(items: seq<Volume>, shown: set<string>): seq<Volume> {
    Filter(items, (v: Volume) => v.id.Some? && v.id.value !in shown && IsRussian(v))
  }

  /** What the loop over `items` keeps without a user. */
  function RussianBooks(items: seq<Volume>): seq<Volume> {
    Filter(items, IsRussian)
  }

  /** The loop building `filtered_results`: it reads every volume's id first, so a volume
      without one raises (None here). */
  method FilterUnseenRussian(items: seq<Volume>, shown: set<string>) returns (filtered: Option<seq<Volume>>)
    ensures filtered.Some? <==> AllHaveIds(items)
    ensures filtered.Some? ==> filtered.value == UnseenRussian(items, shown)
  {
    var kept: seq<Volume> := [];
    var i := 0;
    while i < |items|
      invariant 0 <= i <= |items|
      invariant AllHaveIds(items[..i])
      invariant kept == UnseenRussian(items[..i], shown)
    {
      var book := items[i];
      if book.id.None? {
        return None;
      }
      if book.id.value !in shown {
        if IsRussian(book) {
          kept := kept + [book];
        }
      }
      FilterSnoc(items[..i], book, (v: Volume) => v.id.Some? && v.id.value !in shown && IsRussian(v));
      assert items[..i + 1] == items[..i] + [book];
      i := i + 1;
    }
    assert items[..i] == items;
    filtered := Some(kept);
  }

  /** The loop building `russian_books`. */
  method FilterRussian(items: seq<Volume>) returns (russian: seq<Volume>)
    ensures russian == RussianBooks(items)
  {
    russian := [];
    var i := 0;
    while i < |items|
      invariant 0 <= i <= |items|
      invariant russian == RussianBooks(items[..i])
    {
      var book := items[i];
      if IsRussian(book) {
        russian := russian + [book];
      }
      FilterSnoc(items[..i], book, IsRussian);
      assert items[..i + 1] == items[..i] + [book];
      i := i + 1;
    }
    assert items[..i] == items;
  }

  // ---------------------------------------------------------------------------
  // Normalised fields

  /** The published date as the bot writes it: a missing date becomes the 15-character
      placeholder, and then every value of length 4 or more is cut to 4 characters. */
  function PublishedDateAsWritten(date: Option<string>): string {
    var d := date.GetOr(UnknownDate);
    if d != "" && |d| >= 4 then d[..4] else d
  }

  /** A missing date is reported as unknown; a date field is cut to its first 4 characters. */
  lemma PublishedDateAsWrittenCutsPlaceholder()
    ensures PublishedDateAsWritten(None) == "Дата"
    ensures PublishedDateAsWritten(None) != UnknownDate
  {
    assert UnknownDate[..4] == "Дата";
  }

  /** The year the bot evidently means to show: a present date cut to 4 characters, the
      placeholder in full when the date is missing. */
  function PublishedYear(date: Option<string>): (year: string)
    ensures date.None? ==> year == UnknownDate
    ensures date.Some? ==> year == Prefix(date.value, 4)
  {
    match date
    case None => UnknownDate
    case Some(d) => if |d| >= 4 then d[..4] else d
  }

  /** The two agree on every date that is present. */
  lemma PublishedYearAgreesWhenPresent(d: string)
    ensures PublishedYear(Some(d)) == PublishedDateAsWritten(Some(d))
  {
  }

  /** `description[:300] + '...'` for a description over 300 characters. */
  function Description(description: Option<string>): (r: string)
    ensures var d := description.GetOr("Описание отсутствует");
            (|d| <= DescriptionLimit ==> r == d) &&
            (|d| > DescriptionLimit ==> |r| == DescriptionLimit + 3 &&
                                        r[..DescriptionLimit] == d[..DescriptionLimit] &&
                                        r[DescriptionLimit..] == "...")
  {
    var d := description.GetOr("Описание отсутствует");
    if |d| > DescriptionLimit then d[..DescriptionLimit] + "..." else d
  }

  function DescribeBook(id: string, info: VolumeInfo): BookItem {
    BookItem(
      id,
      info.title.GetOr("Название неизвестно"),
      Join(info.authors.GetOr(["Автор неизвестен"]), ", "),
      PublishedYear(info.publishedDate),
      Description(info.description),
      Join(info.categories.GetOr(["Категория неизвестна"]), ", "),
      info.thumbnail,
      info.previewLink)
  }

  // ---------------------------------------------------------------------------
  // The fallback catalog

  /** `fallback_recommendations[genre]`, with the id drawn for this call. */
  function FallbackRecord(genre: string, id: string): (b: BookItem)
    requires genre in BookGenres
    ensures b.id == id && b.imageUrl == Some("https://via.placeholder.com/300")
    ensures b.previewLink == Some("https://books.google.com")
  {
    var (title, authors, date, description, categories) :=
      if genre == "fiction" then
        ("Великий роман", "Известный Писатель", "2023",
         "Увлекательная история о приключениях и испытаниях героя в загадочном мире.",
         "Художественная литература")
      else if genre == "fantasy" then
        ("Хроники магического мира", "Фантаст Волшебников", "2024",
         "Эпическая сага о магии, драконах и великих сражениях.", "Фэнтези")
      else if genre == "science" then
        ("Наука будущего", "Профессор Знаний", "2025",
         "Исследование последних научных достижений и их влияния на будущее человечества.",
         "Наука, Технологии")
      else if genre == "history" then
        ("Забытые страницы истории", "Историк Летописцев", "2024",
         "Исследование малоизвестных исторических событий, изменивших ход истории.", "История")
      else if genre == "biography" then
        ("Жизнь замечательных людей", "Биограф Жизнеписец", "2023",
         "Биография выдающейся личности, преодолевшей все трудности на пути к успеху.", "Биография")
      else
        ("Сборник стихов о вечном", "Поэт Рифмоплётов", "2025",
         "Сборник проникновенных стихов о любви, жизни и поиске смысла.", "Поэзия");
    BookItem(id, title, authors, date, description, categories,
             Some("https://via.placeholder.com/300"), Some("https://books.google.com"))
  }

  function FallbackGenreKey(genre: string, rng: Rng): (key: string)
    requires Fair(rng)
    ensures key in BookGenres
    ensures genre in BookGenres ==> key == genre
  {
    if genre != "" && genre in BookGenres then genre else Choice(BookGenres, rng, FallbackGenre)
  }

  /** `get_book_recommendations_fallback(genre, user_id)` */
  function Fallback(genre: string, user: UserId, rng: Rng): (r: BookOutcome)
    requires Fair(rng)
    ensures r.written == RecordShown(user, "book", r.book.id)
  {
    var id := GenerateRandomId(rng);
    BookOutcome(FallbackRecord(FallbackGenreKey(genre, rng), id), RecordShown(user, "book", id))
  }

  // ---------------------------------------------------------------------------
  // Resolution

  /** The books one may be drawn from: None where the bot goes to the fallback before
      drawing (an error, no items, a volume without id while filtering for a user). */
  function Candidates(genre: string, user: UserId, history: seq<HistoryEntry>, api: BooksApi, rng: Rng): Option<seq<Volume>>
    requires Fair(rng)
  {
    var reply := Answer(api, BookQuery(genre, rng));
    if reply.NoReply? || IsErrorStatus(reply.status) || |reply.items| == 0 then None
    else if Given(user) then
      if AllHaveIds(reply.items) then Some(UnseenRussian(reply.items, ShownIds(history, user, "book")))
      else None
    else Some(RussianBooks(reply.items))
  }

  /** `get_book_recommendations(genre, user_id)` against the given catalog and history. */
  function Resolve(genre: string, user: UserId, history: seq<HistoryEntry>, api: BooksApi, rng: Rng): BookOutcome
    requires Fair(rng)
  {
    match Candidates(genre, user, history, api, rng)
    case None => Fallback(genre, user, rng)
    case Some(candidates) =>
      if |candidates| == 0 then Fallback(genre, user, rng)
      else
        var book := Choice(candidates, rng, BookCandidate);
        if book.id.None? then Fallback(genre, user, rng)
        else BookOutcome(DescribeBook(book.id.value, book.info), RecordShown(user, "book", book.id.value))
  }

  // ---------------------------------------------------------------------------
  // What the resolution promises

  /** When the filter leaves candidates, the book is one of them: in Russian or without a
      language and, for a user, never one already shown; its id is the one recorded. Without
      a user a volume lacking an id may be drawn, and then the fallback is used instead. */
  lemma {:induction false} BookPicksUnseenRussian(genre: string, user: UserId, history: seq<HistoryEntry>, api: BooksApi, rng: Rng)
    requires Fair(rng)
    requires var c := Candidates(genre, user, history, api, rng); c.Some? && |c.value| > 0
    requires Given(user) || AllHaveIds(Answer(api, BookQuery(genre, rng)).items)
    ensures var r := Resolve(genre, user, history, api, rng);
            var reply := Answer(api, BookQuery(genre, rng));
            exists v :: v in reply.items && v.id == Some(r.book.id) && IsRussian(v) &&
              (Given(user) ==> r.book.id !in ShownIds(history, user, "book")) &&
              r.book == DescribeBook(r.book.id, v.info) &&
              r.written == RecordShown(user, "book", r.book.id)
  {
    var reply := Answer(api, BookQuery(genre, rng));
    var shown := ShownIds(history, user, "book");
    var candidates := Candidates(genre, user, history, api, rng).value;
    var book := Choice(candidates, rng, BookCandidate);
    assert book in candidates;
    if Given(user) {
      assert candidates == UnseenRussian(reply.items, shown);
      assert book in reply.items && book.id.Some? && book.id.value !in shown && IsRussian(book);
    } else {
      assert candidates == RussianBooks(reply.items);
      assert book in reply.items && IsRussian(book);
      var i :| 0 <= i < |reply.items| && reply.items[i] == book;
      assert book.id.Some?;
    }
    var r := Resolve(genre, user, history, api, rng);
    assert r == BookOutcome(DescribeBook(book.id.value, book.info), RecordShown(user, "book", book.id.value));
  }

  /** An error, an empty answer or an empty filter result gives the fallback catalog's
      book for the genre (a drawn one for an unknown genre). */
  lemma {:induction false} BookEmptyGoesToFallback(genre: string, user: UserId, history: seq<HistoryEntry>, api: BooksApi, rng: Rng)
    requires Fair(rng)
    requires var c := Candidates(genre, user, history, api, rng); c.None? || |c.value| == 0
    ensures var r := Resolve(genre, user, history, api, rng);
            r.book == FallbackRecord(FallbackGenreKey(genre, rng), GenerateRandomId(rng)) &&
            StartsWith(r.book.id, FallbackPrefix)
  {
  }

  /** Every call with a user appends exactly one row, for the book it returns. */
  lemma {:induction false} BookOneRowPerCall(genre: string, user: UserId, history: seq<HistoryEntry>, api: BooksApi, rng: Rng)
    requires Fair(rng)
    ensures var r := Resolve(genre, user, history, api, rng);
            r.written == RecordShown(user, "book", r.book.id)
  {
  }

  /** A key refused with 403 leaves the bot exactly where it would be without a key: the
      same candidates, so the same book and the same rows. */
  lemma ForbiddenKeyRetriedWithout(genre: string, user: UserId, history: seq<HistoryEntry>, api: BooksApi, rng: Rng)
    requires Fair(rng)
    requires var first := api.withKey(BookQuery(genre, rng)); api.hasKey && first.Reply? && first.status == 403
    ensures Candidates(genre, user, history, api, rng) == Candidates(genre, user, history, api.(hasKey := false), rng)
    ensures Resolve(genre, user, history, api, rng) == Resolve(genre, user, history, api.(hasKey := false), rng)
  {
    assert Answer(api, BookQuery(genre, rng)) == Answer(api.(hasKey := false), BookQuery(genre, rng));
  }

  /** The book shown carries its date as the bot writes it whenever the volume has one; only a
      volume without a date differs, shown with the whole placeholder instead of its first
      four letters. */
  lemma DescribeBookDate(id: string, info: VolumeInfo)
    ensures info.publishedDate.Some? ==>
              DescribeBook(id, info).publishedDate == PublishedDateAsWritten(info.publishedDate)
    ensures info.publishedDate.None? ==>
              DescribeBook(id, info).publishedDate == UnknownDate &&
              PublishedDateAsWritten(info.publishedDate) == "Дата"
  {
    if info.publishedDate.Some? {
      PublishedYearAgreesWhenPresent(info.publishedDate.value);
    } else {
      PublishedDateAsWrittenCutsPlaceholder();
    }
  }

  // ---------------------------------------------------------------------------
  // The adapter as the bot runs it, step by step, against the store

  method GetBookRecommendationsFallback(store: Store, genre: string, user: UserId, rng: Rng)
    returns (book: BookItem)
    requires Fair(rng)
    modifies store
    ensures var r := Fallback(genre, user, rng);
            book == r.book && store.history == old(store.history) + r.written
    ensures store.users == old(store.users) && store.preferences == old(store.preferences)
  {
    var randomId := GenerateRandomId(rng);
    store.RecordIfGiven(user, "book", randomId);
    var key;
    if genre != "" && genre in BookGenres {
      key := genre;
    } else {
      key := Choice(BookGenres, rng, FallbackGenre);
    }
    book := FallbackRecord(key, randomId);
  }

  /** The query, the answer and the filter loop, up to the random pick. */
  method FetchCandidates(genre: string, user: UserId, history: seq<HistoryEntry>, api: BooksApi, rng: Rng)
    returns (candidates: Option<seq<Volume>>)
    requires Fair(rng)
    ensures candidates == Candidates(genre, user, history, api, rng)
  {
    var query := BookQuery(genre, rng);
    var response := if api.hasKey then api.withKey(query) else api.withoutKey(query);
    if response.Reply? && response.status == 403 && api.hasKey {
      response := api.withoutKey(query);
    }
    assert response == Answer(api, query);
    if response.NoReply? || IsErrorStatus(response.status) || |response.items| == 0 {
      return None;
    }
    if Given(user) {
      candidates := FilterUnseenRussian(response.items, ShownIds(history, user, "book"));
    } else {
      var russian := FilterRussian(response.items);
      candidates := Some(russian);
    }
  }

  method GetBookRecommendations(store: Store, genre: string, user: UserId, api: BooksApi, rng: Rng)
    returns (book: BookItem)
    requires Fair(rng)
    modifies store
    ensures var r := Resolve(genre, user, old(store.history), api, rng);
            book == r.book && store.history == old(store.history) + r.written
    ensures store.users == old(store.users) && store.preferences == old(store.preferences)
  {
    var candidates := FetchCandidates(genre, user, store.history, api, rng);
    if candidates.None? || |candidates.value| == 0 {
      book := GetBookRecommendationsFallback(store, genre, user, rng);
      return;
    }
    var chosen := Choice(candidates.value, rng, BookCandidate);
    if chosen.id.None? {
      book := GetBookRecommendationsFallback(store, genre, user, rng);
      return;
    }
    store.RecordIfGiven(user, "book", chosen.id.value);
    book := DescribeBook(chosen.id.value, chosen.info);
  }
}
