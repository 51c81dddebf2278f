// `get_music_recommendations` and `get_music_recommendations_fallback`: a Spotify
// token, then a chain of searches (tracks by genre, else playlists by genre and a
// playlist's tracks; with no genre, new releases and an album's tracks), a history
// row for the track found, and a detail query. Every failure on the way ends in the
// static fallback catalog, so a track is always returned. History is never read.
module Music {
  import opened Wrappers
  import opened Text
  import opened Store
  import opened Chance

  /** `SPOTIFY_GENRE_MAPPING`: the bot's genre token to the words Spotify searches for. */
  const SpotifyGenreMapping: map<string, string> := map[
    "pop" := "pop",
    "rock" := "rock",
    "hip-hop" := "hip hop",
    "electronic" := "electronic",
    "jazz" := "jazz",
    "classical" := "classical music"]

  /** The mapping's keys in insertion order (`list(SPOTIFY_GENRE_MAPPING.keys())`); the
      fallback catalog has the same keys in the same order. */
  const MusicGenres: seq<string> := ["pop", "rock", "hip-hop", "electronic", "jazz", "classical"]

  const Placeholder := "https://via.placeholder.com/300"

  /** The fields of the `/tracks/{id}` response the bot reads. `artistNames` has one entry
      per artist, absent where it has no `name`; `albumImages` one per album image, absent
      where it has no `url`. */
  datatype TrackDetail = TrackDetail(
    id: Option<string>,
    name: Option<string>,
    artistNames: seq<Option<string>>,
    albumName: Option<string>,
    previewUrl: Option<string>,
    albumImages: seq<Option<string>>,
    spotifyUrl: Option<string>)

  /** Spotify as the bot sees it. `token` is what `get_spotify_token` returned. A search or
      list answers with the ids of its `items` (absent for a null item or one without
      `id`; for a playlist's items, the id of the item's `track`); a missing or empty
      `items` is the empty list. `track` answers None for an empty JSON object. */
  datatype SpotifyApi = SpotifyApi(
    token: Option<string>,
    searchTracks: string -> Fetch<seq<Option<string>>>,
    searchPlaylists: string -> Fetch<seq<Option<string>>>,
    playlistTracks: string -> Fetch<seq<Option<string>>>,
    newReleases: Fetch<seq<Option<string>>>,
    albumTracks: string -> Fetch<seq<Option<string>>>,
    track: string -> Fetch<Option<TrackDetail>>)

  datatype MusicItem = MusicItem(
    id: string,
    trackName: string,
    artists: string,
    albumName: string,
    previewUrl: Option<string>,
    albumImage: Option<string>,
    spotifyUrl: Option<string>)

  /** What one call returns, and the history rows it appended, in order. */
  datatype MusicOutcome = MusicOutcome(music: MusicItem, written: seq<HistoryEntry>)

  // ---------------------------------------------------------------------------
  // Queries

  /** The genre words searched for: the mapped words for a known genre, the token itself
      otherwise ("" when no genre is given). */
  function SearchGenre(genre: string): (g: string)
    ensures genre in SpotifyGenreMapping ==> g == SpotifyGenreMapping[genre]
    ensures genre !in SpotifyGenreMapping ==> g == genre
    ensures g == "" <==> genre == ""
  {
    if genre != "" && genre in SpotifyGenreMapping then SpotifyGenreMapping[genre] else genre
  }

  /** `s.replace(" ", "+")` */
  function PlusForSpaces(s: string): (r: string)
    ensures |r| == |s| && ' ' !in r
    ensures forall i :: 0 <= i < |s| ==> r[i] == if s[i] == ' ' then '+' else s[i]
  {
    if s == [] then [] else [if s[0] == ' ' then '+' else s[0]] + PlusForSpaces(s[1..])
  }

  /** The `q` of the track search; the playlist search sends the query alone. */
  function TrackSearchQuery(query: string): string {
    "genre:" + query
  }

  // ---------------------------------------------------------------------------
  // The search chain

  /** The ids that are present, in order. */
  function Present(items: seq<Option<string>>): (ids: seq<string>)
    ensures |ids| <= |items|
    ensures forall id :: id in ids <==> Some(id) in items
  {
    if items == [] then []
    else
      assert items == [items[0]] + items[1..];
      (if items[0].Some? then [items[0].value] else []) + Present(items[1..])
  }

  /** A usable track from a list: none when the list is empty or no item has an id. */
  function PickUsable(items: seq<Option<string>>, rng: Rng, site: Site): (r: Option<string>)
    requires Fair(rng)
    ensures r.Some? ==> Some(r.value) in items
  {
    var valid := Present(items);
    if |valid| == 0 then None else Some(Choice(valid, rng, site))
  }

  /** The track id the chain arrives at, or None where the bot switches to the fallback. */
  function FindTrack(genre: string, api: SpotifyApi, rng: Rng): Option<string>
    requires Fair(rng)
  {
    var searchGenre := SearchGenre(genre);
    if searchGenre != "" then
      var query := PlusForSpaces(searchGenre);
      match api.searchTracks(TrackSearchQuery(query))
      case Failed => None
      case Received(tracks) =>
        if |tracks| > 0 then Choice(tracks, rng, TrackCandidate)
        else
          match api.searchPlaylists(query)
          case Failed => None
          case Received(playlists) =>
            if |playlists| == 0 then None
            else
              var playlist := Choice(playlists, rng, PlaylistCandidate);
              if playlist.None? then None
              else
                match api.playlistTracks(playlist.value)
                case Failed => None
                case Received(items) => PickUsable(items, rng, PlaylistTrack)
    else
      match api.newReleases
      case Failed => None
      case Received(albums) =>
        var withIds := Present(albums);
        if |withIds| == 0 then None
        else
          match api.albumTracks(Choice(withIds, rng, AlbumCandidate))
          case Failed => None
          case Received(items) => PickUsable(items, rng, AlbumTrack)
  }

  // ---------------------------------------------------------------------------
  // The fallback catalog

  /** `fallback_recommendations[genre]`, with the id drawn for this call. */
  function FallbackRecord(genre: string, id: string): (m: MusicItem)
    requires genre in MusicGenres
    ensures m.id == id && m.previewUrl.None? && m.albumImage == Some(Placeholder)
    ensures m.spotifyUrl == Some("https://open.spotify.com")
  {
    var (name, artists, album) :=
      if genre == "pop" then ("Популярный хит", "Известный исполнитель", "Хитовый альбом 2025")
      else if genre == "rock" then ("Рок-классика", "Рок-группа", "Великие хиты рока")
      else if genre == "hip-hop" then ("Хип-хоп трек", "MC Артист", "Городские ритмы")
      else if genre == "electronic" then ("Электронный бит", "DJ Продюсер", "Электронные вибрации")
      else if genre == "jazz" then ("Джазовая импровизация", "Джаз квартет", "Вечера джаза")
      else ("Классическая симфония", "Выдающийся композитор", "Классические произведения");
    MusicItem(id, name, artists, album, None, Some(Placeholder), Some("https://open.spotify.com"))
  }

  /** The catalog entry used: the genre's own when it is a known key, a drawn one otherwise. */
  function FallbackGenreKey(genre: string, rng: Rng): (key: string)
    requires Fair(rng)
    ensures key in MusicGenres
    ensures genre in MusicGenres ==> key == genre
  {
    if genre != "" && genre in MusicGenres then genre else Choice(MusicGenres, rng, FallbackGenre)
  }

  /** `get_music_recommendations_fallback(genre, user_id)` */
  function Fallback(genre: string, user: UserId, rng: Rng): (r: MusicOutcome)
    requires Fair(rng)
    ensures r.written == RecordShown(user, "music", r.music.id)
  {
    var id := GenerateRandomId(rng);
    MusicOutcome(FallbackRecord(FallbackGenreKey(genre, rng), id), RecordShown(user, "music", id))
  }

  // ---------------------------------------------------------------------------
  // The track found

  function Artists(names: seq<Option<string>>): string {
    Join(seq(|names|, i requires 0 <= i < |names| => names[i].GetOr("Неизвестный артист")), ", ")
  }

  /** The item built from the detail response; `defaultId` is the id drawn for a response
      without one. */
  function DescribeTrack(d: TrackDetail, defaultId: string): MusicItem {
    MusicItem(
      d.id.GetOr(defaultId),
      d.name.GetOr("Название неизвестно"),
      Artists(d.artistNames),
      d.albumName.GetOr("Альбом неизвестен"),
      d.previewUrl,
      if |d.albumImages| > 0 then d.albumImages[0] else None,
      d.spotifyUrl)
  }

  predicate HasToken(api: SpotifyApi) {
    api.token.Some? && api.token.value != ""
  }

  /** `get_music_recommendations(genre, user_id)` against the given Spotify. */
  function Resolve(genre: string, user: UserId, api: SpotifyApi, rng: Rng): MusicOutcome
    requires Fair(rng)
  {
    if !HasToken(api) then Fallback(genre, user, rng)
    else
      match FindTrack(genre, api, rng)
      case None => Fallback(genre, user, rng)
      case Some(trackId) =>
        var first := RecordShown(user, "music", trackId);
        match api.track(trackId)
        case Received(Some(d)) => MusicOutcome(DescribeTrack(d, GenerateRandomId(rng)), first)
        case _ =>
          var fb := Fallback(genre, user, rng);
          MusicOutcome(fb.music, first + fb.written)
  }

  // ---------------------------------------------------------------------------
  // What the resolution promises

  /** Whatever fails (no token, every search stage, the detail query), the caller gets the
      fallback catalog's track and its history row; nothing ever comes back empty. */
  lemma MusicFailureEndsInFallback(genre: string, user: UserId, api: SpotifyApi, rng: Rng)
    requires Fair(rng)
    requires !HasToken(api) || FindTrack(genre, api, rng).None? ||
             !api.track(FindTrack(genre, api, rng).value).Received? ||
             api.track(FindTrack(genre, api, rng).value).body.None?
    ensures var r := Resolve(genre, user, api, rng);
            r.music == FallbackRecord(FallbackGenreKey(genre, rng), GenerateRandomId(rng)) &&
            r.written == (if HasToken(api) && FindTrack(genre, api, rng).Some?
                          then RecordShown(user, "music", FindTrack(genre, api, rng).value) else []) +
                         RecordShown(user, "music", r.music.id)
  {
  }

  /** The found track's row is appended before the detail query, so a failed detail query
      leaves two rows for one call: the found track's and the fallback's. */
  lemma MusicDetailFailureWritesTwoRows(genre: string, user: UserId, api: SpotifyApi, rng: Rng)
    requires Fair(rng) && Given(user) && HasToken(api)
    requires FindTrack(genre, api, rng).Some?
    requires api.track(FindTrack(genre, api, rng).value).Failed?
    ensures var r := Resolve(genre, user, api, rng);
            r.written == [HistoryEntry(user, "music", FindTrack(genre, api, rng).value),
                          HistoryEntry(user, "music", r.music.id)] &&
            StartsWith(r.music.id, FallbackPrefix)
  {
  }

  /** Every row is the user's, in category "music"; there are at most two, none without a
      user and at least one with a user. */
  lemma {:induction false} MusicRows(genre: string, user: UserId, api: SpotifyApi, rng: Rng)
    requires Fair(rng)
    ensures var r := Resolve(genre, user, api, rng);
            |r.written| <= 2 &&
            (!Given(user) ==> r.written == []) &&
            (forall e :: e in r.written ==> e.user == user && e.category == "music") &&
            (Given(user) ==> |r.written| >= 1)
  {
    var r := Resolve(genre, user, api, rng);
    if HasToken(api) && FindTrack(genre, api, rng).Some? {
      var fb := Fallback(genre, user, rng);
      assert forall e :: e in fb.written ==> e.user == user && e.category == "music";
    }
  }

  /** The normal path: a track found and its detail returned give that detail's item, and
      exactly the found track's row is written. */
  lemma MusicFound(genre: string, user: UserId, api: SpotifyApi, rng: Rng, id: string, d: TrackDetail)
    requires Fair(rng)
    requires HasToken(api) && FindTrack(genre, api, rng) == Some(id)
    requires api.track(id) == Received(Some(d))
    ensures var r := Resolve(genre, user, api, rng);
            r.music == DescribeTrack(d, GenerateRandomId(rng)) && r.written == RecordShown(user, "music", id)
  {
  }

  /** A found id comes from the answer of the stage that produced it: the track search; a
      playlist of the playlist search, asked only after the track search answered no items;
      or, without a genre, an album of the new releases. */
  lemma {:induction false} FindTrackProvenance(genre: string, api: SpotifyApi, rng: Rng)
    requires Fair(rng)
    requires FindTrack(genre, api, rng).Some?
    ensures var id := FindTrack(genre, api, rng).value;
            var query := PlusForSpaces(SearchGenre(genre));
            var tracks := api.searchTracks(TrackSearchQuery(query));
            (SearchGenre(genre) != "" ==>
               tracks.Received? &&
               (Some(id) in tracks.body ||
                (tracks.body == [] && api.searchPlaylists(query).Received? &&
                 exists p :: Some(p) in api.searchPlaylists(query).body &&
                   api.playlistTracks(p).Received? && Some(id) in api.playlistTracks(p).body))) &&
            (SearchGenre(genre) == "" ==>
               api.newReleases.Received? &&
               exists a :: Some(a) in api.newReleases.body &&
                 api.albumTracks(a).Received? && Some(id) in api.albumTracks(a).body)
  {
    var id := FindTrack(genre, api, rng).value;
    if SearchGenre(genre) != "" {
      var query := PlusForSpaces(SearchGenre(genre));
      var tracks := api.searchTracks(TrackSearchQuery(query));
      if |tracks.body| == 0 {
        var playlists := api.searchPlaylists(query).body;
        var p := Choice(playlists, rng, PlaylistCandidate);
        assert Some(p.value) in playlists;
        assert Some(id) in api.playlistTracks(p.value).body;
      }
    } else {
      var albums := api.newReleases.body;
      var a := Choice(Present(albums), rng, AlbumCandidate);
      assert Some(a) in albums;
      assert Some(id) in api.albumTracks(a).body;
    }
  }

  /** With a genre, the playlist search and its tracks are asked only when the track search
      answered an empty list: whatever they answer changes nothing otherwise. */
  lemma PlaylistsOnlyAfterEmptyTrackSearch(genre: string, api: SpotifyApi, rng: Rng,
                                           playlists: string -> Fetch<seq<Option<string>>>,
                                           playlistItems: string -> Fetch<seq<Option<string>>>)
    requires Fair(rng)
    requires SearchGenre(genre) != ""
    requires var tracks := api.searchTracks(TrackSearchQuery(PlusForSpaces(SearchGenre(genre))));
             tracks.Failed? || |tracks.body| > 0
    ensures FindTrack(genre, api.(searchPlaylists := playlists, playlistTracks := playlistItems), rng)
         == FindTrack(genre, api, rng)
  {
  }

  /** Without a genre only the new-releases route is asked; with one, new releases are never
      asked: changing the answers of the route not taken changes nothing. */
  lemma {:induction false} NewReleasesOnlyWithoutGenre(genre: string, user: UserId, api: SpotifyApi, other: SpotifyApi, rng: Rng)
    requires Fair(rng)
    requires api.token == other.token && api.track == other.track
    requires genre != "" ==> api.searchTracks == other.searchTracks &&
                             api.searchPlaylists == other.searchPlaylists &&
                             api.playlistTracks == other.playlistTracks
    requires genre == "" ==> api.newReleases == other.newReleases && api.albumTracks == other.albumTracks
    ensures Resolve(genre, user, api, rng) == Resolve(genre, user, other, rng)
  {
    assert FindTrack(genre, api, rng) == FindTrack(genre, other, rng);
  }

  /** A known genre's fallback track has the same content on every call; only the id differs. */
  lemma FallbackContentFixed(genre: string, user: UserId, rng: Rng, rng': Rng)
    requires Fair(rng) && Fair(rng') && genre in MusicGenres
    ensures Fallback(genre, user, rng).music.(id := "") == Fallback(genre, user, rng').music.(id := "")
    ensures Fallback(genre, user, rng).music == FallbackRecord(genre, GenerateRandomId(rng))
  {
  }

  /** A user asks for rock and every Spotify stage fails: the fixed rock track comes back
      with a freshly drawn id, and exactly one row (user, "music", that id) is appended. */
  lemma RockWhenSpotifyIsDown(user: UserId, api: SpotifyApi, rng: Rng)
    requires Fair(rng) && Given(user)
    requires forall q :: api.searchTracks(q).Failed?
    ensures var r := Resolve("rock", user, api, rng);
            r.music.trackName == "Рок-классика" && r.music.artists == "Рок-группа" &&
            r.music.id == GenerateRandomId(rng) &&
            r.written == [HistoryEntry(user, "music", r.music.id)]
  {
  }

  // ---------------------------------------------------------------------------
  // The adapter as the bot runs it, step by step, against the store

  method GetMusicRecommendationsFallback(store: Store, genre: string, user: UserId, rng: Rng)
    returns (music: MusicItem)
    requires Fair(rng)
    modifies store
    ensures var r := Fallback(genre, user, rng);
            music == r.music && store.history == old(store.history) + r.written
    ensures store.users == old(store.users) && store.preferences == old(store.preferences)
  {
    var randomId := GenerateRandomId(rng);
    store.RecordIfGiven(user, "music", randomId);
    var key;
    if genre != "" && genre in MusicGenres {
      key := genre;
    } else {
      key := Choice(MusicGenres, rng, FallbackGenre);
    }
    music := FallbackRecord(key, randomId);
  }

  method GetMusicRecommendations(store: Store, genre: string, user: UserId, api: SpotifyApi, rng: Rng)
    returns (music: MusicItem)
    requires Fair(rng)
    modifies store
    ensures var r := Resolve(genre, user, api, rng);
            music == r.music && store.history == old(store.history) + r.written
    ensures store.users == old(store.users) && store.preferences == old(store.preferences)
  {
    if !HasToken(api) {
      music := GetMusicRecommendationsFallback(store, genre, user, rng);
      return;
    }
    var trackId := FindTrack(genre, api, rng);
    if trackId.None? {
      music := GetMusicRecommendationsFallback(store, genre, user, rng);
      return;
    }
    store.RecordIfGiven(user, "music", trackId.value);
    var detail := api.track(trackId.value);
    if detail.Failed? || detail.body.None? {
      music := GetMusicRecommendationsFallback(store, genre, user, rng);
      return;
    }
    music := DescribeTrack(detail.body.value, GenerateRandomId(rng));
  }
}
