// Python's `random.choice` and `random.randint`, and `generate_random_id`.
// The random source is a parameter: `rng(site, n)` is the index drawn at one
// choice point from n possibilities. Each choice point of one bot event has its
// own site, so different choice points draw independently.
module Chance {
  import opened Text
  import opened Wrappers

  datatype Site =
    | MovieCandidate      // random.choice over the movie results
    | TrackCandidate      // random.choice over the track search results
    | PlaylistCandidate   // random.choice over the playlist search results
    | PlaylistTrack       // random.choice over a playlist's usable tracks
    | AlbumCandidate      // random.choice over the new releases that have an id
    | AlbumTrack          // random.choice over an album's usable tracks
    | RandomMusicGenre    // random.choice over SPOTIFY_GENRE_MAPPING's keys (music_random)
    | BookCategory        // random.choice over the six search categories (no genre)
    | BookCandidate       // random.choice over the filtered books
    | FallbackGenre       // random.choice over a fallback catalog's genres
    | FallbackNumber      // random.randint(10000, 99999) inside generate_random_id

  type Rng = (Site, nat) -> nat

  /** Every draw from n > 0 possibilities is one of them. */
  ghost predicate Fair(rng: Rng) {
    forall site: Site, n: nat :: 0 < n ==> rng(site, n) < n
  }

  /** `random.choice(xs)` */
  function Choice<T>(xs: seq<T>, rng: Rng, site: Site): (x: T)
    requires Fair(rng) && |xs| > 0
    ensures x in xs
  {
    xs[rng(site, |xs|)]
  }

  /** `random.randint(lo, hi)`, both ends included. */
  function RandInt(lo: int, hi: int, rng: Rng, site: Site): (n: int)
    requires Fair(rng) && lo <= hi
    ensures lo <= n <= hi
  {
    lo + rng(site, hi - lo + 1)
  }

  const FallbackPrefix := "fallback_"

  /** The id `generate_random_id` builds from the number it drew. */
  function FallbackId(n: int): (id: string)
    requires 10000 <= n <= 99999
    ensures |id| == 14 && StartsWith(id, FallbackPrefix)
    ensures AllDigits(id[|FallbackPrefix|..])
  {
    FiveDigits(n);
    assert (FallbackPrefix + NatToString(n))[..9] == FallbackPrefix;
    assert (FallbackPrefix + NatToString(n))[9..] == NatToString(n);
    FallbackPrefix + NatToString(n)
  }

  /** `generate_random_id()`: "fallback_" followed by a number in [10000, 99999]. */
  function GenerateRandomId(rng: Rng): (id: string)
    requires Fair(rng)
    ensures exists n :: 10000 <= n <= 99999 && id == FallbackId(n)
  {
    FallbackId(RandInt(10000, 99999, rng, FallbackNumber))
  }

  /** Reads the number back out of a fallback id. */
  function FallbackNumberOf(id: string): Option<int> {
    if StartsWith(id, FallbackPrefix) then ParseInt(id[|FallbackPrefix|..]) else None
  }

  /** A fallback id carries its number: the id is determined by, and determines, the draw. */
  lemma FallbackIdRoundTrip(n: int)
    requires 10000 <= n <= 99999
    ensures FallbackNumberOf(FallbackId(n)) == Some(n)
  {
    var id := FallbackId(n);
    assert id[|FallbackPrefix|..] == NatToString(n);
    IntToStringRoundTrip(n);
  }

  /** Fallback ids are never the same for different draws. */
  lemma FallbackIdInjective(n: int, m: int)
    requires 10000 <= n <= 99999 && 10000 <= m <= 99999
    ensures FallbackId(n) == FallbackId(m) <==> n == m
  {
    FallbackIdRoundTrip(n);
    FallbackIdRoundTrip(m);
  }
}
