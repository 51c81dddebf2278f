// The rating buttons. Under every item the bot shows `rate_<category>_<id>_5` and
// `rate_<category>_<id>_1`; the ACTIONS handlers read the id and the score back out of
// the token. As written they split the token at every `_` and unpack exactly four
// pieces, which loses every id that itself contains `_`: in particular every
// `fallback_NNNNN` id of the static catalogs. The handlers of this model use the
// reading that splits the score off at the last `_` instead.
module Rating {
  import opened Wrappers
  import opened Text
  import opened Chance

  /** An item id and the score given to it. */
  datatype Rated = Rated(itemId: string, rating: int)

  /** The callback data of a rating button. */
  function RateToken(category: string, itemId: string, rating: int): (token: string)
    ensures StartsWith(token, "rate_" + category + "_")
  {
    var token := "rate" + "_" + category + "_" + itemId + "_" + IntToString(rating);
    assert token[..|"rate_" + category + "_"|] == "rate_" + category + "_";
    token
  }

  /** `_, _, item_id, rating = callback_data.split("_")` then `int(rating)`, as written;
      None where Python raises ValueError (not four pieces, or a score that is no integer). */
  function RatingAsWritten(token: string): Option<Rated> {
    var parts := Split(token, '_');
    if |parts| != 4 then None
    else
      match ParseInt(parts[3])
      case None => None
      case Some(n) => Some(Rated(parts[2], n))
  }

  /** The reading the buttons call for: drop `rate_<category>_`, then split the score off at
      the last `_` (`rsplit("_", 1)`). None where no such split exists or the score is no
      integer. */
  function ParseRating(category: string, token: string): (r: Option<Rated>)
    ensures r.Some? ==> StartsWith(token, "rate_" + category + "_")
  {
    var prefix := "rate_" + category + "_";
    if !StartsWith(token, prefix) then None
    else
      var rest := token[|prefix|..];
      match LastIndex(rest, '_')
      case None => None
      case Some(k) =>
        match ParseInt(rest[k + 1..])
        case None => None
        case Some(n) => Some(Rated(rest[..k], n))
  }

  /** The pieces of a rating token, for a category without `_`. */
  lemma {:induction false} RateTokenPieces(category: string, itemId: string, rating: int)
    requires '_' !in category
    ensures Split(RateToken(category, itemId, rating), '_')
         == ["rate", category] + Split(itemId, '_') + [IntToString(rating)]
  {
    var score := IntToString(rating);
    IntToStringChars(rating, '_');
    assert "rate" + "_" + category + "_" + itemId + "_" + score
        == ("rate" + "_" + category + "_" + itemId) + ['_'] + score;
    SplitAround("rate" + "_" + category + "_" + itemId, score, '_');
    assert "rate" + "_" + category + "_" + itemId == ("rate" + "_" + category) + ['_'] + itemId;
    SplitAround("rate" + "_" + category, itemId, '_');
    assert "rate" + "_" + category == "rate" + ['_'] + category;
    SplitAround("rate", category, '_');
    SplitWithout("rate", '_');
    SplitWithout(category, '_');
    SplitWithout(score, '_');
  }

  /** The as-written reading gets a button's id and score back exactly when the id holds no
      `_`; for any other id Python raises and the rating is lost. */
  lemma RatingAsWrittenIff(category: string, itemId: string, rating: int)
    requires '_' !in category
    ensures RatingAsWritten(RateToken(category, itemId, rating))
         == if '_' in itemId then None else Some(Rated(itemId, rating))
  {
    RateTokenPieces(category, itemId, rating);
    IntToStringRoundTrip(rating);
    if '_' in itemId {
      SplitWith(itemId, '_');
    } else {
      SplitWithout(itemId, '_');
    }
  }

  /** Rating a track or a book of the static catalogs: the button carries the fallback id,
      and the handler as written cannot read it back. */
  lemma FallbackRatingLost(n: int, rating: int)
    requires 10000 <= n <= 99999
    ensures RatingAsWritten(RateToken("music", FallbackId(n), rating)).None?
    ensures RatingAsWritten(RateToken("book", FallbackId(n), rating)).None?
  {
    var id := FallbackId(n);
    assert id[8] == '_';
    RatingAsWrittenIff("music", id, rating);
    RatingAsWrittenIff("book", id, rating);
  }

  /** The corrected reading returns every button's id and score, whatever the id holds. */
  lemma ParseRatingRoundTrip(category: string, itemId: string, rating: int)
    ensures ParseRating(category, RateToken(category, itemId, rating)) == Some(Rated(itemId, rating))
  {
    var prefix := "rate_" + category + "_";
    var score := IntToString(rating);
    var token := RateToken(category, itemId, rating);
    assert token == prefix + (itemId + ['_'] + score);
    var rest := token[|prefix|..];
    assert rest == itemId + ['_'] + score;
    IntToStringChars(rating, '_');
    LastIndexAround(itemId, score, '_');
    assert rest[|itemId| + 1..] == score && rest[..|itemId|] == itemId;
    IntToStringRoundTrip(rating);
  }

  /** Wherever the as-written reading succeeds on a button's token, the corrected one agrees. */
  lemma ParseRatingExtendsAsWritten(category: string, itemId: string, rating: int)
    requires '_' !in category
    requires RatingAsWritten(RateToken(category, itemId, rating)).Some?
    ensures ParseRating(category, RateToken(category, itemId, rating))
         == RatingAsWritten(RateToken(category, itemId, rating))
  {
    RatingAsWrittenIff(category, itemId, rating);
    ParseRatingRoundTrip(category, itemId, rating);
  }
}
