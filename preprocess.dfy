/**
 * recsys/preprocess.py `filter_data`: keep the Amazon reviews of products and reviewers with
 * more than 15 reviews each, as (reviewerID, asin, overall) ratings.
 */
module Preprocess {
  import opened Wrappers
  import opened Seqs
  import opened Tables
  import opened Frequency

  /** A review record: the three columns the filter reads and keeps, and all the others. */
  datatype AmazonReview = AmazonReview(reviewerID: string, asin: string, overall: real, other: Row)

  /** A row of the filtered table, whose columns are exactly reviewerID, asin and overall. */
  datatype Rating = Rating(reviewerID: string, asin: string, overall: real)

  function AsinOf(r: AmazonReview): string { r.asin }

  function ReviewerOf(r: AmazonReview): string { r.reviewerID }

  function RatingReviewer(r: Rating): string { r.reviewerID }

  /** `min_n_review_per_movie, min_n_review_per_user = 15, 15`. */
  const MinReviews: nat := 15

  /** `value_counts() > 15`: strictly more than the hard-coded minimum. */
  function MoreThanMin(c: nat): bool { c > MinReviews }

  /** `data_after_filter[['reviewerID', 'asin', 'overall']]` for one row. */
  function ToRating(r: AmazonReview): Rating
  {
    Rating(r.reviewerID, r.asin, r.overall)
  }

  /**
   * recsys/preprocess.py `filter_data(data, n=15)`; `n` is never read. A frame built from no
   * records has no columns, so `data["asin"]` raises `KeyError`.
   */
  function FilterData(data: seq<AmazonReview>, n: int := 15): Result<seq<Rating>, PyError>
  {
    if data == [] then Failure(KeyError)
    else
      var kept := KeepFrequent(data, AsinOf, ReviewerOf, MoreThanMin);
      Success(seq(|kept|, i requires 0 <= i < |kept| => ToRating(kept[i])))
  }

  /**
   * Whatever `n` is, an empty input raises `KeyError`, and otherwise the output lists, in input
   * order and each once, the projection of exactly the reviews whose product and whose reviewer
   * each have more than 15 reviews in the input.
   */
  lemma FilterDataSpec(data: seq<AmazonReview>, n: int)
    ensures FilterData(data, n).Failure? <==> data == []
    ensures FilterData(data, n).Failure? ==> FilterData(data, n).error == KeyError
    ensures FilterData(data, n).Success? ==>
            var r, idx := FilterData(data, n).value, KeptIndices(data, Frequent(data, AsinOf, ReviewerOf, MoreThanMin));
            |r| == |idx| &&
            (forall i :: 0 <= i < |idx| ==> idx[i] < |data| && r[i] == Rating(data[idx[i]].reviewerID, data[idx[i]].asin, data[idx[i]].overall)) &&
            (forall i, j :: 0 <= i < j < |idx| ==> idx[i] < idx[j]) &&
            (forall j :: 0 <= j < |data| ==>
               (j in idx <==> Occurrences(data, AsinOf, data[j].asin) > 15 &&
                              Occurrences(data, ReviewerOf, data[j].reviewerID) > 15))
  {
    KeepFrequentSpec(data, AsinOf, ReviewerOf, MoreThanMin);
  }

  /**
   * The counts come from the unfiltered table in one pass: 15 reviews of reviewer U on product
   * A, one of U on B and one of V on A keep exactly the 15 reviews of U on A, so U has only 15
   * reviews, not more than 15, in the output.
   */
  lemma FilterDataOnePass(ua: AmazonReview, ub: AmazonReview, va: AmazonReview)
    requires ua.reviewerID == ub.reviewerID != va.reviewerID && ua.asin == va.asin != ub.asin
    ensures FilterData(seq(15, _ => ua) + [ub, va]).Success?
    ensures var out := FilterData(seq(15, _ => ua) + [ub, va]).value;
            out == seq(15, _ => ToRating(ua)) && Occurrences(out, RatingReviewer, ua.reviewerID) == 15
  {
    OnePassNotClosed(AsinOf, ReviewerOf, MoreThanMin, 16, ua, ub, va);
    var out := FilterData(seq(15, _ => ua) + [ub, va]).value;
    assert out == seq(15, _ => ToRating(ua));
    CountAll(out, Is(RatingReviewer, ua.reviewerID));
  }
}
