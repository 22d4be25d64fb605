/**
 * Flattening of one business and its reviews into the 8 columns of the
 * review export (business.py, get_all_business_reviews).
 */
module ReviewRows {
  import opened Wrappers
  import opened Json
  import opened Strings

  /** The column names, in the order of the row dictionary the exporter writes. */
  const Columns: seq<string> := [
    "id", "business_name", "business_url", "total_reviews", "review_text",
    "review_url", "review_rating", "review_time_created"]

  /** One flattened review set. */
  datatype ReviewRow = ReviewRow(
    id: string, businessName: Scalar, businessUrl: Scalar, totalReviews: Scalar,
    reviewText: string, reviewUrl: string, reviewRating: string, reviewTimeCreated: string)
  {
    /** The row as the cells written under `Columns`. */
    function Cells(): (cells: seq<Scalar>)
      ensures |cells| == |Columns|
      ensures cells[0] == Text(id)
    {
      [Text(id), businessName, businessUrl, totalReviews, Text(reviewText),
       Text(reviewUrl), Text(reviewRating), Text(reviewTimeCreated)]
    }
  }

  /** The four review fields that become list columns. */
  datatype ReviewField = TextField | UrlField | RatingField | TimeCreatedField

  /** `review.get(key, "")` for one of the four fields. */
  function FieldOf(r: Review, f: ReviewField): Scalar {
    match f
    case TextField => Get(r.text)
    case UrlField => Get(r.url)
    case RatingField => Get(r.rating)
    case TimeCreatedField => Get(r.timeCreated)
  }

  /** One list column: the field of every review, one entry per review, in review order. */
  function Column(rs: seq<Review>, f: ReviewField): (col: seq<Scalar>)
    ensures |col| == |rs|
    ensures forall i :: 0 <= i < |rs| ==> col[i] == FieldOf(rs[i], f)
  {
    if rs == [] then [] else [FieldOf(rs[0], f)] + Column(rs[1..], f)
  }

  /** The reviews the loop iterates: `get('reviews', "")`, and iterating "" visits nothing. */
  function ReviewList(rs: ReviewSet): seq<Review> {
    rs.reviews.GetOr([])
  }

  /** The review loop: four lists appended to in step, one entry per review. */
  method CollectReviewColumns(reviews: seq<Review>)
    returns (texts: seq<Scalar>, urls: seq<Scalar>, ratings: seq<Scalar>, timesCreated: seq<Scalar>)
    ensures |texts| == |urls| == |ratings| == |timesCreated| == |reviews|
    ensures texts == Column(reviews, TextField)
    ensures urls == Column(reviews, UrlField)
    ensures ratings == Column(reviews, RatingField)
    ensures timesCreated == Column(reviews, TimeCreatedField)
  {
    texts, urls, ratings, timesCreated := [], [], [], [];
    for i := 0 to |reviews|
      invariant |texts| == |urls| == |ratings| == |timesCreated| == i
      invariant forall k :: 0 <= k < i ==> texts[k] == Get(reviews[k].text)
      invariant forall k :: 0 <= k < i ==> urls[k] == Get(reviews[k].url)
      invariant forall k :: 0 <= k < i ==> ratings[k] == Get(reviews[k].rating)
      invariant forall k :: 0 <= k < i ==> timesCreated[k] == Get(reviews[k].timeCreated)
    {
      var review := reviews[i];
      texts := texts + [Get(review.text)];
      urls := urls + [Get(review.url)];
      timesCreated := timesCreated + [Get(review.timeCreated)];
      ratings := ratings + [Get(review.rating)];
    }
  }

  /** A list column as written: its rendering with commas replaced. */
  function ListColumn(rs: seq<Review>, f: ReviewField, repr: seq<Scalar> -> string): string {
    ReplaceCommas(repr(Column(rs, f)))
  }

  /** Flattening of one business detail and its review set. */
  function FlattenReviews(id: string, d: Detail, rs: ReviewSet, repr: seq<Scalar> -> string): (row: ReviewRow)
    ensures row.id == id
    ensures row.businessName == Get(d.name) && row.businessUrl == Get(d.url)
    ensures row.totalReviews == Get(rs.total)
    ensures d.name.None? ==> row.businessName == Text("")
    ensures d.url.None? ==> row.businessUrl == Text("")
    ensures rs.total.None? ==> row.totalReviews == Text("")
    // list columns: the rendering of the in-order column, commas replaced
    ensures row.reviewText == ReplaceCommas(repr(Column(ReviewList(rs), TextField)))
    ensures row.reviewUrl == ReplaceCommas(repr(Column(ReviewList(rs), UrlField)))
    ensures row.reviewRating == ReplaceCommas(repr(Column(ReviewList(rs), RatingField)))
    ensures row.reviewTimeCreated == ReplaceCommas(repr(Column(ReviewList(rs), TimeCreatedField)))
    ensures ',' !in row.reviewText && ',' !in row.reviewUrl
    ensures ',' !in row.reviewRating && ',' !in row.reviewTimeCreated
    ensures |row.reviewText| == |repr(Column(ReviewList(rs), TextField))|
    ensures |row.reviewUrl| == |repr(Column(ReviewList(rs), UrlField))|
    ensures |row.reviewRating| == |repr(Column(ReviewList(rs), RatingField))|
    ensures |row.reviewTimeCreated| == |repr(Column(ReviewList(rs), TimeCreatedField))|
  {
    var list := ReviewList(rs);
    ReviewRow(id, Get(d.name), Get(d.url), Get(rs.total),
              ListColumn(list, TextField, repr), ListColumn(list, UrlField, repr),
              ListColumn(list, RatingField, repr), ListColumn(list, TimeCreatedField, repr))
  }

  /** The statements of the review loop that build one row from a fetched detail and review set. */
  method FlattenReviewSet(id: string, d: Detail, rs: ReviewSet, repr: seq<Scalar> -> string)
    returns (row: ReviewRow)
    ensures row == FlattenReviews(id, d, rs, repr)
  {
    var businessName, businessUrl := Get(d.name), Get(d.url);
    var totalReviews := Get(rs.total);
    var texts, urls, ratings, timesCreated := CollectReviewColumns(ReviewList(rs));
    row := ReviewRow(id, businessName, businessUrl, totalReviews,
                     ReplaceCommas(repr(texts)), ReplaceCommas(repr(urls)),
                     ReplaceCommas(repr(ratings)), ReplaceCommas(repr(timesCreated)));
  }
}
