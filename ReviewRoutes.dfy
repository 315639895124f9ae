/**
 * The two handlers of apps/api/src/routes/reviews.ts: the reviews of a
 * center, and posting a review, which always starts with no helpful votes.
 */
module ReviewRoutes {
  import opened Wrappers
  import opened Json
  import opened Zod
  import opened Http
  import opened Queries
  import opened Schemas

  /** The handler's own `reviewSchema`: both ids any string, a rating from 1 to 5, an optional comment. */
  const ReviewBodyShape: map<string, Kind> := map[
    "food_center_id" := Text(0),
    "user_id" := Text(0),
    "rating" := Number(Some(1.0), Some(5.0)),
    "comment" := Optional(Text(0))
  ]

  predicate ValidReview(m: map<string, Value>) {
    && "food_center_id" in m && m["food_center_id"].Str?
    && "user_id" in m && m["user_id"].Str?
    && "rating" in m && m["rating"].Num? && 1.0 <= m["rating"].n <= 5.0
    && AbsentOr(m, "comment", IsText)
  }

  lemma ReviewAccepts(m: map<string, Value>, fmt: Formats)
    ensures ParseObject(ReviewBodyShape, Obj(m), fmt).Parsed? <==> ValidReview(m)
  {
    ObjectAccepts(ReviewBodyShape, m, fmt);
    assert "food_center_id" in ReviewBodyShape && "user_id" in ReviewBodyShape;
    assert "rating" in ReviewBodyShape && "comment" in ReviewBodyShape;
  }

  /** `GET /:foodCenterId`, over the reviews table and the profiles' names. */
  function ListReviews(foodCenterId: string, table: Outcome<seq<Row>>, names: map<string, Value>): Response {
    Fetched(Listing(ExecuteReviews(foodCenterId, table, names)), "Failed to fetch reviews")
  }

  /**
   * Every review of the center, newest first and each with its author
   * embedded, or 500 when the round trip fails.
   */
  lemma ListReviewsAnswer(foodCenterId: string, table: Outcome<seq<Row>>, names: map<string, Value>)
    ensures table.Threw? ==> ListReviews(foodCenterId, table, names) == Response(500, Failure("Failed to fetch reviews"))
    ensures table.Done? ==>
      var sel := Select(table.result, [Eq("food_center_id", Str(foodCenterId))]);
      ListReviews(foodCenterId, table, names)
        == Response(200, Payload(RowsValue(seq(|sel|, i requires 0 <= i < |sel| => WithAuthor(sel[i], names)))))
  {
    if table.Done? {
      ReviewsOfCenter(foodCenterId, table.result, names);
    }
  }

  /** The row to insert: the validated review with its vote count started at zero. */
  function ReviewRow(data: Row): Row {
    data["helpful_count" := Num(0.0)]
  }

  /** `POST /`: validate, start the vote count at zero, insert, answer 201. */
  function CreateReview(body: Value, fmt: Formats, insert: Row -> Outcome<Value>): Response {
    Created(ParseObject(ReviewBodyShape, body, fmt), d => Done(ReviewRow(d)), insert, "Failed to create review")
  }

  /** A valid review parses to its own ids, rating and comment, and to nothing undeclared. */
  lemma ReviewOutput(m: map<string, Value>, fmt: Formats)
    requires ValidReview(m)
    ensures ParseObject(ReviewBodyShape, Obj(m), fmt).Parsed?
    ensures var out := ParseObject(ReviewBodyShape, Obj(m), fmt).fields;
      && out.Keys <= ReviewBodyShape.Keys
      && Get(out, "food_center_id") == Some(m["food_center_id"])
      && Get(out, "user_id") == Some(m["user_id"])
      && Get(out, "rating") == Some(m["rating"])
      && Get(out, "comment") == Get(m, "comment")
  {
    ReviewAccepts(m, fmt);
    ObjectAccepts(ReviewBodyShape, m, fmt);
    assert "food_center_id" in ReviewBodyShape && "user_id" in ReviewBodyShape;
    assert "rating" in ReviewBodyShape && "comment" in ReviewBodyShape;
    ObjectOutputAt(ReviewBodyShape, m, fmt, "food_center_id");
    ObjectOutputAt(ReviewBodyShape, m, fmt, "user_id");
    ObjectOutputAt(ReviewBodyShape, m, fmt, "rating");
    ObjectOutputAt(ReviewBodyShape, m, fmt, "comment");
    ObjectStrips(ReviewBodyShape, Obj(m), fmt);
  }

  /**
   * A valid review is stored with its center, author and rating and a
   * helpful count of zero, whatever count the body carried; anything else is
   * refused with 400.
   */
  lemma CreateReviewStores(m: map<string, Value>, fmt: Formats, insert: Row -> Outcome<Value>)
    ensures CreateReview(Obj(m), fmt, insert).status == 400 <==> !ValidReview(m)
    ensures ValidReview(m) ==>
      var row := ReviewRow(ParseObject(ReviewBodyShape, Obj(m), fmt).fields);
      && row.Keys <= ReviewBodyShape.Keys + {"helpful_count"}
      && Get(row, "helpful_count") == Some(Num(0.0))
      && Get(row, "food_center_id") == Some(m["food_center_id"])
      && Get(row, "user_id") == Some(m["user_id"])
      && Get(row, "rating") == Some(m["rating"])
      && Get(row, "comment") == Get(m, "comment")
      && (CreateReview(Obj(m), fmt, insert).status == 201 <==> insert(row).Done?)
  {
    ReviewAccepts(m, fmt);
    CreatedStatus(ParseObject(ReviewBodyShape, Obj(m), fmt), d => Done(ReviewRow(d)), insert, "Failed to create review");
    if ValidReview(m) {
      ReviewOutput(m, fmt);
      var out := ParseObject(ReviewBodyShape, Obj(m), fmt).fields;
      assert "helpful_count" !in ["food_center_id", "user_id", "rating", "comment"];
      assert Get(ReviewRow(out), "food_center_id") == Get(out, "food_center_id");
      assert Get(ReviewRow(out), "user_id") == Get(out, "user_id");
      assert Get(ReviewRow(out), "rating") == Get(out, "rating");
      assert Get(ReviewRow(out), "comment") == Get(out, "comment");
    }
  }
}
