/**
 * The backend's store logic: the ratings and quiz-score collections as in-memory sequences,
 * the endpoints that insert into, list, summarise and delete from them, and the listing of
 * catalog images from a directory's file names. Clock readings, the directory listing and the
 * parsing of document ids are parameters.
 */
module Server {
  import opened Wrappers
  import opened Sorting
  import opened Text
  import opened RealArith

  /** The body of `POST /api/ratings`; the optional strings may be null. */
  datatype RatingRequest = RatingRequest(
    stars: int, comment: Option<string>, photo: Option<string>, company: Option<string>)

  /** The body of `POST /api/quiz/submit`. */
  datatype QuizScoreRequest = QuizScoreRequest(score: int, totalQuestions: int, correctAnswers: int)

  /** A stored rating. Fields a document may lack are options; ids are `ObjectId`s, modelled
      as numbers from a counter, and timestamps as the instants they record. */
  datatype RatingDoc = RatingDoc(
    id: nat, stars: int, comment: Option<string>, photo: Option<string>, company: Option<string>,
    timestamp: nat)

  /** A stored quiz score. */
  datatype ScoreDoc = ScoreDoc(
    id: nat, score: int, totalQuestions: Option<int>, correctAnswers: Option<int>, timestamp: nat)

  /** A path parameter after `ObjectId(...)`: a well-formed id, or text it rejects. */
  datatype IdParam = WellFormed(id: nat) | Malformed(text: string)

  /** An endpoint's answer: a JSON body, or an `HTTPException`. */
  datatype Reply<+T> = Ok(body: T) | HttpError(status: nat, detail: string)

  /** The bodies the store's endpoints return. */
  datatype Ack = Created(id: nat) | Deleted | DeletedCount(count: nat) | ScoreRecorded(id: nat, percentile: real)

  const StarsError: string := "Stars must be between 1 and 5"

  /** The validation in `submit_rating`. */
  predicate AcceptedStars(stars: int) {
    1 <= stars <= 5
  }

  /** Counts the elements satisfying p. */
  function Count<T>(s: seq<T>, p: T -> bool): (r: nat)
    ensures r <= |s|
    decreases |s|
  {
    if s == [] then 0 else Count(s[..|s| - 1], p) + (if p(s[|s| - 1]) then 1 else 0)
  }

  lemma CountAppend<T>(s: seq<T>, x: T, p: T -> bool)
    ensures Count(s + [x], p) == Count(s, p) + (if p(x) then 1 else 0)
  {
    assert (s + [x])[..|s|] == s;
  }

  /** The position of the first element satisfying p. */
  function FirstIndex<T>(s: seq<T>, p: T -> bool): (r: Option<nat>)
    ensures r.None? <==> forall k :: 0 <= k < |s| ==> !p(s[k])
    ensures r.Some? ==> r.value < |s| && p(s[r.value]) && forall k :: 0 <= k < r.value ==> !p(s[k])
  {
    if s == [] then None
    else if p(s[0]) then Some(0)
    else match FirstIndex(s[1..], p)
      case None => None
      case Some(k) => Some(k + 1)
  }

  /** `delete_one(filter)`: removes the first matching document, if any. */
  function DeleteOne<T>(s: seq<T>, p: T -> bool): (r: seq<T>)
    ensures FirstIndex(s, p).None? ==> r == s
    ensures FirstIndex(s, p).Some? ==>
      |r| == |s| - 1 && multiset(r) + multiset{s[FirstIndex(s, p).value]} == multiset(s)
  {
    match FirstIndex(s, p)
    case None => s
    case Some(k) =>
      assert s == s[..k] + [s[k]] + s[k + 1..];
      s[..k] + s[k + 1..]
  }

  /** Removing the one element with some id keeps the others in order and drops only it. */
  lemma DeleteOneKeepsOthers<T>(s: seq<T>, p: T -> bool)
    requires FirstIndex(s, p).Some?
    ensures var k := FirstIndex(s, p).value;
      forall j :: 0 <= j < |DeleteOne(s, p)| ==> DeleteOne(s, p)[j] == if j < k then s[j] else s[j + 1]
  {
  }

  /** The filter `{"_id": ObjectId(id)}` on each collection. */
  function RatingIdIs(id: nat): RatingDoc -> bool {
    (d: RatingDoc) => d.id == id
  }

  function ScoreIdIs(id: nat): ScoreDoc -> bool {
    (d: ScoreDoc) => d.id == id
  }

  /** `[f(x) for x in s]`. */
  function MapSeq<A, B>(s: seq<A>, f: A -> B): (r: seq<B>)
    ensures |r| == |s| && forall k :: 0 <= k < |s| ==> r[k] == f(s[k])
  {
    seq(|s|, k requires 0 <= k < |s| => f(s[k]))
  }

  /** Mapping a reordering of s yields the images of exactly the elements of s. */
  lemma MapOfPermutation<A, B>(s: seq<A>, t: seq<A>, f: A -> B)
    requires multiset(s) == multiset(t)
    ensures forall x :: x in s ==> f(x) in MapSeq(t, f)
    ensures forall y :: y in MapSeq(t, f) ==> exists x :: x in s && y == f(x)
  {
    var r := MapSeq(t, f);
    forall x | x in s ensures f(x) in r {
      assert x in multiset(t);
      var k :| 0 <= k < |t| && t[k] == x;
      assert r[k] == f(x);
    }
    forall y | y in r ensures exists x :: x in s && y == f(x) {
      var k :| 0 <= k < |r| && r[k] == y;
      assert t[k] in multiset(s);
    }
  }

  lemma MapSeqAppend<A, B>(a: seq<A>, b: seq<A>, f: A -> B)
    ensures MapSeq(a + b, f) == MapSeq(a, f) + MapSeq(b, f)
  {
    assert forall k :: 0 <= k < |a + b| ==> MapSeq(a + b, f)[k] == (MapSeq(a, f) + MapSeq(b, f))[k];
  }

  /** Mapping two reorderings of one another gives reorderings of one another. */
  lemma {:induction false} MapKeepsMultiset<A, B>(s: seq<A>, t: seq<A>, f: A -> B)
    requires multiset(s) == multiset(t)
    ensures multiset(MapSeq(s, f)) == multiset(MapSeq(t, f))
    decreases |s|
  {
    if s == [] {
      assert |t| == |multiset(t)| == 0;
    } else {
      var x := s[0];
      assert x in multiset(t);
      var k :| 0 <= k < |t| && t[k] == x;
      assert t == t[..k] + [x] + t[k + 1..];
      var rest := t[..k] + t[k + 1..];
      assert s == [x] + s[1..];
      calc {
        multiset(s[1..]);
        multiset(s) - multiset{x};
        multiset(t[..k] + [x] + t[k + 1..]) - multiset{x};
        multiset(t[..k]) + multiset{x} + multiset(t[k + 1..]) - multiset{x};
        multiset(rest);
      }
      MapKeepsMultiset(s[1..], rest, f);
      MapSeqAppend([x], s[1..], f);
      MapSeqAppend(t[..k] + [x], t[k + 1..], f);
      MapSeqAppend(t[..k], [x], f);
      MapSeqAppend(t[..k], t[k + 1..], f);
    }
  }

  predicate RatingIdsUnique(docs: seq<RatingDoc>) {
    forall i, j :: 0 <= i < j < |docs| ==> docs[i].id != docs[j].id
  }

  predicate ScoreIdsUnique(docs: seq<ScoreDoc>) {
    forall i, j :: 0 <= i < j < |docs| ==> docs[i].id != docs[j].id
  }

  /** With unique ids, deleting by id leaves no document with that id. */
  lemma DeletedRatingIsGone(docs: seq<RatingDoc>, id: nat)
    requires RatingIdsUnique(docs)
    ensures forall k :: 0 <= k < |DeleteOne(docs, RatingIdIs(id))| ==>
      DeleteOne(docs, RatingIdIs(id))[k].id != id
  {
    var p := RatingIdIs(id);
    if FirstIndex(docs, p).Some? {
      DeleteOneKeepsOthers(docs, p);
    }
  }

  lemma DeletedScoreIsGone(docs: seq<ScoreDoc>, id: nat)
    requires ScoreIdsUnique(docs)
    ensures forall k :: 0 <= k < |DeleteOne(docs, ScoreIdIs(id))| ==>
      DeleteOne(docs, ScoreIdIs(id))[k].id != id
  {
    var p := ScoreIdIs(id);
    if FirstIndex(docs, p).Some? {
      DeleteOneKeepsOthers(docs, p);
    }
  }

  /** The document `submit_rating` inserts: missing or empty strings are stored as "". */
  function NewRatingDoc(req: RatingRequest, id: nat, now: nat): (d: RatingDoc)
    ensures d.comment.Some? && d.photo.Some? && d.company.Some?
    ensures req.comment.Some? ==> d.comment.value == req.comment.value
    ensures req.comment.None? ==> d.comment.value == ""
    ensures d.photo.value == req.photo.GetOr("") && d.company.value == req.company.GetOr("")
    ensures d.id == id && d.stars == req.stars && d.timestamp == now
  {
    RatingDoc(id, req.stars, Some(req.comment.GetOr("")), Some(req.photo.GetOr("")),
              Some(req.company.GetOr("")), now)
  }

  /** A rating as `get_ratings` returns it, with "" for a missing string field. */
  datatype RatingView = RatingView(
    id: nat, stars: int, comment: string, photo: string, company: string, timestamp: nat)

  function RatingViewOf(d: RatingDoc): RatingView {
    RatingView(d.id, d.stars, d.comment.GetOr(""), d.photo.GetOr(""), d.company.GetOr(""), d.timestamp)
  }

  /** A rating reads back with the strings it was submitted with, and "" for null ones. */
  lemma SubmittedRatingReadsBack(req: RatingRequest, id: nat, now: nat)
    ensures var v := RatingViewOf(NewRatingDoc(req, id, now));
      && v.stars == req.stars && v.id == id && v.timestamp == now
      && v.comment == req.comment.GetOr("") && v.photo == req.photo.GetOr("")
      && v.company == req.company.GetOr("")
  {
  }

  /** Newest first: `sort("timestamp", -1)`. */
  function NewerRating(a: RatingDoc, b: RatingDoc): bool {
    a.timestamp >= b.timestamp
  }

  function NewerScore(a: ScoreDoc, b: ScoreDoc): bool {
    a.timestamp >= b.timestamp
  }

  lemma NewerIsTotalPreorder()
    ensures TotalPreorder(NewerRating)
    ensures TotalPreorder(NewerScore)
  {
  }

  /** `get_ratings`: every stored rating, newest first, with defaults filled in. */
  function RatingsListing(docs: seq<RatingDoc>): (r: seq<RatingView>)
    ensures |r| == |docs|
    ensures forall i, j :: 0 <= i < j < |r| ==> r[i].timestamp >= r[j].timestamp
    ensures forall d :: d in docs ==> RatingViewOf(d) in r
    ensures forall v :: v in r ==> exists d :: d in docs && v == RatingViewOf(d)
    ensures multiset(r) == multiset(MapSeq(docs, RatingViewOf))
  {
    var sorted := InsertionSort(docs, NewerRating);
    NewerIsTotalPreorder();
    InsertionSortSorted(docs, NewerRating);
    MapOfPermutation(docs, sorted, RatingViewOf);
    MapKeepsMultiset(docs, sorted, RatingViewOf);
    MapSeq(sorted, RatingViewOf)
  }

  /** A quiz score as `get_quiz_scores` returns it. */
  datatype ScoreView = ScoreView(id: nat, score: int, totalQuestions: int, correctAnswers: int, timestamp: nat)

  /** A missing question count reads as 10 and a missing correct count as 0. */
  function ScoreViewOf(d: ScoreDoc): (v: ScoreView)
    ensures d.totalQuestions.None? ==> v.totalQuestions == 10
    ensures d.correctAnswers.None? ==> v.correctAnswers == 0
    ensures v.score == d.score && v.id == d.id
  {
    ScoreView(d.id, d.score, d.totalQuestions.GetOr(10), d.correctAnswers.GetOr(0), d.timestamp)
  }

  /** `get_quiz_scores`: every stored score, newest first. */
  function ScoresListing(docs: seq<ScoreDoc>): (r: seq<ScoreView>)
    ensures |r| == |docs|
    ensures forall i, j :: 0 <= i < j < |r| ==> r[i].timestamp >= r[j].timestamp
    ensures forall d :: d in docs ==> ScoreViewOf(d) in r
    ensures forall v :: v in r ==> exists d :: d in docs && v == ScoreViewOf(d)
    ensures multiset(r) == multiset(MapSeq(docs, ScoreViewOf))
  {
    var sorted := InsertionSort(docs, NewerScore);
    NewerIsTotalPreorder();
    InsertionSortSorted(docs, NewerScore);
    MapOfPermutation(docs, sorted, ScoreViewOf);
    MapKeepsMultiset(docs, sorted, ScoreViewOf);
    MapSeq(sorted, ScoreViewOf)
  }

  /** The number of ratings with exactly `stars` stars: `count_documents({"stars": i})`. */
  function CountStars(docs: seq<RatingDoc>, stars: int): (r: nat)
    ensures r <= |docs|
    decreases |docs|
  {
    if docs == [] then 0
    else CountStars(docs[..|docs| - 1], stars) + (if docs[|docs| - 1].stars == stars then 1 else 0)
  }

  function SumStars(docs: seq<RatingDoc>): int
    decreases |docs|
  {
    if docs == [] then 0 else SumStars(docs[..|docs| - 1]) + docs[|docs| - 1].stars
  }

  predicate StarsInRange(docs: seq<RatingDoc>) {
    forall k :: 0 <= k < |docs| ==> 1 <= docs[k].stars <= 5
  }

  /** With every rating between one and five stars the five buckets add up to the total. */
  lemma {:induction false} BucketsSumToTotal(docs: seq<RatingDoc>)
    requires StarsInRange(docs)
    ensures CountStars(docs, 1) + CountStars(docs, 2) + CountStars(docs, 3)
          + CountStars(docs, 4) + CountStars(docs, 5) == |docs|
    decreases |docs|
  {
    if docs != [] {
      BucketsSumToTotal(docs[..|docs| - 1]);
    }
  }

  lemma {:induction false} SumStarsBounds(docs: seq<RatingDoc>)
    requires StarsInRange(docs)
    ensures |docs| <= SumStars(docs) <= 5 * |docs|
    decreases |docs|
  {
    if docs != [] {
      SumStarsBounds(docs[..|docs| - 1]);
    }
  }

  /** `GET /api/ratings/stats` before rounding. */
  datatype RatingStatsBody = RatingStatsBody(totalRatings: nat, averageStars: real, distribution: seq<nat>)

  /** The average of a non-empty, validated store lies between one and five stars. */
  lemma AverageStarsInRange(docs: seq<RatingDoc>)
    requires StarsInRange(docs) && |docs| > 0
    ensures 1.0 <= SumStars(docs) as real / |docs| as real <= 5.0
  {
    SumStarsBounds(docs);
    QuotientBounds(SumStars(docs) as real, |docs| as real, 1.0, 5.0);
  }

  lemma QuotientBounds(s: real, n: real, lo: real, hi: real)
    requires n > 0.0 && lo * n <= s <= hi * n
    ensures lo <= s / n <= hi
  {
    assert (s / n) * n == s;
  }

  /** The percentage of scores strictly below `score`: `scores_below / total_scores * 100`, or
      50 for an empty collection. */
  function Percentile(docs: seq<ScoreDoc>, score: int): real {
    if |docs| > 0 then Count(docs, (d: ScoreDoc) => d.score < score) as real / |docs| as real * 100.0
    else 50.0
  }

  /** After inserting a score, the share of strictly lower scores is below 100: the new score
      is never below itself. */
  lemma PercentileAfterInsertBelowHundred(docs: seq<ScoreDoc>, d: ScoreDoc)
    ensures 0.0 <= Percentile(docs + [d], d.score) < 100.0
  {
    var p := (x: ScoreDoc) => x.score < d.score;
    CountAppend(docs, d, p);
    var below := Count(docs + [d], p);
    assert below < |docs + [d]|;
  }

  /** The best score among non-empty docs. */
  function MaxScore(docs: seq<ScoreDoc>): (m: int)
    requires |docs| > 0
    ensures forall k :: 0 <= k < |docs| ==> docs[k].score <= m
    ensures exists k :: 0 <= k < |docs| && docs[k].score == m
    decreases |docs|
  {
    if |docs| == 1 then docs[0].score
    else
      var rest := MaxScore(docs[..|docs| - 1]);
      var last := docs[|docs| - 1].score;
      assert forall k :: 0 <= k < |docs| - 1 ==> docs[..|docs| - 1][k] == docs[k];
      if last > rest then last else rest
  }

  function SumScores(docs: seq<ScoreDoc>): int
    decreases |docs|
  {
    if docs == [] then 0 else SumScores(docs[..|docs| - 1]) + docs[|docs| - 1].score
  }

  /** `GET /api/quiz/stats` before rounding. */
  datatype QuizStatsBody = QuizStatsBody(totalAttempts: nat, averageScore: real, highestScore: int)

  function QuizStats(docs: seq<ScoreDoc>): (r: QuizStatsBody)
    ensures r.totalAttempts == |docs|
    ensures docs == [] ==> r == QuizStatsBody(0, 0.0, 0)
    ensures docs != [] ==> r.averageScore * |docs| as real == SumScores(docs) as real
    ensures docs != [] ==> (forall k :: 0 <= k < |docs| ==> docs[k].score <= r.highestScore)
    ensures docs != [] ==> exists k :: 0 <= k < |docs| && docs[k].score == r.highestScore
  {
    if docs == [] then QuizStatsBody(0, 0.0, 0)
    else
      DivideThenMultiply(SumScores(docs) as real, |docs| as real);
      QuizStatsBody(|docs|, SumScores(docs) as real / |docs| as real, MaxScore(docs))
  }

  lemma {:induction false} SumScoresAtMost(docs: seq<ScoreDoc>, m: int)
    requires forall k :: 0 <= k < |docs| ==> docs[k].score <= m
    ensures SumScores(docs) <= m * |docs|
    decreases |docs|
  {
    if docs != [] {
      SumScoresAtMost(docs[..|docs| - 1], m);
    }
  }

  /** The average score never exceeds the highest. */
  lemma AverageAtMostHighest(docs: seq<ScoreDoc>)
    requires docs != []
    ensures QuizStats(docs).averageScore <= QuizStats(docs).highestScore as real
  {
    var r := QuizStats(docs);
    SumScoresAtMost(docs, r.highestScore);
    CastProduct(r.highestScore, |docs|);
    CancelPositiveAtMost(r.averageScore, r.highestScore as real, |docs| as real);
  }

  /** A catalog image as `get_catalog_images` lists it. */
  datatype CatalogImage = CatalogImage(id: nat, filename: string, url: string)

  datatype CatalogListing = CatalogListing(images: seq<CatalogImage>, total: nat)

  const CatalogUrlPrefix: string := "/static/catalog/"

  /** The glob `*.png`: a name ending in ".png" that does not start with a dot. */
  predicate IsPng(name: string) {
    |name| >= 4 && name[|name| - 4..] == ".png" && name[0] != '.'
  }

  function PngNames(names: seq<string>): (r: seq<string>)
    ensures forall n :: n in r <==> n in names && IsPng(n)
    ensures multiset(r) <= multiset(names)
    decreases |names|
  {
    if names == [] then []
    else
      assert names == [names[0]] + names[1..];
      (if IsPng(names[0]) then [names[0]] else []) + PngNames(names[1..])
  }

  function FileNames(images: seq<CatalogImage>): (r: seq<string>)
    ensures |r| == |images| && forall k :: 0 <= k < |r| ==> r[k] == images[k].filename
  {
    seq(|images|, k requires 0 <= k < |images| => images[k].filename)
  }

  /** `get_catalog_images` over the names in `static/catalog`, or a missing directory: the PNG
      files in name order, numbered from 1, each with its static URL. */
  function CatalogImages(dirExists: bool, names: seq<string>): (r: CatalogListing)
    ensures !dirExists ==> r == CatalogListing([], 0)
    ensures r.total == |r.images|
    ensures dirExists ==> multiset(FileNames(r.images)) == multiset(PngNames(names))
    ensures forall k :: 0 <= k < |r.images| ==>
      r.images[k].id == k + 1 && r.images[k].url == CatalogUrlPrefix + r.images[k].filename
    ensures forall i, j :: 0 <= i < j < |r.images| ==> StrLe(r.images[i].filename, r.images[j].filename)
  {
    if !dirExists then CatalogListing([], 0)
    else
      var files := InsertionSort(PngNames(names), StrLe);
      StrLeIsTotalPreorder();
      InsertionSortSorted(PngNames(names), StrLe);
      var images := seq(|files|, k requires 0 <= k < |files| =>
                          CatalogImage(k + 1, files[k], CatalogUrlPrefix + files[k]));
      assert FileNames(images) == files;
      CatalogListing(images, |images|)
  }

  /** Every listed image is a PNG file of the directory, and every such file is listed. */
  lemma CatalogListsExactlyThePngs(names: seq<string>, n: string)
    ensures (exists k :: 0 <= k < |CatalogImages(true, names).images| &&
               CatalogImages(true, names).images[k].filename == n)
        <==> n in names && IsPng(n)
  {
    var images := CatalogImages(true, names).images;
    var files := FileNames(images);
    assert multiset(files) == multiset(PngNames(names));
    if n in names && IsPng(n) {
      assert n in multiset(files);
      var k :| 0 <= k < |files| && files[k] == n;
      assert images[k].filename == n;
    }
    if exists k :: 0 <= k < |images| && images[k].filename == n {
      var k :| 0 <= k < |images| && images[k].filename == n;
      assert files[k] == n;
      assert n in multiset(PngNames(names));
    }
  }

  /** The two collections, updated in place by the endpoints. */
  class Store {
    var ratings: seq<RatingDoc>
    var quizScores: seq<ScoreDoc>
    /** The next id handed out; every stored id is below it. */
    var nextId: nat

    /** Ids are unique and issued, and every stored rating passed validation. */
    predicate Valid()
      reads this
    {
      && (forall k :: 0 <= k < |ratings| ==> ratings[k].id < nextId)
      && (forall k :: 0 <= k < |quizScores| ==> quizScores[k].id < nextId)
      && RatingIdsUnique(ratings) && ScoreIdsUnique(quizScores)
      && StarsInRange(ratings)
    }

    constructor()
      ensures Valid() && ratings == [] && quizScores == []
    {
      ratings := [];
      quizScores := [];
      nextId := 0;
    }

    /** `submit_rating` at time `now`. */
    method SubmitRating(req: RatingRequest, now: nat) returns (reply: Reply<Ack>)
      requires Valid()
      modifies this
      ensures Valid() && quizScores == old(quizScores)
      ensures !AcceptedStars(req.stars) ==>
        reply == HttpError(400, StarsError) && ratings == old(ratings) && nextId == old(nextId)
      ensures AcceptedStars(req.stars) ==>
        && reply == Ok(Created(old(nextId)))
        && ratings == old(ratings) + [NewRatingDoc(req, old(nextId), now)]
    {
      if req.stars < 1 || req.stars > 5 {
        return HttpError(400, StarsError);
      }
      var doc := NewRatingDoc(req, nextId, now);
      ratings := ratings + [doc];
      reply := Ok(Created(nextId));
      nextId := nextId + 1;
    }

    /** `get_rating_stats`: the count, the mean and the five buckets filled in a loop. */
    method RatingStats() returns (stats: RatingStatsBody)
      ensures stats.totalRatings == |ratings| && |stats.distribution| == 5
      ensures forall i :: 1 <= i <= 5 ==> stats.distribution[i - 1] == CountStars(ratings, i)
      ensures ratings == [] ==> stats.averageStars == 0.0
      ensures ratings != [] ==> stats.averageStars * |ratings| as real == SumStars(ratings) as real
    {
      var total := |ratings|;
      if total == 0 {
        return RatingStatsBody(0, 0.0, [0, 0, 0, 0, 0]);
      }
      var avg := SumStars(ratings) as real / total as real;
      var distribution: seq<nat> := [0, 0, 0, 0, 0];
      var i := 1;
      while i < 6
        invariant 1 <= i <= 6 && |distribution| == 5
        invariant forall j :: 1 <= j < i ==> distribution[j - 1] == CountStars(ratings, j)
      {
        distribution := distribution[i - 1 := CountStars(ratings, i)];
        i := i + 1;
      }
      stats := RatingStatsBody(total, avg, distribution);
    }

    /** `delete_rating`. A missing id raises 404 inside the `try`, and the handler's generic
        `except` turns that, like a malformed id, into a 500. */
    method DeleteRating(rid: IdParam) returns (reply: Reply<Ack>)
      requires Valid()
      modifies this
      ensures Valid() && quizScores == old(quizScores) && nextId == old(nextId)
      ensures rid.Malformed? ==> reply.HttpError? && reply.status == 500 && ratings == old(ratings)
      ensures rid.WellFormed? ==> ratings == DeleteOne(old(ratings), RatingIdIs(rid.id))
      ensures rid.WellFormed? ==>
        (reply == Ok(Deleted) <==> exists k :: 0 <= k < |old(ratings)| && old(ratings)[k].id == rid.id)
      ensures rid.WellFormed? && reply != Ok(Deleted) ==>
        reply == HttpError(500, "Error deleting rating: 404: Rating not found")
    {
      if rid.Malformed? {
        return HttpError(500, "Error deleting rating: " + InvalidIdMessage(rid.text));
      }
      var p := RatingIdIs(rid.id);
      var found := FirstIndex(ratings, p);
      ratings := DeleteOne(ratings, p);
      if found.None? {
        return HttpError(500, "Error deleting rating: 404: Rating not found");
      }
      reply := Ok(Deleted);
    }

    /** `delete_all_ratings`. */
    method DeleteAllRatings() returns (reply: Reply<Ack>)
      requires Valid()
      modifies this
      ensures Valid() && ratings == [] && quizScores == old(quizScores) && nextId == old(nextId)
      ensures reply == Ok(DeletedCount(|old(ratings)|))
    {
      reply := Ok(DeletedCount(|ratings|));
      ratings := [];
    }

    /** `submit_quiz_score` at time `now`: the score is inserted first, then ranked. */
    method SubmitQuizScore(req: QuizScoreRequest, now: nat) returns (reply: Reply<Ack>)
      requires Valid()
      modifies this
      ensures Valid() && ratings == old(ratings)
      ensures quizScores == old(quizScores) +
        [ScoreDoc(old(nextId), req.score, Some(req.totalQuestions), Some(req.correctAnswers), now)]
      ensures reply == Ok(ScoreRecorded(old(nextId), Percentile(quizScores, req.score)))
      ensures 0.0 <= reply.body.percentile < 100.0
    {
      var doc := ScoreDoc(nextId, req.score, Some(req.totalQuestions), Some(req.correctAnswers), now);
      PercentileAfterInsertBelowHundred(quizScores, doc);
      quizScores := quizScores + [doc];
      var totalScores := |quizScores|;
      var scoresBelow := Count(quizScores, (d: ScoreDoc) => d.score < req.score);
      var percentile := if totalScores > 0 then scoresBelow as real / totalScores as real * 100.0 else 50.0;
      reply := Ok(ScoreRecorded(nextId, percentile));
      nextId := nextId + 1;
    }

    /** `delete_quiz_score`, with the same 404-to-500 path as `delete_rating`. */
    method DeleteQuizScore(sid: IdParam) returns (reply: Reply<Ack>)
      requires Valid()
      modifies this
      ensures Valid() && ratings == old(ratings) && nextId == old(nextId)
      ensures sid.Malformed? ==> reply.HttpError? && reply.status == 500 && quizScores == old(quizScores)
      ensures sid.WellFormed? ==> quizScores == DeleteOne(old(quizScores), ScoreIdIs(sid.id))
      ensures sid.WellFormed? ==>
        (reply == Ok(Deleted) <==> exists k :: 0 <= k < |old(quizScores)| && old(quizScores)[k].id == sid.id)
      ensures sid.WellFormed? && reply != Ok(Deleted) ==>
        reply == HttpError(500, "Error deleting quiz score: 404: Quiz score not found")
    {
      if sid.Malformed? {
        return HttpError(500, "Error deleting quiz score: " + InvalidIdMessage(sid.text));
      }
      var p := ScoreIdIs(sid.id);
      var found := FirstIndex(quizScores, p);
      quizScores := DeleteOne(quizScores, p);
      if found.None? {
        return HttpError(500, "Error deleting quiz score: 404: Quiz score not found");
      }
      reply := Ok(Deleted);
    }

    /** `delete_all_quiz_scores`. */
    method DeleteAllQuizScores() returns (reply: Reply<Ack>)
      requires Valid()
      modifies this
      ensures Valid() && quizScores == [] && ratings == old(ratings) && nextId == old(nextId)
      ensures reply == Ok(DeletedCount(|old(quizScores)|))
    {
      reply := Ok(DeletedCount(|quizScores|));
      quizScores := [];
    }
  }

  /** The text of the `InvalidId` error `ObjectId(text)` raises. */
  function InvalidIdMessage(text: string): string {
    "'" + text + "' is not a valid ObjectId, it must be a 12-byte input or a 24-character hex string"
  }
}
