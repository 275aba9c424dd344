/** netlify/functions/votes.js: GET reads a course's aggregate; POST adds one
    score in [0, 100] to it and rejects anything else. */
module VotesJs {
  import opened Js
  import opened Http
  import opened Votes

  /** A POST that passed validation: the key to update and the score to add. */
  datatype Ballot = Ballot(key: string, score: real)

  const MissingMessage := "Missing degree or code"
  const InvalidMessage := "Invalid payload"
  /** The source file holds a mis-encoded en dash here; these are its characters. */
  const RangeMessage := "Score must be 0\U{E2}\U{20AC}\U{201C}100"

  /** The GET branch: both parameters are required; an absent aggregate reads
      as no average and no votes. */
  function GetReply(m: map<string, Tally>, q: Query): (r: Response<Reply>)
    ensures r.status == 200 || r.status == 400
    ensures r.status == 400 <==> !Present(q.degree) || !Present(q.code)
    ensures r.status == 400 ==> r.body == Failure(MissingMessage, [])
    ensures r.status == 200 ==>
              var key := CourseKey(q.degree.value, q.code.value);
              r.body.Score? && r.body.count == Stored(m, key).count
              && (r.body.avg.None? <==> key !in m)
              && (key in m ==> r.body.avg == Some(Average(m[key])))
  {
    if !Present(q.degree) || !Present(q.code) then
      Response(400, Failure(MissingMessage, []))
    else
      var key := CourseKey(q.degree.value, q.code.value);
      if key !in m then
        Response(200, Score(None, 0))
      else
        Response(200, Score(Some(Average(m[key])), m[key].count))
  }

  /** Over a store that only this endpoint wrote, a GET reports an average in
      [0, 100] whenever it reports one. */
  lemma GetAverageInRange(m: map<string, Tally>, q: Query)
    requires AllBounded(m)
    ensures var r := GetReply(m, q);
            r.body.Score? && r.body.avg.Some? ==> 0.0 <= r.body.avg.value <= 100.0
  {
    if Present(q.degree) && Present(q.code) {
      var key := CourseKey(q.degree.value, q.code.value);
      if key in m {
        AverageInRange(m[key]);
      }
    }
  }

  /** Validation of a POST body, in the order the handler applies it. */
  function CheckBallot(p: Payload): (r: Result<Ballot, Reply>)
    ensures r.Ok? <==>
              Present(p.degree) && Present(p.code)
              && ToNumber(Coalesce(p.score, p.vote)).Some?
              && 0.0 <= ToNumber(Coalesce(p.score, p.vote)).value <= 100.0
    ensures r.Ok? ==>
              r.value.key == CourseKey(p.degree.value, p.code.value)
              && Some(r.value.score) == ToNumber(Coalesce(p.score, p.vote))
    ensures r.Err? && (!Present(p.degree) || !Present(p.code)) ==> r.error == Failure(InvalidMessage, [])
    ensures r.Err? ==> r.error == Failure(InvalidMessage, []) || r.error == Failure(RangeMessage, [])
    ensures r.Err? && Present(p.degree) && Present(p.code) ==>
              (r.error == Failure(InvalidMessage, []) <==> ToNumber(Coalesce(p.score, p.vote)).None?)
  {
    var score := ToNumber(Coalesce(p.score, p.vote));
    if !Present(p.degree) || !Present(p.code) || score.None? then
      Err(Failure(InvalidMessage, []))
    else if score.value < 0.0 || score.value > 100.0 then
      Err(Failure(RangeMessage, []))
    else
      Ok(Ballot(CourseKey(p.degree.value, p.code.value), score.value))
  }

  /** Scores 0 and 100 are accepted, -1 and 101 are rejected, and a fractional
      score such as 50.5 is accepted as it is. */
  lemma BoundaryScores(d: string, c: string)
    requires d != "" && c != ""
    ensures CheckBallot(Payload(Some(d), Some(c), Some(Num(0.0)), None)) == Ok(Ballot(CourseKey(d, c), 0.0))
    ensures CheckBallot(Payload(Some(d), Some(c), Some(Num(100.0)), None)) == Ok(Ballot(CourseKey(d, c), 100.0))
    ensures CheckBallot(Payload(Some(d), Some(c), Some(Num(50.5)), None)) == Ok(Ballot(CourseKey(d, c), 50.5))
    ensures CheckBallot(Payload(Some(d), Some(c), Some(Num(-1.0)), None)) == Err(Failure(RangeMessage, []))
    ensures CheckBallot(Payload(Some(d), Some(c), Some(Num(101.0)), None)) == Err(Failure(RangeMessage, []))
  {
  }

  /** `score` wins over `vote` unless it is undefined or null; a body whose
      `score` is undefined and whose `vote` is null is read as `Number(null)`,
      which is 0, and so counts as a vote of 0. */
  lemma ScoreSelection(d: string, c: string, s: Json, v: Option<Json>)
    requires d != "" && c != ""
    ensures s != Null ==> CheckBallot(Payload(Some(d), Some(c), Some(s), v))
                          == CheckBallot(Payload(Some(d), Some(c), Some(s), None))
    ensures CheckBallot(Payload(Some(d), Some(c), None, Some(Null))) == Ok(Ballot(CourseKey(d, c), 0.0))
    ensures CheckBallot(Payload(Some(d), Some(c), None, None)) == Err(Failure(InvalidMessage, []))
  {
  }

  /** A GET right after an accepted POST for the same course reports exactly the
      average and count the POST replied with. */
  lemma GetAfterPost(m: map<string, Tally>, p: Payload, now: int)
    requires AllBounded(m) && CheckBallot(p).Ok?
    ensures var b := CheckBallot(p).value;
            var m' := Cast(m, b.key, b.score, now);
            GetReply(m', Query(p.degree, p.code))
            == Response(200, Score(Some(Average(m'[b.key])), m'[b.key].count))
            && m'[b.key].count >= 1
  {
    var b := CheckBallot(p).value;
    AddVoteBounded(Stored(m, b.key), b.score, now);
  }

  /** The deployed function: one store of aggregates. */
  class Endpoint {
    /** The blob store: key to aggregate. */
    var tallies: map<string, Tally>

    ghost predicate Valid()
      reads this
    {
      AllBounded(tallies)
    }

    constructor ()
      ensures Valid() && tallies == map[]
    {
      tallies := map[];
    }

    /** The GET branch: reads the store and never writes it. */
    method HandleGet(q: Query) returns (res: Response<Reply>)
      requires Valid()
      ensures res == GetReply(tallies, q)
    {
      if !Present(q.degree) || !Present(q.code) {
        return Response(400, Failure(MissingMessage, []));
      }
      var key := CourseKey(q.degree.value, q.code.value);
      if key !in tallies {
        return Response(200, Score(None, 0));
      }
      var data := tallies[key];
      res := Response(200, Score(Some(Round1(data.sum / Divisor(data.count))), data.count));
    }

    /** The POST branch: one read-modify-write of the course's aggregate. */
    method HandlePost(p: Payload, now: int) returns (res: Response<Reply>)
      requires Valid()
      modifies this
      ensures Valid()
      ensures CheckBallot(p).Err? ==> tallies == old(tallies) && res == Response(400, CheckBallot(p).error)
      ensures CheckBallot(p).Ok? ==>
                var b := CheckBallot(p).value;
                tallies == Cast(old(tallies), b.key, b.score, now)
                && tallies[b.key].count >= 1
                && res == Response(200, Recorded(Average(tallies[b.key]), tallies[b.key].count))
    {
      var checked := CheckBallot(p);
      if checked.Err? {
        return Response(400, checked.error);
      }
      var b := checked.value;
      var current := Stored(tallies, b.key);
      var next := AddVote(current, b.score, now);
      AddVoteBounded(current, b.score, now);
      CastBounded(tallies, b.key, b.score, now);
      tallies := tallies[b.key := next];
      var avg := Round1(next.sum / next.count as real);
      res := Response(200, Recorded(avg, next.count));
    }

    /** The whole handler: OPTIONS first, then the store, then GET / POST. */
    method Handle(req: Request, storeReady: bool, now: int) returns (res: Response<Reply>)
      requires Valid()
      modifies this
      ensures Valid()
      ensures req.httpMethod.Options? ==> res == Response(200, Empty) && tallies == old(tallies)
      ensures !req.httpMethod.Options? && !storeReady ==>
                res == Response(500, Failure("Netlify Blobs unavailable", [])) && tallies == old(tallies)
      ensures req.httpMethod.Get? && storeReady ==>
                res == GetReply(old(tallies), req.query) && tallies == old(tallies)
      ensures req.httpMethod.Post? && storeReady ==>
                match CheckBallot(req.body)
                case Err(e) => tallies == old(tallies) && res == Response(400, e)
                case Ok(b) => tallies == Cast(old(tallies), b.key, b.score, now)
                              && res == Response(200, Recorded(Average(tallies[b.key]), tallies[b.key].count))
      ensures req.httpMethod.OtherMethod? && storeReady ==>
                res == Response(405, Failure("Method not allowed", [])) && tallies == old(tallies)
    {
      if req.httpMethod.Options? {
        return Response(200, Empty);
      }
      if !storeReady {
        return Response(500, Failure("Netlify Blobs unavailable", []));
      }
      match req.httpMethod
      case Get =>
        res := HandleGet(req.query);
      case Post =>
        res := HandlePost(req.body, now);
      case _ =>
        res := Response(405, Failure("Method not allowed", []));
    }
  }
}
