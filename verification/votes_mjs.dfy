/** netlify/functions/votes.mjs: like votes.js, but out-of-range scores are
    clamped into [0, 100] instead of rejected, and a POST without a score is a
    read. */
module VotesMjs {
  import opened Js
  import opened Http
  import opened Votes
  import VotesJs

  /** What a POST asks for once its body has been checked. */
  datatype Plan = ReadOnly(key: string) | Write(key: string, score: real)

  const Need := ["degree", "code"]
  const MissingMessage := "Missing params"
  const InvalidMessage := "Invalid score"

  /** `Math.max(0, Math.min(100, x))` */
  function Clamp(x: real): (r: real)
    ensures 0.0 <= r <= 100.0
    ensures 0.0 <= x <= 100.0 ==> r == x
    ensures x < 0.0 ==> r == 0.0
    ensures x > 100.0 ==> r == 100.0
  {
    if x > 100.0 then 100.0 else if x < 0.0 then 0.0 else x
  }

  /** The GET branch; it differs from votes.js only in its error body. */
  function GetReply(m: map<string, Tally>, q: Query): (r: Response<Reply>)
    ensures r.status == 400 <==> !Present(q.degree) || !Present(q.code)
    ensures r.status == 400 ==> r.body == Failure(MissingMessage, Need)
    ensures r.status != 400 ==>
              r == VotesJs.GetReply(m, q) && r.status == 200
  {
    if !Present(q.degree) || !Present(q.code) then
      Response(400, Failure(MissingMessage, Need))
    else
      VotesJs.GetReply(m, q)
  }

  /** The POST-as-read reply: no average while the count is 0. */
  function ReadReply(m: map<string, Tally>, key: string): (r: Response<Reply>)
    ensures r.status == 200 && r.body.Score? && r.body.count == Stored(m, key).count
    ensures r.body.avg.None? <==> Stored(m, key).count == 0
  {
    var data := Stored(m, key);
    var avg := if data.count != 0 then Some(Round1(data.sum / data.count as real)) else None;
    Response(200, Score(avg, data.count))
  }

  /** Validation of a POST body, in the order the handler applies it: the
      parameters first, then whether there is a score at all, then whether it
      is a number. */
  function PlanPost(p: Payload): (r: Result<Plan, Reply>)
    ensures !Present(p.degree) || !Present(p.code) ==> r == Err(Failure(MissingMessage, Need))
    ensures r.Ok? ==> r.value.key == CourseKey(p.degree.value, p.code.value)
    ensures r.Ok? && r.value.ReadOnly? <==>
              Present(p.degree) && Present(p.code) && Nullish(p.score) && Nullish(p.vote)
    ensures r.Ok? && r.value.Write? ==>
              ToNumber(Coalesce(p.score, p.vote)).Some?
              && r.value.score == Clamp(ToNumber(Coalesce(p.score, p.vote)).value)
    ensures r.Err? && Present(p.degree) && Present(p.code) ==>
              r.error == Failure(InvalidMessage, []) && ToNumber(Coalesce(p.score, p.vote)).None?
  {
    var raw := Coalesce(p.score, p.vote);
    if !Present(p.degree) || !Present(p.code) then
      Err(Failure(MissingMessage, Need))
    else
      var key := CourseKey(p.degree.value, p.code.value);
      if Nullish(raw) then
        Ok(ReadOnly(key))
      else
        match ToNumber(raw)
        case None => Err(Failure(InvalidMessage, []))
        case Some(x) => Ok(Write(key, Clamp(x)))
  }

  /** Both versions accept an in-range numeric score the same way; out of
      range, votes.js rejects while votes.mjs records the nearer bound; and a
      body whose score resolves to null is a 0 vote for votes.js but a read
      for votes.mjs. */
  lemma AgreesWithVotesJs(p: Payload)
    requires Present(p.degree) && Present(p.code)
    requires ToNumber(Coalesce(p.score, p.vote)).Some?
    ensures var raw := Coalesce(p.score, p.vote);
            var x := ToNumber(raw).value;
            var key := CourseKey(p.degree.value, p.code.value);
            && (raw == Some(Null) ==>
                  VotesJs.CheckBallot(p) == Ok(VotesJs.Ballot(key, 0.0)) && PlanPost(p) == Ok(ReadOnly(key)))
            && (raw != Some(Null) && 0.0 <= x <= 100.0 ==>
                  VotesJs.CheckBallot(p) == Ok(VotesJs.Ballot(key, x)) && PlanPost(p) == Ok(Write(key, x)))
            && (x < 0.0 ==>
                  VotesJs.CheckBallot(p).Err? && PlanPost(p) == Ok(Write(key, 0.0)))
            && (x > 100.0 ==>
                  VotesJs.CheckBallot(p).Err? && PlanPost(p) == Ok(Write(key, 100.0)))
  {
  }

  /** A POST-as-read and a GET for the same course agree whenever the course
      has no aggregate or one with at least one vote. (On a stored count of 0
      GET reports average 0 and the POST none; on a negative count GET divides
      by 1 and the POST by the count.) */
  lemma PostReadMatchesGet(m: map<string, Tally>, d: string, c: string)
    requires d != "" && c != ""
    ensures var key := CourseKey(d, c);
            (key !in m || m[key].count >= 1) ==>
              ReadReply(m, key) == GetReply(m, Query(Some(d), Some(c)))
  {
  }

  /** Reading the course right after a write, by GET or by a POST without a
      score, reports the average and count the write replied with. */
  lemma ReadAfterWrite(m: map<string, Tally>, d: string, c: string, score: real, now: int)
    requires AllBounded(m) && d != "" && c != ""
    ensures var key := CourseKey(d, c);
            var m' := Cast(m, key, score, now);
            var reply := Response(200, Score(Some(Average(m'[key])), m'[key].count));
            m'[key].count >= 1
            && GetReply(m', Query(Some(d), Some(c))) == reply
            && ReadReply(m', key) == reply
  {
    var key := CourseKey(d, c);
    var m' := Cast(m, key, score, now);
    PostReadMatchesGet(m', d, c);
  }

  class Endpoint {
    /** The blob store: key to aggregate. */
    var tallies: map<string, Tally>

    ghost predicate Valid()
      reads this
    {
      AllBounded(tallies)
    }

    constructor ()
      ensures Valid() && tallies == map[]
    {
      tallies := map[];
    }

    /** The GET branch: reads the store and never writes it. */
    method HandleGet(q: Query) returns (res: Response<Reply>)
      requires Valid()
      ensures res == GetReply(tallies, q)
    {
      if !Present(q.degree) || !Present(q.code) {
        return Response(400, Failure(MissingMessage, Need));
      }
      var key := CourseKey(q.degree.value, q.code.value);
      if key !in tallies {
        return Response(200, Score(None, 0));
      }
      var data := tallies[key];
      res := Response(200, Score(Some(Round1(data.sum / Divisor(data.count))), data.count));
    }

    /** The POST branch: a read when there is no score, otherwise one
        read-modify-write with the clamped score. */
    method HandlePost(p: Payload, now: int) returns (res: Response<Reply>)
      requires Valid()
      modifies this
      ensures Valid()
      ensures match PlanPost(p)
              case Err(e) => tallies == old(tallies) && res == Response(400, e)
              case Ok(ReadOnly(key)) => tallies == old(tallies) && res == ReadReply(tallies, key)
              case Ok(Write(key, score)) =>
                tallies == Cast(old(tallies), key, score, now)
                && tallies[key].count >= 1
                && res == Response(200, Recorded(Average(tallies[key]), tallies[key].count))
    {
      var plan := PlanPost(p);
      if plan.Err? {
        return Response(400, plan.error);
      }
      match plan.value
      case ReadOnly(key) =>
        var data := Stored(tallies, key);
        var avg := if data.count != 0 then Some(Round1(data.sum / data.count as real)) else None;
        res := Response(200, Score(avg, data.count));
      case Write(key, clamped) =>
        var current := Stored(tallies, key);
        var next := AddVote(current, clamped, now);
        AddVoteBounded(current, clamped, now);
        CastBounded(tallies, key, clamped, now);
        tallies := tallies[key := next];
        var avg := Round1(next.sum / next.count as real);
        res := Response(200, Recorded(avg, next.count));
    }

    /** The whole handler: OPTIONS first, then the store, then GET / POST. */
    method Handle(req: Request, storeReady: bool, now: int) returns (res: Response<Reply>)
      requires Valid()
      modifies this
      ensures Valid()
      ensures req.httpMethod.Options? ==> res == Response(200, Empty) && tallies == old(tallies)
      ensures !req.httpMethod.Options? && !storeReady ==>
                res == Response(500, Failure("Netlify Blobs unavailable", [])) && tallies == old(tallies)
      ensures req.httpMethod.Get? && storeReady ==>
                res == GetReply(old(tallies), req.query) && tallies == old(tallies)
      ensures req.httpMethod.Post? && storeReady ==>
                match PlanPost(req.body)
                case Err(e) => tallies == old(tallies) && res == Response(400, e)
                case Ok(ReadOnly(key)) => tallies == old(tallies) && res == ReadReply(tallies, key)
                case Ok(Write(key, score)) =>
                  tallies == Cast(old(tallies), key, score, now)
                  && res == Response(200, Recorded(Average(tallies[key]), tallies[key].count))
      ensures req.httpMethod.OtherMethod? && storeReady ==>
                res == Response(405, Failure("Method not allowed", [])) && tallies == old(tallies)
    {
      if req.httpMethod.Options? {
        return Response(200, Empty);
      }
      if !storeReady {
        return Response(500, Failure("Netlify Blobs unavailable", []));
      }
      match req.httpMethod
      case Get =>
        res := HandleGet(req.query);
      case Post =>
        res := HandlePost(req.body, now);
      case _ =>
        res := Response(405, Failure("Method not allowed", []));
    }
  }
}
