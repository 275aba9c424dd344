/** What the two vote endpoints (netlify/functions/votes.js and votes.mjs)
    share: the request and reply shapes, the storage key, the stored
    `{sum, count}` aggregate, and the one-decimal average. */
module Votes {
  import opened Js
  import opened Http

  /** Query-string parameters of a GET. */
  datatype Query = Query(degree: Option<string>, code: Option<string>)

  /** The parsed JSON body of a POST; a body that fails to parse is the empty
      payload (all fields undefined). */
  datatype Payload = Payload(degree: Option<string>, code: Option<string>, score: Option<Json>, vote: Option<Json>)

  datatype Request = Request(httpMethod: Method, query: Query, body: Payload)

  /** The JSON bodies the endpoints answer with. */
  datatype Reply =
    | Empty                                  // {}
    | Failure(error: string, need: seq<string>) // { error, ...extra }
    | Score(avg: Option<real>, count: int)   // { avg, count }
    | Recorded(mean: real, total: int)       // { ok: true, avg, count }

  /** The stored aggregate `{ sum, count, updatedAt }`. */
  datatype Tally = Tally(sum: real, count: int, updatedAt: Option<int>)

  /** The default `{ sum: 0, count: 0 }` used for a course never voted on. */
  const Blank := Tally(0.0, 0, None)

  const KeyPrefix := "courses/"
  const KeySuffix := ".json"

  /** `courses/${degree}/${code}.json` */
  function CourseKey(degree: string, code: string): string
  {
    KeyPrefix + degree + "/" + code + KeySuffix
  }

  /** Index of the first '/' in `s`, or |s| if there is none. */
  function FirstSlash(s: string): (i: nat)
    ensures i <= |s|
    ensures i < |s| ==> s[i] == '/'
    ensures forall j | 0 <= j < i :: s[j] != '/'
  {
    if s == [] || s[0] == '/' then 0 else 1 + FirstSlash(s[1..])
  }

  /** Reads `(degree, code)` back from a key built by CourseKey. */
  function ParseCourseKey(key: string): Option<(string, string)>
  {
    if |key| < |KeyPrefix| + |KeySuffix| || key[..|KeyPrefix|] != KeyPrefix
       || key[|key| - |KeySuffix|..] != KeySuffix then
      None
    else
      var middle := key[|KeyPrefix|..|key| - |KeySuffix|];
      var i := FirstSlash(middle);
      if i == |middle| then None else Some((middle[..i], middle[i + 1..]))
  }

  lemma FirstSlashAfter(d: string, rest: string)
    requires forall j | 0 <= j < |d| :: d[j] != '/'
    ensures FirstSlash(d + "/" + rest) == |d|
  {
    var s := d + "/" + rest;
    assert s[|d|] == '/';
    assert forall j | 0 <= j < |d| :: s[j] == d[j];
  }

  /** A key is decodable back into the degree and code it was built from,
      provided the degree holds no '/'. */
  lemma CourseKeyRoundTrip(degree: string, code: string)
    requires forall j | 0 <= j < |degree| :: degree[j] != '/'
    ensures ParseCourseKey(CourseKey(degree, code)) == Some((degree, code))
  {
    var key := CourseKey(degree, code);
    var middle := degree + "/" + code;
    assert key == KeyPrefix + middle + KeySuffix;
    assert key[..|KeyPrefix|] == KeyPrefix;
    assert key[|key| - |KeySuffix|..] == KeySuffix;
    assert key[|KeyPrefix|..|key| - |KeySuffix|] == middle;
    FirstSlashAfter(degree, code);
    assert middle[..|degree|] == degree;
    assert middle[|degree| + 1..] == code;
  }

  /** Different (degree, code) pairs without '/' in the degree never share a key. */
  lemma CourseKeyInjective(d1: string, c1: string, d2: string, c2: string)
    requires forall j | 0 <= j < |d1| :: d1[j] != '/'
    requires forall j | 0 <= j < |d2| :: d2[j] != '/'
    requires CourseKey(d1, c1) == CourseKey(d2, c2)
    ensures d1 == d2 && c1 == c2
  {
    CourseKeyRoundTrip(d1, c1);
    CourseKeyRoundTrip(d2, c2);
  }

  /** The key is built from raw request text, so a '/' in the degree lets two
      different requests address the same aggregate. */
  lemma CourseKeyCollides()
    ensures CourseKey("a/b", "c") == CourseKey("a", "b/c")
  {
  }

  /** `Math.round(x * 10) / 10` on exact reals: `Math.round` rounds halves up,
      which is `floor(y + 0.5)`. */
  function Round1(x: real): (r: real)
    ensures x - 0.05 < r <= x + 0.05
    ensures (r * 10.0).Floor as real == r * 10.0
  {
    ((x * 10.0 + 0.5).Floor as real) / 10.0
  }

  /** Rounding never reverses the order of two averages. */
  lemma Round1Monotone(x: real, y: real)
    requires x <= y
    ensures Round1(x) <= Round1(y)
  {
    var a, b := x * 10.0 + 0.5, y * 10.0 + 0.5;
    assert a <= b;
    assert a.Floor <= b.Floor;
    assert a.Floor as real / 10.0 <= b.Floor as real / 10.0;
  }

  /** A value already on the one-decimal grid is unchanged by rounding. */
  lemma Round1Tenths(k: int)
    ensures Round1(k as real / 10.0) == k as real / 10.0
  {
    assert (k as real / 10.0) * 10.0 + 0.5 == k as real + 0.5;
    assert (k as real + 0.5).Floor == k;
  }

  /** Rounding keeps a value inside [0, 100]. */
  lemma Round1InRange(x: real)
    requires 0.0 <= x <= 100.0
    ensures 0.0 <= Round1(x) <= 100.0
  {
    var f := (x * 10.0 + 0.5).Floor;
    assert 0 <= f <= 1000;
  }

  /** `Math.max(1, count)` */
  function Divisor(count: int): (d: real)
    ensures d >= 1.0
  {
    if count < 1 then 1.0 else count as real
  }

  /** The average a GET reports for a stored aggregate. */
  function Average(t: Tally): real
  {
    Round1(t.sum / Divisor(t.count))
  }

  /** The aggregate invariant both endpoints keep: every counted score lay in
      [0, 100]. */
  predicate Bounded(t: Tally)
  {
    t.count >= 0 && 0.0 <= t.sum <= 100.0 * t.count as real
  }

  /** Every aggregate in the store satisfies Bounded. */
  predicate AllBounded(m: map<string, Tally>)
  {
    forall k | k in m :: Bounded(m[k])
  }

  /** A reported average of a well-formed aggregate is a score in [0, 100]. */
  lemma AverageInRange(t: Tally)
    requires Bounded(t)
    ensures 0.0 <= Average(t) <= 100.0
  {
    var d := Divisor(t.count);
    if t.count >= 1 {
      assert t.sum / d <= 100.0 by {
        assert t.sum <= 100.0 * d;
      }
    } else {
      assert t.sum == 0.0;
    }
    Round1InRange(t.sum / d);
  }

  /** `(await store.get(key)) || { sum: 0, count: 0 }` */
  function Stored(m: map<string, Tally>, key: string): (t: Tally)
    ensures key in m ==> t == m[key]
    ensures key !in m ==> t.sum == 0.0 && t.count == 0
    ensures AllBounded(m) ==> Bounded(t)
  {
    if key in m then m[key] else Blank
  }

  /** `{ sum: current.sum + score, count: current.count + 1, updatedAt: now }` */
  function AddVote(t: Tally, score: real, now: int): (t': Tally)
    ensures t'.updatedAt == Some(now)
  {
    Tally(t.sum + score, t.count + 1, Some(now))
  }

  /** Adding a score in [0, 100] keeps an aggregate well-formed, and the new
      aggregate has at least one vote. */
  lemma AddVoteBounded(t: Tally, score: real, now: int)
    requires Bounded(t) && 0.0 <= score <= 100.0
    ensures Bounded(AddVote(t, score, now)) && AddVote(t, score, now).count >= 1
  {
  }

  /** The average a vote reply reports, `Math.round(next.sum / next.count * 10) / 10`,
      is the one a later GET reports for the stored aggregate. */
  lemma ReplyAverageIsStoredAverage(t: Tally, score: real, now: int)
    requires t.count >= 0
    ensures AddVote(t, score, now).count >= 1
    ensures Round1(AddVote(t, score, now).sum / AddVote(t, score, now).count as real)
            == Average(AddVote(t, score, now))
  {
  }

  /** Storing the result of AddVote for key `k` in the store `m`. */
  function Cast(m: map<string, Tally>, k: string, score: real, now: int): (m': map<string, Tally>)
    ensures m'.Keys == m.Keys + {k}
    ensures forall j | j in m && j != k :: m'[j] == m[j]
  {
    m[k := AddVote(Stored(m, k), score, now)]
  }

  /** `scores` cast one after another for the same key. */
  function CastAll(m: map<string, Tally>, k: string, scores: seq<real>, now: int): map<string, Tally>
    decreases |scores|
  {
    if scores == [] then m else CastAll(Cast(m, k, scores[0], now), k, scores[1..], now)
  }

  function Total(scores: seq<real>): real
    decreases |scores|
  {
    if scores == [] then 0.0 else scores[0] + Total(scores[1..])
  }

  /** After N accepted votes for one course, its count has grown by N and its
      sum by the total of the N scores; every other course is unchanged. */
  lemma {:induction false} CastAllAccumulates(m: map<string, Tally>, k: string, scores: seq<real>, now: int)
    ensures Stored(CastAll(m, k, scores, now), k).count == Stored(m, k).count + |scores|
    ensures Stored(CastAll(m, k, scores, now), k).sum == Stored(m, k).sum + Total(scores)
    ensures forall j | j != k :: Stored(CastAll(m, k, scores, now), j) == Stored(m, j)
    decreases |scores|
  {
    if scores != [] {
      var m1 := Cast(m, k, scores[0], now);
      CastAllAccumulates(m1, k, scores[1..], now);
      forall j | j != k
        ensures Stored(CastAll(m, k, scores, now), j) == Stored(m, j)
      {
        assert Stored(m1, j) == Stored(m, j);
      }
    }
  }

  /** Casting scores in [0, 100] keeps every aggregate of the store well-formed. */
  lemma CastBounded(m: map<string, Tally>, k: string, score: real, now: int)
    requires AllBounded(m) && 0.0 <= score <= 100.0
    ensures AllBounded(Cast(m, k, score, now))
  {
    AddVoteBounded(Stored(m, k), score, now);
  }
}
