/** src/App.jsx: the course list shown for a degree and a code-prefix tab, the
    vote cooldown countdown, and the component state that the click handlers,
    `submitVote` and the selection effects update. */
module App {
  import opened Js
  import opened Degrees

  /** `list.filter(c => c.code.startsWith(p))` */
  function WithPrefix(list: seq<Course>, p: string): (r: seq<Course>)
    ensures forall c :: c in r <==> c in list && p <= c.code
    ensures |r| <= |list|
  {
    if list == [] then []
    else (if p <= list[0].code then [list[0]] else []) + WithPrefix(list[1..], p)
  }

  /** Filtering keeps the catalogue order: it distributes over concatenation. */
  lemma {:induction false} WithPrefixAppend(a: seq<Course>, b: seq<Course>, p: string)
    ensures WithPrefix(a + b, p) == WithPrefix(a, p) + WithPrefix(b, p)
  {
    if a == [] {
      assert a + b == b;
    } else {
      assert (a + b)[1..] == a[1..] + b;
      WithPrefixAppend(a[1..], b, p);
    }
  }

  /** A filter that every code passes returns the list unchanged. */
  lemma {:induction false} WithPrefixKeepsAll(list: seq<Course>, p: string)
    requires forall i | 0 <= i < |list| :: p <= list[i].code
    ensures WithPrefix(list, p) == list
  {
    if list != [] {
      WithPrefixKeepsAll(list[1..], p);
    }
  }

  /** The `courses` memo: nothing without a degree, the whole degree list
      without a prefix, otherwise the degree's courses whose code starts with
      the prefix. */
  function Courses(degree: Option<string>, prefix: Option<string>): (r: seq<Course>)
    ensures forall c :: c in r <==>
              Present(degree) && c in CoursesOf(degree.value) && (!Present(prefix) || prefix.value <= c.code)
    ensures Present(degree) && !Present(prefix) ==> r == CoursesOf(degree.value)
    ensures Present(degree) && Present(prefix) ==> r == WithPrefix(CoursesOf(degree.value), prefix.value)
  {
    if !Present(degree) then []
    else
      var list := CoursesOf(degree.value);
      if !Present(prefix) then list else WithPrefix(list, prefix.value)
  }

  /** Every tab offered for a degree selects at least one of its courses. */
  lemma EveryTabHasCourses(name: string, p: string)
    requires name != ""
    requires PrefixesForDegree(name).Some? && p in PrefixesForDegree(name).value
    ensures Courses(Some(name), Some(p)) != []
  {
    var list := CoursesOf(name);
    var i :| 0 <= i < |list| && LeadingCaps(list[i].code) == p;
    assert p <= list[i].code;
    assert p != "";
    assert list[i] in Courses(Some(name), Some(p));
  }

  /** One second of the countdown: `s > 1 ? s - 1 : 0`. The value never goes
      below zero, never falls by more than a second, and a running countdown
      strictly decreases. */
  function NextCooldown(s: real): (r: real)
    ensures 0.0 <= r
    ensures 0.0 < s ==> r < s
    ensures 0.0 <= s ==> s - 1.0 <= r
    ensures r == 0.0 <==> s <= 1.0
  {
    if s > 1.0 then s - 1.0 else 0.0
  }

  /** The countdown after `n` one-second ticks. */
  function AfterTicks(s: real, n: nat): real
    decreases n
  {
    if n == 0 then s else AfterTicks(NextCooldown(s), n - 1)
  }

  /** How many one-second ticks a countdown from `s` lasts: `s` rounded up. */
  function Seconds(s: real): (n: int)
    ensures s <= n as real < s + 1.0
  {
    -((-s).Floor)
  }

  lemma SecondsStep(s: real)
    requires 1.0 < s
    ensures Seconds(s - 1.0) == Seconds(s) - 1
  {
    assert -(s - 1.0) == -s + 1.0;
    assert (-s + 1.0).Floor == (-s).Floor + 1;
  }

  /** A countdown from `s >= 0` is zero after `Seconds(s)` ticks and stays there. */
  lemma {:induction false} CountdownEnds(s: real, n: nat)
    requires 0.0 <= s && Seconds(s) <= n
    ensures AfterTicks(s, n) == 0.0
    decreases n
  {
    if n > 0 {
      if s > 1.0 {
        SecondsStep(s);
      }
      CountdownEnds(NextCooldown(s), n - 1);
    }
  }

  /** Before `Seconds(s)` ticks the countdown is still positive. */
  lemma {:induction false} CountdownRunning(s: real, k: nat)
    requires k < Seconds(s)
    ensures AfterTicks(s, k) > 0.0
    decreases k
  {
    if k > 0 {
      SecondsStep(s);
      CountdownRunning(NextCooldown(s), k - 1);
    }
  }

  /** `Number(v)` accepted as a cooldown: a number at least zero. */
  function UsableSeconds(v: Option<Json>): (r: Option<real>)
    ensures r.Some? <==> ToNumber(v).Some? && ToNumber(v).value >= 0.0
    ensures r.Some? ==> r.value == ToNumber(v).value
    ensures r.Some? ==> 0.0 <= r.value
  {
    match ToNumber(v)
    case Some(s) => if s >= 0.0 then Some(s) else None
    case None => None
  }

  /** The cooldown started by a successful vote: the response's `cooldown_s`
      when usable, else the fallback the click captured. */
  function SuccessCooldown(data: map<string, Json>, fallback: real): (r: real)
    ensures 0.0 <= fallback ==> 0.0 <= r
    ensures UsableSeconds(Prop(data, "cooldown_s")).None? ==> r == fallback
    ensures UsableSeconds(Prop(data, "cooldown_s")).Some? ==> r == ToNumber(Prop(data, "cooldown_s")).value
  {
    match UsableSeconds(Prop(data, "cooldown_s"))
    case Some(s) => s
    case None => fallback
  }

  /** `Number(data?.retry_after_s)` when it is truthy: a number other than 0. */
  function RetryAfter(data: map<string, Json>): (r: Option<real>)
    ensures r.Some? <==> ToNumber(Prop(data, "retry_after_s")).Some? && ToNumber(Prop(data, "retry_after_s")).value != 0.0
    ensures r.Some? ==> r.value == ToNumber(Prop(data, "retry_after_s")).value
  {
    match ToNumber(Prop(data, "retry_after_s"))
    case Some(x) => if x != 0.0 then Some(x) else None
    case None => None
  }

  /** What the message line shows (`null` is `NoMessage`). */
  datatype Message = NoMessage | ServerError(error: Json) | Text(text: string) | TooFast(seconds: real)

  const LoadFailed := "Could not load score."
  const VoteFailed := "Vote failed."
  const Thanks := "Thanks for voting!"
  const Updated := "Updated your vote!"

  /** `data?.error || fallback` */
  function ErrorMessage(data: map<string, Json>, fallback: string): (m: Message)
    ensures Defined(Prop(data, "error")) <==> m.ServerError?
    ensures m.ServerError? ==> m.error == data["error"]
    ensures !m.ServerError? ==> m == Text(fallback)
    ensures m != NoMessage
  {
    if Defined(Prop(data, "error")) then ServerError(data["error"]) else Text(fallback)
  }

  /** How a `fetch` ended: a reply whose body parsed to an object (a body that
      does not parse reads as `{}`), or a thrown exception. */
  datatype Outcome = Replied(status: int, data: map<string, Json>) | NetworkError

  /** `res.ok` */
  predicate IsOk(status: int)
  {
    200 <= status <= 299
  }

  /** The body `submitVote` posts (the client id is not modelled). */
  datatype VoteRequest = VoteRequest(degree: Option<string>, code: string, score: real)

  /** What a click captured when it passed the guards: the request, the course's
      `voted:` key, whether that key was set, and the `serverCooldown` of that
      render. */
  datatype Ticket = Ticket(request: VoteRequest, wasVoted: bool, fallback: real)

  /** The component state of `App` (the disclaimer flag aside). `voted` holds
      the course codes whose `voted:<code>` key is in local storage. */
  class Panel {
    var degree: Option<string>
    var prefix: Option<string>
    var selected: Option<Course>
    var avg: Option<Json>
    var count: Option<Json>
    var loading: bool
    var vote: real
    var msg: Message
    var cooldown: real
    var serverCooldown: real
    var inFlight: bool
    var voted: set<string>

    /** The discovered default cooldown is never negative. */
    predicate Valid()
      reads this
    {
      0.0 <= serverCooldown
    }

    /** `alreadyVoted` */
    predicate AlreadyVoted()
      reads this
    {
      selected.Some? && selected.value.code != "" && selected.value.code in voted
    }

    /** The first render: nothing chosen, the slider at 50, the fallback
        cooldown at 60 seconds. */
    constructor(stored: set<string>)
      ensures Valid()
      ensures degree == None && prefix == None && selected == None
      ensures avg == Some(Null) && count == Some(Num(0.0)) && vote == 50.0
      ensures !loading && !inFlight && msg == NoMessage
      ensures cooldown == 0.0 && serverCooldown == 60.0 && voted == stored
    {
      degree := None;
      prefix := None;
      selected := None;
      avg := Some(Null);
      count := Some(Num(0.0));
      loading := false;
      vote := 50.0;
      msg := NoMessage;
      cooldown := 0.0;
      serverCooldown := 60.0;
      inFlight := false;
      voted := stored;
    }

    /** The mount effect's answer from `?diag=1`: a usable `cooldown_s`
        replaces the default, anything else leaves it. */
    method DiscoverCooldown(data: map<string, Json>)
      requires Valid()
      modifies this
      ensures Valid()
      ensures UsableSeconds(Prop(data, "cooldown_s")).Some? ==>
                serverCooldown == UsableSeconds(Prop(data, "cooldown_s")).value
      ensures UsableSeconds(Prop(data, "cooldown_s")).None? ==> serverCooldown == old(serverCooldown)
      ensures degree == old(degree) && prefix == old(prefix) && selected == old(selected)
      ensures avg == old(avg) && count == old(count) && loading == old(loading) && vote == old(vote)
      ensures msg == old(msg) && cooldown == old(cooldown) && inFlight == old(inFlight) && voted == old(voted)
    {
      var s := UsableSeconds(Prop(data, "cooldown_s"));
      if s.Some? {
        serverCooldown := s.value;
      }
    }

    /** A degree card: clears the tab, the course, the message and the shown
        score; the course-change effect then clears the cooldown when a course
        had been selected. */
    method PickDegree(name: string)
      requires Valid()
      modifies this
      ensures Valid()
      ensures degree == Some(name) && prefix == None && selected == None
      ensures avg == Some(Null) && count == Some(Num(0.0)) && msg == NoMessage
      ensures cooldown == (if old(selected).Some? then 0.0 else old(cooldown))
      ensures loading == old(loading) && vote == old(vote) && inFlight == old(inFlight)
      ensures serverCooldown == old(serverCooldown) && voted == old(voted)
    {
      var hadCourse := selected.Some?;
      degree := Some(name);
      prefix := None;
      selected := None;
      avg := Some(Null);
      count := Some(Num(0.0));
      msg := NoMessage;
      if hadCourse {
        cooldown := 0.0;
      }
    }

    /** A prefix tab; `None` is "All". */
    method PickPrefix(p: Option<string>)
      requires Valid()
      modifies this
      ensures Valid()
      ensures prefix == p
      ensures degree == old(degree) && selected == old(selected) && avg == old(avg) && count == old(count)
      ensures loading == old(loading) && vote == old(vote) && msg == old(msg) && cooldown == old(cooldown)
      ensures inFlight == old(inFlight) && serverCooldown == old(serverCooldown) && voted == old(voted)
    {
      prefix := p;
    }

    /** A course row: a new selection with a different code clears the cooldown
        and the message; any new selection with a code starts loading its score. */
    method SelectCourse(c: Course)
      requires Valid()
      modifies this
      ensures Valid()
      ensures selected == Some(c)
      ensures old(selected) == Some(c) ==> cooldown == old(cooldown) && msg == old(msg) && loading == old(loading)
      ensures old(selected) != Some(c) ==>
                var sameCode := old(selected).Some? && old(selected).value.code == c.code;
                && cooldown == (if sameCode then old(cooldown) else 0.0)
                && msg == (if sameCode && c.code == "" then old(msg) else NoMessage)
                && loading == (c.code != "" || old(loading))
      ensures degree == old(degree) && prefix == old(prefix) && avg == old(avg) && count == old(count)
      ensures vote == old(vote) && inFlight == old(inFlight) && serverCooldown == old(serverCooldown)
      ensures voted == old(voted)
    {
      if selected != Some(c) {
        var codeChanged := !(selected.Some? && selected.value.code == c.code);
        selected := Some(c);
        if codeChanged {
          cooldown := 0.0;
          msg := NoMessage;
        }
        if c.code != "" {
          loading := true;
          msg := NoMessage;
        }
      }
    }

    /** The answer to the score load a selection started (a load that a later
        selection superseded is not distinguished). */
    method CompleteLoad(outcome: Outcome)
      requires Valid()
      modifies this
      ensures Valid()
      ensures !loading
      ensures outcome.NetworkError? ==> msg == Text(LoadFailed) && avg == old(avg) && count == old(count)
      ensures outcome.Replied? && !IsOk(outcome.status) ==>
                msg == ErrorMessage(outcome.data, LoadFailed) && avg == old(avg) && count == old(count)
      ensures outcome.Replied? && IsOk(outcome.status) ==>
                && msg == old(msg)
                && avg == Prop(outcome.data, "avg")
                && count == (if Defined(Prop(outcome.data, "count")) then Prop(outcome.data, "count") else Some(Num(0.0)))
      ensures degree == old(degree) && prefix == old(prefix) && selected == old(selected) && vote == old(vote)
      ensures cooldown == old(cooldown) && inFlight == old(inFlight) && serverCooldown == old(serverCooldown)
      ensures voted == old(voted)
    {
      match outcome {
        case NetworkError =>
          msg := Text(LoadFailed);
        case Replied(status, data) =>
          if !IsOk(status) {
            msg := ErrorMessage(data, LoadFailed);
          } else {
            avg := Prop(data, "avg");
            var n := Prop(data, "count");
            count := if Defined(n) then n else Some(Num(0.0));
          }
      }
      loading := false;
    }

    /** The slider. */
    method SetVote(v: real)
      requires Valid()
      modifies this
      ensures Valid()
      ensures vote == v
      ensures degree == old(degree) && prefix == old(prefix) && selected == old(selected) && avg == old(avg)
      ensures count == old(count) && loading == old(loading) && msg == old(msg) && cooldown == old(cooldown)
      ensures inFlight == old(inFlight) && serverCooldown == old(serverCooldown) && voted == old(voted)
    {
      vote := v;
    }

    /** One firing of the interval, which only runs while the cooldown is
        positive. */
    method Tick()
      requires Valid()
      modifies this
      ensures Valid()
      ensures old(cooldown) > 0.0 ==> cooldown == NextCooldown(old(cooldown)) && cooldown < old(cooldown)
      ensures old(cooldown) <= 0.0 ==> cooldown == old(cooldown)
      ensures degree == old(degree) && prefix == old(prefix) && selected == old(selected) && avg == old(avg)
      ensures count == old(count) && loading == old(loading) && vote == old(vote) && msg == old(msg)
      ensures inFlight == old(inFlight) && serverCooldown == old(serverCooldown) && voted == old(voted)
    {
      if cooldown > 0.0 {
        cooldown := NextCooldown(cooldown);
      }
    }

    /** The synchronous part of `submitVote`: with no course code, a running
        cooldown or a submission in flight nothing happens; otherwise the lock
        is taken before the request leaves. */
    method BeginSubmit() returns (ticket: Option<Ticket>)
      requires Valid()
      modifies this
      ensures Valid()
      ensures ticket.Some? <==>
                old(selected).Some? && old(selected).value.code != "" && old(cooldown) <= 0.0 && !old(inFlight)
      ensures ticket.None? ==>
                && inFlight == old(inFlight) && loading == old(loading) && msg == old(msg)
      ensures ticket.Some? ==>
                && inFlight && loading && msg == NoMessage
                && ticket.value.request == VoteRequest(old(degree), old(selected).value.code, old(vote))
                && ticket.value.wasVoted == old(AlreadyVoted())
                && ticket.value.fallback == old(serverCooldown)
      ensures degree == old(degree) && prefix == old(prefix) && selected == old(selected) && avg == old(avg)
      ensures count == old(count) && vote == old(vote) && cooldown == old(cooldown)
      ensures serverCooldown == old(serverCooldown) && voted == old(voted)
    {
      if selected.None? || selected.value.code == "" {
        return None;
      }
      if cooldown > 0.0 {
        return None;
      }
      if inFlight {
        return None;
      }
      inFlight := true;
      var wasVoted := AlreadyVoted();
      loading := true;
      msg := NoMessage;
      ticket := Some(Ticket(VoteRequest(degree, selected.value.code, vote), wasVoted, serverCooldown));
    }

    /** The rest of `submitVote` once the request settles. Every path releases
        the lock and the loading flag. */
    method CompleteSubmit(t: Ticket, outcome: Outcome)
      requires Valid()
      modifies this
      ensures Valid()
      ensures !inFlight && !loading
      ensures outcome.NetworkError? ==>
                msg == Text(VoteFailed) && avg == old(avg) && count == old(count)
                && cooldown == old(cooldown) && voted == old(voted)
      ensures outcome.Replied? && !IsOk(outcome.status) && outcome.status == 429 && RetryAfter(outcome.data).Some? ==>
                && cooldown == RetryAfter(outcome.data).value
                && msg == TooFast(cooldown)
                && avg == (if "avg" in outcome.data then Some(outcome.data["avg"]) else old(avg))
                && count == (if "count" in outcome.data then Some(outcome.data["count"]) else old(count))
                && voted == old(voted)
      ensures outcome.Replied? && !IsOk(outcome.status) && !(outcome.status == 429 && RetryAfter(outcome.data).Some?) ==>
                && msg == ErrorMessage(outcome.data, VoteFailed)
                && avg == old(avg) && count == old(count) && cooldown == old(cooldown) && voted == old(voted)
      ensures outcome.Replied? && IsOk(outcome.status) ==>
                && avg == Prop(outcome.data, "avg")
                && count == Prop(outcome.data, "count")
                && voted == old(voted) + {t.request.code}
                && msg == Text(if t.wasVoted then Updated else Thanks)
                && cooldown == SuccessCooldown(outcome.data, t.fallback)
                && (0.0 <= t.fallback ==> 0.0 <= cooldown)
      ensures degree == old(degree) && prefix == old(prefix) && selected == old(selected) && vote == old(vote)
      ensures serverCooldown == old(serverCooldown)
    {
      match outcome {
        case NetworkError =>
          msg := Text(VoteFailed);
        case Replied(status, data) =>
          if !IsOk(status) {
            var retry := RetryAfter(data);
            if status == 429 && retry.Some? {
              if "avg" in data {
                avg := Some(data["avg"]);
              }
              if "count" in data {
                count := Some(data["count"]);
              }
              cooldown := retry.value;
              msg := TooFast(retry.value);
            } else {
              msg := ErrorMessage(data, VoteFailed);
            }
          } else {
            avg := Prop(data, "avg");
            count := Prop(data, "count");
            voted := voted + {t.request.code};
            msg := Text(if t.wasVoted then Updated else Thanks);
            cooldown := SuccessCooldown(data, t.fallback);
          }
      }
      loading := false;
      inFlight := false;
    }
  }

  /** A second click while the first submission is in flight is refused, and
      once that submission settles the lock is free again. */
  method DoubleClick(p: Panel, outcome: Outcome) returns (first: Option<Ticket>, second: Option<Ticket>)
    requires p.Valid()
    modifies p
    ensures first.Some? ==> second.None?
    ensures first.Some? ==> !p.inFlight && !p.loading
  {
    first := p.BeginSubmit();
    second := p.BeginSubmit();
    if first.Some? {
      p.CompleteSubmit(first.value, outcome);
    }
  }
}
