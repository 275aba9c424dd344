# UON Aids-O-Meter in Dafny

A model of the course-rating site "UON Aids-O-Meter": students pick a degree
and a course, see an average "aids score" between 0 (easy) and 100 (pain), and
vote on it. The model covers:

- **Votes** (`votes.dfy`): what the two vote functions share. This is the
  storage key `courses/<degree>/<code>.json`, the `{sum, count, updatedAt}`
  aggregate, and the average rounded to one decimal. Rounding uses exact reals.
  The module also proves that every stored aggregate stays well-formed: its
  count is at least 0 and its sum lies between 0 and 100 × count.
- **VotesJs** (`votes_js.dfy`): `netlify/functions/votes.js`. GET reads an
  aggregate. POST validates a score in [0, 100] and adds it. The handler is a
  class whose `tallies` map is the blob store.
- **VotesMjs** (`votes_mjs.dfy`): `netlify/functions/votes.mjs`. GET is the
  same, with a different error body. A POST without a score is a read. A POST
  with a score clamps it to [0, 100] and adds it.
- **Maintenance** (`maintenance.dfy`): the admin function
  `netlify/functions/maintenance.mjs`. It covers the admin-key check, showing a
  course document, resetting one to `emptyDoc()`, and editing one on top of
  `normalizeDocKeepAggregate`.
- **Degrees** (`degrees.dfy`): the `DEGREES` catalogue exactly as listed in
  `src/data/degrees.js`. It models `prefixesForDegree`, whose result for the
  two degrees is proved.
- **App** (`app.dfy`): the logic of `src/App.jsx`.
  - the `courses` filter and the one-second cooldown countdown;
  - the `Panel` class, holding the component state;
  - the handlers that change that state: degree and course clicks, the tabs,
    `submitVote` split into its synchronous guard and its completion, and the
    score load after a selection.
- **Gauge** (`gauge.dfy`): the `pct` clamp and the five mood bands of
  `src/components/Gauge.jsx`.
- **Js** and **Http** (`js.dfy`, `http.dfy`): JSON values and the JavaScript
  coercions the code relies on: `Number(...)`, truthiness, `??` and `|| 0`.
  In the model, an undefined property is `None` and NaN is `None`.

Time (`Date.now()`) is a parameter `now`. Whether the blob store could be
opened is a boolean parameter `storeReady`. Responses from `fetch` are an
`Outcome` parameter.

The votes functions and the admin function write to the same blob store,
"votes". The model keeps it in three maps: the `tallies` of
`VotesJs.Endpoint`, the `tallies` of `VotesMjs.Endpoint`, and the `docs` of
`Maintenance.Endpoint`. Separating the vote store from the admin store is sound
because their key layouts never meet (`Maintenance.KeyLayoutsDisjoint`).
`votes.js` and `votes.mjs` share the `courses/` layout. They are two
versions of the same function, and a deployment serves one of them, so the
model gives each its own store.

## Model

| member | source | states |
|---|---|---|
| Votes.CourseKeyRoundTrip | uon-aids-o-meter/netlify/functions/votes.js:54 | `CourseKey`, the template `courses/${degree}/${code}.json`: a key built from a degree without '/' parses back to that degree and code |
| Votes.CourseKeyInjective | uon-aids-o-meter/netlify/functions/votes.js:76 | two courses whose degrees have no '/' share a key only if they are the same course |
| Votes.CourseKeyCollides | uon-aids-o-meter/netlify/functions/votes.mjs:55 | degree "a/b" with code "c" and degree "a" with code "b/c" share one key, because interpolation does not escape '/' |
| Votes.Round1 | uon-aids-o-meter/netlify/functions/votes.js:58 | `Math.round(x*10)/10` is a whole number of tenths within 0.05 of x (ties round up) |
| Votes.Round1Monotone | uon-aids-o-meter/netlify/functions/votes.js:82 | rounding to tenths never reverses the order of two averages |
| Votes.Round1Tenths | uon-aids-o-meter/netlify/functions/votes.mjs:59 | a value that is already a whole number of tenths is unchanged |
| Votes.Round1InRange | uon-aids-o-meter/netlify/functions/votes.mjs:100 | a value in [0,100] rounds to a value in [0,100] |
| Votes.Divisor | uon-aids-o-meter/netlify/functions/votes.js:58 | `Math.max(1, count)` is at least 1, so the GET average never divides by zero |
| Votes.AverageInRange | uon-aids-o-meter/netlify/functions/votes.js:58-59 | `Average`, `Math.round(sum / Math.max(1, count) * 10) / 10`, of a well-formed aggregate lies in [0,100] |
| Votes.Stored | uon-aids-o-meter/netlify/functions/votes.js:78 | a missing aggregate reads as `{sum: 0, count: 0}`, and in a well-formed store every aggregate read, present or not, is well-formed |
| Votes.AddVoteBounded | uon-aids-o-meter/netlify/functions/votes.js:79 | `AddVote`, the next aggregate `{sum + score, count + 1, updatedAt: now}`: adding a score in [0,100] keeps an aggregate well-formed and gives it at least one vote |
| Votes.ReplyAverageIsStoredAverage | uon-aids-o-meter/netlify/functions/votes.js:82 | the average a POST returns, `sum/count`, equals the average a later GET computes with `max(1, count)` |
| Votes.Cast | uon-aids-o-meter/netlify/functions/votes.js:78-80 | a write adds or replaces exactly the voted course's key and leaves every other aggregate as it was |
| Votes.CastAllAccumulates | uon-aids-o-meter/netlify/functions/votes.mjs:96-98 | n successive writes to one course add n to its count and the scores' total to its sum, and leave every other course untouched |
| Votes.CastBounded | uon-aids-o-meter/netlify/functions/votes.js:73-80 | a store where every aggregate is well-formed stays so after a validated write |
| VotesJs.GetReply | uon-aids-o-meter/netlify/functions/votes.js:49-59 | GET is 400 "Missing degree or code" exactly when either parameter is missing or empty; otherwise it is 200 with the stored count, the average is null exactly when the course has no aggregate, and otherwise it is the aggregate's `Average` |
| VotesJs.GetAverageInRange | uon-aids-o-meter/netlify/functions/votes.js:58 | over a well-formed store, every average GET reports lies in [0,100] |
| VotesJs.CheckBallot | uon-aids-o-meter/netlify/functions/votes.js:68-76 | a POST is accepted iff degree and code are present and `Number(score ?? vote)` (`ToNumber` of `Coalesce`) is a number in [0,100], and the accepted score is exactly that number. A missing field is "Invalid payload"; with both fields present, the rejection is "Invalid payload" exactly when the score is NaN and the range message otherwise |
| VotesJs.BoundaryScores | uon-aids-o-meter/netlify/functions/votes.js:74 | 0, 100 and 50.5 are accepted as given; -1 and 101 are rejected with the range message |
| VotesJs.ScoreSelection | uon-aids-o-meter/netlify/functions/votes.js:70-73 | a non-null `score` wins over `vote`; `vote: null` without a score records 0; neither field is "Invalid payload" |
| VotesJs.GetAfterPost | uon-aids-o-meter/netlify/functions/votes.js:76-83 | after an accepted POST, a GET for the same course reports the count and average that the POST returned |
| VotesJs.Endpoint.HandleGet | uon-aids-o-meter/netlify/functions/votes.js:49-63 | a GET answers GetReply on the current store and changes nothing |
| VotesJs.Endpoint.HandlePost | uon-aids-o-meter/netlify/functions/votes.js:65-87 | a rejected POST answers 400 and leaves the store as it was; an accepted one stores the incremented aggregate under its key and answers its average and count; the store stays well-formed |
| VotesJs.Endpoint.Handle | uon-aids-o-meter/netlify/functions/votes.js:33-90 | OPTIONS → 200 `{}` with the store untouched; store unavailable → 500; GET and POST as above; any other method → 405 |
| VotesMjs.Clamp | uon-aids-o-meter/netlify/functions/votes.mjs:93 | the clamped score lies in [0,100], equals the score inside that range, and is the nearer end outside it |
| VotesMjs.GetReply | uon-aids-o-meter/netlify/functions/votes.mjs:50-60 | GET is 400 "Missing params" with `need: [degree, code]` exactly when a parameter is missing; otherwise it is the same reply as votes.js |
| VotesMjs.ReadReply | uon-aids-o-meter/netlify/functions/votes.mjs:83-85 | a POST read answers the stored count, with a null average exactly when that count is 0 |
| VotesMjs.PlanPost | uon-aids-o-meter/netlify/functions/votes.mjs:70-93 | a missing degree or code is rejected first. A POST is a read exactly when `score ?? vote` is null or undefined. A numeric one writes the clamped score; a NaN one is "Invalid score" |
| VotesMjs.AgreesWithVotesJs | uon-aids-o-meter/netlify/functions/votes.mjs:72-93 | on an in-range numeric score both endpoints record the same ballot. The one difference is `vote: null`: votes.js records 0, votes.mjs reads |
| VotesMjs.PostReadMatchesGet | uon-aids-o-meter/netlify/functions/votes.mjs:81-85 | a POST read and a GET report the same average and count for a course with votes or without an aggregate |
| VotesMjs.ReadAfterWrite | uon-aids-o-meter/netlify/functions/votes.mjs:95-101 | after a write, a POST read returns the count and average that the write returned |
| VotesMjs.Endpoint.HandleGet | uon-aids-o-meter/netlify/functions/votes.mjs:50-64 | a GET answers GetReply and changes nothing |
| VotesMjs.Endpoint.HandlePost | uon-aids-o-meter/netlify/functions/votes.mjs:67-105 | a rejected or read-only POST leaves the store as it was; a write stores the incremented aggregate; the store stays well-formed |
| VotesMjs.Endpoint.Handle | uon-aids-o-meter/netlify/functions/votes.mjs:26-108 | OPTIONS → 200; store unavailable → 500; GET and POST as above; any other method → 405 |
| Maintenance.KeyLayoutsDisjoint | uon-aids-o-meter/netlify/functions/maintenance.mjs:71 | `DocKey`, `codes/${code}.json`, never equals a vote aggregate key |
| Maintenance.ObjectOrEmpty | uon-aids-o-meter/netlify/functions/maintenance.mjs:48-49 | a field that is not an object becomes `{}`; an object is kept |
| Maintenance.Normalize | uon-aids-o-meter/netlify/functions/maintenance.mjs:44-53 | the copy keeps every other field of the document. It sets `sum`/`count` to `Number(x) \|\| 0`, `votes`/`last` to themselves when they are objects and to `{}` otherwise, and `migrated` to a boolean that is true only for `true`. `updatedAt` is kept when truthy, else it is now |
| Maintenance.NormalIsFixed | uon-aids-o-meter/netlify/functions/maintenance.mjs:44-53 | normalising a document already in normal form changes nothing |
| Maintenance.NormalizeIdempotent | uon-aids-o-meter/netlify/functions/maintenance.mjs:44-53 | with a non-zero clock, the result is in normal form, so normalising twice is normalising once, at any later time. At clock 0 a missing `updatedAt` becomes a falsy 0 that a later normalisation replaces |
| Maintenance.EmptyDocIsNormal | uon-aids-o-meter/netlify/functions/maintenance.mjs:33-42 | `EmptyDoc` (`emptyDoc()`) has zero sum and count, empty votes and last, and `migrated: true`. With a non-zero clock it is already in normal form |
| Maintenance.Merge | uon-aids-o-meter/netlify/functions/maintenance.mjs:100 | the edited document has the keys of the current, normalised and change documents. Every change except `updatedAt` wins, `updatedAt` is now, and untouched fields keep their normalised value |
| Maintenance.Current | uon-aids-o-meter/netlify/functions/maintenance.mjs:99 | a truthy stored document is edited as is; a missing or falsy one is replaced by `emptyDoc()`, so an edit never starts from a falsy document |
| Maintenance.AuthorizedMeans | uon-aids-o-meter/netlify/functions/maintenance.mjs:60-61 | `Authorized` over `Provided` (header `\|\|` query `\|\|` ""): a request is authorised iff ADMIN_KEY is non-empty and equals the header key when that is non-empty, else the query key |
| Maintenance.UnauthorizedTouchesNothing | uon-aids-o-meter/netlify/functions/maintenance.mjs:61 | every non-OPTIONS request without the key answers 401 and changes no document |
| Maintenance.WritesOnlyTheCourseDoc | uon-aids-o-meter/netlify/functions/maintenance.mjs:84-102 | a request changes at most the document of its own course code, and only an authorised POST reset, or an edit with an object of changes, writes at all |
| Maintenance.AdminRejections | uon-aids-o-meter/netlify/functions/maintenance.mjs:66-108 | an authorised request is answered 400 "Missing code" (reset or edit without a code), "Missing changes" (edit without an object of changes), "Unknown op" (any other op on GET or POST), "Missing ?code=" (show without a code) or 405 (other methods), each leaving the store unchanged; a GET never writes |
| Maintenance.OptionsAcknowledged | uon-aids-o-meter/netlify/functions/maintenance.mjs:57 | an OPTIONS request is answered 200 `{ok: true}` before any key check, and nothing is written |
| Maintenance.ShowReturnsStoredDoc | uon-aids-o-meter/netlify/functions/maintenance.mjs:67-73 | an authorised `show` with a code answers 200 with the key `codes/<code>.json` and the stored document, or null when there is none or it is falsy, and writes nothing |
| Maintenance.ResetResult | uon-aids-o-meter/netlify/functions/maintenance.mjs:84-90 | an authorised `reset-course` with a code, with the key in the header or the query, answers 200 and replaces exactly `codes/<code>.json` with `emptyDoc()` |
| Maintenance.ShowAfterReset | uon-aids-o-meter/netlify/functions/maintenance.mjs:66-90 | for any authorised reset and show of the same code, the show right after the reset returns `emptyDoc()` under `codes/<code>.json` |
| Maintenance.EditResult | uon-aids-o-meter/netlify/functions/maintenance.mjs:92-102 | at any clock value, and with the key in the header or the query, an authorised `edit-course` with an object of changes answers 200 with the changes. It replaces exactly `codes/<code>.json` with `Merge` of `Current`. The stored document has precisely the fields of the normalised base and of the changes; it takes every changed field, keeps every other base field, and stamps `updatedAt` |
| Maintenance.Endpoint.Handle | uon-aids-o-meter/netlify/functions/maintenance.mjs:56-109 | one request updates the document map and answers exactly as `Dispatch`, the whole handler as a function, describes. Every branch of `Dispatch` is also stated by a lemma: OptionsAcknowledged, UnauthorizedTouchesNothing, ShowReturnsStoredDoc, AdminRejections, ResetResult, EditResult and WritesOnlyTheCourseDoc, each for every request shape |
| Degrees.LeadingCaps | uon-aids-o-meter/src/data/degrees.js:68 | `/^[A-Z]+/` matches the longest all-capital prefix of the code |
| Degrees.SortedPrefixes | uon-aids-o-meter/src/data/degrees.js:67-69 | the result is defined iff every code starts with a capital; it is strictly increasing in `Before`, the code-unit order of the default `.sort()`, and holds exactly the codes' leading runs |
| Degrees.PrefixesForDegreeSpec | uon-aids-o-meter/src/data/degrees.js:66-70 | `PrefixesForDegree` over `CoursesOf` (`DEGREES[name] \|\| []`): the tabs are the one sorted, duplicate-free list of the degree's code prefixes |
| Degrees.UnknownDegreeHasNoPrefixes | uon-aids-o-meter/src/data/degrees.js:67 | a name outside the catalogue has no tabs |
| Degrees.MechanicalCodesShaped | uon-aids-o-meter/src/data/degrees.js:2-31 | every Mechanical code is four capitals, four digits and an optional capital |
| Degrees.MechatronicsCodesShaped | uon-aids-o-meter/src/data/degrees.js:32-62 | every Mechatronics code has that shape too |
| Degrees.ShapedCodeRun | uon-aids-o-meter/src/data/degrees.js:68 | on such a code the regular expression matches exactly its four letters |
| Degrees.CataloguePrefixesDefined | uon-aids-o-meter/src/data/degrees.js:1-70 | `prefixesForDegree` never hits a null match for any name |
| Degrees.MechanicalTabs | uon-aids-o-meter/src/data/degrees.js:66-70 | Mechanical's tabs are CIVL, ELEC, ENGG, MATH, MECH |
| Degrees.MechatronicsTabs | uon-aids-o-meter/src/data/degrees.js:66-70 | Mechatronics' tabs are AERO, CIVL, ELEC, ENGG, MATH, MCHA, MECH |
| App.WithPrefix | uon-aids-o-meter/src/App.jsx:65 | the filter keeps exactly the courses whose code starts with the prefix |
| App.WithPrefixAppend | uon-aids-o-meter/src/App.jsx:65 | the filter distributes over concatenation, so catalogue order is preserved |
| App.WithPrefixKeepsAll | uon-aids-o-meter/src/App.jsx:65 | when every code has the prefix, the list comes back unchanged |
| App.Courses | uon-aids-o-meter/src/App.jsx:60-66 | no degree or an unknown degree shows nothing; without a prefix the whole degree list is shown in catalogue order; with one, exactly the degree's courses whose code starts with it |
| App.EveryTabHasCourses | uon-aids-o-meter/src/App.jsx:61-66 | every prefix tab offered for a degree shows at least one course |
| App.NextCooldown | uon-aids-o-meter/src/App.jsx:103 | one tick never goes below 0, never drops more than a second, strictly lowers a running countdown, and reaches 0 exactly from values up to 1 |
| App.CountdownEnds | uon-aids-o-meter/src/App.jsx:101-105 | a countdown from s ≥ 0 is 0 after ⌈s⌉ ticks and stays there |
| App.CountdownRunning | uon-aids-o-meter/src/App.jsx:101-105 | before ⌈s⌉ ticks the countdown is still positive, so the ticker keeps running |
| App.UsableSeconds | uon-aids-o-meter/src/App.jsx:52-53 | a cooldown value is used iff `Number(v)` is a number and at least 0, so a used cooldown is never negative |
| App.SuccessCooldown | uon-aids-o-meter/src/App.jsx:169-170 | after a successful vote the cooldown is the response's usable `cooldown_s`, else the captured `serverCooldown`, and it is never negative when that is not |
| App.ErrorMessage | uon-aids-o-meter/src/App.jsx:158 | the server's `error` is shown when truthy, else the fixed text, so a failure always leaves a message on screen |
| App.Panel.constructor | uon-aids-o-meter/src/App.jsx:29-42 | the first render has nothing selected, avg null, count 0, vote 50, cooldown 0 and a 60-second default |
| App.Panel.DiscoverCooldown | uon-aids-o-meter/src/App.jsx:45-58 | only a usable `cooldown_s` replaces the default, so `serverCooldown` is never negative |
| App.Panel.PickDegree | uon-aids-o-meter/src/App.jsx:195 | a degree click clears the prefix, the course and the message, and sets avg to null and count to 0. It also clears the cooldown when a course had been selected (App.jsx:108) |
| App.Panel.PickPrefix | uon-aids-o-meter/src/App.jsx:207-209 | a tab sets the prefix and nothing else |
| App.Panel.SelectCourse | uon-aids-o-meter/src/App.jsx:216 | reselecting the same course does nothing. A new code clears the cooldown and the message (App.jsx:108). A course with a code starts loading its score (App.jsx:72-73) |
| App.Panel.CompleteLoad | uon-aids-o-meter/src/App.jsx:81-94 | a failed load shows the error or "Could not load score."; a good one sets avg and `count \|\| 0`; loading always ends |
| App.Panel.SetVote | uon-aids-o-meter/src/App.jsx:257 | the slider sets the vote and nothing else |
| App.Panel.Tick | uon-aids-o-meter/src/App.jsx:101-105 | the interval lowers only a positive cooldown, by NextCooldown |
| App.Panel.BeginSubmit | uon-aids-o-meter/src/App.jsx:123-147 | `AlreadyVoted`, `!!localStorage.getItem('voted:'+code)`, is captured in the ticket as `wasVoted`. A submission starts iff a course with a code is selected, the cooldown is not positive and nothing is in flight. Then the lock and loading are set and the message cleared before the request (course code, degree, vote) leaves. Otherwise nothing changes |
| App.Panel.CompleteSubmit | uon-aids-o-meter/src/App.jsx:148-176 | the lock and loading are released on every path. A 429 whose `Number(retry_after_s)` is a non-zero number (`RetryAfter`) sets the cooldown and the "too fast" message and copies only the avg/count present. Other failures set only the message. Success sets avg and count, marks the course voted, thanks or confirms the update, and starts the cooldown |
| App.DoubleClick | uon-aids-o-meter/src/App.jsx:132-133 | a second click while the first submission is in flight is refused, and the lock is free once the first one settles |
| Gauge.Pct | uon-aids-o-meter/src/components/Gauge.jsx:4 | the shown value lies in [0,100]: NaN and values ≤ 0 show 0, values ≥ 100 show 100, others show themselves |
| Js.NumberOrZero | uon-aids-o-meter/netlify/functions/maintenance.mjs:46-47 | `Number(v) \|\| 0` is 0 exactly when `Number` gives NaN or zero, and `Number`'s value otherwise |
| Gauge.MoodBands | uon-aids-o-meter/src/components/Gauge.jsx:5-9 | `MoodOf`, the cascade of reassignments: the moods are exactly the bands below 20, [20,40), [40,60), [60,80) and 80 and above |
| Gauge.MoodMonotone | uon-aids-o-meter/src/components/Gauge.jsx:5-9 | a higher value never shows a milder mood |
| Gauge.LabelsDistinct | uon-aids-o-meter/src/components/Gauge.jsx:5-9 | the five labels differ |
| Gauge.ClampedEnds | uon-aids-o-meter/src/components/Gauge.jsx:4-9 | values above 100 display and classify like 100, and values below 0 like 0 |
| Gauge.NonNumericShowsZero | uon-aids-o-meter/src/components/Gauge.jsx:4 | a value that `Number` makes NaN or zero shows 0, "Amazing" |

## Left out

- Store construction and fallback probing (`makeStore`, `getVotesStore`, `tryGetStoreAllWays`) are environment and library plumbing. For the vote functions, whether construction succeeded is the `storeReady` parameter. maintenance.mjs calls `tryGetStoreAllWays` outside any `try`, so its failure is an uncaught exception; that path is not modelled.
- The `?diag=1` branches of both vote functions only echo process information and are not modelled. The client's cooldown discovery (`DiscoverCooldown`) takes the answer body as a parameter.
- Failed store reads and writes (the 500 "Failed to read vote data", "Read failed", "Write failed" and "Failed to save vote" replies) are not modelled: the store map never fails. The `reason` field of 500 replies is not modelled either.
- CORS headers, JSON serialisation of bodies, and `JSON.parse` of the request are not modelled. Requests arrive already parsed; a body that does not parse is the payload with every field undefined.
- Maintenance.Dispatch: a POST body that parses to `null` makes the admin handler throw on `body.op` (maintenance.mjs:82 reads it without `?.`), an uncaught error rather than a reply; `AdminBody` cannot hold `null`, so that path is not modelled. The vote functions read `body?.` and are not affected.
- Concurrency: the read-then-`setJSON` sequence has no version check, and racing writers can lose votes. Each request is modelled as one atomic step, and no atomicity is claimed for the source.
- Floating point: averages, rounding and clamping use exact reals, and `toFixed(1)` in the gauge display is not modelled.
- JavaScript coercions beyond those in `Js`: arrays as JSON values; `Number` on strings other than digit strings (treated as NaN); `Infinity`; non-string `degree`/`code` values; names inherited from `Object.prototype` (such as `constructor` or `toString`) as store keys or as `DEGREES` lookups, where `DEGREES[name] || []` is a non-array and `prefixesForDegree` throws while the model gives no tabs; the page only passes catalogue names. Strings compare by Dafny characters, not UTF-16 code units.
- Reading `ADMIN_KEY` from the environment and trimming it are not modelled; the configured key is the `adminKey` parameter.
- `Date.now()`, `setInterval` timing, `fetch`, `localStorage` failures and `getClientId` randomness are parameters or left out. The client id sent with a vote is not modelled, because neither vote function reads it.
- App.Panel.CompleteLoad: a load answer that arrives after the selection changed is ignored in the source (its `ignore` flag); the model applies every answer it is given.
- App.Panel.CompleteSubmit: a negative `retry_after_s` in a 429 reply makes the cooldown negative, as in the source (no vote function sends 429 or `retry_after_s`). An exception thrown by `localStorage.setItem` after avg and count were set is not modelled.
- React rendering and batching, `DisclaimerModal.jsx`, and `accept`/`decline` are presentational and not part of this model. The `prefixes` memo (App.jsx:61) is covered by the Degrees lemmas rather than by a separate function.
