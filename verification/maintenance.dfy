/** netlify/functions/maintenance.mjs: an admin-only endpoint that shows,
    resets or edits the aggregate document stored at `codes/<code>.json`. */
module Maintenance {
  import opened Js
  import opened Http
  import Votes

  /** A stored document: the fields of a JSON object. */
  type Doc = map<string, Json>

  datatype AdminQuery = AdminQuery(adminKey: Option<string>, op: Option<string>, code: Option<string>)
  /** The parsed POST body; a body that fails to parse has every field undefined. */
  datatype AdminBody = AdminBody(op: Option<string>, code: Option<string>, changes: Option<Json>)
  /** `keyHeader` is the `x-admin-key` header. */
  datatype AdminRequest = AdminRequest(httpMethod: Method, keyHeader: Option<string>, query: AdminQuery, body: AdminBody)

  datatype AdminReply =
    | Ack                                // { ok: true }
    | Error(error: string)               // { error }
    | Shown(key: string, data: Json)     // { key, data }
    | ResetDone(code: string)            // { ok: true, action: "reset-course", code }
    | Edited(code: string, changes: Json) // { ok: true, action: "edit-course", code, changes }

  const DocPrefix := "codes/"

  /** `codes/${code}.json` */
  function DocKey(code: string): string
  {
    DocPrefix + code + ".json"
  }

  /** The documents this endpoint addresses never share a key with the
      aggregates the vote endpoints keep under `courses/`. */
  lemma KeyLayoutsDisjoint(code: string, degree: string, course: string)
    ensures DocKey(code) != Votes.CourseKey(degree, course)
  {
    assert DocKey(code)[2] == 'd';
    assert Votes.CourseKey(degree, course)[2] == 'u';
  }

  /** `emptyDoc()` with `Date.now()` given as `now`. */
  function EmptyDoc(now: int): Doc
  {
    map["sum" := Num(0.0), "count" := Num(0.0), "votes" := Obj(map[]), "last" := Obj(map[]),
        "migrated" := Bool(true), "updatedAt" := Num(now as real)]
  }

  /** `(v && typeof v === "object") ? v : {}` */
  function ObjectOrEmpty(v: Option<Json>): (r: Json)
    ensures r.Obj?
    ensures v.Some? && v.value.Obj? ==> r == v.value
    ensures !(v.Some? && v.value.Obj?) ==> r == Obj(map[])
  {
    if v.Some? && v.value.Obj? then v.value else Obj(map[])
  }

  const Normalised := {"sum", "count", "votes", "last", "migrated", "updatedAt"}

  /** `normalizeDocKeepAggregate(doc)` with `Date.now()` given as `now`. */
  function Normalize(doc: Json, now: int): (r: Doc)
    ensures var out := if doc.Obj? then doc.fields else map[];
            && r.Keys == out.Keys + Normalised
            && r["sum"] == Num(NumberOrZero(Prop(out, "sum")))
            && r["count"] == Num(NumberOrZero(Prop(out, "count")))
            && r["votes"].Obj? && r["last"].Obj?
            && (Prop(out, "votes").Some? && out["votes"].Obj? ==> r["votes"] == out["votes"])
            && (Prop(out, "last").Some? && out["last"].Obj? ==> r["last"] == out["last"])
            && (!(Prop(out, "votes").Some? && out["votes"].Obj?) ==> r["votes"] == Obj(map[]))
            && (!(Prop(out, "last").Some? && out["last"].Obj?) ==> r["last"] == Obj(map[]))
            && (r["migrated"] == Bool(true) <==> Prop(out, "migrated") == Some(Bool(true)))
            && r["migrated"].Bool?
            && (Defined(Prop(out, "updatedAt")) ==> r["updatedAt"] == out["updatedAt"])
            && (!Defined(Prop(out, "updatedAt")) ==> r["updatedAt"] == Num(now as real))
            && (now != 0 ==> Truthy(r["updatedAt"]))
            && (forall k | k in out && k !in Normalised :: r[k] == out[k])
  {
    var out := if doc.Obj? then doc.fields else map[];
    var updated := Prop(out, "updatedAt");
    out["sum" := Num(NumberOrZero(Prop(out, "sum")))]
       ["count" := Num(NumberOrZero(Prop(out, "count")))]
       ["votes" := ObjectOrEmpty(Prop(out, "votes"))]
       ["last" := ObjectOrEmpty(Prop(out, "last"))]
       ["migrated" := Bool(Prop(out, "migrated") == Some(Bool(true)))]
       ["updatedAt" := if Defined(updated) then updated.value else Num(now as real)]
  }

  /** The shape Normalize produces. */
  predicate IsNormal(d: Doc)
  {
    && Normalised <= d.Keys
    && d["sum"].Num? && d["count"].Num?
    && d["votes"].Obj? && d["last"].Obj?
    && d["migrated"].Bool?
    && Truthy(d["updatedAt"])
  }

  /** Normalising a document that is already normal changes nothing, whatever
      the clock says. */
  lemma NormalIsFixed(d: Doc, now: int)
    requires IsNormal(d)
    ensures Normalize(Obj(d), now) == d
  {
    var r := Normalize(Obj(d), now);
    assert r.Keys == d.Keys;
    forall k | k in d ensures r[k] == d[k] {
      if k == "migrated" {
        assert d[k] == Bool(true) || d[k] == Bool(false);
      }
    }
  }

  /** With a real clock (not 0) the result is normal, so normalising twice is
      normalising once, even at a later time. */
  lemma NormalizeIdempotent(doc: Json, now: int, later: int)
    requires now != 0
    ensures IsNormal(Normalize(doc, now))
    ensures Normalize(Obj(Normalize(doc, now)), later) == Normalize(doc, now)
  {
    NormalIsFixed(Normalize(doc, now), later);
  }

  /** `emptyDoc()` has zero aggregate, empty `votes` and `last`, `migrated`
      true, and is already normal. */
  lemma EmptyDocIsNormal(now: int, later: int)
    requires now != 0
    ensures EmptyDoc(now)["sum"] == Num(0.0) && EmptyDoc(now)["count"] == Num(0.0)
    ensures EmptyDoc(now)["votes"] == Obj(map[]) && EmptyDoc(now)["last"] == Obj(map[])
    ensures EmptyDoc(now)["migrated"] == Bool(true)
    ensures IsNormal(EmptyDoc(now)) && Normalize(Obj(EmptyDoc(now)), later) == EmptyDoc(now)
  {
    NormalIsFixed(EmptyDoc(now), later);
  }

  /** `{ ...normalizeDocKeepAggregate(current), ...changes, updatedAt: Date.now() }` */
  function Merge(current: Json, changes: Doc, now: int): (r: Doc)
    ensures r.Keys == (if current.Obj? then current.fields.Keys else {}) + Normalised + changes.Keys
    ensures r["updatedAt"] == Num(now as real)
    ensures forall k | k in changes && k != "updatedAt" :: r[k] == changes[k]
    ensures forall k | k !in changes && k != "updatedAt" && k in Normalize(current, now) ::
              r[k] == Normalize(current, now)[k]
  {
    Normalize(current, now) + changes + map["updatedAt" := Num(now as real)]
  }

  /** `(await store.get(key)) || fallback` */
  function Current(docs: map<string, Json>, key: string, now: int): (r: Json)
    ensures key in docs && Truthy(docs[key]) ==> r == docs[key]
    ensures !(key in docs && Truthy(docs[key])) ==> r == Obj(EmptyDoc(now))
    ensures Truthy(r)
  {
    if key in docs && Truthy(docs[key]) then docs[key] else Obj(EmptyDoc(now))
  }

  /** The admin key the caller supplied: the header, else the query
      parameter, else "". */
  function Provided(req: AdminRequest): string
  {
    if Present(req.keyHeader) then req.keyHeader.value
    else if Present(req.query.adminKey) then req.query.adminKey.value
    else ""
  }

  /** The handler's admin check: a configured, non-empty key equal to the one
      supplied. */
  predicate Authorized(req: AdminRequest, adminKey: string)
  {
    adminKey != "" && Provided(req) == adminKey
  }

  /** An empty configured key locks everyone out, and an authorised caller
      supplied the key in the header or, with no header, in the query. */
  lemma AuthorizedMeans(req: AdminRequest, adminKey: string)
    ensures Authorized(req, adminKey) <==>
              adminKey != ""
              && (if Present(req.keyHeader) then req.keyHeader == Some(adminKey)
                  else req.query.adminKey == Some(adminKey))
  {
  }

  /** What the handler answers and what the store holds afterwards. */
  function Dispatch(docs: map<string, Json>, req: AdminRequest, adminKey: string, now: int)
    : (Response<AdminReply>, map<string, Json>)
  {
    if req.httpMethod.Options? then (Response(200, Ack), docs)
    else if !Authorized(req, adminKey) then (Response(401, Error("Unauthorized")), docs)
    else match req.httpMethod
      case Get =>
        if req.query.op != Some("show") then (Response(400, Error("Unknown op")), docs)
        else if !Present(req.query.code) then (Response(400, Error("Missing ?code=")), docs)
        else
          var key := DocKey(req.query.code.value);
          var data := if key in docs && Truthy(docs[key]) then docs[key] else Null;
          (Response(200, Shown(key, data)), docs)
      case Post =>
        var body := req.body;
        if body.op == Some("reset-course") then
          if !Present(body.code) then (Response(400, Error("Missing code")), docs)
          else (Response(200, ResetDone(body.code.value)), docs[DocKey(body.code.value) := Obj(EmptyDoc(now))])
        else if body.op == Some("edit-course") then
          if !Present(body.code) then (Response(400, Error("Missing code")), docs)
          else if body.changes.None? || !body.changes.value.Obj? then (Response(400, Error("Missing changes")), docs)
          else
            var key := DocKey(body.code.value);
            var updated := Merge(Current(docs, key, now), body.changes.value.fields, now);
            (Response(200, Edited(body.code.value, body.changes.value)), docs[key := Obj(updated)])
        else (Response(400, Error("Unknown op")), docs)
      case _ => (Response(405, Error("Method not allowed")), docs)
  }

  /** Without the admin key nothing but OPTIONS gets an answer other than 401,
      and the store is untouched. */
  lemma UnauthorizedTouchesNothing(docs: map<string, Json>, req: AdminRequest, adminKey: string, now: int)
    requires !req.httpMethod.Options? && !Authorized(req, adminKey)
    ensures Dispatch(docs, req, adminKey, now) == (Response(401, Error("Unauthorized")), docs)
  {
  }

  /** Only a POST reset or edit with a code writes, and it writes one key,
      `codes/<code>.json`; every other request leaves the store as it was. */
  lemma WritesOnlyTheCourseDoc(docs: map<string, Json>, req: AdminRequest, adminKey: string, now: int)
    ensures var (_, docs') := Dispatch(docs, req, adminKey, now);
            docs' == docs
            || (&& req.httpMethod.Post? && Authorized(req, adminKey)
                && (req.body.op == Some("reset-course") || req.body.op == Some("edit-course"))
                && Present(req.body.code)
                && (req.body.op == Some("edit-course") ==> req.body.changes.Some? && req.body.changes.value.Obj?)
                && docs'.Keys == docs.Keys + {DocKey(req.body.code.value)}
                && forall k | k in docs && k != DocKey(req.body.code.value) :: docs'[k] == docs[k])
  {
  }

  /** The handler's validation answers, each a 4xx that leaves the store as it
      was: a reset or edit without a code, an edit without an object of
      changes, an unknown op on GET or POST, a `show` without a code, and any
      other method. A `show` never writes. */
  lemma AdminRejections(docs: map<string, Json>, req: AdminRequest, adminKey: string, now: int)
    requires !req.httpMethod.Options? && Authorized(req, adminKey)
    ensures var body := req.body;
            req.httpMethod.Post? && (body.op == Some("reset-course") || body.op == Some("edit-course"))
            && !Present(body.code) ==>
              Dispatch(docs, req, adminKey, now) == (Response(400, Error("Missing code")), docs)
    ensures var body := req.body;
            req.httpMethod.Post? && body.op == Some("edit-course") && Present(body.code)
            && !(body.changes.Some? && body.changes.value.Obj?) ==>
              Dispatch(docs, req, adminKey, now) == (Response(400, Error("Missing changes")), docs)
    ensures req.httpMethod.Post? && req.body.op != Some("reset-course") && req.body.op != Some("edit-course") ==>
              Dispatch(docs, req, adminKey, now) == (Response(400, Error("Unknown op")), docs)
    ensures req.httpMethod.Get? && req.query.op != Some("show") ==>
              Dispatch(docs, req, adminKey, now) == (Response(400, Error("Unknown op")), docs)
    ensures req.httpMethod.Get? && req.query.op == Some("show") && !Present(req.query.code) ==>
              Dispatch(docs, req, adminKey, now) == (Response(400, Error("Missing ?code=")), docs)
    ensures req.httpMethod.Get? ==> Dispatch(docs, req, adminKey, now).1 == docs
    ensures req.httpMethod.OtherMethod? ==>
              Dispatch(docs, req, adminKey, now) == (Response(405, Error("Method not allowed")), docs)
  {
  }

  /** An authorised `reset-course` with a code, whichever way the key came,
      answers 200 and replaces `codes/<code>.json` with `emptyDoc()`. */
  lemma ResetResult(docs: map<string, Json>, req: AdminRequest, adminKey: string, now: int)
    requires req.httpMethod.Post? && Authorized(req, adminKey)
    requires req.body.op == Some("reset-course") && Present(req.body.code)
    ensures var code := req.body.code.value;
            Dispatch(docs, req, adminKey, now)
              == (Response(200, ResetDone(code)), docs[DocKey(code) := Obj(EmptyDoc(now))])
  {
  }

  /** A reset stores the empty document, and a `show` of the same code right
      after it returns that document. */
  lemma ShowAfterReset(docs: map<string, Json>, reset: AdminRequest, show: AdminRequest, adminKey: string, now: int)
    requires reset.httpMethod.Post? && Authorized(reset, adminKey)
    requires reset.body.op == Some("reset-course") && Present(reset.body.code)
    requires show.httpMethod.Get? && Authorized(show, adminKey)
    requires show.query.op == Some("show") && show.query.code == reset.body.code
    ensures var code := reset.body.code.value;
            var (r1, docs1) := Dispatch(docs, reset, adminKey, now);
            r1 == Response(200, ResetDone(code))
            && Dispatch(docs1, show, adminKey, now) == (Response(200, Shown(DocKey(code), Obj(EmptyDoc(now)))), docs1)
  {
    ResetResult(docs, reset, adminKey, now);
  }

  /** An authorised edit with an object of changes, whichever way the key
      came, stores exactly the merge of the current document and the changes
      and touches no other key. The stored document has the normalised base's
      fields and the changes' fields and no others; it keeps every normalised
      field the changes do not mention, takes every field they do mention,
      and stamps `updatedAt` last. With no stored document it starts from
      `emptyDoc()`. */
  lemma EditResult(docs: map<string, Json>, req: AdminRequest, adminKey: string, now: int)
    requires req.httpMethod.Post? && Authorized(req, adminKey)
    requires req.body.op == Some("edit-course") && Present(req.body.code)
    requires req.body.changes.Some? && req.body.changes.value.Obj?
    ensures var code := req.body.code.value;
            var changes := req.body.changes.value.fields;
            var key := DocKey(code);
            var (r, docs') := Dispatch(docs, req, adminKey, now);
            var base := if key in docs && Truthy(docs[key]) then Normalize(docs[key], now) else EmptyDoc(now);
            && r == Response(200, Edited(code, Obj(changes)))
            && docs' == docs[key := Obj(Merge(Current(docs, key, now), changes, now))]
            && docs'[key].fields.Keys == base.Keys + changes.Keys
            && docs'[key].fields["updatedAt"] == Num(now as real)
            && (forall k | k in changes && k != "updatedAt" :: docs'[key].fields[k] == changes[k])
            && (forall k | k in base && k !in changes && k != "updatedAt" :: docs'[key].fields[k] == base[k])
  {
    var key := DocKey(req.body.code.value);
    if !(key in docs && Truthy(docs[key])) {
      EmptyDocKeepsShape(now);
    }
  }

  /** An authorised `show` with a code answers the stored document under
      `codes/<code>.json`, or null when there is none or it is falsy, and
      writes nothing. */
  lemma ShowReturnsStoredDoc(docs: map<string, Json>, req: AdminRequest, adminKey: string, now: int)
    requires req.httpMethod.Get? && Authorized(req, adminKey)
    requires req.query.op == Some("show") && Present(req.query.code)
    ensures var key := DocKey(req.query.code.value);
            Dispatch(docs, req, adminKey, now)
              == (Response(200, Shown(key, if key in docs && Truthy(docs[key]) then docs[key] else Null)), docs)
  {
  }

  /** A CORS preflight is acknowledged with 200 `{ok: true}` whatever key it
      carries, and writes nothing. */
  lemma OptionsAcknowledged(docs: map<string, Json>, req: AdminRequest, adminKey: string, now: int)
    requires req.httpMethod.Options?
    ensures Dispatch(docs, req, adminKey, now) == (Response(200, Ack), docs)
  {
  }

  /** Normalising a fresh `emptyDoc()` at the same clock gives it back, even
      at clock 0, where its falsy `updatedAt` is replaced by the same 0. */
  lemma EmptyDocKeepsShape(now: int)
    ensures Normalize(Obj(EmptyDoc(now)), now) == EmptyDoc(now)
  {
    var d := EmptyDoc(now);
    var r := Normalize(Obj(d), now);
    assert r.Keys == d.Keys;
    forall k | k in d ensures r[k] == d[k] {
    }
  }

  class Endpoint {
    /** The blob store's documents, by key. */
    var docs: map<string, Json>

    constructor ()
      ensures docs == map[]
    {
      docs := map[];
    }

    /** The handler, with the configured `ADMIN_KEY` and `Date.now()` given. */
    method Handle(req: AdminRequest, adminKey: string, now: int) returns (res: Response<AdminReply>)
      modifies this
      ensures (res, docs) == Dispatch(old(docs), req, adminKey, now)
    {
      if req.httpMethod.Options? {
        return Response(200, Ack);
      }
      var provided := Provided(req);
      if adminKey == "" || provided != adminKey {
        return Response(401, Error("Unauthorized"));
      }
      if req.httpMethod.Get? {
        if req.query.op == Some("show") {
          if !Present(req.query.code) {
            return Response(400, Error("Missing ?code="));
          }
          var key := DocKey(req.query.code.value);
          var data := if key in docs && Truthy(docs[key]) then docs[key] else Null;
          return Response(200, Shown(key, data));
        }
        return Response(400, Error("Unknown op"));
      }
      if req.httpMethod.Post? {
        var body := req.body;
        if body.op == Some("reset-course") {
          if !Present(body.code) {
            return Response(400, Error("Missing code"));
          }
          docs := docs[DocKey(body.code.value) := Obj(EmptyDoc(now))];
          return Response(200, ResetDone(body.code.value));
        }
        if body.op == Some("edit-course") {
          if !Present(body.code) {
            return Response(400, Error("Missing code"));
          }
          if body.changes.None? || !body.changes.value.Obj? {
            return Response(400, Error("Missing changes"));
          }
          var key := DocKey(body.code.value);
          var current := Current(docs, key, now);
          var updated := Merge(current, body.changes.value.fields, now);
          docs := docs[key := Obj(updated)];
          return Response(200, Edited(body.code.value, body.changes.value));
        }
        return Response(400, Error("Unknown op"));
      }
      return Response(405, Error("Method not allowed"));
    }
  }
}
