/**
 * The calls REST route of app/api/calls/route.ts: `GET` one call by id (with
 * fresh details from Twilio when it can get them) or a page of calls newest
 * first, `POST` a new outbound call, and `PUT` a status or transcript change
 * keyed by the Twilio SID.
 *
 * Each handler is a method over the record store, proved to answer and to
 * leave the store exactly as the matching `...Result` function says; the
 * route's promises are lemmas about those functions. The Twilio REST calls
 * are oracles: `None` stands for the call throwing. Query parameters and
 * body fields arrive already parsed; an absent or empty one is `None` or "".
 */
module CallsApi {
  import opened Options
  import opened CallRecords

  /** The details `getCallDetails` returns for a SID (dates left out). */
  datatype TwilioDetails = TwilioDetails(sid: string, to: string, from: string, status: string, direction: string, duration: int)

  /** What `initiateCall` reports of the call Twilio created. */
  datatype CreatedCall = CreatedCall(sid: string, status: string, direction: string)

  datatype Body =
    | Record(call: CallRecord)
    | RecordWithDetails(call: CallRecord, twilioDetails: TwilioDetails)
    | Records(calls: seq<CallRecord>)
    | Error(error: string)

  datatype JsonResponse = JsonResponse(status: nat, body: Body)

  const NotFound := "Appel non trouvé"
  const ServerError := "Erreur serveur"
  const MissingCallParams := "Les paramètres to, from et callbackUrl sont requis"
  const MissingCallSid := "CallSid est requis"

  const DefaultPage := 1
  const DefaultLimit := 10

  // ---------------------------------------------------------------------------
  // Listing: newest first, one page at a time

  predicate NewestFirst(xs: seq<CallRecord>) {
    forall i, j :: 0 <= i < j < |xs| ==> xs[i].createdAt >= xs[j].createdAt
  }

  /** Puts `x` in front of the first record that is not newer than it. */
  function InsertByDate(x: CallRecord, xs: seq<CallRecord>): (r: seq<CallRecord>)
    requires NewestFirst(xs)
    ensures NewestFirst(r)
    ensures multiset(r) == multiset(xs) + multiset{x}
  {
    if |xs| == 0 || x.createdAt >= xs[0].createdAt then [x] + xs
    else
      var rest := InsertByDate(x, xs[1..]);
      assert xs == [xs[0]] + xs[1..];
      NotNewerThanHead(x, xs, rest);
      [xs[0]] + rest
  }

  /** Every record of a permutation of `xs[1..]` plus an older `x` is no newer than `xs[0]`. */
  lemma NotNewerThanHead(x: CallRecord, xs: seq<CallRecord>, rest: seq<CallRecord>)
    requires NewestFirst(xs) && |xs| > 0 && x.createdAt < xs[0].createdAt
    requires NewestFirst(rest) && multiset(rest) == multiset(xs[1..]) + multiset{x}
    ensures NewestFirst([xs[0]] + rest)
  {
    forall j | 0 <= j < |rest| ensures xs[0].createdAt >= rest[j].createdAt {
      assert rest[j] in multiset(rest);
      if rest[j] != x {
        assert rest[j] in multiset(xs[1..]);
        var k :| 0 <= k < |xs[1..]| && xs[1..][k] == rest[j];
        assert xs[k + 1] == rest[j];
      }
    }
    var r := [xs[0]] + rest;
    forall i, j | 0 <= i < j < |r| ensures r[i].createdAt >= r[j].createdAt {
      if i == 0 {
        assert r[j] == rest[j - 1];
      } else {
        assert r[i] == rest[i - 1] && r[j] == rest[j - 1];
      }
    }
  }

  /** `orderBy desc(createdAt)`: the stored calls, newest first. */
  function SortNewestFirst(xs: seq<CallRecord>): (r: seq<CallRecord>)
    ensures NewestFirst(r)
    ensures multiset(r) == multiset(xs)
  {
    if |xs| == 0 then []
    else
      assert xs == [xs[0]] + xs[1..];
      InsertByDate(xs[0], SortNewestFirst(xs[1..]))
  }

  /** `LIMIT limit OFFSET offset`. */
  function Window<T>(xs: seq<T>, offset: nat, limit: nat): seq<T> {
    if offset >= |xs| then []
    else if offset + limit >= |xs| then xs[offset..]
    else xs[offset..offset + limit]
  }

  /** The rows `LIMIT limit OFFSET offset` selects are the ones at positions `offset` up to `offset + limit`. */
  lemma WindowIsSlice<T>(xs: seq<T>, offset: nat, limit: nat)
    ensures var lo := if offset < |xs| then offset else |xs|;
            var hi := if offset + limit < |xs| then offset + limit else |xs|;
            Window(xs, offset, limit) == xs[lo..hi]
    ensures |Window(xs, offset, limit)| <= limit
  {
  }

  /** A window holds rows of the table only, each as often as the table does at most, in the table's order. */
  lemma WindowOfNewestFirst(xs: seq<CallRecord>, offset: nat, limit: nat)
    ensures multiset(Window(xs, offset, limit)) <= multiset(xs)
    ensures NewestFirst(xs) ==> NewestFirst(Window(xs, offset, limit))
  {
    WindowIsSlice(xs, offset, limit);
    var lo := if offset < |xs| then offset else |xs|;
    var hi := if offset + limit < |xs| then offset + limit else |xs|;
    assert xs == xs[..lo] + xs[lo..hi] + xs[hi..];
    assert multiset(xs) == multiset(xs[..lo]) + multiset(xs[lo..hi]) + multiset(xs[hi..]);
  }

  /** The page `page` of `limit` rows (page 1 is the first). */
  function Page<T>(xs: seq<T>, page: nat, limit: nat): seq<T>
    requires page >= 1
  {
    Window(xs, (page - 1) * limit, limit)
  }

  function Pages<T>(xs: seq<T>, n: nat, limit: nat): seq<T> {
    if n == 0 then [] else Pages(xs, n - 1, limit) + Page(xs, n, limit)
  }

  /** Pages 1..n read one after the other give the first n·limit rows: no row is skipped or repeated. */
  lemma {:induction false} PagesTile<T>(xs: seq<T>, n: nat, limit: nat)
    ensures Pages(xs, n, limit) == xs[..if n * limit < |xs| then n * limit else |xs|]
  {
    if n > 0 {
      PagesTile(xs, n - 1, limit);
      WindowIsSlice(xs, (n - 1) * limit, limit);
      assert (n - 1) * limit + limit == n * limit;
      var lo := if (n - 1) * limit < |xs| then (n - 1) * limit else |xs|;
      var hi := if n * limit < |xs| then n * limit else |xs|;
      assert xs[..lo] + xs[lo..hi] == xs[..hi];
    }
  }

  // ---------------------------------------------------------------------------
  // GET

  datatype GetQuery = GetQuery(id: Option<nat>, page: Option<int>, limit: Option<int>)

  /** The page and limit a listing asks for, defaults filled in. */
  function PageOf(q: GetQuery): int { q.page.GetOr(DefaultPage) }
  function LimitOf(q: GetQuery): int { q.limit.GetOr(DefaultLimit) }

  /** The offset `(page - 1) * limit` a listing asks for. */
  function OffsetOf(q: GetQuery): int { (PageOf(q) - 1) * LimitOf(q) }

  /**
   * The rows `findMany({ limit, offset })` selects from `xs`. The query
   * builder writes `LIMIT` only for a limit that is not negative (and
   * `OFFSET` only for a non-zero offset, which selects the same rows as
   * `OFFSET 0`), so a negative limit selects every row from the offset on.
   */
  function Selected<T>(xs: seq<T>, offset: nat, limit: int): seq<T> {
    if limit < 0 then Window(xs, offset, |xs|) else Window(xs, offset, limit)
  }

  /**
   * The answer to `GET`: 404 exactly for an id no call has, 500 exactly for
   * a listing whose offset is negative (the database refuses it and the
   * handler's catch answers), 200 otherwise.
   */
  function GetResult(db: Db, q: GetQuery, getCallDetails: string -> Option<TwilioDetails>): (r: JsonResponse)
    ensures r.status == 404 <==> q.id.Some? && !HasCallId(db.calls, q.id.value)
    ensures r.status == 500 <==> q.id.None? && OffsetOf(q) < 0
    ensures r.status == 200 || r.status == 404 || r.status == 500
    ensures r.status == 404 ==> r.body == Error(NotFound)
    ensures r.status == 500 ==> r.body == Error(ServerError)
  {
    if q.id.Some? then
      var found := FindById(db.calls, q.id.value);
      if found.None? then JsonResponse(404, Error(NotFound))
      else if found.value.twilioSid != "" && getCallDetails(found.value.twilioSid).Some? then
        JsonResponse(200, RecordWithDetails(found.value, getCallDetails(found.value.twilioSid).value))
      else JsonResponse(200, Record(found.value))
    else
      var offset := OffsetOf(q);
      if offset < 0 then JsonResponse(500, Error(ServerError))
      else JsonResponse(200, Records(Selected(SortNewestFirst(db.calls), offset, LimitOf(q))))
  }

  method Get(store: CallDb, q: GetQuery, getCallDetails: string -> Option<TwilioDetails>) returns (response: JsonResponse)
    ensures response == GetResult(store.Value(), q, getCallDetails)
  {
    if q.id.Some? {
      var call := FindById(store.calls, q.id.value);
      if call.None? {
        return JsonResponse(404, Error(NotFound));
      }
      if call.value.twilioSid != "" {
        var twilioDetails := getCallDetails(call.value.twilioSid);
        if twilioDetails.Some? {
          return JsonResponse(200, RecordWithDetails(call.value, twilioDetails.value));
        }
      }
      return JsonResponse(200, Record(call.value));
    }
    var page := q.page.GetOr(DefaultPage);
    var limit := q.limit.GetOr(DefaultLimit);
    var offset := (page - 1) * limit;
    if offset < 0 {
      // the database refuses a negative OFFSET; the handler's catch answers 500
      return JsonResponse(500, Error(ServerError));
    }
    var allCalls := Selected(SortNewestFirst(store.calls), offset, limit);
    response := JsonResponse(200, Records(allCalls));
  }

  /**
   * A lookup by a known id answers 200 with the stored record, merged with
   * Twilio's details when the SID is set and Twilio answers, and unchanged
   * otherwise.
   */
  lemma GetKnownIdAnswersRecord(db: Db, q: GetQuery, getCallDetails: string -> Option<TwilioDetails>)
    requires q.id.Some? && HasCallId(db.calls, q.id.value)
    ensures var r := GetResult(db, q, getCallDetails);
      && r.status == 200
      && (r.body.Record? || r.body.RecordWithDetails?)
      && r.body.call in db.calls && r.body.call.id == q.id.value
      && (r.body.RecordWithDetails? <==> r.body.call.twilioSid != "" && getCallDetails(r.body.call.twilioSid).Some?)
  {
  }


  /** A page of the calls ordered newest first holds at most `limit` stored calls, still newest first. */
  lemma PageOfNewestFirst(calls: seq<CallRecord>, page: nat, limit: nat)
    requires page >= 1
    ensures var p := Page(SortNewestFirst(calls), page, limit);
      |p| <= limit && NewestFirst(p) && multiset(p) <= multiset(calls)
  {
    WindowIsSlice(SortNewestFirst(calls), (page - 1) * limit, limit);
    WindowOfNewestFirst(SortNewestFirst(calls), (page - 1) * limit, limit);
  }

  lemma ListAnswersPage(db: Db, q: GetQuery, getCallDetails: string -> Option<TwilioDetails>)
    requires q.id.None? && LimitOf(q) >= 0 && PageOf(q) >= 1
    ensures GetResult(db, q, getCallDetails) == JsonResponse(200, Records(Page(SortNewestFirst(db.calls), PageOf(q), LimitOf(q))))
  {
    var sorted := SortNewestFirst(db.calls);
    var page, limit := PageOf(q), LimitOf(q);
    NonNegativeProduct(page - 1, limit);
    assert GetResult(db, q, getCallDetails) == JsonResponse(200, Records(Window(sorted, (page - 1) * limit, limit)));
    PageIsWindow(sorted, page, limit);
  }

  lemma PageIsWindow<T>(xs: seq<T>, page: nat, limit: nat)
    requires page >= 1
    ensures Page(xs, page, limit) == Window(xs, (page - 1) * limit, limit)
  {
  }

  lemma NonNegativeProduct(a: int, b: int)
    requires a >= 0 && b >= 0
    ensures a * b >= 0
  {
  }

  /**
   * A listing with parameters the database accepts answers at most `limit`
   * stored calls, newest first: the calls at positions `offset` up to
   * `offset + limit` of the whole table ordered newest first.
   */
  lemma ListIsPageOfNewestFirst(db: Db, q: GetQuery, getCallDetails: string -> Option<TwilioDetails>)
    requires q.id.None? && LimitOf(q) >= 0 && PageOf(q) >= 1
    ensures var r := GetResult(db, q, getCallDetails);
      && r.status == 200 && r.body.Records?
      && |r.body.calls| <= LimitOf(q)
      && NewestFirst(r.body.calls)
      && multiset(r.body.calls) <= multiset(db.calls)
      && r.body.calls == Page(SortNewestFirst(db.calls), PageOf(q), LimitOf(q))
  {
    ListAnswersPage(db, q, getCallDetails);
    PageOfNewestFirst(db.calls, PageOf(q), LimitOf(q));
  }

  /** Without parameters the listing is the ten newest calls. */
  lemma ListDefaultsToTenNewest(db: Db, getCallDetails: string -> Option<TwilioDetails>)
    ensures GetResult(db, GetQuery(None, None, None), getCallDetails)
            == JsonResponse(200, Records(Window(SortNewestFirst(db.calls), 0, 10)))
  {
  }

  /**
   * A negative limit is not written into the query: a listing with one and
   * an offset that is not negative answers every call from the offset on,
   * newest first.
   */
  lemma ListWithoutLimit(db: Db, q: GetQuery, getCallDetails: string -> Option<TwilioDetails>)
    requires q.id.None? && LimitOf(q) < 0 && PageOf(q) <= 1
    ensures var sorted := SortNewestFirst(db.calls);
      var offset := OffsetOf(q);
      GetResult(db, q, getCallDetails) == JsonResponse(200, Records(if offset < |sorted| then sorted[offset..] else []))
  {
    NonPositiveProduct(PageOf(q) - 1, LimitOf(q));
    var offset: nat := OffsetOf(q);
    ListAnswersSelected(db, q, getCallDetails, offset);
    SelectedWithoutLimit(SortNewestFirst(db.calls), offset, LimitOf(q));
  }

  /** So `?limit=-1` on the first page answers every stored call, newest first. */
  lemma FirstPageWithoutLimitListsAll(db: Db, q: GetQuery, getCallDetails: string -> Option<TwilioDetails>)
    requires q.id.None? && LimitOf(q) < 0 && PageOf(q) == 1
    ensures GetResult(db, q, getCallDetails) == JsonResponse(200, Records(SortNewestFirst(db.calls)))
  {
    var sorted := SortNewestFirst(db.calls);
    ListAnswersSelected(db, q, getCallDetails, 0);
    SelectedWithoutLimit(sorted, 0, LimitOf(q));
    assert sorted[0..] == sorted;
  }

  /** A listing whose offset is not negative answers the rows the query selects. */
  lemma ListAnswersSelected(db: Db, q: GetQuery, getCallDetails: string -> Option<TwilioDetails>, offset: nat)
    requires q.id.None? && offset == OffsetOf(q)
    ensures GetResult(db, q, getCallDetails) == JsonResponse(200, Records(Selected(SortNewestFirst(db.calls), offset, LimitOf(q))))
  {
  }

  lemma SelectedWithoutLimit<T>(xs: seq<T>, offset: nat, limit: int)
    requires limit < 0
    ensures Selected(xs, offset, limit) == if offset < |xs| then xs[offset..] else []
  {
  }

  lemma NonPositiveProduct(a: int, b: int)
    requires a <= 0 && b < 0
    ensures a * b >= 0
  {
  }

  // ---------------------------------------------------------------------------
  // POST

  datatype NewCallBody = NewCallBody(to: string, from: string, callbackUrl: string)

  /**
   * The store after `POST` and the answer: 400 exactly when a parameter is
   * missing, 201 with the one row appended, or 500 with no row written;
   * conversation entries are never touched.
   */
  function PostResult(db: Db, body: NewCallBody, initiateCall: (string, string, string) -> Option<CreatedCall>, now: nat)
    : (r: (Db, JsonResponse))
    ensures r.1.status == 400 <==> body.to == "" || body.from == "" || body.callbackUrl == ""
    ensures r.1.status == 201 || r.1.status == 400 || r.1.status == 500
    ensures r.1.status == 201 ==> r.1.body.Record? && r.0.calls == db.calls + [r.1.body.call]
    ensures r.1.status != 201 ==> r.0.calls == db.calls
    ensures r.0.callConversations == db.callConversations
  {
    if body.to == "" || body.from == "" || body.callbackUrl == "" then
      (db, JsonResponse(400, Error(MissingCallParams)))
    else
      var created := initiateCall(body.to, body.from, body.callbackUrl);
      if created.None? then (db, JsonResponse(500, Error(ServerError)))
      else
        var (id, db1) := TakeId(db);
        var row := CallRecord(id, created.value.sid, Some(body.to), Some(body.from),
                              created.value.status, created.value.direction, None, now, now);
        var (inserted, db2) := InsertedCall(db1, row);
        if inserted then (db2, JsonResponse(201, Record(row)))
        else (db2, JsonResponse(500, Error(ServerError)))
  }

  method Post(store: CallDb, body: NewCallBody, initiateCall: (string, string, string) -> Option<CreatedCall>, now: nat)
    returns (response: JsonResponse)
    modifies store
    ensures (store.Value(), response) == PostResult(old(store.Value()), body, initiateCall, now)
  {
    if body.to == "" || body.from == "" || body.callbackUrl == "" {
      return JsonResponse(400, Error(MissingCallParams));
    }
    var twilioCall := initiateCall(body.to, body.from, body.callbackUrl);
    if twilioCall.None? {
      return JsonResponse(500, Error(ServerError));
    }
    var id := store.CreateId();
    var newCall := CallRecord(id, twilioCall.value.sid, Some(body.to), Some(body.from),
                              twilioCall.value.status, twilioCall.value.direction, None, now, now);
    var inserted := store.InsertCall(newCall);
    if inserted {
      response := JsonResponse(201, Record(newCall));
    } else {
      // the unique SID constraint refuses the row; the handler's catch answers 500
      response := JsonResponse(500, Error(ServerError));
    }
  }

  /**
   * A body missing `to`, `from` or `callbackUrl` is answered 400 before
   * anything happens: the store is unchanged and Twilio is not called (the
   * outcome is the same whatever Twilio would have done).
   */
  lemma PostValidatesFirst(db: Db, body: NewCallBody, i1: (string, string, string) -> Option<CreatedCall>,
                           i2: (string, string, string) -> Option<CreatedCall>, now: nat)
    ensures (PostResult(db, body, i1, now).1.status == 400) <==> (body.to == "" || body.from == "" || body.callbackUrl == "")
    ensures body.to == "" || body.from == "" || body.callbackUrl == "" ==>
      PostResult(db, body, i1, now) == PostResult(db, body, i2, now) == (db, JsonResponse(400, Error(MissingCallParams)))
  {
  }

  /**
   * A valid body whose call Twilio creates under a new SID is stored as one
   * new row holding the requested numbers and Twilio's SID, status and
   * direction, and answered 201 with that row.
   */
  lemma PostStoresCall(db: Db, body: NewCallBody, initiateCall: (string, string, string) -> Option<CreatedCall>, now: nat)
    requires WellFormed(db)
    requires body.to != "" && body.from != "" && body.callbackUrl != ""
    requires initiateCall(body.to, body.from, body.callbackUrl).Some?
    requires !HasSid(db.calls, initiateCall(body.to, body.from, body.callbackUrl).value.sid)
    ensures var c := initiateCall(body.to, body.from, body.callbackUrl).value;
      var row := CallRecord(db.nextId, c.sid, Some(body.to), Some(body.from), c.status, c.direction, None, now, now);
      var (db', r) := PostResult(db, body, initiateCall, now);
      && r == JsonResponse(201, Record(row))
      && db'.calls == db.calls + [row]
      && db'.callConversations == db.callConversations
      && WellFormed(db')
  {
    FreshIdIsFree(db);
    var c := initiateCall(body.to, body.from, body.callbackUrl).value;
    var row := CallRecord(db.nextId, c.sid, Some(body.to), Some(body.from), c.status, c.direction, None, now, now);
    InsertCallKeepsWellFormed(TakeId(db).1, row);
  }

  /** Whatever happens, `POST` keeps the table constraints and never touches stored rows. */
  lemma PostKeepsWellFormed(db: Db, body: NewCallBody, initiateCall: (string, string, string) -> Option<CreatedCall>, now: nat)
    requires WellFormed(db)
    ensures var db' := PostResult(db, body, initiateCall, now).0;
      WellFormed(db') && db'.calls[..|db.calls|] == db.calls && db'.callConversations == db.callConversations
  {
    var c := initiateCall(body.to, body.from, body.callbackUrl);
    if body.to != "" && body.from != "" && body.callbackUrl != "" && c.Some? {
      var row := CallRecord(db.nextId, c.value.sid, Some(body.to), Some(body.from), c.value.status, c.value.direction, None, now, now);
      InsertCallKeepsWellFormed(TakeId(db).1, row);
    }
  }

  // ---------------------------------------------------------------------------
  // PUT

  datatype UpdateBody = UpdateBody(callSid: string, status: string, transcript: string)

  /** `status || existing.status`, `transcript || existing.transcript`. */
  function MergePatch(existing: CallRecord, body: UpdateBody): Patch {
    SetStatusAndTranscript(if body.status != "" then body.status else existing.status,
                           if body.transcript != "" then Some(body.transcript) else existing.transcript)
  }

  /**
   * The store after `PUT` and the answer: 400 exactly without a SID, 404
   * exactly for a SID no call has, and then nothing is written; otherwise
   * 200 with the updated row under that SID. Only call rows change.
   */
  function PutResult(db: Db, body: UpdateBody, now: nat): (r: (Db, JsonResponse))
    ensures r.1.status == 400 <==> body.callSid == ""
    ensures r.1.status == 404 <==> body.callSid != "" && !HasSid(db.calls, body.callSid)
    ensures r.1.status == 200 || r.1.status == 400 || r.1.status == 404
    ensures r.1.status != 200 ==> r.0 == db
    ensures r.1.status == 200 ==> r.1.body.Record? && r.1.body.call.twilioSid == body.callSid
    ensures r.0.callConversations == db.callConversations && r.0.nextId == db.nextId
  {
    if body.callSid == "" then (db, JsonResponse(400, Error(MissingCallSid)))
    else
      var existing := FindBySid(db.calls, body.callSid);
      if existing.None? then (db, JsonResponse(404, Error(NotFound)))
      else
        var patch := MergePatch(existing.value, body);
        // `returning()` gives the updated rows in table order; the first is the first match, patched
        (db.(calls := UpdateWhereSid(db.calls, body.callSid, patch, now)),
         JsonResponse(200, Record(ApplyPatch(existing.value, patch, now))))
  }

  method Put(store: CallDb, body: UpdateBody, now: nat) returns (response: JsonResponse)
    modifies store
    ensures (store.Value(), response) == PutResult(old(store.Value()), body, now)
  {
    if body.callSid == "" {
      return JsonResponse(400, Error(MissingCallSid));
    }
    var existingCall := FindBySid(store.calls, body.callSid);
    if existingCall.None? {
      return JsonResponse(404, Error(NotFound));
    }
    var patch := MergePatch(existingCall.value, body);
    store.UpdateWhere(body.callSid, patch, now);
    var updatedCall := ApplyPatch(existingCall.value, patch, now);
    response := JsonResponse(200, Record(updatedCall));
  }

  /** `PUT` without a SID is answered 400, and for an unknown SID 404; neither writes anything. */
  lemma PutRejects(db: Db, body: UpdateBody, now: nat)
    ensures body.callSid == "" ==> PutResult(db, body, now) == (db, JsonResponse(400, Error(MissingCallSid)))
    ensures body.callSid != "" && !HasSid(db.calls, body.callSid) ==>
              PutResult(db, body, now) == (db, JsonResponse(404, Error(NotFound)))
    ensures body.callSid != "" && HasSid(db.calls, body.callSid) ==> PutResult(db, body, now).1.status == 200
  {
  }

  /**
   * `PUT` for a known SID answers with that call's row, its status and
   * transcript overwritten by the non-empty values given and kept otherwise.
   */
  lemma PutAnswersMergedRow(db: Db, body: UpdateBody, now: nat)
    requires body.callSid != "" && HasSid(db.calls, body.callSid)
    ensures var r := PutResult(db, body, now).1;
      var old_ := FindBySid(db.calls, body.callSid).value;
      && r.status == 200 && r.body.Record?
      && r.body.call.id == old_.id && r.body.call.twilioSid == body.callSid
      && r.body.call.status == (if body.status != "" then body.status else old_.status)
      && r.body.call.transcript == (if body.transcript != "" then Some(body.transcript) else old_.transcript)
      && r.body.call.to == old_.to && r.body.call.from == old_.from && r.body.call.direction == old_.direction
      && r.body.call.createdAt == old_.createdAt && r.body.call.updatedAt == now
  {
  }

  /** `PUT` for a known SID stores the row it answers with in place of that call's row, and changes nothing else. */
  lemma PutChangesOnlyThatRow(db: Db, body: UpdateBody, now: nat)
    requires WellFormed(db) && body.callSid != "" && HasSid(db.calls, body.callSid)
    ensures var (db', r) := PutResult(db, body, now);
      && WellFormed(db')
      && |db'.calls| == |db.calls|
      && (forall i :: 0 <= i < |db.calls| ==>
            db'.calls[i] == if db.calls[i].twilioSid == body.callSid then r.body.call else db.calls[i])
      && db'.callConversations == db.callConversations
  {
    var old_ := FindBySid(db.calls, body.callSid).value;
    var p := MergePatch(old_, body);
    UpdateKeepsWellFormed(db, body.callSid, p, now);
    forall i | 0 <= i < |db.calls| && db.calls[i].twilioSid == body.callSid
      ensures db.calls[i] == old_
    {
      FindBySidUnique(db.calls, body.callSid, i);
    }
  }

  /** Merging the same body into a row that already holds its result changes nothing. */
  lemma MergeIsStable(row: CallRecord, body: UpdateBody, now: nat)
    requires body.status != "" ==> row.status == body.status
    requires body.transcript != "" ==> row.transcript == Some(body.transcript)
    requires row.updatedAt == now
    ensures ApplyPatch(row, MergePatch(row, body), now) == row
  {
  }

  /** Sending the same `PUT` twice at the same time leaves the store as once. */
  lemma PutIsIdempotent(db: Db, body: UpdateBody, now: nat)
    requires WellFormed(db)
    ensures PutResult(PutResult(db, body, now).0, body, now) == PutResult(db, body, now)
  {
    var sid := body.callSid;
    if sid != "" && HasSid(db.calls, sid) {
      PutAnswersMergedRow(db, body, now);
      PutChangesOnlyThatRow(db, body, now);
      var (db1, r) := PutResult(db, body, now);
      var row := r.body.call;
      MergeIsStable(row, body, now);
      var i :| 0 <= i < |db.calls| && db.calls[i].twilioSid == sid;
      assert db1.calls[i] == row;
      FindBySidUnique(db1.calls, sid, i);
      RepeatedPutIsNoop(db1, body, row, now);
    }
  }

  /** A `PUT` that finds a row already holding its merge leaves the store alone and answers that row. */
  lemma RepeatedPutIsNoop(db: Db, body: UpdateBody, row: CallRecord, now: nat)
    requires WellFormed(db) && body.callSid != ""
    requires FindBySid(db.calls, body.callSid) == Some(row)
    requires ApplyPatch(row, MergePatch(row, body), now) == row
    ensures PutResult(db, body, now) == (db, JsonResponse(200, Record(row)))
  {
    var sid := body.callSid;
    forall i | 0 <= i < |db.calls| && db.calls[i].twilioSid == sid
      ensures ApplyPatch(db.calls[i], MergePatch(row, body), now) == db.calls[i]
    {
      FindBySidUnique(db.calls, sid, i);
    }
    UpdateWhereSidNoop(db.calls, sid, MergePatch(row, body), now);
  }
}
