/**
 * The call record store: the `calls` and `call_conversations` tables of
 * lib/db/schema.ts and the status set of types/call.ts, as an abstract store.
 * `Db` is the value of the two tables; `CallDb` is the store object that the
 * route handlers update, each of its methods proved against the operation on
 * `Db` that specifies it.
 *
 * `createId()` is modelled by a counter: every id it hands out is larger
 * than every id already stored. Timestamps (`new Date()`) are a `now`
 * parameter.
 */
module CallRecords {
  import opened Options

  /** The nine statuses Twilio reports for a call. */
  datatype CallStatus = Queued | Initiated | Ringing | InProgress | Completed | Busy | Failed | NoAnswer | Canceled

  function StatusName(s: CallStatus): string {
    match s
    case Queued => "queued"
    case Initiated => "initiated"
    case Ringing => "ringing"
    case InProgress => "in-progress"
    case Completed => "completed"
    case Busy => "busy"
    case Failed => "failed"
    case NoAnswer => "no-answer"
    case Canceled => "canceled"
  }

  function ParseStatus(name: string): Option<CallStatus> {
    if name == "queued" then Some(Queued)
    else if name == "initiated" then Some(Initiated)
    else if name == "ringing" then Some(Ringing)
    else if name == "in-progress" then Some(InProgress)
    else if name == "completed" then Some(Completed)
    else if name == "busy" then Some(Busy)
    else if name == "failed" then Some(Failed)
    else if name == "no-answer" then Some(NoAnswer)
    else if name == "canceled" then Some(Canceled)
    else None
  }

  /** The status names and the status set are in one-to-one correspondence. */
  lemma StatusNameRoundTrip(s: CallStatus, name: string)
    ensures ParseStatus(StatusName(s)) == Some(s)
    ensures ParseStatus(name) == Some(s) ==> StatusName(s) == name
  {
  }

  /** Column default of `calls.direction`. */
  const DefaultDirection := "outbound"

  /** One row of `calls`. Columns the core never writes (duration, recording, agent, user) are left out. */
  datatype CallRecord = CallRecord(
    id: nat,
    twilioSid: string,
    to: Option<string>,
    from: Option<string>,
    status: string,
    direction: string,
    transcript: Option<string>,
    createdAt: nat,
    updatedAt: nat)

  /** One row of `call_conversations`: a turn of a call, never updated after insertion. */
  datatype ConversationEntry = ConversationEntry(id: nat, callSid: string, role: string, content: string, timestamp: nat)

  /** The two tables, and the next value `createId()` hands out. */
  datatype Db = Db(calls: seq<CallRecord>, callConversations: seq<ConversationEntry>, nextId: nat)

  predicate HasSid(calls: seq<CallRecord>, sid: string) {
    exists i :: 0 <= i < |calls| && calls[i].twilioSid == sid
  }

  predicate HasCallId(calls: seq<CallRecord>, id: nat) {
    exists i :: 0 <= i < |calls| && calls[i].id == id
  }

  predicate HasEntryId(entries: seq<ConversationEntry>, id: nat) {
    exists k :: 0 <= k < |entries| && entries[k].id == id
  }

  /**
   * The table constraints: `calls.id` is a primary key, `calls.twilio_sid` is
   * unique, `call_conversations.id` is a primary key and
   * `call_conversations.call_sid` references `calls.twilio_sid`; and every id
   * was handed out by `createId()` before.
   */
  ghost predicate WellFormed(db: Db) {
    && (forall i, j :: 0 <= i < j < |db.calls| ==>
          db.calls[i].twilioSid != db.calls[j].twilioSid && db.calls[i].id != db.calls[j].id)
    && (forall i :: 0 <= i < |db.calls| ==> db.calls[i].id < db.nextId)
    && (forall k :: 0 <= k < |db.callConversations| ==>
          db.callConversations[k].id < db.nextId && HasSid(db.calls, db.callConversations[k].callSid))
    && (forall k, l :: 0 <= k < l < |db.callConversations| ==>
          db.callConversations[k].id != db.callConversations[l].id)
  }

  /** `findFirst` where `twilioSid` equals `sid`. */
  function FindBySid(calls: seq<CallRecord>, sid: string): (r: Option<CallRecord>)
    ensures r.Some? <==> HasSid(calls, sid)
    ensures r.Some? ==> exists i :: 0 <= i < |calls| && calls[i] == r.value && r.value.twilioSid == sid
                                    && forall j :: 0 <= j < i ==> calls[j].twilioSid != sid
  {
    if |calls| == 0 then None
    else if calls[0].twilioSid == sid then Some(calls[0])
    else
      var r := FindBySid(calls[1..], sid);
      assert HasSid(calls, sid) ==> HasSid(calls[1..], sid) by {
        if HasSid(calls, sid) {
          var i :| 0 <= i < |calls| && calls[i].twilioSid == sid;
          assert calls[1..][i - 1].twilioSid == sid;
        }
      }
      if r.Some? then
        var i :| 0 <= i < |calls[1..]| && calls[1..][i] == r.value && r.value.twilioSid == sid
                 && forall j :: 0 <= j < i ==> calls[1..][j].twilioSid != sid;
        assert calls[i + 1] == r.value;
        r
      else r
  }

  /** With unique SIDs, the first match is the only match. */
  lemma FindBySidUnique(calls: seq<CallRecord>, sid: string, i: int)
    requires forall a, b :: 0 <= a < b < |calls| ==> calls[a].twilioSid != calls[b].twilioSid
    requires 0 <= i < |calls| && calls[i].twilioSid == sid
    ensures FindBySid(calls, sid) == Some(calls[i])
  {
    var r := FindBySid(calls, sid);
    var j :| 0 <= j < |calls| && calls[j] == r.value && r.value.twilioSid == sid
             && forall k :: 0 <= k < j ==> calls[k].twilioSid != sid;
    assert j == i;
  }

  /** `findFirst` where `id` equals `id`. */
  function FindById(calls: seq<CallRecord>, id: nat): (r: Option<CallRecord>)
    ensures r.Some? <==> HasCallId(calls, id)
    ensures r.Some? ==> r.value in calls && r.value.id == id
  {
    if |calls| == 0 then None
    else if calls[0].id == id then Some(calls[0])
    else
      assert HasCallId(calls, id) ==> HasCallId(calls[1..], id) by {
        if HasCallId(calls, id) {
          var i :| 0 <= i < |calls| && calls[i].id == id;
          assert calls[1..][i - 1].id == id;
        }
      }
      FindById(calls[1..], id)
  }

  /** `createId()`: the fresh id and the store after handing it out. */
  function TakeId(db: Db): (nat, Db) {
    (db.nextId, db.(nextId := db.nextId + 1))
  }

  /** `insert into calls`: refused when the id or the Twilio SID is already taken. */
  function InsertedCall(db: Db, row: CallRecord): (bool, Db) {
    if HasSid(db.calls, row.twilioSid) || HasCallId(db.calls, row.id) then (false, db)
    else (true, db.(calls := db.calls + [row]))
  }

  /** What an `update calls set ...` writes. Every update also sets `updatedAt`. */
  datatype Patch =
    | SetStatus(status: string)
    | SetTranscript(transcript: string)
    | SetStatusAndTranscript(newStatus: string, newTranscript: Option<string>)

  function ApplyPatch(row: CallRecord, p: Patch, now: nat): CallRecord {
    match p
    case SetStatus(s) => row.(status := s, updatedAt := now)
    case SetTranscript(t) => row.(transcript := Some(t), updatedAt := now)
    case SetStatusAndTranscript(s, t) => row.(status := s, transcript := t, updatedAt := now)
  }

  /** `update calls set ... where twilioSid = sid`: every matching row is patched, no other row changes. */
  function UpdateWhereSid(calls: seq<CallRecord>, sid: string, p: Patch, now: nat): seq<CallRecord> {
    seq(|calls|, i requires 0 <= i < |calls| => if calls[i].twilioSid == sid then ApplyPatch(calls[i], p, now) else calls[i])
  }

  /** `insert into call_conversations`: refused when the id is taken or no call has that SID. */
  function InsertedEntry(db: Db, e: ConversationEntry): (bool, Db) {
    if !HasSid(db.calls, e.callSid) || HasEntryId(db.callConversations, e.id) then (false, db)
    else (true, db.(callConversations := db.callConversations + [e]))
  }

  // ---------------------------------------------------------------------------
  // The constraints are kept by every operation

  lemma TakeIdKeepsWellFormed(db: Db)
    requires WellFormed(db)
    ensures WellFormed(TakeId(db).1)
    ensures TakeId(db).1.calls == db.calls && TakeId(db).1.callConversations == db.callConversations
  {
  }

  lemma InsertCallKeepsWellFormed(db: Db, row: CallRecord)
    requires WellFormed(db) && row.id < db.nextId
    ensures WellFormed(InsertedCall(db, row).1)
  {
    var (ok, db') := InsertedCall(db, row);
    if ok {
      forall k | 0 <= k < |db'.callConversations|
        ensures HasSid(db'.calls, db'.callConversations[k].callSid)
      {
        var i :| 0 <= i < |db.calls| && db.calls[i].twilioSid == db.callConversations[k].callSid;
        assert db'.calls[i] == db.calls[i];
      }
    }
  }

  lemma UpdateWhereSidKeepsKeys(calls: seq<CallRecord>, sid: string, p: Patch, now: nat)
    ensures |UpdateWhereSid(calls, sid, p, now)| == |calls|
    ensures forall i :: 0 <= i < |calls| ==>
      UpdateWhereSid(calls, sid, p, now)[i].id == calls[i].id
      && UpdateWhereSid(calls, sid, p, now)[i].twilioSid == calls[i].twilioSid
  {
  }

  /** An update whose patch leaves every matching row as it is changes nothing. */
  lemma UpdateWhereSidNoop(calls: seq<CallRecord>, sid: string, p: Patch, now: nat)
    requires forall i :: 0 <= i < |calls| && calls[i].twilioSid == sid ==> ApplyPatch(calls[i], p, now) == calls[i]
    ensures UpdateWhereSid(calls, sid, p, now) == calls
  {
  }

  /** With unique SIDs, the row an update patched is the one found by its SID afterwards. */
  lemma UpdatedRowIsFound(calls: seq<CallRecord>, sid: string, p: Patch, now: nat)
    requires forall a, b :: 0 <= a < b < |calls| ==> calls[a].twilioSid != calls[b].twilioSid
    requires HasSid(calls, sid)
    ensures |UpdateWhereSid(calls, sid, p, now)| == |calls|
    ensures FindBySid(UpdateWhereSid(calls, sid, p, now), sid) == Some(ApplyPatch(FindBySid(calls, sid).value, p, now))
    ensures forall i :: 0 <= i < |calls| && calls[i].twilioSid != sid ==> UpdateWhereSid(calls, sid, p, now)[i] == calls[i]
  {
    var calls' := UpdateWhereSid(calls, sid, p, now);
    UpdateWhereSidKeepsKeys(calls, sid, p, now);
    var i :| 0 <= i < |calls| && calls[i].twilioSid == sid;
    FindBySidUnique(calls, sid, i);
    assert calls'[i] == ApplyPatch(calls[i], p, now);
    FindBySidUnique(calls', sid, i);
  }

  lemma UpdateKeepsWellFormed(db: Db, sid: string, p: Patch, now: nat)
    requires WellFormed(db)
    ensures WellFormed(db.(calls := UpdateWhereSid(db.calls, sid, p, now)))
  {
    var calls' := UpdateWhereSid(db.calls, sid, p, now);
    UpdateWhereSidKeepsKeys(db.calls, sid, p, now);
    forall k | 0 <= k < |db.callConversations|
      ensures HasSid(calls', db.callConversations[k].callSid)
    {
      var i :| 0 <= i < |db.calls| && db.calls[i].twilioSid == db.callConversations[k].callSid;
      assert calls'[i].twilioSid == db.calls[i].twilioSid;
    }
  }

  lemma InsertEntryKeepsWellFormed(db: Db, e: ConversationEntry)
    requires WellFormed(db) && e.id < db.nextId
    ensures WellFormed(InsertedEntry(db, e).1)
  {
  }

  /** A fresh id from `createId()` never collides with a stored one. */
  lemma FreshIdIsFree(db: Db)
    requires WellFormed(db)
    ensures !HasCallId(db.calls, db.nextId) && !HasEntryId(db.callConversations, db.nextId)
  {
  }

  // ---------------------------------------------------------------------------
  // The store object

  class CallDb {
    var calls: seq<CallRecord>
    var callConversations: seq<ConversationEntry>
    var nextId: nat

    function Value(): Db
      reads this
    {
      Db(calls, callConversations, nextId)
    }

    ghost predicate Valid()
      reads this
    {
      WellFormed(Value())
    }

    constructor ()
      ensures Valid() && Value() == Db([], [], 0)
    {
      calls, callConversations, nextId := [], [], 0;
    }

    method CreateId() returns (id: nat)
      modifies this
      ensures (id, Value()) == TakeId(old(Value()))
    {
      id := nextId;
      nextId := nextId + 1;
    }

    method InsertCall(row: CallRecord) returns (ok: bool)
      modifies this
      ensures (ok, Value()) == InsertedCall(old(Value()), row)
    {
      ok := !HasSid(calls, row.twilioSid) && !HasCallId(calls, row.id);
      if ok {
        calls := calls + [row];
      }
    }

    method UpdateWhere(sid: string, p: Patch, now: nat)
      modifies this
      ensures Value() == old(Value()).(calls := UpdateWhereSid(old(calls), sid, p, now))
    {
      calls := UpdateWhereSid(calls, sid, p, now);
    }

    method InsertConversation(e: ConversationEntry) returns (ok: bool)
      modifies this
      ensures (ok, Value()) == InsertedEntry(old(Value()), e)
    {
      ok := HasSid(calls, e.callSid) && !HasEntryId(callConversations, e.id);
      if ok {
        callConversations := callConversations + [e];
      }
    }
  }
}
