/**
 * The bot's two scheduled jobs: the hourly overdue-stream sweep and the
 * daily reminder sweep. The stream store is the `DatabaseManager` table
 * model; the hosted reminder table is a `ReminderTable` object. Whether the
 * client is ready is a parameter; whether a query, a store write or a direct
 * message succeeds is chosen nondeterministically, so every contract below
 * holds whichever of them fail.
 */
module Sweeps {
  import opened Wrappers
  import opened Ordering
  import opened Query
  import opened DesktopRecords
  import opened DesktopDatabase

  // ---------------------------------------------------------------------
  // The overdue query and repeated completion

  /** The overdue query: status `'active'` and a due date at or before `now` (timestamps as text). */
  predicate Overdue(x: StreamRecord, now: string) {
    x.status == Some("active") && LexLe(x.dueDate, now)
  }

  /** The overdue query's `WHERE` test. */
  function OverdueTest(now: string): StreamRecord -> bool {
    x => Overdue(x, now)
  }

  /**
   * The rows the overdue query returns: each overdue row as often as it is
   * stored and nothing else, in table order (`Query.WhereAppend`).
   */
  function OverdueOf(rows: seq<StreamRecord>, now: string): (r: seq<StreamRecord>)
    ensures |r| <= |rows|
    ensures forall x :: x in r <==> x in rows && Overdue(x, now)
    ensures forall x :: multiset(r)[x] == if Overdue(x, now) then multiset(rows)[x] else 0
  {
    WhereLength(rows, OverdueTest(now));
    Where(rows, OverdueTest(now))
  }

  /** Completing the rows with the ids `ids`, one id after another, all stamped `stamp`. */
  function CompleteAll(rows: seq<StreamRecord>, ids: seq<int>, stamp: string): (r: seq<StreamRecord>)
    ensures |r| == |rows|
  {
    if ids == [] then rows
    else CompleteRows(CompleteAll(rows, ids[..|ids| - 1], stamp), ids[|ids| - 1], stamp)
  }

  /** Each row is completed once if its id is among `ids`, and is otherwise untouched. */
  lemma {:induction false} CompleteAllAt(rows: seq<StreamRecord>, ids: seq<int>, stamp: string)
    ensures forall k :: 0 <= k < |rows| ==>
      CompleteAll(rows, ids, stamp)[k] == if rows[k].id in ids then CompleteRow(rows[k], stamp) else rows[k]
  {
    if ids != [] {
      var front := ids[..|ids| - 1];
      CompleteAllAt(rows, front, stamp);
      assert ids == front + [ids[|ids| - 1]];
      forall k | 0 <= k < |rows|
        ensures CompleteAll(rows, ids, stamp)[k] == if rows[k].id in ids then CompleteRow(rows[k], stamp) else rows[k]
      {
        assert rows[k].id in ids <==> rows[k].id in front || rows[k].id == ids[|ids| - 1];
      }
    }
  }

  /** The sweep writes `'completed'` or nothing: no status becomes `'overdue'` or anything else. */
  lemma CompleteAllStatuses(rows: seq<StreamRecord>, ids: seq<int>, stamp: string)
    ensures forall k :: 0 <= k < |rows| ==>
      CompleteAll(rows, ids, stamp)[k].id == rows[k].id &&
      (CompleteAll(rows, ids, stamp)[k].status == rows[k].status ||
       CompleteAll(rows, ids, stamp)[k].status == Some("completed"))
    ensures forall k :: 0 <= k < |rows| && CompleteAll(rows, ids, stamp)[k].status == Some("overdue") ==>
      rows[k].status == Some("overdue")
  {
    CompleteAllAt(rows, ids, stamp);
  }

  /** Once every overdue row's id has been completed, no row is overdue. */
  lemma NoneLeftOverdue(rows: seq<StreamRecord>, ids: seq<int>, now: string, stamp: string)
    requires forall x :: x in rows && Overdue(x, now) ==> x.id in ids
    ensures forall k :: 0 <= k < |rows| ==> !Overdue(CompleteAll(rows, ids, stamp)[k], now)
  {
    CompleteAllAt(rows, ids, stamp);
    forall k | 0 <= k < |rows| ensures !Overdue(CompleteAll(rows, ids, stamp)[k], now) {
      assert rows[k] in rows;
    }
  }

  // ---------------------------------------------------------------------
  // The hourly overdue sweep

  /** One stream the sweep completed, and whether its owner got the direct message. */
  datatype Step = Step(id: int, dmSent: bool)

  datatype SweepReport =
    | NotReady                                    // the client was not ready: nothing done
    | QueryFailed                                 // the overdue query threw: nothing done
    | Swept(steps: seq<Step>, aborted: bool)      // `aborted`: a completion threw and ended the sweep

  /** The ids of the completed streams, in order. */
  function StepIds(steps: seq<Step>): (r: seq<int>)
    ensures |r| == |steps| && forall k :: 0 <= k < |steps| ==> r[k] == steps[k].id
  {
    seq(|steps|, k requires 0 <= k < |steps| => steps[k].id)
  }

  /** The first `n` due rows were completed, in order. */
  predicate StepsFollow(steps: seq<Step>, due: seq<StreamRecord>) {
    |steps| <= |due| && forall k :: 0 <= k < |steps| ==> steps[k].id == due[k].id
  }

  /** One more completed stream extends the completion by its id. */
  lemma CompleteAllSnoc(rows: seq<StreamRecord>, steps: seq<Step>, step: Step, stamp: string)
    ensures CompleteAll(rows, StepIds(steps + [step]), stamp) == CompleteRows(CompleteAll(rows, StepIds(steps), stamp), step.id, stamp)
  {
    assert StepIds(steps + [step])[..|steps|] == StepIds(steps);
  }

  /**
   * The body of the loop for one due stream: the completion, which may
   * throw (then nothing changed and `None` comes back), then the message,
   * whose failure is caught.
   */
  method SweepOne(db: DatabaseManager, x: StreamRecord, stamp: string) returns (step: Option<Step>)
    requires db.Valid()
    modifies db`streams
    ensures db.Valid()
    ensures step.None? ==> db.streams == old(db.streams)
    ensures step.Some? ==> step.value.id == x.id && db.streams == CompleteRows(old(db.streams), x.id, stamp)
  {
    var storeFails: bool :| true;
    if storeFails {
      return None;
    }
    var changed := db.CompleteStream(x.id, stamp);
    var sent: bool :| true;
    step := Some(Step(x.id, sent));
  }

  /** Every due row's id among the completed ones: no row is left overdue. */
  lemma AllDueCompleted(rows: seq<StreamRecord>, steps: seq<Step>, now: string, stamp: string)
    requires StepsFollow(steps, OverdueOf(rows, now)) && |steps| == |OverdueOf(rows, now)|
    ensures forall k :: 0 <= k < |rows| ==> !Overdue(CompleteAll(rows, StepIds(steps), stamp)[k], now)
  {
    var due := OverdueOf(rows, now);
    forall x | x in rows && Overdue(x, now) ensures x.id in StepIds(steps) {
      var k :| 0 <= k < |due| && due[k] == x;
      assert StepIds(steps)[k] == x.id;
    }
    NoneLeftOverdue(rows, StepIds(steps), now, stamp);
  }

  /**
   * The hourly job. When the client is ready, the overdue query runs once;
   * then each returned stream, in order, is completed (stamped `stamp`) and
   * its owner is sent a message. A failed message is caught and the loop
   * goes on; a failed completion escapes the loop and ends the sweep.
   */
  method OverdueSweep(db: DatabaseManager, clientReady: bool, now: string, stamp: string) returns (report: SweepReport)
    requires db.Valid()
    modifies db`streams
    ensures db.Valid()
    ensures report.NotReady? <==> !clientReady
    ensures report.NotReady? || report.QueryFailed? ==> db.streams == old(db.streams)
    ensures report.Swept? ==>
      StepsFollow(report.steps, OverdueOf(old(db.streams), now)) &&
      (report.aborted <==> |report.steps| < |OverdueOf(old(db.streams), now)|) &&
      db.streams == CompleteAll(old(db.streams), StepIds(report.steps), stamp)
  {
    if !clientReady {
      return NotReady;
    }
    var queryFails: bool :| true;
    if queryFails {
      return QueryFailed;
    }
    var due := OverdueOf(db.streams, now);
    var steps, aborted := SweepAll(db, due, stamp);
    report := Swept(steps, aborted);
  }

  /** The loop over the due streams: it stops at the first completion that throws. */
  method SweepAll(db: DatabaseManager, due: seq<StreamRecord>, stamp: string) returns (steps: seq<Step>, aborted: bool)
    requires db.Valid()
    modifies db`streams
    ensures db.Valid()
    ensures StepsFollow(steps, due) && (aborted <==> |steps| < |due|)
    ensures db.streams == CompleteAll(old(db.streams), StepIds(steps), stamp)
  {
    steps := [];
    while |steps| < |due|
      invariant StepsFollow(steps, due)
      invariant db.Valid()
      invariant db.streams == CompleteAll(old(db.streams), StepIds(steps), stamp)
      decreases |due| - |steps|
    {
      var step := SweepOne(db, due[|steps|], stamp);
      if step.None? {
        return steps, true;
      }
      CompleteAllSnoc(old(db.streams), steps, step.value, stamp);
      steps := steps + [step.value];
    }
    aborted := false;
  }

  /** A sweep that ran to the end leaves no overdue stream; whatever it did, it wrote no status but `'completed'`. */
  lemma SweptOutcome(rows: seq<StreamRecord>, steps: seq<Step>, now: string, stamp: string)
    requires StepsFollow(steps, OverdueOf(rows, now))
    ensures var after := CompleteAll(rows, StepIds(steps), stamp);
      |after| == |rows| &&
      (|steps| == |OverdueOf(rows, now)| ==> forall k :: 0 <= k < |after| ==> !Overdue(after[k], now)) &&
      (forall k :: 0 <= k < |rows| ==> after[k].status == rows[k].status || after[k].status == Some("completed"))
  {
    CompleteAllStatuses(rows, StepIds(steps), stamp);
    if |steps| == |OverdueOf(rows, now)| {
      AllDueCompleted(rows, steps, now, stamp);
    }
  }

  // ---------------------------------------------------------------------
  // The hosted reminder table

  /** A reminder row as the daily sweep reads it. */
  datatype ReminderRecord = ReminderRecord(id: int, userId: string, reminderText: string, scheduledFor: string, isActive: bool)

  /**
   * An object handed to the reminder insert: a row's columns plus the extra
   * camelCase `isActive` key, which names no column of the table and so
   * cannot change what is stored.
   */
  datatype ReminderPayload = ReminderPayload(columns: ReminderRecord, isActiveKey: Option<bool>)

  /** `{ ...reminder, isActive: false }`. */
  function DeactivationPayload(r: ReminderRecord): (p: ReminderPayload)
    ensures p.isActiveKey == Some(false)
  {
    ReminderPayload(r, Some(false))
  }

  /** The row an accepted insert stores: the payload's columns. */
  function Stored(p: ReminderPayload): ReminderRecord {
    p.columns
  }

  /** The active-reminder query: active and due at or before `now`. */
  predicate Pending(r: ReminderRecord, now: string) {
    r.isActive && LexLe(r.scheduledFor, now)
  }

  /** The active-reminder query's test. */
  function PendingTest(now: string): ReminderRecord -> bool {
    x => Pending(x, now)
  }

  /**
   * The rows the active-reminder query returns: each pending row as often
   * as it is stored and nothing else, in table order (`Query.WhereAppend`).
   */
  function PendingOf(rows: seq<ReminderRecord>, now: string): (r: seq<ReminderRecord>)
    ensures |r| <= |rows|
    ensures forall x :: x in r <==> x in rows && Pending(x, now)
    ensures forall x :: multiset(r)[x] == if Pending(x, now) then multiset(rows)[x] else 0
  {
    WhereLength(rows, PendingTest(now));
    Where(rows, PendingTest(now))
  }

  /** The row for a pending reminder that its "deactivation" payload stores is itself pending. */
  lemma DeactivationCopyPending(r: ReminderRecord, now: string)
    requires Pending(r, now)
    ensures Stored(DeactivationPayload(r)) == r && Pending(Stored(DeactivationPayload(r)), now)
  {
  }

  /** `UPDATE reminders SET is_active = false WHERE id = ?`. */
  function DeactivateRows(rows: seq<ReminderRecord>, id: int): (r: seq<ReminderRecord>)
    ensures |r| == |rows|
    ensures forall k :: 0 <= k < |rows| ==> r[k] == if rows[k].id == id then rows[k].(isActive := false) else rows[k]
  {
    seq(|rows|, k requires 0 <= k < |rows| => if rows[k].id == id then rows[k].(isActive := false) else rows[k])
  }

  /** The hosted reminder table: its rows in insertion order. Each write may fail and then changes nothing. */
  class ReminderTable {
    var rows: seq<ReminderRecord>

    constructor (initial: seq<ReminderRecord>)
      ensures rows == initial
    {
      rows := initial;
    }

    /** `createReminder(data)`: an accepted insert appends the payload's columns. */
    method Insert(p: ReminderPayload) returns (ok: bool)
      modifies this
      ensures ok ==> rows == old(rows) + [Stored(p)]
      ensures !ok ==> rows == old(rows)
    {
      ok :| true;
      if ok {
        rows := rows + [Stored(p)];
      }
    }

    /** The update that marks the reminder with the id inactive. */
    method Deactivate(id: int) returns (ok: bool)
      modifies this
      ensures ok ==> rows == DeactivateRows(old(rows), id)
      ensures !ok ==> rows == old(rows)
    {
      ok :| true;
      if ok {
        rows := DeactivateRows(rows, id);
      }
    }
  }

  // ---------------------------------------------------------------------
  // The daily reminder sweep

  /** One pending reminder: whether the message went out, and whether the follow-up write was accepted. */
  datatype Attempt = Attempt(id: int, sent: bool, written: bool)

  datatype DailyReport =
    | DailyNotReady                     // the client was not ready: nothing done
    | DailyQueryFailed                  // the active-reminder query threw: nothing done
    | Attempted(attempts: seq<Attempt>) // one attempt per pending reminder, in order

  /** The first pending reminders were attempted, in order, and a write followed only a sent message. */
  predicate AttemptsFollow(attempts: seq<Attempt>, due: seq<ReminderRecord>) {
    |attempts| <= |due| &&
    forall k :: 0 <= k < |attempts| ==> attempts[k].id == due[k].id && (attempts[k].written ==> attempts[k].sent)
  }

  /** What an accepted "deactivation" insert for `r` stored. */
  function WrittenCopy(r: ReminderRecord, a: Attempt): (c: seq<ReminderRecord>)
    ensures |c| <= 1 && (a.written <==> c != []) && forall x :: x in c ==> x == r
  {
    if a.written then [Stored(DeactivationPayload(r))] else []
  }

  /** The rows the accepted follow-up inserts stored, in order. */
  function WrittenCopies(due: seq<ReminderRecord>, attempts: seq<Attempt>): (r: seq<ReminderRecord>)
    requires |attempts| <= |due|
    ensures forall x :: x in r ==> x in due
  {
    if attempts == [] then []
    else
      var n := |attempts| - 1;
      WrittenCopies(due, attempts[..n]) + WrittenCopy(due[n], attempts[n])
  }

  lemma WrittenCopiesSnoc(due: seq<ReminderRecord>, attempts: seq<Attempt>, a: Attempt)
    requires |attempts| < |due|
    ensures WrittenCopies(due, attempts + [a]) == WrittenCopies(due, attempts) + WrittenCopy(due[|attempts|], a)
  {
    assert (attempts + [a])[..|attempts|] == attempts;
  }

  /**
   * The body of the as-written loop for one reminder: the message, then,
   * after a successful send, the "deactivation" object handed to the insert;
   * a failure of either is caught.
   */
  method RemindOne(table: ReminderTable, r: ReminderRecord) returns (a: Attempt)
    modifies table
    ensures a.id == r.id && (a.written ==> a.sent)
    ensures table.rows == old(table.rows) + WrittenCopy(r, a)
  {
    var sent: bool :| true;
    var written := false;
    if sent {
      written := table.Insert(DeactivationPayload(r));
    }
    a := Attempt(r.id, sent, written);
  }

  /**
   * The daily job as written: each pending reminder, in order, is sent and
   * then "deactivated" by an insert; a failure on one reminder does not stop
   * the others. The original rows are never updated, so every reminder that
   * was pending is still pending afterwards, next to the copies the inserts
   * stored.
   */
  method DailySweep(table: ReminderTable, clientReady: bool, now: string) returns (report: DailyReport)
    modifies table
    ensures report.DailyNotReady? <==> !clientReady
    ensures !report.Attempted? ==> table.rows == old(table.rows)
    ensures report.Attempted? ==>
      AttemptsFollow(report.attempts, PendingOf(old(table.rows), now)) &&
      |report.attempts| == |PendingOf(old(table.rows), now)| &&
      table.rows == old(table.rows) + WrittenCopies(PendingOf(old(table.rows), now), report.attempts)
    ensures forall x :: x in old(table.rows) && Pending(x, now) ==> x in table.rows && Pending(x, now)
  {
    if !clientReady {
      return DailyNotReady;
    }
    var queryFails: bool :| true;
    if queryFails {
      return DailyQueryFailed;
    }
    var due := PendingOf(table.rows, now);
    ghost var before := table.rows;
    var attempts := RemindAll(table, due);
    forall x | x in before && Pending(x, now) ensures x in table.rows {
      assert x in before + WrittenCopies(due, attempts);
    }
    report := Attempted(attempts);
  }

  /** The as-written loop: one attempt per reminder in `due`, in order, each storing at most its copy. */
  method RemindAll(table: ReminderTable, due: seq<ReminderRecord>) returns (attempts: seq<Attempt>)
    modifies table
    ensures AttemptsFollow(attempts, due) && |attempts| == |due|
    ensures table.rows == old(table.rows) + WrittenCopies(due, attempts)
  {
    attempts := [];
    while |attempts| < |due|
      invariant AttemptsFollow(attempts, due)
      invariant table.rows == old(table.rows) + WrittenCopies(due, attempts)
      decreases |due| - |attempts|
    {
      var a := RemindOne(table, due[|attempts|]);
      WrittenCopiesSnoc(due, attempts, a);
      attempts := attempts + [a];
    }
  }

  /** The active-reminder query over rows with pending rows appended. */
  lemma PendingOfAppend(rows: seq<ReminderRecord>, extra: seq<ReminderRecord>, now: string)
    requires forall x :: x in extra ==> Pending(x, now)
    ensures PendingOf(rows + extra, now) == PendingOf(rows, now) + extra
  {
    WhereAppend(rows, extra, PendingTest(now));
    WhereAll(extra, PendingTest(now));
  }

  /**
   * After the as-written sweep the next query returns every reminder it
   * returned before, followed by one more copy of each delivered one: a
   * delivered reminder is sent again, and more often each day.
   */
  lemma DeliveredResent(rows: seq<ReminderRecord>, attempts: seq<Attempt>, now: string)
    requires AttemptsFollow(attempts, PendingOf(rows, now))
    ensures var copies := WrittenCopies(PendingOf(rows, now), attempts);
      PendingOf(rows + copies, now) == PendingOf(rows, now) + copies &&
      forall k :: 0 <= k < |attempts| && attempts[k].written ==> PendingOf(rows, now)[k] in copies
  {
    var due := PendingOf(rows, now);
    var copies := WrittenCopies(due, attempts);
    PendingOfAppend(rows, copies, now);
    WrittenCopyIn(due, attempts);
  }

  /** Each written attempt's reminder is among the copies. */
  lemma {:induction false} WrittenCopyIn(due: seq<ReminderRecord>, attempts: seq<Attempt>)
    requires |attempts| <= |due|
    ensures forall k :: 0 <= k < |attempts| && attempts[k].written ==> due[k] in WrittenCopies(due, attempts)
  {
    if attempts != [] {
      var n := |attempts| - 1;
      WrittenCopyIn(due, attempts[..n]);
      forall k | 0 <= k < |attempts| && attempts[k].written ensures due[k] in WrittenCopies(due, attempts) {
        if k < n {
          assert attempts[..n][k] == attempts[k];
        } else {
          assert due[n] in WrittenCopy(due[n], attempts[n]);
        }
      }
    }
  }

  // ---------------------------------------------------------------------
  // The daily reminder sweep, deactivating by update

  /** The ids whose write was accepted, in order. */
  function WrittenIds(attempts: seq<Attempt>): (r: seq<int>)
    ensures forall id :: id in r <==> exists k :: 0 <= k < |attempts| && attempts[k].written && attempts[k].id == id
  {
    if attempts == [] then []
    else
      var n := |attempts| - 1;
      var front := WrittenIds(attempts[..n]);
      assert forall k :: 0 <= k < n ==> attempts[..n][k] == attempts[k];
      front + (if attempts[n].written then [attempts[n].id] else [])
  }

  /** Marking the reminders with the ids `ids` inactive, one update after another. */
  function DeactivateAll(rows: seq<ReminderRecord>, ids: seq<int>): (r: seq<ReminderRecord>)
    ensures |r| == |rows|
  {
    if ids == [] then rows else DeactivateRows(DeactivateAll(rows, ids[..|ids| - 1]), ids[|ids| - 1])
  }

  /** A reminder is inactive afterwards if its id is among `ids`, and is otherwise untouched. */
  lemma {:induction false} DeactivateAllAt(rows: seq<ReminderRecord>, ids: seq<int>)
    ensures forall k :: 0 <= k < |rows| ==>
      DeactivateAll(rows, ids)[k] == if rows[k].id in ids then rows[k].(isActive := false) else rows[k]
  {
    if ids != [] {
      var front := ids[..|ids| - 1];
      DeactivateAllAt(rows, front);
      assert ids == front + [ids[|ids| - 1]];
      forall k | 0 <= k < |rows|
        ensures DeactivateAll(rows, ids)[k] == if rows[k].id in ids then rows[k].(isActive := false) else rows[k]
      {
        assert rows[k].id in ids <==> rows[k].id in front || rows[k].id == ids[|ids| - 1];
      }
    }
  }

  lemma DeactivateAllSnoc(rows: seq<ReminderRecord>, attempts: seq<Attempt>, a: Attempt)
    ensures DeactivateAll(rows, WrittenIds(attempts + [a])) ==
      if a.written then DeactivateRows(DeactivateAll(rows, WrittenIds(attempts)), a.id) else DeactivateAll(rows, WrittenIds(attempts))
  {
    assert (attempts + [a])[..|attempts|] == attempts;
    var ids := WrittenIds(attempts + [a]);
    if a.written {
      assert ids == WrittenIds(attempts) + [a.id];
      assert ids[..|ids| - 1] == WrittenIds(attempts);
    } else {
      assert ids == WrittenIds(attempts);
    }
  }

  /** The body of the corrected loop for one reminder: the message, then, after a successful send, the update. */
  method RemindAndDeactivate(table: ReminderTable, r: ReminderRecord) returns (a: Attempt)
    modifies table
    ensures a.id == r.id && (a.written ==> a.sent)
    ensures table.rows == if a.written then DeactivateRows(old(table.rows), r.id) else old(table.rows)
  {
    var sent: bool :| true;
    var written := false;
    if sent {
      written := table.Deactivate(r.id);
    }
    a := Attempt(r.id, sent, written);
  }

  /** The daily job with the evidently intended write: a delivered reminder is updated to inactive. */
  method DailySweepDeactivating(table: ReminderTable, clientReady: bool, now: string) returns (report: DailyReport)
    modifies table
    ensures report.DailyNotReady? <==> !clientReady
    ensures !report.Attempted? ==> table.rows == old(table.rows)
    ensures report.Attempted? ==>
      AttemptsFollow(report.attempts, PendingOf(old(table.rows), now)) &&
      |report.attempts| == |PendingOf(old(table.rows), now)| &&
      table.rows == DeactivateAll(old(table.rows), WrittenIds(report.attempts))
  {
    if !clientReady {
      return DailyNotReady;
    }
    var queryFails: bool :| true;
    if queryFails {
      return DailyQueryFailed;
    }
    var due := PendingOf(table.rows, now);
    ghost var before := table.rows;
    var attempts: seq<Attempt> := [];
    while |attempts| < |due|
      invariant AttemptsFollow(attempts, due)
      invariant table.rows == DeactivateAll(before, WrittenIds(attempts))
      decreases |due| - |attempts|
    {
      var a := RemindAndDeactivate(table, due[|attempts|]);
      DeactivateAllSnoc(before, attempts, a);
      attempts := attempts + [a];
    }
    report := Attempted(attempts);
  }

  /**
   * After the corrected sweep no delivered reminder is pending, so the next
   * query does not send it again; the query returns only reminders it
   * returned before, and every undelivered one again.
   */
  lemma DeliveredNotResent(rows: seq<ReminderRecord>, attempts: seq<Attempt>, now: string)
    ensures var after := DeactivateAll(rows, WrittenIds(attempts));
      (forall x :: x in PendingOf(after, now) ==> x in PendingOf(rows, now) && x.id !in WrittenIds(attempts)) &&
      (forall x :: x in PendingOf(rows, now) && x.id !in WrittenIds(attempts) ==> x in PendingOf(after, now))
  {
    var after := DeactivateAll(rows, WrittenIds(attempts));
    DeactivateAllAt(rows, WrittenIds(attempts));
    forall x | x in after ensures Pending(x, now) ==> x in rows && x.id !in WrittenIds(attempts) {
      var k :| 0 <= k < |after| && after[k] == x;
    }
    forall x | x in rows && x.id !in WrittenIds(attempts) ensures x in after {
      var k :| 0 <= k < |rows| && rows[k] == x;
      assert after[k] == x;
    }
  }
}
