/**
 * The rows of the desktop app's SQLite store and the pure rules its
 * statements follow: how an insert fills its columns from a JavaScript input
 * record (`||` defaults, `NOT NULL` columns), what the create calls hand
 * back, how `UPDATE … WHERE id = ?`, the completion and `DELETE` act on the
 * stream rows, the reads' filters and orders, and the statistics counts.
 * Timestamps are the TEXT the columns hold; `CURRENT_TIMESTAMP` and
 * `new Date().toISOString()` are parameters. List columns hold the list
 * itself (their JSON encoding is not modelled).
 */
module DesktopRecords {
  import opened Wrappers
  import opened Ordering
  import opened Query
  import opened AgencyTemplates
  import Schedule

  /** What a failing statement throws. */
  datatype DbError = SyntaxError | NoSuchColumn | NotNullConstraint

  /** A statement's result, or the error it throws. */
  datatype Outcome<T> = Done(value: T) | Throws(error: DbError)

  // ---------------------------------------------------------------------
  // JavaScript truthiness of input fields

  /** A text input counts as given when it is present and non-empty. */
  predicate Truthy(v: Option<string>) {
    v.Some? && v.value != ""
  }

  /** `v || null`. */
  function OrNull(v: Option<string>): Option<string> {
    if Truthy(v) then v else None
  }

  /** `v || fallback`. */
  function OrText(v: Option<string>, fallback: string): string {
    if Truthy(v) then v.value else fallback
  }

  /** `n || null` for a number: 0 is falsy. */
  function NumberOrNull(v: Option<int>): Option<int> {
    if v.Some? && v.value != 0 then v else None
  }

  /**
   * `{ id: result.lastInsertRowid, ...data }`: the caller's own record, whose
   * `id` key, when it has one, overrides the new row's id.
   */
  datatype Created<T> = Created(id: int, data: T)

  function ReturnedId(own: Option<int>, rowid: int): (r: int)
    ensures own.None? ==> r == rowid
    ensures own.Some? ==> r == own.value
  {
    if own.Some? then own.value else rowid
  }

  // ---------------------------------------------------------------------
  // Ids

  /**
   * An `AUTOINCREMENT` table: ids strictly increase in row order, and all are
   * positive and at most the largest id ever handed out.
   */
  predicate Keyed<T>(rows: seq<T>, idOf: T -> int, last: int) {
    0 <= last && Increasing(rows, idOf) && (forall i :: 0 <= i < |rows| ==> 0 < idOf(rows[i]) <= last)
  }

  /** Each id is below the next one. */
  predicate Increasing<T>(rows: seq<T>, idOf: T -> int) {
    |rows| <= 1 || (idOf(rows[0]) < idOf(rows[1]) && Increasing(rows[1..], idOf))
  }

  /** Neighbours in order means every pair in order. */
  lemma {:induction false} IncreasingPairs<T>(rows: seq<T>, idOf: T -> int)
    ensures Increasing(rows, idOf) <==> forall i, j :: 0 <= i < j < |rows| ==> idOf(rows[i]) < idOf(rows[j])
  {
    if |rows| > 1 {
      var t := rows[1..];
      IncreasingPairs(t, idOf);
      if Increasing(rows, idOf) {
        forall i, j | 0 <= i < j < |rows| ensures idOf(rows[i]) < idOf(rows[j]) {
          assert rows[j] == t[j - 1];
          if i > 0 {
            assert rows[i] == t[i - 1];
          } else if j > 1 {
            assert rows[1] == t[0];
          }
        }
      }
      if forall i, j :: 0 <= i < j < |rows| ==> idOf(rows[i]) < idOf(rows[j]) {
        forall i, j | 0 <= i < j < |t| ensures idOf(t[i]) < idOf(t[j]) {
          assert t[i] == rows[i + 1] && t[j] == rows[j + 1];
        }
      }
    }
  }

  /** A row with the next id keeps the table keyed. */
  lemma KeyedAppend<T>(rows: seq<T>, idOf: T -> int, last: int, row: T)
    requires Keyed(rows, idOf, last) && idOf(row) == last + 1
    ensures Keyed(rows + [row], idOf, last + 1)
  {
    var r := rows + [row];
    IncreasingPairs(rows, idOf);
    IncreasingPairs(r, idOf);
    forall i, j | 0 <= i < j < |r| ensures idOf(r[i]) < idOf(r[j]) {
      assert r[i] == rows[i];
      if j < |rows| { assert r[j] == rows[j]; }
    }
    forall i | 0 <= i < |r| ensures 0 < idOf(r[i]) <= last + 1 {
      if i < |rows| { assert r[i] == rows[i]; } else { assert r[i] == row; }
    }
  }

  // ---------------------------------------------------------------------
  // Streams

  /** A `streams` row; nullable columns are options. */
  datatype StreamRecord = StreamRecord(
    id: int,
    itemName: string,
    creatorName: string,
    creatorId: Option<string>,
    agencyName: Option<string>,
    dueDate: string,
    status: Option<string>,
    priority: Option<string>,
    streamType: Option<string>,
    notes: Option<string>,
    createdAt: Option<string>,
    completedAt: Option<string>,
    userId: Option<string>)

  function StreamId(r: StreamRecord): int {
    r.id
  }

  /** The record handed to `createStream` or `importStreams`; an absent key is `None`. */
  datatype StreamInput = StreamInput(
    id: Option<int>,
    itemName: Option<string>,
    creatorName: Option<string>,
    creatorId: Option<string>,
    agencyName: Option<string>,
    dueDate: Option<string>,
    status: Option<string>,
    priority: Option<string>,
    streamType: Option<string>,
    notes: Option<string>,
    createdAt: Option<string>,
    completedAt: Option<string>,
    userId: Option<string>)

  /** Every `NOT NULL` column without a default gets a value (`undefined` binds as `NULL`). */
  predicate StreamInsertable(s: StreamInput) {
    s.itemName.Some? && s.creatorName.Some? && s.dueDate.Some?
  }

  /**
   * The row `createStream` inserts under `id`, `now` standing for
   * `CURRENT_TIMESTAMP`: the three required texts verbatim, the nullable
   * texts or `NULL`, the defaulted texts or their defaults.
   */
  function CreateRow(s: StreamInput, id: int, now: string): (r: StreamRecord)
    requires StreamInsertable(s)
    ensures r.id == id && r.createdAt == Some(now) && r.completedAt == None
    ensures r.itemName == s.itemName.value && r.creatorName == s.creatorName.value && r.dueDate == s.dueDate.value
  {
    StreamRecord(
      id, s.itemName.value, s.creatorName.value, OrNull(s.creatorId), OrNull(s.agencyName), s.dueDate.value,
      Some(OrText(s.status, "active")), Some(OrText(s.priority, "medium")), Some(OrText(s.streamType, "showcase")),
      OrNull(s.notes), Some(now), None, Some(OrText(s.userId, "local")))
  }

  /** The input with only the required fields. */
  function BareStream(itemName: string, creatorName: string, dueDate: string): StreamInput {
    StreamInput(None, Some(itemName), Some(creatorName), None, None, Some(dueDate), None, None, None, None, None, None, None)
  }

  /**
   * The defaults of `createStream`: no creator id, agency or notes; active,
   * medium priority, a showcase, for the local user.
   */
  lemma CreateRowDefaults(itemName: string, creatorName: string, dueDate: string, id: int, now: string)
    ensures CreateRow(BareStream(itemName, creatorName, dueDate), id, now) ==
      StreamRecord(id, itemName, creatorName, None, None, dueDate, Some("active"), Some("medium"),
                   Some("showcase"), None, Some(now), None, Some("local"))
  {
  }

  /**
   * Given (non-empty) optional fields are stored as given; an empty text is
   * stored as `NULL` or as the default, never as the empty text.
   */
  lemma CreateRowKeepsGiven(s: StreamInput, id: int, now: string)
    requires StreamInsertable(s)
    ensures var r := CreateRow(s, id, now);
      (Truthy(s.creatorId) ==> r.creatorId == s.creatorId) &&
      (Truthy(s.agencyName) ==> r.agencyName == s.agencyName) &&
      (Truthy(s.notes) ==> r.notes == s.notes) &&
      (Truthy(s.status) ==> r.status == s.status) &&
      (Truthy(s.priority) ==> r.priority == s.priority) &&
      (Truthy(s.streamType) ==> r.streamType == s.streamType) &&
      (Truthy(s.userId) ==> r.userId == s.userId) &&
      r.creatorId != Some("") && r.agencyName != Some("") && r.notes != Some("") &&
      r.status != Some("") && r.priority != Some("") && r.streamType != Some("") && r.userId != Some("")
  {
  }

  /**
   * The record `createStream` hands back is the caller's, so a default the
   * insert applied does not show in it.
   */
  lemma CreatedShowsInputNotDefaults(itemName: string, creatorName: string, dueDate: string, rowid: int, now: string)
    ensures var s := BareStream(itemName, creatorName, dueDate);
      Created(ReturnedId(s.id, rowid), s).data.status == None && CreateRow(s, rowid, now).status == Some("active")
  {
  }

  /** A caller's own `id` key wins over the new row id. */
  lemma CreatedKeepsCallersId(s: StreamInput, rowid: int)
    requires s.id.Some?
    ensures ReturnedId(s.id, rowid) == s.id.value
  {
  }

  /**
   * The row `importStreams` inserts: as `createStream`'s, except that the
   * record's own `created_at` (else the import time `nowIso`) and its
   * `completed_at` (or `NULL`) are stored.
   */
  function ImportRow(s: StreamInput, id: int, nowIso: string): (r: StreamRecord)
    requires StreamInsertable(s)
    ensures r.id == id && r.completedAt == OrNull(s.completedAt)
  {
    CreateRow(s, id, OrText(s.createdAt, nowIso)).(completedAt := OrNull(s.completedAt))
  }

  /** A record without timestamps is imported as `createStream` would insert it at the import time. */
  lemma ImportRowWithoutStamps(s: StreamInput, id: int, nowIso: string)
    requires StreamInsertable(s) && !Truthy(s.createdAt) && !Truthy(s.completedAt)
    ensures ImportRow(s, id, nowIso) == CreateRow(s, id, nowIso)
  {
  }

  /** A record's own stamps are kept. */
  lemma ImportRowKeepsStamps(s: StreamInput, id: int, nowIso: string)
    requires StreamInsertable(s) && Truthy(s.createdAt) && Truthy(s.completedAt)
    ensures ImportRow(s, id, nowIso).createdAt == s.createdAt && ImportRow(s, id, nowIso).completedAt == s.completedAt
  {
  }

  /** The rows an import of `xs` inserts, ids counting up from `first`. */
  function ImportRows(xs: seq<StreamInput>, first: int, nowIso: string): (r: seq<StreamRecord>)
    requires forall k :: 0 <= k < |xs| ==> StreamInsertable(xs[k])
    ensures |r| == |xs|
  {
    if xs == [] then [] else [ImportRow(xs[0], first, nowIso)] + ImportRows(xs[1..], first + 1, nowIso)
  }

  /** Record `k` becomes row `k`, with id `first + k`. */
  lemma {:induction false} ImportRowsAt(xs: seq<StreamInput>, first: int, nowIso: string)
    requires forall k :: 0 <= k < |xs| ==> StreamInsertable(xs[k])
    ensures forall k :: 0 <= k < |xs| ==> ImportRows(xs, first, nowIso)[k] == ImportRow(xs[k], first + k, nowIso)
  {
    if xs != [] {
      ImportRowsAt(xs[1..], first + 1, nowIso);
    }
  }

  /** Imported rows take the next ids in order, so the table stays keyed. */
  lemma ImportKeepsKeyed(rows: seq<StreamRecord>, last: int, xs: seq<StreamInput>, nowIso: string)
    requires Keyed(rows, StreamId, last)
    requires forall k :: 0 <= k < |xs| ==> StreamInsertable(xs[k])
    ensures Keyed(rows + ImportRows(xs, last + 1, nowIso), StreamId, last + |xs|)
  {
    var added := ImportRows(xs, last + 1, nowIso);
    ImportRowsAt(xs, last + 1, nowIso);
    var r := rows + added;
    IncreasingPairs(rows, StreamId);
    IncreasingPairs(r, StreamId);
    assert forall k :: 0 <= k < |added| ==> added[k].id == last + 1 + k;
    forall i | 0 <= i < |r| ensures 0 < StreamId(r[i]) <= last + |xs| && (i >= |rows| ==> r[i].id == last + 1 + (i - |rows|)) {
      if i < |rows| { assert r[i] == rows[i]; } else { assert r[i] == added[i - |rows|]; }
    }
    forall i, j | 0 <= i < j < |r| ensures StreamId(r[i]) < StreamId(r[j]) {
      if j < |rows| { assert r[i] == rows[i] && r[j] == rows[j]; }
      else if i < |rows| { assert r[i] == rows[i]; }
    }
  }

  // ---------------------------------------------------------------------
  // Updating, completing and deleting streams

  /** The updatable columns of `streams` (all but `id`). */
  datatype StreamColumn =
    ItemName | CreatorName | CreatorId | AgencyName | DueDate | Status | Priority | StreamType | Notes
    | CreatedAt | CompletedAt | UserId

  /** The SQL name of a column. */
  function ColumnName(c: StreamColumn): string {
    match c
    case ItemName => "item_name"
    case CreatorName => "creator_name"
    case CreatorId => "creator_id"
    case AgencyName => "agency_name"
    case DueDate => "due_date"
    case Status => "status"
    case Priority => "priority"
    case StreamType => "stream_type"
    case Notes => "notes"
    case CreatedAt => "created_at"
    case CompletedAt => "completed_at"
    case UserId => "user_id"
  }

  /** The column an update key names, if it names one. */
  function ColumnNamed(name: string): (r: Option<StreamColumn>)
    ensures r.Some? ==> ColumnName(r.value) == name
  {
    if name == "item_name" then Some(ItemName)
    else if name == "creator_name" then Some(CreatorName)
    else if name == "creator_id" then Some(CreatorId)
    else if name == "agency_name" then Some(AgencyName)
    else if name == "due_date" then Some(DueDate)
    else if name == "status" then Some(Status)
    else if name == "priority" then Some(Priority)
    else if name == "stream_type" then Some(StreamType)
    else if name == "notes" then Some(Notes)
    else if name == "created_at" then Some(CreatedAt)
    else if name == "completed_at" then Some(CompletedAt)
    else if name == "user_id" then Some(UserId)
    else None
  }

  /** Every column is found under its own name. */
  lemma ColumnNamedName(c: StreamColumn)
    ensures ColumnNamed(ColumnName(c)) == Some(c)
  {
  }

  predicate NotNull(c: StreamColumn) {
    c == ItemName || c == CreatorName || c == DueDate
  }

  /** A row's value in a column. */
  function Column(row: StreamRecord, c: StreamColumn): Option<string> {
    match c
    case ItemName => Some(row.itemName)
    case CreatorName => Some(row.creatorName)
    case CreatorId => row.creatorId
    case AgencyName => row.agencyName
    case DueDate => Some(row.dueDate)
    case Status => row.status
    case Priority => row.priority
    case StreamType => row.streamType
    case Notes => row.notes
    case CreatedAt => row.createdAt
    case CompletedAt => row.completedAt
    case UserId => row.userId
  }

  /** The assignments respect the `NOT NULL` columns. */
  predicate Assignable(u: map<StreamColumn, Option<string>>) {
    forall c :: c in u && NotNull(c) ==> u[c].Some?
  }

  /** `u[c]` if `c` is assigned, else `current`. */
  function Pick(u: map<StreamColumn, Option<string>>, c: StreamColumn, current: Option<string>): Option<string> {
    if c in u then u[c] else current
  }

  /** `SET c = v, …` on one row: exactly the assigned columns change. */
  function ApplyUpdates(row: StreamRecord, u: map<StreamColumn, Option<string>>): (r: StreamRecord)
    requires Assignable(u)
    ensures r.id == row.id
    ensures forall c :: Column(r, c) == if c in u then u[c] else Column(row, c)
  {
    StreamRecord(
      row.id,
      Pick(u, ItemName, Some(row.itemName)).value,
      Pick(u, CreatorName, Some(row.creatorName)).value,
      Pick(u, CreatorId, row.creatorId),
      Pick(u, AgencyName, row.agencyName),
      Pick(u, DueDate, Some(row.dueDate)).value,
      Pick(u, Status, row.status),
      Pick(u, Priority, row.priority),
      Pick(u, StreamType, row.streamType),
      Pick(u, Notes, row.notes),
      Pick(u, CreatedAt, row.createdAt),
      Pick(u, CompletedAt, row.completedAt),
      Pick(u, UserId, row.userId))
  }

  /** Assigning no columns leaves a row as it is. */
  lemma ApplyNoUpdates(row: StreamRecord)
    ensures ApplyUpdates(row, map[]) == row
  {
  }

  /** Some row has the id. */
  predicate HasId(rows: seq<StreamRecord>, id: int) {
    exists k :: 0 <= k < |rows| && rows[k].id == id
  }

  /** `UPDATE streams SET … WHERE id = ?`. */
  function UpdateRows(rows: seq<StreamRecord>, id: int, u: map<StreamColumn, Option<string>>): seq<StreamRecord>
    requires Assignable(u)
  {
    seq(|rows|, k requires 0 <= k < |rows| => if rows[k].id == id then ApplyUpdates(rows[k], u) else rows[k])
  }

  /** `SET status = 'completed', completed_at = CURRENT_TIMESTAMP` on one row. */
  function CompleteRow(row: StreamRecord, now: string): StreamRecord {
    row.(status := Some("completed"), completedAt := Some(now))
  }

  /** The completion `UPDATE … WHERE id = ?`. */
  function CompleteRows(rows: seq<StreamRecord>, id: int, now: string): seq<StreamRecord> {
    seq(|rows|, k requires 0 <= k < |rows| => if rows[k].id == id then CompleteRow(rows[k], now) else rows[k])
  }

  /** The completion is an update of `status` and `completed_at`. */
  lemma CompleteIsUpdate(rows: seq<StreamRecord>, id: int, now: string)
    ensures CompleteRows(rows, id, now) == UpdateRows(rows, id, map[Status := Some("completed"), CompletedAt := Some(now)])
  {
    var u := map[Status := Some("completed"), CompletedAt := Some(now)];
    forall k | 0 <= k < |rows| ensures CompleteRows(rows, id, now)[k] == UpdateRows(rows, id, u)[k] {
      if rows[k].id == id {
        var a, b := CompleteRow(rows[k], now), ApplyUpdates(rows[k], u);
        assert Column(a, Status) == Column(b, Status);
        assert Column(a, CompletedAt) == Column(b, CompletedAt);
      }
    }
  }

  /** Completing again keeps the row completed and moves its stamp to the later call. */
  lemma CompleteTwice(rows: seq<StreamRecord>, id: int, first: string, second: string)
    ensures CompleteRows(CompleteRows(rows, id, first), id, second) == CompleteRows(rows, id, second)
  {
  }

  /** Rows with the same ids in the same places: the table stays keyed. */
  lemma KeyedSameIds(rows: seq<StreamRecord>, rows': seq<StreamRecord>, last: int)
    requires Keyed(rows, StreamId, last) && |rows'| == |rows|
    requires forall k :: 0 <= k < |rows| ==> rows'[k].id == rows[k].id
    ensures Keyed(rows', StreamId, last)
  {
    assert forall k :: 0 <= k < |rows| ==> StreamId(rows'[k]) == StreamId(rows[k]);
    IncreasingPairs(rows, StreamId);
    IncreasingPairs(rows', StreamId);
  }

  /** `DELETE FROM streams WHERE id = ?`: the other rows, in order. */
  function WithoutId(rows: seq<StreamRecord>, id: int): (r: seq<StreamRecord>)
    ensures |r| <= |rows|
    ensures forall k :: 0 <= k < |r| ==> r[k].id != id && r[k] in rows
    ensures forall x :: x in rows && x.id != id ==> x in r
    ensures !HasId(rows, id) ==> r == rows
  {
    if rows == [] then []
    else
      var rest := WithoutId(rows[1..], id);
      assert rows == [rows[0]] + rows[1..];
      assert !HasId(rows, id) ==> !HasId(rows[1..], id) by {
        if !HasId(rows, id) {
          forall k | 0 <= k < |rows[1..]| ensures rows[1..][k].id != id {
            assert rows[1..][k] == rows[k + 1];
          }
        }
      }
      if rows[0].id == id then rest else [rows[0]] + rest
  }

  /** Dropping the first row keeps a table keyed. */
  lemma KeyedTail(rows: seq<StreamRecord>, last: int)
    requires Keyed(rows, StreamId, last) && rows != []
    ensures Keyed(rows[1..], StreamId, last)
    ensures forall k :: 0 <= k < |rows[1..]| ==> rows[0].id < rows[1..][k].id
  {
    var tail := rows[1..];
    IncreasingPairs(rows, StreamId);
    IncreasingPairs(tail, StreamId);
    forall i, j | 0 <= i < j < |tail| ensures StreamId(tail[i]) < StreamId(tail[j]) {
      assert tail[i] == rows[i + 1] && tail[j] == rows[j + 1];
    }
    forall i | 0 <= i < |tail| ensures 0 < StreamId(tail[i]) <= last && rows[0].id < tail[i].id {
      assert tail[i] == rows[i + 1];
      assert StreamId(rows[0]) < StreamId(rows[i + 1]);
    }
  }

  /** A row below every id of a keyed table can go in front. */
  lemma KeyedCons(x: StreamRecord, rest: seq<StreamRecord>, last: int)
    requires Keyed(rest, StreamId, last) && 0 < x.id <= last
    requires forall k :: 0 <= k < |rest| ==> x.id < rest[k].id
    ensures Keyed([x] + rest, StreamId, last)
  {
    var r := [x] + rest;
    IncreasingPairs(rest, StreamId);
    IncreasingPairs(r, StreamId);
    forall i, j | 0 <= i < j < |r| ensures StreamId(r[i]) < StreamId(r[j]) {
      assert r[j] == rest[j - 1];
      if i > 0 { assert r[i] == rest[i - 1]; }
    }
    forall i | 0 <= i < |r| ensures 0 < StreamId(r[i]) <= last {
      if i > 0 { assert r[i] == rest[i - 1]; }
    }
  }

  /** Deleting keeps the table keyed. */
  lemma {:induction false} KeyedWithout(rows: seq<StreamRecord>, id: int, last: int)
    requires Keyed(rows, StreamId, last)
    ensures Keyed(WithoutId(rows, id), StreamId, last)
  {
    if rows != [] {
      var tail := rows[1..];
      KeyedTail(rows, last);
      KeyedWithout(tail, id, last);
      var rest := WithoutId(tail, id);
      if rows[0].id != id {
        forall k | 0 <= k < |rest| ensures rows[0].id < rest[k].id {
          var j :| 0 <= j < |tail| && tail[j] == rest[k];
        }
        assert 0 < StreamId(rows[0]) <= last;
        KeyedCons(rows[0], rest, last);
      }
    }
  }

  /** The first row with the id (`.get` on `WHERE id = ?`). */
  function RowWithId(rows: seq<StreamRecord>, id: int): (r: Option<StreamRecord>)
    ensures r.None? <==> !HasId(rows, id)
    ensures r.Some? ==> r.value in rows && r.value.id == id
  {
    if rows == [] then None
    else if rows[0].id == id then Some(rows[0])
    else
      var rest := RowWithId(rows[1..], id);
      assert HasId(rows, id) ==> HasId(rows[1..], id) by {
        if HasId(rows, id) {
          var k :| 0 <= k < |rows| && rows[k].id == id;
          assert rows[1..][k - 1] == rows[k];
        }
      }
      rest
  }

  // ---------------------------------------------------------------------
  // Orders of the reads

  /**
   * An `ORDER BY` key for a nullable text column: `NULL` sorts below every
   * text, and texts keep their order (a common first character does not
   * change a comparison).
   */
  function NullableKey(v: Option<string>): (k: string)
    ensures v.None? ==> k == ""
    ensures v.Some? ==> k == "t" + v.value
  {
    if v.Some? then "t" + v.value else ""
  }

  /** The key orders texts as the texts themselves, and puts `NULL` first. */
  lemma NullableKeyOrder(a: Option<string>, b: Option<string>)
    ensures a.Some? && b.Some? ==> (LexLe(NullableKey(a), NullableKey(b)) <==> LexLe(a.value, b.value))
    ensures a.None? ==> LexLe(NullableKey(a), NullableKey(b))
    ensures a.Some? && b.None? ==> !LexLe(NullableKey(a), NullableKey(b))
  {
    if a.Some? && b.Some? {
      LexLeCommonPrefix("t", a.value, b.value);
    }
  }

  function StreamCreatedKey(r: StreamRecord): string {
    NullableKey(r.createdAt)
  }

  // ---------------------------------------------------------------------
  // Schedules, captions and reviews

  /** A `schedules` row; the day columns present are those holding a list. */
  datatype ScheduleRecord = ScheduleRecord(
    id: int, weekStart: string, weekEnd: string, days: map<string, seq<string>>,
    createdAt: string, updatedAt: string, userId: string)

  function ScheduleId(r: ScheduleRecord): int {
    r.id
  }

  /** The record handed to `createSchedule`; `days` holds the day keys it has. */
  datatype ScheduleInput = ScheduleInput(
    id: Option<int>, weekStart: Option<string>, weekEnd: Option<string>, days: map<string, seq<string>>,
    userId: Option<string>)

  predicate ScheduleInsertable(s: ScheduleInput) {
    s.weekStart.Some? && s.weekEnd.Some?
  }

  /**
   * The row `createSchedule` inserts: a day column holds that day's list
   * whenever the record has one (an array is truthy even when empty), and
   * keys other than the seven day names are not stored.
   */
  function ScheduleRow(s: ScheduleInput, id: int, now: string): (r: ScheduleRecord)
    requires ScheduleInsertable(s)
    ensures r.id == id && r.weekStart == s.weekStart.value && r.weekEnd == s.weekEnd.value
    ensures r.createdAt == now && r.updatedAt == now && r.userId == OrText(s.userId, "local")
    ensures forall d :: d in r.days <==> d in s.days && d in Schedule.Days
    ensures forall d :: d in r.days ==> r.days[d] == s.days[d]
  {
    var days := map d | d in s.days && d in Schedule.Days :: s.days[d];
    ScheduleRecord(id, s.weekStart.value, s.weekEnd.value, days, now, now, OrText(s.userId, "local"))
  }

  function ScheduleWeekKey(r: ScheduleRecord): string {
    r.weekStart
  }

  /** A `captions` row. */
  datatype CaptionRecord = CaptionRecord(
    id: int, streamId: Option<int>, platform: string, captionText: string, agencyFormat: Option<string>,
    tags: Option<seq<string>>, createdAt: string, userId: string)

  function CaptionId(r: CaptionRecord): int {
    r.id
  }

  datatype CaptionInput = CaptionInput(
    id: Option<int>, streamId: Option<int>, platform: Option<string>, captionText: Option<string>,
    agencyFormat: Option<string>, tags: Option<seq<string>>, userId: Option<string>)

  predicate CaptionInsertable(s: CaptionInput) {
    s.platform.Some? && s.captionText.Some?
  }

  /** The row `createCaption` inserts: a stream id of 0 is stored as `NULL`. */
  function CaptionRow(s: CaptionInput, id: int, now: string): (r: CaptionRecord)
    requires CaptionInsertable(s)
    ensures r.id == id && r.platform == s.platform.value && r.captionText == s.captionText.value
    ensures r.streamId.Some? <==> s.streamId.Some? && s.streamId.value != 0
    ensures r.streamId.Some? ==> r.streamId == s.streamId
    ensures r.agencyFormat == OrNull(s.agencyFormat) && r.tags == s.tags
    ensures r.createdAt == now && r.userId == OrText(s.userId, "local")
  {
    CaptionRecord(id, NumberOrNull(s.streamId), s.platform.value, s.captionText.value, OrNull(s.agencyFormat),
                  s.tags, now, OrText(s.userId, "local"))
  }

  function CaptionCreatedKey(r: CaptionRecord): string {
    r.createdAt
  }

  /** A `reviews` row. */
  datatype ReviewRecord = ReviewRecord(
    id: int, streamId: Option<int>, itemName: string, itemId: Option<string>, reviewText: string,
    rating: Option<int>, createdAt: string, userId: string)

  function ReviewId(r: ReviewRecord): int {
    r.id
  }

  datatype ReviewInput = ReviewInput(
    id: Option<int>, streamId: Option<int>, itemName: Option<string>, itemId: Option<string>,
    reviewText: Option<string>, rating: Option<int>, userId: Option<string>)

  predicate ReviewInsertable(s: ReviewInput) {
    s.itemName.Some? && s.reviewText.Some?
  }

  /** The row `createReview` inserts: a stream id or rating of 0 is stored as `NULL`. */
  function ReviewRow(s: ReviewInput, id: int, now: string): (r: ReviewRecord)
    requires ReviewInsertable(s)
    ensures r.id == id && r.itemName == s.itemName.value && r.reviewText == s.reviewText.value
    ensures r.rating.Some? <==> s.rating.Some? && s.rating.value != 0
    ensures r.streamId.Some? <==> s.streamId.Some? && s.streamId.value != 0
    ensures r.streamId.Some? ==> r.streamId == s.streamId
    ensures r.rating.Some? ==> r.rating == s.rating
    ensures r.itemId == OrNull(s.itemId)
    ensures r.createdAt == now && r.userId == OrText(s.userId, "local")
  {
    ReviewRecord(id, NumberOrNull(s.streamId), s.itemName.value, OrNull(s.itemId), s.reviewText.value,
                 NumberOrNull(s.rating), now, OrText(s.userId, "local"))
  }

  function ReviewCreatedKey(r: ReviewRecord): string {
    r.createdAt
  }

  /** `if (streamId)`: a missing or zero stream id selects every row. */
  predicate SelectsAll(streamId: Option<int>) {
    streamId.None? || streamId.value == 0
  }

  function CaptionStream(r: CaptionRecord): Option<int> {
    r.streamId
  }

  function ReviewStream(r: ReviewRecord): Option<int> {
    r.streamId
  }

  /**
   * The `WHERE stream_id = ?` filter of `getCaptions` and `getReviews`, with
   * `streamOf` reading a row's stream id: a missing or zero id selects every
   * row, any other id each row of that stream as often as it is stored.
   */
  function ForStream<T(==,!new)>(rows: seq<T>, streamOf: T -> Option<int>, streamId: Option<int>): (r: seq<T>)
    ensures SelectsAll(streamId) ==> r == rows
    ensures forall x :: x in r <==> x in rows && (SelectsAll(streamId) || streamOf(x) == streamId)
    ensures forall x :: multiset(r)[x] == if SelectsAll(streamId) || streamOf(x) == streamId then multiset(rows)[x] else 0
  {
    if SelectsAll(streamId) then rows else Where(rows, x => streamOf(x) == streamId)
  }

  // ---------------------------------------------------------------------
  // Templates

  function TemplateId(r: TemplateRow): int {
    r.id
  }

  function TemplateNameKey(r: TemplateRow): string {
    r.agencyName
  }

  predicate TemplateActive(r: TemplateRow) {
    r.isActive
  }

  /** `WHERE is_active = 1`: each active row as often as it is stored, and nothing else. */
  function ActiveTemplates(rows: seq<TemplateRow>): (r: seq<TemplateRow>)
    ensures forall x :: x in r <==> x in rows && x.isActive
    ensures forall x :: multiset(r)[x] == if x.isActive then multiset(rows)[x] else 0
  {
    Where(rows, TemplateActive)
  }

  /** The two seeded rows, numbered after `last`. */
  function SeedRows(last: int, n: nat): (r: seq<TemplateRow>)
    requires n <= 2
    ensures |r| == n && forall k :: 0 <= k < n ==> r[k] == SeedRow(k, last + k + 1)
  {
    if n == 0 then [] else SeedRows(last, n - 1) + [SeedRow(n - 1, last + n)]
  }

  /** Seeding an empty table makes exactly the two rows, and both are found by name. */
  lemma SeededLookups(last: int)
    ensures var rows := SeedRows(last, 2);
      FirstActive(rows, LadiesAndBabesName) == Some(rows[0]) && FirstActive(rows, DefaultName) == Some(rows[1])
      && rows[0].id == last + 1 && rows[1].id == last + 2
  {
    var rows := SeedRows(last, 2);
    assert Matches(rows[0], LadiesAndBabesName);
    assert !Matches(rows[0], DefaultName) by {
      assert LadiesAndBabesName != DefaultName by {
        assert |LadiesAndBabesName| != |DefaultName|;
      }
    }
  }

  // ---------------------------------------------------------------------
  // Statistics

  /** `COUNT(*) … WHERE status = s`. */
  function CountStatus(rows: seq<StreamRecord>, s: string): (n: nat)
    ensures n <= |rows|
  {
    if rows == [] then 0 else (if rows[0].status == Some(s) then 1 else 0) + CountStatus(rows[1..], s)
  }

  /** Rows count under at most one status, so three distinct counts add up to at most the rows. */
  lemma {:induction false} StatusCountsBounded(rows: seq<StreamRecord>, a: string, b: string, c: string)
    requires a != b && b != c && a != c
    ensures CountStatus(rows, a) + CountStatus(rows, b) + CountStatus(rows, c) <= |rows|
  {
    if rows != [] {
      StatusCountsBounded(rows[1..], a, b, c);
    }
  }

  /** No row has the id twice. */
  predicate UniqueIds(rows: seq<StreamRecord>) {
    forall i, j :: 0 <= i < j < |rows| ==> rows[i].id != rows[j].id
  }

  /**
   * Completing the row with the id moves it from its status to `completed`:
   * any other status loses it from its count, and `completed` gains it
   * unless it was already completed.
   */
  lemma {:induction false} CompleteMovesCount(rows: seq<StreamRecord>, id: int, now: string, s: string)
    requires UniqueIds(rows) && s != "completed"
    ensures var done := CompleteRows(rows, id, now);
      var moved := if exists k :: 0 <= k < |rows| && rows[k].id == id && rows[k].status == Some(s) then 1 else 0;
      CountStatus(done, s) + moved == CountStatus(rows, s)
  {
    if rows != [] {
      var tail := rows[1..];
      assert UniqueIds(tail) by {
        forall i, j | 0 <= i < j < |tail| ensures tail[i].id != tail[j].id {
          assert tail[i] == rows[i + 1] && tail[j] == rows[j + 1];
        }
      }
      CompleteMovesCount(tail, id, now, s);
      var done := CompleteRows(rows, id, now);
      assert done[1..] == CompleteRows(tail, id, now);
      var inTail := exists k :: 0 <= k < |tail| && tail[k].id == id && tail[k].status == Some(s);
      var inRows := exists k :: 0 <= k < |rows| && rows[k].id == id && rows[k].status == Some(s);
      if rows[0].id == id {
        assert !inTail by {
          forall k | 0 <= k < |tail| ensures tail[k].id != id {
            assert tail[k] == rows[k + 1];
          }
        }
      } else {
        assert inRows <==> inTail by {
          if inRows {
            var k :| 0 <= k < |rows| && rows[k].id == id && rows[k].status == Some(s);
            assert tail[k - 1] == rows[k];
          }
          if inTail {
            var k :| 0 <= k < |tail| && tail[k].id == id && tail[k].status == Some(s);
            assert rows[k + 1] == tail[k];
          }
        }
      }
    }
  }

  /** `COUNT(*) … WHERE created_at >= ?`, as written: a text comparison with the cutoff. */
  function CountSince(rows: seq<StreamRecord>, cutoff: string): (n: nat)
    ensures n <= |rows|
  {
    if rows == [] then 0
    else (if rows[0].createdAt.Some? && LexLe(cutoff, rows[0].createdAt.value) then 1 else 0) + CountSince(rows[1..], cutoff)
  }

  /** `CURRENT_TIMESTAMP`'s text: `YYYY-MM-DD HH:MM:SS`. */
  function SqlTimestamp(date: string, time: string): string {
    date + " " + time
  }

  /** `toISOString()`'s text: `YYYY-MM-DDTHH:MM:SS.sssZ`. */
  function IsoTimestamp(date: string, time: string, millis: string): string {
    date + "T" + time + "." + millis + "Z"
  }

  /**
   * As written, a row stamped by `CURRENT_TIMESTAMP` on the cutoff's own date
   * is never counted, whatever its time: at the separator, a space sorts
   * before `T`.
   */
  lemma CutoffDayMissed(date: string, time: string, cutoffTime: string, millis: string)
    ensures !LexLe(IsoTimestamp(date, cutoffTime, millis), SqlTimestamp(date, time))
  {
    var rest := cutoffTime + "." + millis + "Z";
    assert IsoTimestamp(date, cutoffTime, millis) == date + ['T'] + rest;
    assert SqlTimestamp(date, time) == date + [' '] + time;
    LexLtAtDifference(date, ' ', 'T', time, rest);
  }

  /** A row created at 15:00 on a Sunday whose cutoff is 10:00 that day is left out of the week's count. */
  lemma CutoffDayExample()
    ensures var row := CreateRow(BareStream("Dress", "Ana", "2024-06-10"), 1, "2024-06-09 15:00:00");
      CountSince([row], "2024-06-09T10:00:00.000Z") == 0
  {
    assert "2024-06-09 15:00:00" == SqlTimestamp("2024-06-09", "15:00:00");
    assert "2024-06-09T10:00:00.000Z" == IsoTimestamp("2024-06-09", "10:00:00", "000");
    CutoffDayMissed("2024-06-09", "15:00:00", "10:00:00", "000");
  }

  /** A stamp in `CURRENT_TIMESTAMP`'s form: 19 characters with a space after the date. */
  predicate SqlStamped(t: string) {
    |t| == 19 && t[10] == ' '
  }

  /**
   * A stamp read as the ISO text of the same instant: a `CURRENT_TIMESTAMP`
   * text gets its `T` and whole milliseconds; any other text, in particular
   * an imported ISO stamp, is kept.
   */
  function AsIsoText(t: string): (r: string)
    ensures !SqlStamped(t) ==> r == t
  {
    if SqlStamped(t) then t[..10] + "T" + t[10 + 1..] + ".000Z" else t
  }

  /** A `CURRENT_TIMESTAMP` text read as ISO text is the same date and time at zero milliseconds. */
  lemma AsIsoTextOfSql(date: string, time: string)
    requires |date| == 10 && |time| == 8
    ensures AsIsoText(SqlTimestamp(date, time)) == IsoTimestamp(date, time, "000")
  {
    var t := SqlTimestamp(date, time);
    assert t == date + ([' '] + time);
    assert t[..10] == date && t[10 + 1..] == time;
  }

  /** An ISO text stays as it is. */
  lemma AsIsoTextOfIso(date: string, time: string, millis: string)
    requires |date| == 10 && |time| == 8 && |millis| == 3
    ensures AsIsoText(IsoTimestamp(date, time, millis)) == IsoTimestamp(date, time, millis)
  {
  }

  /** The week's streams as evidently meant: created at or after the cutoff instant, whichever form the row's stamp has. */
  predicate CreatedSince(x: StreamRecord, cutoffIso: string) {
    x.createdAt.Some? && LexLe(cutoffIso, AsIsoText(x.createdAt.value))
  }

  /**
   * The count the statistics evidently mean. Where no row carries a
   * `CURRENT_TIMESTAMP` stamp it agrees with the count as written; no row
   * created since gives 0 and only such rows give them all.
   */
  function CountSinceCorrected(rows: seq<StreamRecord>, cutoffIso: string): (n: nat)
    ensures n <= |rows|
    ensures (forall x :: x in rows && x.createdAt.Some? ==> !SqlStamped(x.createdAt.value)) ==> n == CountSince(rows, cutoffIso)
    ensures (forall x :: x in rows ==> !CreatedSince(x, cutoffIso)) ==> n == 0
    ensures (forall x :: x in rows ==> CreatedSince(x, cutoffIso)) ==> n == |rows|
  {
    if rows == [] then 0
    else
      var tail := rows[1..];
      assert rows == [rows[0]] + tail;
      assert rows[0] in rows;
      (if CreatedSince(rows[0], cutoffIso) then 1 else 0) + CountSinceCorrected(tail, cutoffIso)
  }

  /** Two texts with the same separator at the same place compare as the texts without it. */
  lemma {:induction false} SeparatorIgnored(a: string, b: string, sep: char, x: string, y: string)
    requires |a| == |b|
    ensures LexLe(a + [sep] + x, b + [sep] + y) <==> LexLe(a + x, b + y)
  {
    if a == [] {
      assert a + [sep] + x == [sep] + x && b + [sep] + y == [sep] + y;
      assert ([sep] + x)[1..] == x && ([sep] + y)[1..] == y;
      assert a + x == x && b + y == y;
    } else {
      SeparatorIgnored(a[1..], b[1..], sep, x, y);
      assert (a + [sep] + x)[1..] == a[1..] + [sep] + x;
      assert (b + [sep] + y)[1..] == b[1..] + [sep] + y;
      assert (a + x)[1..] == a[1..] + x && (b + y)[1..] == b[1..] + y;
    }
  }

  /** An ISO text as its date, `T`, and the rest. */
  lemma IsoShape(d: string, t: string, m: string)
    ensures IsoTimestamp(d, t, m) == d + ['T'] + (t + ['.'] + (m + ['Z']))
  {
  }

  /** The date and the rest past the `T`, regrouped around the `.`. */
  lemma IsoRegroup(d: string, t: string, m: string)
    ensures d + (t + ['.'] + (m + ['Z'])) == (d + t) + ['.'] + (m + ['Z'])
  {
  }

  /** Past the `T`: ISO texts compare as their date and time followed by the rest. */
  lemma IsoPastDate(d1: string, t1: string, m1: string, d2: string, t2: string, m2: string)
    requires |d1| == |d2|
    ensures LexLe(IsoTimestamp(d1, t1, m1), IsoTimestamp(d2, t2, m2)) <==>
      LexLe((d1 + t1) + ['.'] + (m1 + ['Z']), (d2 + t2) + ['.'] + (m2 + ['Z']))
  {
    var i1, i2 := IsoTimestamp(d1, t1, m1), IsoTimestamp(d2, t2, m2);
    var x1, x2 := t1 + ['.'] + (m1 + ['Z']), t2 + ['.'] + (m2 + ['Z']);
    var p1, p2 := (d1 + t1) + ['.'] + (m1 + ['Z']), (d2 + t2) + ['.'] + (m2 + ['Z']);
    IsoShape(d1, t1, m1);
    IsoShape(d2, t2, m2);
    IsoRegroup(d1, t1, m1);
    IsoRegroup(d2, t2, m2);
    SeparatorIgnored(d1, d2, 'T', x1, x2);
    assert LexLe(i1, i2) == LexLe(d1 + ['T'] + x1, d2 + ['T'] + x2);
    assert LexLe(d1 + x1, d2 + x2) == LexLe(p1, p2);
  }

  /** Past the `.`: what is left compares as the digits. */
  lemma IsoPastTime(p1: string, m1: string, p2: string, m2: string)
    requires |p1| == |p2| && |m1| == |m2|
    ensures LexLe(p1 + ['.'] + (m1 + ['Z']), p2 + ['.'] + (m2 + ['Z'])) <==> LexLe(p1 + m1, p2 + m2)
  {
    SeparatorIgnored(p1, p2, '.', m1 + ['Z'], m2 + ['Z']);
    assert p1 + (m1 + ['Z']) == (p1 + m1) + ['Z'];
    assert p2 + (m2 + ['Z']) == (p2 + m2) + ['Z'];
    LexLeCommonSuffix(p1 + m1, p2 + m2, ['Z']);
  }

  /** ISO texts compare as their digits: date, then time, then milliseconds. */
  lemma IsoChronological(d1: string, t1: string, m1: string, d2: string, t2: string, m2: string)
    requires |d1| == |d2| == 10 && |t1| == |t2| == 8 && |m1| == |m2| == 3
    ensures LexLe(IsoTimestamp(d1, t1, m1), IsoTimestamp(d2, t2, m2)) <==> LexLe(d1 + t1 + m1, d2 + t2 + m2)
  {
    IsoPastDate(d1, t1, m1, d2, t2, m2);
    IsoPastTime(d1 + t1, m1, d2 + t2, m2);
  }

  /**
   * With the correction, a `CURRENT_TIMESTAMP` row counts exactly when its
   * date and time, at zero milliseconds, are at or after the cutoff's.
   */
  lemma CorrectedCutoffChronological(x: StreamRecord, date: string, time: string, cutoffDate: string, cutoffTime: string, millis: string)
    requires |date| == 10 && |cutoffDate| == 10 && |time| == 8 && |cutoffTime| == 8 && |millis| == 3
    requires x.createdAt == Some(SqlTimestamp(date, time))
    ensures CreatedSince(x, IsoTimestamp(cutoffDate, cutoffTime, millis))
      <==> LexLe(cutoffDate + cutoffTime + millis, date + time + "000")
  {
    AsIsoTextOfSql(date, time);
    IsoChronological(cutoffDate, cutoffTime, millis, date, time, "000");
  }

  /** With the correction, an imported row with an ISO stamp counts exactly when its instant is not earlier. */
  lemma CorrectedImportChronological(x: StreamRecord, date: string, time: string, ms: string, cutoffDate: string, cutoffTime: string, millis: string)
    requires |date| == 10 && |cutoffDate| == 10 && |time| == 8 && |cutoffTime| == 8 && |ms| == 3 && |millis| == 3
    requires x.createdAt == Some(IsoTimestamp(date, time, ms))
    ensures CreatedSince(x, IsoTimestamp(cutoffDate, cutoffTime, millis))
      <==> LexLe(cutoffDate + cutoffTime + millis, date + time + ms)
  {
    AsIsoTextOfIso(date, time, ms);
    IsoChronological(cutoffDate, cutoffTime, millis, date, time, ms);
  }

  /** With the correction, a row stamped on the cutoff's date counts exactly when its time is not earlier. */
  lemma CorrectedCountsCutoffDay(x: StreamRecord, date: string, time: string, cutoffTime: string)
    requires |date| == 10 && |time| == 8 && |cutoffTime| == 8
    requires x.createdAt == Some(SqlTimestamp(date, time))
    ensures CreatedSince(x, IsoTimestamp(date, cutoffTime, "000")) <==> LexLe(cutoffTime, time)
  {
    CorrectedCutoffChronological(x, date, time, date, cutoffTime, "000");
    assert date + cutoffTime + "000" == date + (cutoffTime + "000") && date + time + "000" == date + (time + "000");
    LexLeCommonPrefix(date, cutoffTime + "000", time + "000");
    LexLeCommonSuffix(cutoffTime, time, "000");
  }

  /** One row counts once when it was created since the cutoff, otherwise not at all. */
  lemma CountSinceCorrectedOne(x: StreamRecord, cutoffIso: string)
    ensures CountSinceCorrected([x], cutoffIso) == if CreatedSince(x, cutoffIso) then 1 else 0
  {
    assert [x][1..] == [];
  }

  /** 09:00 is before 10:00 on the same date. */
  lemma ExampleEarlier()
    ensures !LexLe("2024-06-09" + "10:00:00" + "000", "2024-06-09" + "09:00:00" + "000")
  {
    assert "2024-06-09" + "09:00:00" + "000" == "2024-06-09" + ['0'] + "9:00:00000";
    assert "2024-06-09" + "10:00:00" + "000" == "2024-06-09" + ['1'] + "0:00:00000";
    LexLtAtDifference("2024-06-09", '0', '1', "9:00:00000", "0:00:00000");
  }

  /** 11:00 is after 10:00 on the same date. */
  lemma ExampleLater()
    ensures LexLe("2024-06-09" + "10:00:00" + "000", "2024-06-09" + "11:00:00" + "000")
  {
    assert "2024-06-09" + "10:00:00" + "000" == "2024-06-091" + ['0'] + ":00:00000";
    assert "2024-06-09" + "11:00:00" + "000" == "2024-06-091" + ['1'] + ":00:00000";
    LexLtAtDifference("2024-06-091", '0', '1', ":00:00000", ":00:00000");
  }

  /**
   * An imported stream stamped at 09:00 on the cutoff's own date, an hour
   * before the cutoff, is left out of the corrected count; one at 11:00 is in.
   */
  lemma CorrectedImportExample(x: StreamRecord, y: StreamRecord)
    requires x.createdAt == Some("2024-06-09T09:00:00.000Z") && y.createdAt == Some("2024-06-09T11:00:00.000Z")
    ensures CountSinceCorrected([x], "2024-06-09T10:00:00.000Z") == 0
    ensures CountSinceCorrected([y], "2024-06-09T10:00:00.000Z") == 1
  {
    var cutoff := "2024-06-09T10:00:00.000Z";
    assert cutoff == IsoTimestamp("2024-06-09", "10:00:00", "000");
    assert x.createdAt.value == IsoTimestamp("2024-06-09", "09:00:00", "000");
    assert y.createdAt.value == IsoTimestamp("2024-06-09", "11:00:00", "000");
    CorrectedImportChronological(x, "2024-06-09", "09:00:00", "000", "2024-06-09", "10:00:00", "000");
    CorrectedImportChronological(y, "2024-06-09", "11:00:00", "000", "2024-06-09", "10:00:00", "000");
    ExampleEarlier();
    ExampleLater();
    CountSinceCorrectedOne(x, cutoff);
    CountSinceCorrectedOne(y, cutoff);
  }

  /** The numbers `getStats` returns. */
  datatype Stats = Stats(activeStreams: nat, completedStreams: nat, overdueStreams: nat, thisWeekStreams: nat)
}
