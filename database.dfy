/**
 * `DatabaseManager`: the desktop app's SQLite store as one object holding
 * its tables. Each table is a sequence of rows in rowid order, next to the
 * largest id its `AUTOINCREMENT` counter has handed out. A statement that
 * throws leaves the tables as they were (each runs in its own implicit
 * transaction, the import in an explicit one). `CURRENT_TIMESTAMP` and the
 * import's `new Date().toISOString()` are parameters.
 */
module DesktopDatabase {
  import opened Wrappers
  import opened Ordering
  import opened AgencyTemplates
  import opened DesktopRecords

  /** The column every update key names. */
  predicate KnownColumns(updates: map<string, Option<string>>) {
    forall k :: k in updates ==> ColumnNamed(k).Some?
  }

  /** The update keys as columns. */
  function Assignments(updates: map<string, Option<string>>): (u: map<StreamColumn, Option<string>>)
    ensures forall c :: c in u <==> ColumnName(c) in updates
    ensures forall c :: c in u ==> u[c] == updates[ColumnName(c)]
  {
    var u := map k | k in updates && ColumnNamed(k).Some? :: ColumnNamed(k).value := updates[k];
    assert forall c :: ColumnName(c) in updates ==> c in u by {
      forall c | ColumnName(c) in updates ensures c in u {
        ColumnNamedName(c);
      }
    }
    u
  }

  /**
   * What `updateStream(id, updates)` returns or throws on `rows`: no keys
   * make `SET  WHERE` a syntax error; an unknown key is no such column; a
   * required text set to `NULL` on an existing row violates `NOT NULL`;
   * otherwise whether a row has the id.
   */
  function UpdateOutcome(rows: seq<StreamRecord>, id: int, updates: map<string, Option<string>>): (r: Outcome<bool>)
    ensures |updates| == 0 ==> r == Throws(SyntaxError)
    ensures |updates| > 0 && !KnownColumns(updates) ==> r == Throws(NoSuchColumn)
    ensures |updates| > 0 && KnownColumns(updates) ==>
      (r == Throws(NotNullConstraint) <==> HasId(rows, id) && !Assignable(Assignments(updates)))
    ensures r.Done? ==> r.value == HasId(rows, id) && |updates| > 0 && KnownColumns(updates)
    ensures r == Done(true) ==> Assignable(Assignments(updates))
  {
    if |updates| == 0 then Throws(SyntaxError)
    else if !KnownColumns(updates) then Throws(NoSuchColumn)
    else if !HasId(rows, id) then Done(false)
    else if !Assignable(Assignments(updates)) then Throws(NotNullConstraint)
    else Done(true)
  }

  /**
   * The import loop inside the transaction: each record becomes the row its
   * insert would store, ids counting up from `first`; the first record
   * missing a required column stops the loop.
   */
  method StageImport(input: seq<StreamInput>, first: int, nowIso: string) returns (staged: Option<seq<StreamRecord>>)
    ensures staged.None? <==> exists k :: 0 <= k < |input| && !StreamInsertable(input[k])
    ensures staged.Some? ==>
      (forall k :: 0 <= k < |input| ==> StreamInsertable(input[k])) && staged.value == ImportRows(input, first, nowIso)
  {
    var rows: seq<StreamRecord> := [];
    var i := 0;
    while i < |input|
      invariant 0 <= i <= |input| && |rows| == i
      invariant forall k :: 0 <= k < i ==> StreamInsertable(input[k])
      invariant forall k :: 0 <= k < i ==> rows[k] == ImportRow(input[k], first + k, nowIso)
    {
      if !StreamInsertable(input[i]) {
        return None;
      }
      rows := rows + [ImportRow(input[i], first + i, nowIso)];
      i := i + 1;
    }
    ImportRowsAt(input, first, nowIso);
    assert rows == ImportRows(input, first, nowIso);
    staged := Some(rows);
  }

  class DatabaseManager {
    var streams: seq<StreamRecord>
    var schedules: seq<ScheduleRecord>
    var captions: seq<CaptionRecord>
    var reviews: seq<ReviewRecord>
    var templates: seq<TemplateRow>
    var streamSeq: int
    var scheduleSeq: int
    var captionSeq: int
    var reviewSeq: int
    var templateSeq: int

    /** Every table is keyed by its counter. */
    ghost predicate Valid()
      reads this
    {
      Keyed(streams, StreamId, streamSeq) && Keyed(schedules, ScheduleId, scheduleSeq)
      && Keyed(captions, CaptionId, captionSeq) && Keyed(reviews, ReviewId, reviewSeq)
      && Keyed(templates, TemplateId, templateSeq)
    }

    /** `constructor` and `createTables` on a new file: empty tables, then the template seeding. */
    constructor ()
      ensures Valid()
      ensures streams == [] && schedules == [] && captions == [] && reviews == []
      ensures templateSeq == 2 && templates == SeedRows(templateSeq - 2, 2)
    {
      streams, schedules, captions, reviews, templates := [], [], [], [], [];
      streamSeq, scheduleSeq, captionSeq, reviewSeq, templateSeq := 0, 0, 0, 0, 0;
      new;
      InsertDefaultTemplates();
    }

    /**
     * `insertDefaultTemplates`: nothing when the table has any row (active or
     * not); otherwise the two seeded rows, inserted in a loop, so a second
     * call changes nothing.
     */
    method InsertDefaultTemplates()
      requires Valid()
      modifies this`templates, this`templateSeq
      ensures Valid()
      ensures old(|templates|) > 0 ==> templates == old(templates) && templateSeq == old(templateSeq)
      ensures old(|templates|) == 0 ==>
        templates == SeedRows(old(templateSeq), 2) && templateSeq == old(templateSeq) + 2 && |templates| > 0
    {
      if |templates| > 0 {
        return;
      }
      var k := 0;
      while k < 2
        invariant 0 <= k <= 2
        invariant templates == SeedRows(old(templateSeq), k) && templateSeq == old(templateSeq) + k
        invariant Keyed(templates, TemplateId, templateSeq)
      {
        var row := SeedRow(k, templateSeq + 1);
        KeyedAppend(templates, TemplateId, templateSeq, row);
        templates := templates + [row];
        templateSeq := templateSeq + 1;
        k := k + 1;
      }
    }

    // -------------------------------------------------------------------
    // Streams

    /** `SELECT * FROM streams ORDER BY created_at DESC`. */
    function GetStreams(): (r: seq<StreamRecord>)
      reads this
      ensures multiset(r) == multiset(streams)
      ensures SortedBy(r, StreamCreatedKey, false)
    {
      SortBy(streams, StreamCreatedKey, false)
    }

    /** `getStream(id)`: the row with that id, if any. */
    function GetStream(id: int): (r: Option<StreamRecord>)
      reads this
      ensures r.None? <==> !HasId(streams, id)
      ensures r.Some? ==> r.value in streams && r.value.id == id
    {
      RowWithId(streams, id)
    }

    /**
     * `createStream`: a record missing a required text violates `NOT NULL`;
     * otherwise one row with the next id, and the caller's record with that id.
     */
    method CreateStream(data: StreamInput, now: string) returns (r: Outcome<Created<StreamInput>>)
      requires Valid()
      modifies this`streams, this`streamSeq
      ensures Valid()
      ensures r.Throws? <==> !StreamInsertable(data)
      ensures r.Throws? ==> r.error == NotNullConstraint && streams == old(streams) && streamSeq == old(streamSeq)
      ensures r.Done? ==> streamSeq == old(streamSeq) + 1 && streams == old(streams) + [CreateRow(data, streamSeq, now)]
      ensures r.Done? ==> r.value == Created(ReturnedId(data.id, streamSeq), data)
    {
      if !StreamInsertable(data) {
        return Throws(NotNullConstraint);
      }
      var row := CreateRow(data, streamSeq + 1, now);
      KeyedAppend(streams, StreamId, streamSeq, row);
      streams := streams + [row];
      streamSeq := streamSeq + 1;
      r := Done(Created(ReturnedId(data.id, streamSeq), data));
    }

    /**
     * `updateStream(id, updates)`: the statement's outcome; when it reports a
     * changed row, the named columns of the row with the id are set.
     */
    method UpdateStream(id: int, updates: map<string, Option<string>>) returns (r: Outcome<bool>)
      requires Valid()
      requires "id" !in updates
      modifies this`streams
      ensures Valid()
      ensures r == UpdateOutcome(old(streams), id, updates)
      ensures r == Done(true) ==> streams == UpdateRows(old(streams), id, Assignments(updates))
      ensures r != Done(true) ==> streams == old(streams)
    {
      r := UpdateOutcome(streams, id, updates);
      if r == Done(true) {
        var updated := UpdateRows(streams, id, Assignments(updates));
        KeyedSameIds(streams, updated, streamSeq);
        streams := updated;
      }
    }

    /** `deleteStream(id)`: the row goes, the others stay in order; true iff there was one. */
    method DeleteStream(id: int) returns (changed: bool)
      requires Valid()
      modifies this`streams
      ensures Valid()
      ensures changed == HasId(old(streams), id)
      ensures streams == WithoutId(old(streams), id)
      ensures !HasId(streams, id)
      ensures forall x :: x in old(streams) && x.id != id ==> x in streams
    {
      changed := RowWithId(streams, id).Some?;
      KeyedWithout(streams, id, streamSeq);
      streams := WithoutId(streams, id);
    }

    /** `completeStream(id)`: that row becomes completed, stamped `now`; true iff there was one. */
    method CompleteStream(id: int, now: string) returns (changed: bool)
      requires Valid()
      modifies this`streams
      ensures Valid()
      ensures changed == HasId(old(streams), id)
      ensures streams == CompleteRows(old(streams), id, now)
    {
      changed := RowWithId(streams, id).Some?;
      var done := CompleteRows(streams, id, now);
      KeyedSameIds(streams, done, streamSeq);
      streams := done;
    }

    /**
     * `importStreams`: all records in one transaction. A record missing a
     * required text throws and rolls everything back; otherwise every record
     * is inserted, in order, under the next ids.
     */
    method ImportStreams(input: seq<StreamInput>, nowIso: string) returns (failure: Option<DbError>)
      requires Valid()
      modifies this`streams, this`streamSeq
      ensures Valid()
      ensures failure.None? <==> forall k :: 0 <= k < |input| ==> StreamInsertable(input[k])
      ensures failure.Some? ==> failure.value == NotNullConstraint && streams == old(streams) && streamSeq == old(streamSeq)
      ensures failure.None? ==>
        streams == old(streams) + ImportRows(input, old(streamSeq) + 1, nowIso) && streamSeq == old(streamSeq) + |input|
    {
      var staged := StageImport(input, streamSeq + 1, nowIso);
      if staged.None? {
        return Some(NotNullConstraint);
      }
      ImportKeepsKeyed(streams, streamSeq, input, nowIso);
      streams := streams + staged.value;
      streamSeq := streamSeq + |input|;
      failure := None;
    }

    // -------------------------------------------------------------------
    // Schedules, captions, reviews

    /** `SELECT * FROM schedules ORDER BY week_start DESC`. */
    function GetSchedules(): (r: seq<ScheduleRecord>)
      reads this
      ensures multiset(r) == multiset(schedules)
      ensures SortedBy(r, ScheduleWeekKey, false)
    {
      SortBy(schedules, ScheduleWeekKey, false)
    }

    /** `createSchedule`: the week bounds are required. */
    method CreateSchedule(data: ScheduleInput, now: string) returns (r: Outcome<Created<ScheduleInput>>)
      requires Valid()
      modifies this`schedules, this`scheduleSeq
      ensures Valid()
      ensures r.Throws? <==> !ScheduleInsertable(data)
      ensures r.Throws? ==> r.error == NotNullConstraint && schedules == old(schedules) && scheduleSeq == old(scheduleSeq)
      ensures r.Done? ==>
        scheduleSeq == old(scheduleSeq) + 1 && schedules == old(schedules) + [ScheduleRow(data, scheduleSeq, now)]
      ensures r.Done? ==> r.value == Created(ReturnedId(data.id, scheduleSeq), data)
    {
      if !ScheduleInsertable(data) {
        return Throws(NotNullConstraint);
      }
      var row := ScheduleRow(data, scheduleSeq + 1, now);
      KeyedAppend(schedules, ScheduleId, scheduleSeq, row);
      schedules := schedules + [row];
      scheduleSeq := scheduleSeq + 1;
      r := Done(Created(ReturnedId(data.id, scheduleSeq), data));
    }

    /** `getCaptions(streamId)`: one stream's captions, or all for a missing or zero id, newest first. */
    function GetCaptions(streamId: Option<int>): (r: seq<CaptionRecord>)
      reads this
      ensures forall x :: x in r <==> x in captions && (SelectsAll(streamId) || x.streamId == streamId)
      ensures forall x :: multiset(r)[x] == if SelectsAll(streamId) || x.streamId == streamId then multiset(captions)[x] else 0
      ensures SortedBy(r, CaptionCreatedKey, false)
    {
      var selected := ForStream(captions, CaptionStream, streamId);
      var r := SortBy(selected, CaptionCreatedKey, false);
      assert forall x :: x in r <==> x in multiset(selected);
      r
    }

    /** `createCaption`: the platform and the text are required. */
    method CreateCaption(data: CaptionInput, now: string) returns (r: Outcome<Created<CaptionInput>>)
      requires Valid()
      modifies this`captions, this`captionSeq
      ensures Valid()
      ensures r.Throws? <==> !CaptionInsertable(data)
      ensures r.Throws? ==> r.error == NotNullConstraint && captions == old(captions) && captionSeq == old(captionSeq)
      ensures r.Done? ==> captionSeq == old(captionSeq) + 1 && captions == old(captions) + [CaptionRow(data, captionSeq, now)]
      ensures r.Done? ==> r.value == Created(ReturnedId(data.id, captionSeq), data)
    {
      if !CaptionInsertable(data) {
        return Throws(NotNullConstraint);
      }
      var row := CaptionRow(data, captionSeq + 1, now);
      KeyedAppend(captions, CaptionId, captionSeq, row);
      captions := captions + [row];
      captionSeq := captionSeq + 1;
      r := Done(Created(ReturnedId(data.id, captionSeq), data));
    }

    /** `getReviews(streamId)`: one stream's reviews, or all for a missing or zero id, newest first. */
    function GetReviews(streamId: Option<int>): (r: seq<ReviewRecord>)
      reads this
      ensures forall x :: x in r <==> x in reviews && (SelectsAll(streamId) || x.streamId == streamId)
      ensures forall x :: multiset(r)[x] == if SelectsAll(streamId) || x.streamId == streamId then multiset(reviews)[x] else 0
      ensures SortedBy(r, ReviewCreatedKey, false)
    {
      var selected := ForStream(reviews, ReviewStream, streamId);
      var r := SortBy(selected, ReviewCreatedKey, false);
      assert forall x :: x in r <==> x in multiset(selected);
      r
    }

    /** `createReview`: the item name and the text are required. */
    method CreateReview(data: ReviewInput, now: string) returns (r: Outcome<Created<ReviewInput>>)
      requires Valid()
      modifies this`reviews, this`reviewSeq
      ensures Valid()
      ensures r.Throws? <==> !ReviewInsertable(data)
      ensures r.Throws? ==> r.error == NotNullConstraint && reviews == old(reviews) && reviewSeq == old(reviewSeq)
      ensures r.Done? ==> reviewSeq == old(reviewSeq) + 1 && reviews == old(reviews) + [ReviewRow(data, reviewSeq, now)]
      ensures r.Done? ==> r.value == Created(ReturnedId(data.id, reviewSeq), data)
    {
      if !ReviewInsertable(data) {
        return Throws(NotNullConstraint);
      }
      var row := ReviewRow(data, reviewSeq + 1, now);
      KeyedAppend(reviews, ReviewId, reviewSeq, row);
      reviews := reviews + [row];
      reviewSeq := reviewSeq + 1;
      r := Done(Created(ReturnedId(data.id, reviewSeq), data));
    }

    // -------------------------------------------------------------------
    // Templates and statistics

    /** `getAgencyTemplates`: the active rows by agency name. */
    function GetAgencyTemplates(): (r: seq<TemplateRow>)
      reads this
      ensures forall x :: x in r <==> x in templates && x.isActive
      ensures forall x :: multiset(r)[x] == if x.isActive then multiset(templates)[x] else 0
      ensures SortedBy(r, TemplateNameKey, true)
    {
      var active := ActiveTemplates(templates);
      var r := SortBy(active, TemplateNameKey, true);
      assert forall x :: x in r <==> x in multiset(active);
      r
    }

    /** `getAgencyTemplate(name)`: the first active row with exactly that name, else nothing. */
    function GetAgencyTemplate(name: string): (r: Option<TemplateRow>)
      reads this
      ensures r.None? <==> forall x :: x in templates ==> !(x.agencyName == name && x.isActive)
      ensures r.Some? ==> r.value in templates && r.value.agencyName == name && r.value.isActive
    {
      FirstActive(templates, name)
    }

    /**
     * `getStats`, with the week's streams counted against the cutoff in the
     * column's own format (`cutoffIso` is the ISO text of the week start).
     */
    function GetStats(cutoffIso: string): (s: Stats)
      reads this
      ensures s.activeStreams + s.completedStreams + s.overdueStreams <= |streams|
      ensures s.thisWeekStreams <= |streams|
      ensures s.thisWeekStreams == CountSinceCorrected(streams, cutoffIso)
      ensures s.activeStreams == CountStatus(streams, "active") && s.completedStreams == CountStatus(streams, "completed")
      ensures s.overdueStreams == CountStatus(streams, "overdue")
    {
      StatusCountsBounded(streams, "active", "completed", "overdue");
      Stats(CountStatus(streams, "active"), CountStatus(streams, "completed"), CountStatus(streams, "overdue"),
            CountSinceCorrected(streams, cutoffIso))
    }
  }
}
