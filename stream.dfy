/**
 * The `/stream` command: the row `create` hands to the hosted insert (its
 * defaults and due date), the urgency band shown by `list` and `info`, and
 * which rows the `complete`, `list` and `info` subcommands report. The
 * hosted stream table is a sequence of rows passed in; its active-stream
 * query is the asking user's rows whose status is `'active'`, on the
 * current server when there is one, newest first.
 */
module Stream {
  import opened Wrappers
  import opened Calendar
  import opened Ordering
  import opened Query

  // ---------------------------------------------------------------------
  // Creation

  /** The row `create` hands to the insert; absent options are `None` (`null`). */
  datatype NewStream = NewStream(
    userId: string,
    serverId: Option<string>,
    itemName: string,
    creatorName: string,
    creatorId: Option<string>,
    agencyName: Option<string>,
    dueDate: int,
    priority: string,
    streamType: string,
    notes: Option<string>,
    status: string)

  /** `getString(name) || fallback`: an absent or empty option gives the fallback. */
  function OrDefault(option: Option<string>, fallback: string): (r: string)
    ensures option.Some? && option.value != "" ==> r == option.value
    ensures option.None? || option.value == "" ==> r == fallback
  {
    if option.Some? && option.value != "" then option.value else fallback
  }

  /**
   * `handleStreamCreate` up to the insert. `due_days` is limited to 1..7 by
   * the command's option; the due date is that many calendar days after
   * `now`, at the same time of day.
   */
  function Create(
    now: int, userId: string, serverId: Option<string>, itemName: string, creatorName: string,
    creatorId: Option<string>, agencyName: Option<string>, dueDays: int,
    priority: Option<string>, streamType: Option<string>, notes: Option<string>): (r: NewStream)
    requires 1 <= dueDays <= 7
    ensures r.status == "active"
    ensures r.priority == OrDefault(priority, "medium") && r.streamType == OrDefault(streamType, "showcase")
    ensures r.itemName == itemName && r.creatorName == creatorName && r.userId == userId && r.serverId == serverId
    ensures r.creatorId == creatorId && r.agencyName == agencyName && r.notes == notes
    ensures DayStart(r.dueDate) == DayStart(now) + dueDays * DAY && TimeOfDay(r.dueDate) == TimeOfDay(now)
    ensures now + DAY <= r.dueDate <= now + WEEK
  {
    NewStream(
      userId, serverId, itemName, creatorName, creatorId, agencyName, AddDays(now, dueDays),
      OrDefault(priority, "medium"), OrDefault(streamType, "showcase"), notes, "active")
  }

  // ---------------------------------------------------------------------
  // Urgency

  /**
   * `Math.ceil((due - now) / DAY)` on whole milliseconds: the least number
   * of days that reaches the due date.
   */
  function DaysLeft(due: int, now: int): (r: int)
    ensures (r - 1) * DAY < due - now <= r * DAY
  {
    var q := (now - due) / DAY;
    assert q * DAY <= now - due < q * DAY + DAY;
    -q
  }

  /** The ceiling is the unique whole number of days in that position. */
  lemma DaysLeftUnique(due: int, now: int, k: int)
    requires (k - 1) * DAY < due - now <= k * DAY
    ensures DaysLeft(due, now) == k
  {
  }

  datatype Urgency = Red | Yellow | Green

  /** Red within a day, yellow within three, green beyond. */
  function UrgencyOf(daysLeft: int): (u: Urgency)
    ensures u == Red <==> daysLeft <= 1
    ensures u == Yellow <==> 1 < daysLeft <= 3
    ensures u == Green <==> 3 < daysLeft
  {
    if daysLeft <= 1 then Red else if daysLeft <= 3 then Yellow else Green
  }

  /** Red is the most urgent band. */
  function Rank(u: Urgency): nat {
    match u
    case Red => 2
    case Yellow => 1
    case Green => 0
  }

  /** Fewer days left is never less urgent. */
  lemma UrgencyMonotone(d1: int, d2: int)
    requires d1 <= d2
    ensures Rank(UrgencyOf(d1)) >= Rank(UrgencyOf(d2))
  {
  }

  /** Right after `create`, the days left are exactly `due_days`, so the band is that of `due_days`. */
  lemma NewStreamUrgency(now: int, dueDays: int)
    requires 1 <= dueDays <= 7
    ensures DaysLeft(AddDays(now, dueDays), now) == dueDays
    ensures UrgencyOf(DaysLeft(AddDays(now, dueDays), now)) == UrgencyOf(dueDays)
  {
    DaysLeftUnique(AddDays(now, dueDays), now, dueDays);
  }

  // ---------------------------------------------------------------------
  // Reading streams back

  /** A hosted `streams` row as read back; `createdAt` is the text of its creation instant. */
  datatype StreamRow = StreamRow(
    id: int, userId: string, serverId: Option<string>, itemName: string, creatorName: string,
    status: string, dueDate: int, createdAt: string)

  /** `if (serverId)`: a missing or empty server id adds no server filter. */
  predicate AnyServer(serverId: Option<string>) {
    serverId.None? || serverId.value == ""
  }

  /** The active-stream query's `WHERE`: the user's own active rows, on the server when one is given. */
  predicate ActiveFor(x: StreamRow, userId: string, serverId: Option<string>) {
    x.userId == userId && x.status == "active" && (AnyServer(serverId) || x.serverId == serverId)
  }

  function ActiveTest(userId: string, serverId: Option<string>): StreamRow -> bool {
    x => ActiveFor(x, userId, serverId)
  }

  function CreatedKey(x: StreamRow): string {
    x.createdAt
  }

  /**
   * `getActiveStreams(userId, serverId)`: each of the user's active rows (on
   * that server when one is given) as often as it is stored and nothing
   * else, newest first.
   */
  function ActiveOf(rows: seq<StreamRow>, userId: string, serverId: Option<string>): (r: seq<StreamRow>)
    ensures forall x :: x in r <==> x in rows && ActiveFor(x, userId, serverId)
    ensures forall x :: multiset(r)[x] == if ActiveFor(x, userId, serverId) then multiset(rows)[x] else 0
    ensures SortedBy(r, CreatedKey, false)
  {
    var selected := Where(rows, ActiveTest(userId, serverId));
    var r := SortBy(selected, CreatedKey, false);
    assert forall x :: x in r <==> x in multiset(selected);
    r
  }

  /** `rows.find(s => s.id === id)`: the first row with that id. */
  function Find(rows: seq<StreamRow>, id: int): (r: Option<StreamRow>)
    ensures r.None? <==> forall k :: 0 <= k < |rows| ==> rows[k].id != id
    ensures r.Some? ==> r.value.id == id && exists k :: 0 <= k < |rows| && rows[k] == r.value &&
                                                  (forall j :: 0 <= j < k ==> rows[j].id != id)
  {
    if rows == [] then None
    else if rows[0].id == id then Some(rows[0])
    else Find(rows[1..], id)
  }

  datatype CompleteReply = NotFound | Completed(stream: StreamRow)

  /** `complete`: the first row the completion returned, or "not found" when it returned none. */
  function CompleteReplyOf(returned: seq<StreamRow>): (r: CompleteReply)
    ensures r.NotFound? <==> returned == []
    ensures r.Completed? ==> r.stream == returned[0]
  {
    if returned == [] then NotFound else Completed(returned[0])
  }

  /** `getString('status') || 'active'`: only the heading uses it. */
  function ListStatus(status: Option<string>): string {
    OrDefault(status, "active")
  }

  /** `list`: every choice runs the active-stream query for the user and the current server. */
  function Listed(rows: seq<StreamRow>, userId: string, serverId: Option<string>, status: Option<string>): (r: seq<StreamRow>)
    ensures forall x :: x in r ==> x.status == "active" && x.userId == userId
  {
    ActiveOf(rows, userId, serverId)
  }

  /** Asking for completed or overdue streams lists the active ones. */
  lemma ListIgnoresStatus(rows: seq<StreamRow>, userId: string, serverId: Option<string>, s1: Option<string>, s2: Option<string>)
    ensures Listed(rows, userId, serverId, s1) == Listed(rows, userId, serverId, s2) == ActiveOf(rows, userId, serverId)
  {
  }

  /** `info`: the first stream with that id among the user's active ones (newest first). */
  function Info(rows: seq<StreamRow>, userId: string, serverId: Option<string>, id: int): (r: Option<StreamRow>)
    ensures r.Some? ==> r.value.id == id && ActiveFor(r.value, userId, serverId) && r.value in rows
  {
    Find(ActiveOf(rows, userId, serverId), id)
  }

  /** A stream with no active row of this user (on this server) is "not found" by `info`, whoever else owns it. */
  lemma InfoMissesInactive(rows: seq<StreamRow>, userId: string, serverId: Option<string>, id: int)
    requires forall k :: 0 <= k < |rows| && rows[k].id == id ==> !ActiveFor(rows[k], userId, serverId)
    ensures Info(rows, userId, serverId, id) == None
  {
    var a := ActiveOf(rows, userId, serverId);
    forall k | 0 <= k < |a|
      ensures a[k].id != id
    {
      assert a[k] in rows;
    }
  }

  /** An active stream of the user (on this server) is always found by its id. */
  lemma InfoFindsActive(rows: seq<StreamRow>, userId: string, serverId: Option<string>, x: StreamRow)
    requires x in rows && ActiveFor(x, userId, serverId)
    ensures Info(rows, userId, serverId, x.id).Some?
  {
    var a := ActiveOf(rows, userId, serverId);
    assert x in a;
    var k :| 0 <= k < |a| && a[k] == x;
  }
}
