/** The client's bookings (`BookingsList`): the closed status enumeration
    with its colour and icon maps, the card's label, short id and Cancel
    button, and the fetch that loads the user's rows from the `bookings`
    table. */
module Bookings {
  import opened Common
  import opened Text
  import opened StatusBadge
  import TableQuery
  import Auth

  datatype Status = Pending | Confirmed | InProgress | Completed | Cancelled

  /** A `bookings` row; `createdAt` is the creation time as a number, so that
      the store's ordering is the order of integers. */
  datatype Booking = Booking(id: string, userId: string, equipmentItems: seq<string>, startDate: string,
                             endDate: string, status: Status, totalAmount: int, createdAt: int)

  /** The status as stored. */
  function StatusName(s: Status): string {
    match s
    case Pending => "pending"
    case Confirmed => "confirmed"
    case InProgress => "in_progress"
    case Completed => "completed"
    case Cancelled => "cancelled"
  }

  /** Reads a stored status; no value outside the five is a status. */
  function ParseStatus(name: string): (r: Option<Status>)
    ensures r.Some? ==> StatusName(r.value) == name
  {
    match name
    case "pending" => Some(Pending)
    case "confirmed" => Some(Confirmed)
    case "in_progress" => Some(InProgress)
    case "completed" => Some(Completed)
    case "cancelled" => Some(Cancelled)
    case _ => None
  }

  lemma StatusRoundTrip(s: Status)
    ensures ParseStatus(StatusName(s)) == Some(s)
  {
  }

  /** `statusColors`: five statuses, five different colours. */
  function StatusTone(s: Status): (t: Tone)
    ensures t == Yellow <==> s == Pending
    ensures t == Blue <==> s == Confirmed
    ensures t == Green <==> s == InProgress
    ensures t == Gray <==> s == Completed
    ensures t == Red <==> s == Cancelled
  {
    match s
    case Pending => Yellow
    case Confirmed => Blue
    case InProgress => Green
    case Completed => Gray
    case Cancelled => Red
  }

  lemma TonesDistinct(a: Status, b: Status)
    ensures StatusTone(a) == StatusTone(b) <==> a == b
  {
  }

  /** `statusIcons`. */
  function StatusIcon(s: Status): (i: Icon)
    ensures i == ClockIcon <==> s == Pending
    ensures i == CheckCircleIcon <==> s == Confirmed || s == Completed
    ensures i == CalendarDaysIcon <==> s == InProgress
    ensures i == XCircleIcon <==> s == Cancelled
    ensures i != DocumentTextIcon
  {
    match s
    case Pending => ClockIcon
    case Confirmed => CheckCircleIcon
    case InProgress => CalendarDaysIcon
    case Completed => CheckCircleIcon
    case Cancelled => XCircleIcon
  }

  /** Confirmed and completed bookings share the check-circle icon; every
      other pair of statuses has different icons. */
  lemma SharedIcons(a: Status, b: Status)
    ensures a != b && StatusIcon(a) == StatusIcon(b) <==> {a, b} == {Confirmed, Completed}
  {
    if {a, b} == {Confirmed, Completed} {
      assert a in {Confirmed, Completed} && b in {Confirmed, Completed};
    }
  }

  /** `status.replace('_', ' ').toUpperCase()`: the stored name in upper case,
      its underscore (a status name has at most one) shown as a space. */
  function StatusLabel(s: Status): (r: string)
    ensures |r| == |StatusName(s)|
    ensures forall k :: 0 <= k < |r| ==> r[k] == if StatusName(s)[k] == '_' then ' ' else UpperChar(StatusName(s)[k])
  {
    var name := StatusName(s);
    OneUnderscore(s);
    ReplaceFirstReplacesAll(name, '_', ' ');
    ToUpper(ReplaceFirst(name, '_', ' '))
  }

  lemma OneUnderscore(s: Status)
    ensures AtMostOnce(StatusName(s), '_')
  {
    if s == InProgress {
      assert StatusName(s) == "in" + "_" + "progress";
    }
  }

  lemma InProgressLabel()
    ensures StatusLabel(InProgress) == "IN PROGRESS"
  {
    SpacedInProgress();
    UpperInProgress();
  }

  lemma SpacedInProgress()
    ensures ReplaceFirst("in_progress", '_', ' ') == "in progress"
  {
    var before, after := "in", "progress";
    assert before + "_" + after == "in_progress";
    assert before + " " + after == "in progress";
    ReplaceFirstSplit(before, '_', after, ' ');
  }

  lemma UpperInProgress()
    ensures ToUpper("in progress") == "IN PROGRESS"
  {
    var s := "in progress";
    var r := ToUpper(s);
    assert |r| == 11;
    assert r[0] == UpperChar('i') == 'I';
    assert r[1] == UpperChar('n') == 'N';
    assert r[2] == ' ';
    assert r[3] == UpperChar('p') == 'P';
    assert r[4] == UpperChar('r') == 'R';
    assert r[5] == UpperChar('o') == 'O';
    assert r[6] == UpperChar('g') == 'G';
    assert r[7] == UpperChar('r') == 'R';
    assert r[8] == UpperChar('e') == 'E';
    assert r[9] == UpperChar('s') == 'S';
    assert r[10] == UpperChar('s') == 'S';
  }

  /** The card header: `Booking #` and the first eight characters of the id. */
  function Header(b: Booking): (r: string)
    ensures |r| == 9 + if |b.id| < 8 then |b.id| else 8
    ensures r[..9] == "Booking #" && r[9..] <= b.id
  {
    "Booking #" + Slice(b.id, 8)
  }

  /** What one booking's card shows. */
  datatype Card = Card(header: string, badge: string, tone: Tone, icon: Icon, itemCount: nat, showCancel: bool)

  /** A booking's card: header, status badge, number of items, and the Cancel
      button only for a pending booking. */
  function CardOf(b: Booking): (c: Card)
    ensures c.showCancel <==> b.status == Pending
    ensures c.header == Header(b) && c.badge == StatusLabel(b.status)
    ensures c.tone == StatusTone(b.status) && c.icon == StatusIcon(b.status)
    ensures c.itemCount == |b.equipmentItems|
  {
    Card(Header(b), StatusLabel(b.status), StatusTone(b.status), StatusIcon(b.status),
         |b.equipmentItems|, b.status == Pending)
  }

  function Owner(b: Booking): string { b.userId }

  function CreatedAt(b: Booking): int { b.createdAt }

  /** The `bookings` table's text columns a filter can name. */
  function Columns(name: string): Option<Booking -> string> {
    if name == "id" then Some((b: Booking) => b.id)
    else if name == "user_id" then Some(Owner)
    else if name == "status" then Some((b: Booking) => StatusName(b.status))
    else None
  }

  /** The `bookings` table's timestamp columns an order can name. */
  function Times(name: string): Option<Booking -> int> {
    if name == "created_at" then Some(CreatedAt) else None
  }

  /** The query `fetchBookings` sends for user `uid`. */
  function Request(uid: string): (r: TableQuery.Request)
    ensures r.table == "bookings" && Columns(r.column) == Some(Owner) && r.value == uid
    ensures Times(r.orderBy) == Some(CreatedAt) && !r.ascending
  {
    TableQuery.Request("bookings", "user_id", uid, "created_at", false)
  }

  /** When the store answers the query `Request(uid)` correctly, the list
      holds exactly the user's rows of the `bookings` table, newest first; a user
      without bookings gets an empty list. */
  lemma FetchedBookingsAreTheUsers(store: map<string, seq<Booking>>, uid: string, current: seq<Booking>,
                                   backend: TableQuery.Request -> TableQuery.Response<Booking>)
    requires TableQuery.Answers(store, Columns, Times, Request(uid), backend(Request(uid)))
    ensures "bookings" in store
    ensures forall b :: b in TableQuery.Received(current, backend(Request(uid))) ==> b.userId == uid && b in store["bookings"]
    ensures forall b :: b in store["bookings"] && b.userId == uid ==> b in TableQuery.Received(current, backend(Request(uid)))
    ensures TableQuery.NewestFirst(TableQuery.Received(current, backend(Request(uid))), CreatedAt)
    ensures (forall b :: b in store["bookings"] ==> b.userId != uid) ==> TableQuery.Received(current, backend(Request(uid))) == []
  {
    var req := Request(uid);
    var answer := backend(req).data.value;
    assert Columns(req.column) == Some(Owner) && Times(req.orderBy) == Some(CreatedAt);
    assert TableQuery.SortKey(CreatedAt, req.ascending) == CreatedAt;
    TableQuery.AnswerHoldsExactlyOwnRows(store["bookings"], Owner, CreatedAt, uid, answer);
    if forall b :: b in store["bookings"] ==> b.userId != uid {
      TableQuery.NoRowsGivesEmptyAnswer(store["bookings"], Owner, CreatedAt, uid, answer);
    }
  }

  class BookingsList {
    var bookings: seq<Booking>
    var loading: bool

    constructor ()
      ensures bookings == [] && loading
    {
      bookings := [];
      loading := true;
    }

    /** `fetchBookings`: without a user it returns at once and the spinner
        stays; otherwise the answer (or `[]` for no data) replaces the list
        unless the query failed, and `loading` is cleared in `finally`. */
    method FetchBookings(user: Option<Auth.User>, backend: TableQuery.Request -> TableQuery.Response<Booking>)
      modifies this
      ensures user.None? ==> bookings == old(bookings) && loading == old(loading)
      ensures user.Some? ==> !loading
      ensures user.Some? ==> bookings == TableQuery.Received(old(bookings), backend(Request(user.value.id)))
    {
      if user.None? {
        return;
      }
      var resp := backend(Request(user.value.id));
      if resp.error.None? {
        bookings := resp.data.GetOr([]);
      }
      loading := false;
    }
  }

  /** Without a signed-in user the page never gets past its spinner. */
  method SpinnerWithoutUser(backend: TableQuery.Request -> TableQuery.Response<Booking>) returns (s: TableQuery.ListScreen<Booking>)
    ensures s == TableQuery.Loading
  {
    var list := new BookingsList();
    list.FetchBookings(None, backend);
    s := TableQuery.ScreenOf(list.loading, list.bookings);
  }
}
