/** The client's quotes (`QuotesList`): the closed status enumeration with
    its colour and icon maps, the card's label and conditional fields, and the
    fetch that loads the user's rows from the `quotes` table. */
module Quotes {
  import opened Common
  import opened Text
  import opened StatusBadge
  import TableQuery
  import Auth

  datatype Status = Draft | Sent | Approved | Rejected | Expired

  /** A `quotes` row; amounts are whole numbers and `createdAt` is the creation
      time as a number. */
  datatype Quote = Quote(id: string, userId: string, serviceType: string, projectDescription: string,
                         estimatedAmount: Option<int>, status: Status, createdAt: int, validUntil: Option<string>)

  /** The status as stored. */
  function StatusName(s: Status): string {
    match s
    case Draft => "draft"
    case Sent => "sent"
    case Approved => "approved"
    case Rejected => "rejected"
    case Expired => "expired"
  }

  /** Reads a stored status; no value outside the five is a status. */
  function ParseStatus(name: string): (r: Option<Status>)
    ensures r.Some? ==> StatusName(r.value) == name
  {
    match name
    case "draft" => Some(Draft)
    case "sent" => Some(Sent)
    case "approved" => Some(Approved)
    case "rejected" => Some(Rejected)
    case "expired" => Some(Expired)
    case _ => None
  }

  lemma StatusRoundTrip(s: Status)
    ensures ParseStatus(StatusName(s)) == Some(s)
  {
  }

  /** `statusColors`. */
  function StatusTone(s: Status): (t: Tone)
    ensures t == Gray <==> s == Draft
    ensures t == Blue <==> s == Sent
    ensures t == Green <==> s == Approved
    ensures t == Red <==> s == Rejected
    ensures t == Yellow <==> s == Expired
  {
    match s
    case Draft => Gray
    case Sent => Blue
    case Approved => Green
    case Rejected => Red
    case Expired => Yellow
  }

  lemma TonesDistinct(a: Status, b: Status)
    ensures StatusTone(a) == StatusTone(b) <==> a == b
  {
  }

  /** `statusIcons`. */
  function StatusIcon(s: Status): (i: Icon)
    ensures i == DocumentTextIcon <==> s == Draft
    ensures i == ClockIcon <==> s == Sent || s == Expired
    ensures i == CheckCircleIcon <==> s == Approved
    ensures i == XCircleIcon <==> s == Rejected
    ensures i != CalendarDaysIcon
  {
    match s
    case Draft => DocumentTextIcon
    case Sent => ClockIcon
    case Approved => CheckCircleIcon
    case Rejected => XCircleIcon
    case Expired => ClockIcon
  }

  /** Sent and expired quotes share the clock icon; every other pair of
      statuses has different icons. */
  lemma SharedIcons(a: Status, b: Status)
    ensures a != b && StatusIcon(a) == StatusIcon(b) <==> {a, b} == {Sent, Expired}
  {
    if {a, b} == {Sent, Expired} {
      assert a in {Sent, Expired} && b in {Sent, Expired};
    }
  }

  /** `status.toUpperCase()`. */
  function StatusLabel(s: Status): (r: string)
    ensures |r| == |StatusName(s)|
    ensures forall k :: 0 <= k < |r| ==> 'A' <= r[k] <= 'Z' && r[k] as int == StatusName(s)[k] as int - 32
  {
    var name := StatusName(s);
    assert forall k :: 0 <= k < |name| ==> 'a' <= name[k] <= 'z';
    ToUpper(name)
  }

  /** What one quote's card shows; an absent field is not rendered. */
  datatype Card = Card(title: string, badge: string, tone: Tone, icon: Icon, amount: Option<int>,
                       validUntil: Option<string>, showAccept: bool)

  /** A quote's card. The amount is guarded by JavaScript truthiness, so a
      missing amount and an amount of 0 are both hidden; a missing or empty
      validity date is hidden; the Accept button is only for an approved quote. */
  function CardOf(q: Quote): (c: Card)
    ensures c.amount.Some? <==> q.estimatedAmount.Some? && q.estimatedAmount.value != 0
    ensures c.amount.Some? ==> c.amount == q.estimatedAmount
    ensures c.validUntil.Some? <==> q.validUntil.Some? && q.validUntil.value != ""
    ensures c.validUntil.Some? ==> c.validUntil == q.validUntil
    ensures c.showAccept <==> q.status == Approved
    ensures c.title == q.serviceType && c.badge == StatusLabel(q.status)
    ensures c.tone == StatusTone(q.status) && c.icon == StatusIcon(q.status)
  {
    var amount := if q.estimatedAmount.Some? && q.estimatedAmount.value != 0 then q.estimatedAmount else None;
    var validUntil := if q.validUntil.Some? && q.validUntil.value != "" then q.validUntil else None;
    Card(q.serviceType, StatusLabel(q.status), StatusTone(q.status), StatusIcon(q.status), amount, validUntil,
         q.status == Approved)
  }

  function Owner(q: Quote): string { q.userId }

  function CreatedAt(q: Quote): int { q.createdAt }

  /** The `quotes` table's text columns a filter can name. */
  function Columns(name: string): Option<Quote -> string> {
    if name == "id" then Some((q: Quote) => q.id)
    else if name == "user_id" then Some(Owner)
    else if name == "status" then Some((q: Quote) => StatusName(q.status))
    else None
  }

  /** The `quotes` table's timestamp columns an order can name. */
  function Times(name: string): Option<Quote -> int> {
    if name == "created_at" then Some(CreatedAt) else None
  }

  /** The query `fetchQuotes` sends for user `uid`. */
  function Request(uid: string): (r: TableQuery.Request)
    ensures r.table == "quotes" && Columns(r.column) == Some(Owner) && r.value == uid
    ensures Times(r.orderBy) == Some(CreatedAt) && !r.ascending
  {
    TableQuery.Request("quotes", "user_id", uid, "created_at", false)
  }

  /** When the store answers the query `Request(uid)` correctly, the list
      holds exactly the user's rows of the `quotes` table, newest first; a user
      without quotes gets an empty list. */
  lemma FetchedQuotesAreTheUsers(store: map<string, seq<Quote>>, uid: string, current: seq<Quote>,
                                   backend: TableQuery.Request -> TableQuery.Response<Quote>)
    requires TableQuery.Answers(store, Columns, Times, Request(uid), backend(Request(uid)))
    ensures "quotes" in store
    ensures forall q :: q in TableQuery.Received(current, backend(Request(uid))) ==> q.userId == uid && q in store["quotes"]
    ensures forall q :: q in store["quotes"] && q.userId == uid ==> q in TableQuery.Received(current, backend(Request(uid)))
    ensures TableQuery.NewestFirst(TableQuery.Received(current, backend(Request(uid))), CreatedAt)
    ensures (forall q :: q in store["quotes"] ==> q.userId != uid) ==> TableQuery.Received(current, backend(Request(uid))) == []
  {
    var req := Request(uid);
    var answer := backend(req).data.value;
    assert Columns(req.column) == Some(Owner) && Times(req.orderBy) == Some(CreatedAt);
    assert TableQuery.SortKey(CreatedAt, req.ascending) == CreatedAt;
    TableQuery.AnswerHoldsExactlyOwnRows(store["quotes"], Owner, CreatedAt, uid, answer);
    if forall q :: q in store["quotes"] ==> q.userId != uid {
      TableQuery.NoRowsGivesEmptyAnswer(store["quotes"], Owner, CreatedAt, uid, answer);
    }
  }

  class QuotesList {
    var quotes: seq<Quote>
    var loading: bool

    constructor ()
      ensures quotes == [] && loading
    {
      quotes := [];
      loading := true;
    }

    /** `fetchQuotes`: without a user it returns at once and the spinner
        stays; otherwise the answer (or `[]` for no data) replaces the list
        unless the query failed, and `loading` is cleared in `finally`. */
    method FetchQuotes(user: Option<Auth.User>, backend: TableQuery.Request -> TableQuery.Response<Quote>)
      modifies this
      ensures user.None? ==> quotes == old(quotes) && loading == old(loading)
      ensures user.Some? ==> !loading
      ensures user.Some? ==> quotes == TableQuery.Received(old(quotes), backend(Request(user.value.id)))
    {
      if user.None? {
        return;
      }
      var resp := backend(Request(user.value.id));
      if resp.error.None? {
        quotes := resp.data.GetOr([]);
      }
      loading := false;
    }
  }

  /** Without a signed-in user the page never gets past its spinner. */
  method SpinnerWithoutUser(backend: TableQuery.Request -> TableQuery.Response<Quote>) returns (s: TableQuery.ListScreen<Quote>)
    ensures s == TableQuery.Loading
  {
    var list := new QuotesList();
    list.FetchQuotes(None, backend);
    s := TableQuery.ScreenOf(list.loading, list.quotes);
  }
}
