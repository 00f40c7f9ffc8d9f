/** List endpoints: the pages of a listing, and the agreement of `findAll` with `findOne`. */
module Pagination {
  import opened Domain
  import opened Tickets

  datatype Query = Query(page: Option<nat>, limit: Option<nat>)

  function PageOf(q: Query): nat {
    if q.page.Some? then q.page.value else 1
  }

  function LimitOf(q: Query): nat {
    if q.limit.Some? then q.limit.value else 20
  }

  datatype PageArgs = PageArgs(skip: int, take: nat)

  function ToPage(q: Query): PageArgs {
    PageArgs((PageOf(q) - 1) * LimitOf(q), LimitOf(q))
  }

  function Min(a: int, b: int): int {
    if a < b then a else b
  }

  /** `findMany` with `skip` and `take`. */
  function Slice<T>(rows: seq<T>, args: PageArgs): seq<T>
    requires args.skip >= 0
  {
    rows[Min(args.skip, |rows|)..Min(args.skip + args.take, |rows|)]
  }

  datatype Meta = Meta(page: nat, limit: nat, total: nat, totalPages: nat)

  /** Math.max(1, Math.ceil(total / limit)). */
  function TotalPages(total: nat, limit: nat): nat
    requires limit >= 1
  {
    if total == 0 then 1 else (total + limit - 1) / limit
  }

  datatype Paginated<T> = Paginated(items: seq<T>, meta: Meta)

  /** `buildPaginatedResult`. */
  function BuildPaginatedResult<T>(items: seq<T>, total: nat, q: Query): Paginated<T>
    requires LimitOf(q) >= 1
  {
    Paginated(items, Meta(PageOf(q), LimitOf(q), total, TotalPages(total, LimitOf(q))))
  }

  /** The answer a list endpoint owes for a query over the rows it may show. */
  function Listed<T>(rows: seq<T>, q: Query): Paginated<T>
    requires PageOf(q) >= 1 && LimitOf(q) >= 1
  {
    BuildPaginatedResult(PageRows(rows, PageOf(q), LimitOf(q)), |rows|, q)
  }

  function PageRows<T>(rows: seq<T>, page: nat, limit: nat): seq<T>
    requires page >= 1
  {
    Slice(rows, ToPage(Query(Some(page), Some(limit))))
  }

  /** Pages 1..k, one after the other. */
  function FirstPages<T>(rows: seq<T>, k: nat, limit: nat): seq<T> {
    if k == 0 then [] else FirstPages(rows, k - 1, limit) + PageRows(rows, k, limit)
  }

  lemma Join<T>(rows: seq<T>, a: nat, b: nat)
    requires a <= b <= |rows|
    ensures rows[..a] + rows[a..b] == rows[..b]
  {}

  lemma {:induction false} FirstPagesArePrefix<T>(rows: seq<T>, k: nat, limit: nat)
    ensures k * limit >= 0 && FirstPages(rows, k, limit) == rows[..Min(k * limit, |rows|)]
  {
    if k > 0 {
      FirstPagesArePrefix(rows, k - 1, limit);
      NextPageStarts(k, limit);
      var skip := (k - 1) * limit;
      PageIs(rows, k, limit, skip);
      Join(rows, Min(skip, |rows|), Min(skip + limit, |rows|));
    } else {
      assert 0 * limit == 0;
    }
  }

  lemma NextPageStarts(k: nat, limit: nat)
    requires k > 0
    ensures 0 <= (k - 1) * limit && k * limit == (k - 1) * limit + limit
  {}

  lemma PagesSuffice(total: nat, limit: nat)
    requires limit >= 1
    ensures TotalPages(total, limit) * limit >= total
    ensures total > 0 ==> (TotalPages(total, limit) - 1) * limit < total
  {
    if total > 0 {
      var x := total + limit - 1;
      assert x == limit * (x / limit) + x % limit;
      var y := x / limit;
      assert y * limit == limit * y && (y - 1) * limit == limit * y - limit;
    }
  }

  /** A page is the stretch of rows from `skip`, cut off at the end of the listing. */
  lemma PageIs<T>(rows: seq<T>, page: nat, limit: nat, skip: nat)
    requires page >= 1 && skip == (page - 1) * limit
    ensures PageRows(rows, page, limit) == rows[Min(skip, |rows|)..Min(skip + limit, |rows|)]
  {}

  lemma PageFits(total: nat, limit: nat, page: nat)
    requires limit >= 1 && page >= 1
    ensures page > TotalPages(total, limit) ==> (page - 1) * limit >= total
    ensures total > 0 && page <= TotalPages(total, limit) ==> (page - 1) * limit < total
  {
    PagesSuffice(total, limit);
    var n := TotalPages(total, limit);
    if page > n { Monotone(n, page - 1, limit); } else { Monotone(page - 1, n - 1, limit); }
  }

  /** Pages 1..totalPages, concatenated, are the listing itself; every later page is empty,
      no page is longer than the limit, and an empty listing has one page, which is empty. */
  lemma PagesPartitionTheListing<T>(rows: seq<T>, limit: nat, page: nat)
    requires limit >= 1 && page >= 1
    ensures FirstPages(rows, TotalPages(|rows|, limit), limit) == rows
    ensures |PageRows(rows, page, limit)| <= limit
    ensures rows != [] ==> (PageRows(rows, page, limit) != [] <==> page <= TotalPages(|rows|, limit))
    ensures rows == [] ==> PageRows(rows, page, limit) == [] && TotalPages(|rows|, limit) == 1
  {
    FirstPagesArePrefix(rows, TotalPages(|rows|, limit), limit);
    PagesSuffice(|rows|, limit);
    assert rows[..|rows|] == rows;
    PageFits(|rows|, limit, page);
    Monotone(0, page - 1, limit);
    PageIs(rows, page, limit, (page - 1) * limit);
  }

  lemma SliceIsPage<T>(rows: seq<T>, q: Query)
    requires PageOf(q) >= 1
    ensures ToPage(q).skip >= 0 && Slice(rows, ToPage(q)) == PageRows(rows, PageOf(q), LimitOf(q))
  {
    Monotone(0, PageOf(q) - 1, LimitOf(q));
  }

  lemma Monotone(a: nat, b: nat, m: nat)
    requires a <= b
    ensures a * m <= b * m
  {}

  /** What the answer to a query shows: page 1 and twenty rows a page unless asked otherwise,
      the rows of that page in listing order, the total, and the number of pages. */
  lemma ListedShowsThePage<T>(rows: seq<T>, q: Query)
    requires PageOf(q) >= 1 && LimitOf(q) >= 1
    ensures var r := Listed(rows, q);
      var page := if q.page.Some? then q.page.value else 1;
      var limit := if q.limit.Some? then q.limit.value else 20;
      r.meta.page == page && r.meta.limit == limit && r.meta.total == |rows| &&
      r.meta.totalPages >= 1 && r.meta.totalPages * limit >= |rows| &&
      (rows != [] ==> (r.meta.totalPages - 1) * limit < |rows|) && (rows == [] ==> r.meta.totalPages == 1) &&
      var skip := (page - 1) * limit;
      |r.items| == (if skip >= |rows| then 0 else if skip + limit <= |rows| then limit else |rows| - skip) &&
      forall k :: 0 <= k < |r.items| ==> 0 <= skip + k < |rows| && r.items[k] == rows[skip + k]
  {
    hide PageRows, TotalPages;
    PagesSuffice(|rows|, LimitOf(q));
    AtLeastOnePage(|rows|, LimitOf(q));
    Monotone(0, PageOf(q) - 1, LimitOf(q));
    PageHas(rows, PageOf(q), LimitOf(q), (PageOf(q) - 1) * LimitOf(q));
  }

  lemma AtLeastOnePage(total: nat, limit: nat)
    requires limit >= 1
    ensures TotalPages(total, limit) >= 1 && (total == 0 ==> TotalPages(total, limit) == 1)
  {
    PagesSuffice(total, limit);
  }

  lemma PageHas<T>(rows: seq<T>, page: nat, limit: nat, skip: nat)
    requires page >= 1 && skip == (page - 1) * limit
    ensures var items := PageRows(rows, page, limit);
      |items| == (if skip >= |rows| then 0 else if skip + limit <= |rows| then limit else |rows| - skip) &&
      forall k :: 0 <= k < |items| ==> skip + k < |rows| && items[k] == rows[skip + k]
  {
    PageIs(rows, page, limit, skip);
  }

  // ---------------------------------------------------------------- sorting

  datatype SortDirection = Asc | Desc

  datatype OrderBy = OrderBy(field: string, direction: SortDirection)

  /** The text before the first ':', and the text after it if there is one. */
  function Before(s: string): string {
    if s == "" || s[0] == ':' then "" else [s[0]] + Before(s[1..])
  }

  function After(s: string): Option<string> {
    if s == "" then None else if s[0] == ':' then Some(s[1..]) else After(s[1..])
  }

  /** `toPrismaOrderBy`: only the first two parts of the expression count. */
  function ToPrismaOrderBy(sort: Option<string>, allowed: seq<string>, otherwise: OrderBy): OrderBy {
    if sort.None? || sort.value == "" || Before(sort.value) !in allowed then otherwise
    else
      var rest := After(sort.value);
      OrderBy(Before(sort.value), if rest.Some? && Before(rest.value) == "asc" then Asc else Desc)
  }

  lemma {:induction false} SplitAtColon(a: string, rest: string)
    requires ':' !in a
    ensures Before(a + ":" + rest) == a && After(a + ":" + rest) == Some(rest)
  {
    if a == "" {
      assert a + ":" + rest == ":" + rest;
    } else {
      SplitAtColon(a[1..], rest);
      assert a + ":" + rest == [a[0]] + (a[1..] + ":" + rest);
    }
  }

  lemma {:induction false} NoColon(a: string)
    requires ':' !in a
    ensures Before(a) == a && After(a) == None
  {
    if a == "" {
    } else {
      NoColon(a[1..]);
    }
  }

  /** A sort expression orders by its field if the field is allowed, upwards exactly when the
      direction is "asc"; whatever is asked for, no other field is ever ordered by. */
  lemma SortExpressionsMeanWhatTheySay(
      field: string, direction: string, rest: string, allowed: seq<string>, otherwise: OrderBy)
    requires ':' !in field && ':' !in direction && field != ""
    ensures var up := OrderBy(field, if direction == "asc" then Asc else Desc);
      ToPrismaOrderBy(Some(field + ":" + direction), allowed, otherwise) ==
        (if field in allowed then up else otherwise) &&
      ToPrismaOrderBy(Some(field + ":" + (direction + ":" + rest)), allowed, otherwise) ==
        (if field in allowed then up else otherwise)
    ensures ToPrismaOrderBy(Some(field), allowed, otherwise) ==
      if field in allowed then OrderBy(field, Desc) else otherwise
    ensures forall sort :: var o := ToPrismaOrderBy(sort, allowed, otherwise); o == otherwise || o.field in allowed
  {
    SplitAtColon(field, direction);
    SplitAtColon(field, direction + ":" + rest);
    SplitAtColon(direction, rest);
    NoColon(direction);
    NoColon(field);
  }

  // ---------------------------------------------------------------- tickets

  /** `TicketQueryDto`. */
  datatype TicketQuery = TicketQuery(
    paging: Query,
    sort: Option<string>,
    search: Option<string>,
    status: Option<Status>,
    priority: Option<Priority>,
    assignedToId: Option<Id>)

  const SORTABLE := ["createdAt", "updatedAt", "priority", "status", "reference"]

  const NEWEST_FIRST := OrderBy("createdAt", Desc)

  /** The listing of tickets: newest first unless it is asked for in the order of the time of
      creation or change, the priority, the status or the reference. */
  lemma TicketsAreSortedBy(field: string, direction: string)
    requires ':' !in field && ':' !in direction && field != ""
    ensures ToPrismaOrderBy(None, SORTABLE, NEWEST_FIRST) == OrderBy("createdAt", Desc)
    ensures ToPrismaOrderBy(Some(field + ":" + direction), SORTABLE, NEWEST_FIRST) ==
      if field in {"createdAt", "updatedAt", "priority", "status", "reference"}
      then OrderBy(field, if direction == "asc" then Asc else Desc) else OrderBy("createdAt", Desc)
  {
    SortExpressionsMeanWhatTheySay(field, direction, "", SORTABLE, NEWEST_FIRST);
  }

  predicate StandsAt(text: string, part: string, i: nat) {
    i + |part| <= |text| && text[i..i + |part|] == part
  }

  predicate Contains(text: string, part: string) {
    exists i :: 0 <= i <= |text| && StandsAt(text, part, i)
  }

  /** The filters of `findAll`; `fold` is the database's case folding. */
  predicate Selected(t: Ticket, q: TicketQuery, fold: string -> string) {
    (q.status.Some? ==> t.status == q.status.value) &&
    (q.priority.Some? ==> t.priority == q.priority.value) &&
    (q.assignedToId.Some? ==> t.assignedToId == q.assignedToId) &&
    (q.search.Some? && q.search.value != "" ==>
      Contains(fold(t.title), fold(q.search.value)) || Contains(fold(t.reference), fold(q.search.value)))
  }

  /** Whose tickets `findAll` lists at all. */
  predicate Visible(t: Ticket, actor: Actor) {
    t.organizationId == actor.organizationId && (actor.role.CUSTOMER? ==> t.createdById == actor.id)
  }

  /** The `where` of `findAll`. */
  predicate Listable(t: Ticket, actor: Actor, q: TicketQuery, fold: string -> string) {
    Visible(t, actor) && Selected(t, q, fold)
  }

  function VisibleIds(
      tickets: seq<Ticket>, actor: Actor, q: TicketQuery, fold: string -> string, listing: seq<Id>): seq<Id>
    requires forall i :: 0 <= i < |listing| ==> listing[i] < |tickets|
  {
    if listing == [] then []
    else
      var last := listing[|listing| - 1];
      VisibleIds(tickets, actor, q, fold, listing[..|listing| - 1]) +
      (if Listable(tickets[last], actor, q, fold) then [last] else [])
  }

  /** The whole table in the requested order, every ticket once. */
  ghost predicate TotalOrder(tickets: seq<Ticket>, listing: seq<Id>) {
    (forall i :: 0 <= i < |listing| ==> listing[i] < |tickets|) &&
    (forall id :: 0 <= id < |tickets| ==> id in listing) &&
    (forall i, j :: 0 <= i < j < |listing| ==> listing[i] != listing[j])
  }

  lemma {:induction false} VisibleIdsAre(
      tickets: seq<Ticket>, actor: Actor, q: TicketQuery, fold: string -> string, listing: seq<Id>)
    requires forall i :: 0 <= i < |listing| ==> listing[i] < |tickets|
    requires forall i, j :: 0 <= i < j < |listing| ==> listing[i] != listing[j]
    ensures var ids := VisibleIds(tickets, actor, q, fold, listing);
      (forall id :: id in ids <==> id in listing && Listable(tickets[id], actor, q, fold)) &&
      (forall i, j :: 0 <= i < j < |ids| ==> ids[i] != ids[j])
  {
    if listing == [] {
    } else {
      var front, last := listing[..|listing| - 1], listing[|listing| - 1];
      assert listing == front + [last];
      VisibleIdsAre(tickets, actor, q, fold, front);
      assert last !in front;
    }
  }

  /** The listing has one id before the other. */
  ghost predicate Precedes(listing: seq<Id>, x: Id, y: Id) {
    exists i, j :: 0 <= i < j < |listing| && listing[i] == x && listing[j] == y
  }

  /** The ids are taken from the listing in its order. */
  ghost predicate InOrder(listing: seq<Id>, ids: seq<Id>) {
    (forall k :: 0 <= k < |ids| ==> ids[k] in listing) &&
    (forall a, b :: 0 <= a < b < |ids| ==> Precedes(listing, ids[a], ids[b]))
  }

  lemma {:induction false} VisibleIdsKeepOrder(
      tickets: seq<Ticket>, actor: Actor, q: TicketQuery, fold: string -> string, listing: seq<Id>)
    requires forall i :: 0 <= i < |listing| ==> listing[i] < |tickets|
    ensures InOrder(listing, VisibleIds(tickets, actor, q, fold, listing))
  {
    if listing == [] {
    } else {
      var front, last := listing[..|listing| - 1], listing[|listing| - 1];
      assert listing == front + [last];
      VisibleIdsKeepOrder(tickets, actor, q, fold, front);
      InOrderSnoc(front, last, VisibleIds(tickets, actor, q, fold, front));
    }
  }

  lemma InOrderSnoc(front: seq<Id>, last: Id, ids: seq<Id>)
    requires InOrder(front, ids)
    ensures InOrder(front + [last], ids) && InOrder(front + [last], ids + [last])
  {
    hide Precedes;
    var listing, more := front + [last], ids + [last];
    forall a, b | 0 <= a < b < |ids| ensures Precedes(listing, ids[a], ids[b]) {
      PrecedesLonger(front, last, ids[a], ids[b]);
    }
    forall a, b | 0 <= a < b < |more| ensures Precedes(listing, more[a], more[b]) {
      assert more[a] == ids[a];
      if b < |ids| { assert more[b] == ids[b]; } else { PrecedesLast(front, last, ids[a]); }
    }
  }

  lemma PrecedesLonger(front: seq<Id>, last: Id, x: Id, y: Id)
    requires Precedes(front, x, y)
    ensures Precedes(front + [last], x, y)
  {
    var i, j :| 0 <= i < j < |front| && front[i] == x && front[j] == y;
    assert (front + [last])[i] == x && (front + [last])[j] == y;
  }

  lemma PrecedesLast(front: seq<Id>, last: Id, x: Id)
    requires x in front
    ensures Precedes(front + [last], x, last)
  {
    var i :| 0 <= i < |front| && front[i] == x;
    assert (front + [last])[i] == x && (front + [last])[|front|] == last;
  }

  /** The text reads: something, the part, something. */
  ghost predicate Holds(text: string, part: string) {
    exists before: string, after: string :: Reads(text, before, part, after)
  }

  predicate Reads(text: string, before: string, part: string, after: string) {
    text == before + part + after
  }

  lemma ContainsIffHolds(text: string, part: string)
    ensures Contains(text, part) <==> Holds(text, part)
  {
    if Contains(text, part) {
      var i :| 0 <= i <= |text| && StandsAt(text, part, i);
      assert Reads(text, text[..i], part, text[i + |part|..]);
    }
    if Holds(text, part) {
      var before, after :| Reads(text, before, part, after);
      assert StandsAt(text, part, |before|);
    }
  }

  /** The ticket has the status, the priority and the assignee asked for, if any, and the text
      searched for, if any, occurs in its title or its reference, case folded. */
  ghost predicate Wanted(t: Ticket, q: TicketQuery, fold: string -> string) {
    (q.status == None || q.status == Some(t.status)) &&
    (q.priority == None || q.priority == Some(t.priority)) &&
    (q.assignedToId == None || q.assignedToId == t.assignedToId) &&
    (q.search == None || q.search.value == "" ||
     Holds(fold(t.title), fold(q.search.value)) || Holds(fold(t.reference), fold(q.search.value)))
  }

  lemma SelectedIffWanted(t: Ticket, q: TicketQuery, fold: string -> string)
    ensures Selected(t, q, fold) <==> Wanted(t, q, fold)
  {
    hide Contains, Holds;
    if q.search.Some? {
      ContainsIffHolds(fold(t.title), fold(q.search.value));
      ContainsIffHolds(fold(t.reference), fold(q.search.value));
    }
  }

  /** Paging through `findAll` visits exactly the tickets for which `findOne` succeeds for
      that actor and which match the filters, in listing order, each of them once. */
  lemma PagesListWhatFindOneFinds(
      tickets: seq<Ticket>, actor: Actor, q: TicketQuery, fold: string -> string, listing: seq<Id>, limit: nat)
    requires TotalOrder(tickets, listing) && limit >= 1
    ensures var rows := VisibleIds(tickets, actor, q, fold, listing);
      var all := FirstPages(rows, TotalPages(|rows|, limit), limit);
      all == rows &&
      (forall id: Id :: id in all <==>
        FindOne(tickets, actor, id).Found? && Wanted(FindOne(tickets, actor, id).ticket, q, fold)) &&
      (forall i, j :: 0 <= i < j < |all| ==> all[i] != all[j]) && InOrder(listing, all)
  {
    hide InOrder;
    VisibleIdsKeepOrder(tickets, actor, q, fold, listing);
    var rows := VisibleIds(tickets, actor, q, fold, listing);
    VisibleIdsAre(tickets, actor, q, fold, listing);
    PagesPartitionTheListing(rows, limit, 1);
    forall id: Id ensures id in rows <==>
      FindOne(tickets, actor, id).Found? && Wanted(FindOne(tickets, actor, id).ticket, q, fold)
    {
      if id in rows { assert id in listing; }
      if id < |tickets| { SelectedIffWanted(tickets[id], q, fold); }
    }
  }

  /** Without filters nothing that `findOne` finds is missing. */
  lemma NoFiltersSelectAll(t: Ticket, q: TicketQuery, fold: string -> string)
    requires q.status.None? && q.priority.None? && q.assignedToId.None?
    requires q.search == None || q.search == Some("")
    ensures Selected(t, q, fold)
  {}
}
