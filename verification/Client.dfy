/** The paginated query: what it returns against a server that slices a list of rows. */
module Client {
  import opened Wrappers
  import Schema

  type Row = Schema.Row

  datatype Request = Request(limit: Option<nat>, offset: Option<int>)

  datatype Response = Response(code: Option<int>, fields: seq<string>, items: seq<Row>, hasMore: bool)

  datatype Event = Event(response: Response, pageIndex: nat, request: Request)

  datatype QueryResult = QueryResult(events: seq<Event>, fields: seq<string>, items: seq<Row>)

  datatype Failure = ApiError(code: Option<int>) | MaxPagesExceeded

  datatype Outcome = Success(result: QueryResult) | Raised(failure: Failure)

  type Server = Request -> Response

  // ---- what a query result is made of ----

  function ItemsOf(events: seq<Event>): seq<Row> {
    if events == [] then [] else ItemsOf(events[..|events| - 1]) + events[|events| - 1].response.items
  }

  /** The raw events and the combined result tell the same story: the items are the items of
      the pages in order, the fields those of the first page, and no page is an error. */
  ghost predicate Consistent(r: QueryResult) {
    && r.events != []
    && r.items == ItemsOf(r.events)
    && r.fields == r.events[0].response.fields
    && forall k | 0 <= k < |r.events| :: r.events[k].pageIndex == k && r.events[k].response.code == Some(0)
  }

  /** A page size of 0, like none at all, asks for everything in one request. */
  function PageRequest(pageSize: nat, offset: int): Request {
    if pageSize > 0 then Request(Some(pageSize), Some(offset)) else Request(None, None)
  }

  /** How the query continues from a page on: the pages still to come, or why there is no result. */
  datatype Rest = Pages(events: seq<Event>) | Stopped(failure: Failure)

  function AskPage(server: Server, pageSize: nat, offset: int, page: nat): Event {
    var request := PageRequest(pageSize, offset);
    Event(server(request), page, request)
  }

  predicate Failed(e: Event) {
    e.response.code != Some(0)
  }

  predicate IsLast(e: Event, pageSize: nat) {
    pageSize == 0 || !e.response.hasMore || e.response.items == []
  }

  /** `left` pages may still be asked for; the first one may be in any case. */
  function Continue(server: Server, pageSize: nat, left: nat, offset: int, page: nat): Rest
    decreases left
  {
    var e := AskPage(server, pageSize, offset, page);
    if Failed(e) then Stopped(ApiError(e.response.code))
    else if IsLast(e, pageSize) then Pages([e])
    else if left <= 1 then Stopped(MaxPagesExceeded)
    else Prepend([e], Continue(server, pageSize, left - 1, offset + pageSize, page + 1))
  }

  function Prepend(events: seq<Event>, rest: Rest): Rest {
    match rest
    case Pages(more) => Pages(events + more)
    case Stopped(failure) => rest
  }

  /** What the loop has gathered before a page. */
  ghost predicate Gathered(events: seq<Event>, items: seq<Row>, fields: seq<string>) {
    && items == ItemsOf(events)
    && (events != [] ==> fields == events[0].response.fields)
    && forall k | 0 <= k < |events| :: events[k].pageIndex == k && events[k].response.code == Some(0)
  }

  lemma {:induction false} GatherPage(events: seq<Event>, items: seq<Row>, fields: seq<string>, e: Event)
    requires Gathered(events, items, fields) && e.pageIndex == |events| && e.response.code == Some(0)
    ensures Gathered(events + [e], items + e.response.items, if |events| == 0 then e.response.fields else fields)
  {
    assert (events + [e])[..|events|] == events;
  }

  lemma {:induction false} PrependPage(events: seq<Event>, e: Event, rest: Rest)
    ensures Prepend(events, Prepend([e], rest)) == Prepend(events + [e], rest)
  {
    if rest.Pages? {
      assert events + ([e] + rest.events) == events + [e] + rest.events;
    }
  }

  /** The outcome of a query reports how it went: all pages put together, or the failure. */
  ghost predicate Tells(outcome: Outcome, rest: Rest) {
    match rest
    case Pages(events) => outcome.Success? && outcome.result.events == events && Consistent(outcome.result)
    case Stopped(failure) => outcome == Raised(failure)
  }

  /** How the whole query looks once `events` have been gathered and page e has arrived. */
  lemma {:induction false} WholeAfterPage(server: Server, pageSize: nat, left: nat, offset: int, events: seq<Event>,
                                          e: Event)
    requires e == AskPage(server, pageSize, offset, |events|)
    ensures Prepend(events, Continue(server, pageSize, left, offset, |events|))
            == if Failed(e) then Stopped(ApiError(e.response.code))
               else if IsLast(e, pageSize) then Pages(events + [e])
               else if left <= 1 then Stopped(MaxPagesExceeded)
               else Prepend(events + [e], Continue(server, pageSize, left - 1, offset + pageSize, |events| + 1))
  {
    if left > 1 {
      PrependPage(events, e, Continue(server, pageSize, left - 1, offset + pageSize, |events| + 1));
    }
  }

  /** Where the loop is: what it has gathered, and what the whole query will tell. */
  ghost predicate OnTrack(server: Server, pageSize: nat, maxPages: nat, offset: int, events: seq<Event>,
                          items: seq<Row>, fields: seq<string>, whole: Rest)
    requires |events| <= maxPages
  {
    Gathered(events, items, fields)
    && Prepend(events, Continue(server, pageSize, maxPages - |events|, offset, |events|)) == whole
  }

  lemma {:induction false} Beginning(server: Server, pageSize: nat, maxPages: nat, offset: int)
    ensures OnTrack(server, pageSize, maxPages, offset, [], [], [], Continue(server, pageSize, maxPages, offset, 0))
  {}

  /** What the next page means for the whole query. */
  lemma {:induction false} NextPage(server: Server, pageSize: nat, maxPages: nat, offset: int, events: seq<Event>,
                                    items: seq<Row>, fields: seq<string>, whole: Rest, e: Event)
    requires |events| == 0 || |events| < maxPages
    requires OnTrack(server, pageSize, maxPages, offset, events, items, fields, whole)
    requires e == AskPage(server, pageSize, offset, |events|)
    ensures Failed(e) ==> whole == Stopped(ApiError(e.response.code))
    ensures !Failed(e) ==>
              var more, newFields := events + [e], if |events| == 0 then e.response.fields else fields;
              && Gathered(more, items + e.response.items, newFields)
              && (IsLast(e, pageSize) ==> whole == Pages(more))
              && (!IsLast(e, pageSize) && |more| >= maxPages ==> whole == Stopped(MaxPagesExceeded))
              && (!IsLast(e, pageSize) && |more| < maxPages ==>
                    OnTrack(server, pageSize, maxPages, offset + pageSize, more, items + e.response.items, newFields,
                            whole))
  {
    WholeAfterPage(server, pageSize, maxPages - |events|, offset, events, e);
    if !Failed(e) {
      GatherPage(events, items, fields, e);
    }
  }

  /** `query_paginated`: ask for page after page until one says it is the last. */
  method QueryPaginated(server: Server, offset0: int, pageSize: nat, maxPages: nat) returns (outcome: Outcome)
    ensures Tells(outcome, Continue(server, pageSize, maxPages, offset0, 0))
  {
    var events: seq<Event> := [];
    var allItems: seq<Row> := [];
    var responseFields: seq<string> := [];
    var offset, pageIndex := offset0, 0;
    ghost var whole := Continue(server, pageSize, maxPages, offset0, 0);
    Beginning(server, pageSize, maxPages, offset0);
    while true
      invariant |events| == pageIndex && (pageIndex == 0 || pageIndex < maxPages)
      invariant OnTrack(server, pageSize, maxPages, offset, events, allItems, responseFields, whole)
      decreases maxPages - pageIndex
    {
      var event := AskPage(server, pageSize, offset, pageIndex);
      NextPage(server, pageSize, maxPages, offset, events, allItems, responseFields, whole, event);
      if Failed(event) {
        return Raised(ApiError(event.response.code));
      }
      events := events + [event];
      if pageIndex == 0 {
        responseFields := event.response.fields;
      }
      allItems := allItems + event.response.items;
      if IsLast(event, pageSize) {
        break;
      }
      pageIndex := pageIndex + 1;
      if pageIndex >= maxPages {
        return Raised(MaxPagesExceeded);
      }
      offset := offset + pageSize;
    }
    return Success(QueryResult(events, responseFields, allItems));
  }

  // ---- which pages are asked for ----

  /** The k-th page of a query: with a page size the limit is that size and the offset k pages on. */
  ghost function Asked(server: Server, pageSize: nat, offset: int, page: nat, k: nat): Event {
    var request := if pageSize == 0 then Request(None, None)
                   else Request(Some(pageSize), Some(offset + k * pageSize));
    Event(server(request), page + k, request)
  }

  /** A good page, not empty, that says there is more. */
  ghost predicate GoesOn(e: Event, pageSize: nat) {
    e.response.code == Some(0) && pageSize > 0 && e.response.hasMore && |e.response.items| > 0
  }

  /** How a query ends that has asked for n pages, all but the last of which go on. */
  ghost predicate EndsAfter(server: Server, pageSize: nat, left: nat, offset: int, page: nat, rest: Rest, n: nat) {
    && 1 <= n && (n == 1 || n <= left)
    && (forall k: nat | k < n - 1 :: GoesOn(Asked(server, pageSize, offset, page, k), pageSize))
    && var last := Asked(server, pageSize, offset, page, n - 1);
       if last.response.code != Some(0) then rest == Stopped(ApiError(last.response.code))
       else if GoesOn(last, pageSize) then n >= left && rest == Stopped(MaxPagesExceeded)
       else rest == Pages(seq(n, k requires 0 <= k < n => Asked(server, pageSize, offset, page, k)))
  }

  lemma {:induction false} AskedNext(server: Server, pageSize: nat, offset: int, page: nat, k: nat)
    ensures Asked(server, pageSize, offset + pageSize, page + 1, k) == Asked(server, pageSize, offset, page, k + 1)
  {
    assert (k + 1) * pageSize == k * pageSize + pageSize;
  }

  lemma {:induction false} OnePageEarlier(server: Server, pageSize: nat, left: nat, offset: int, page: nat, rest: Rest,
                                          n: nat)
    requires left > 1 && EndsAfter(server, pageSize, left - 1, offset + pageSize, page + 1, rest, n)
    requires GoesOn(Asked(server, pageSize, offset, page, 0), pageSize)
    ensures EndsAfter(server, pageSize, left, offset, page, Prepend([Asked(server, pageSize, offset, page, 0)], rest),
                      n + 1)
  {
    forall k: nat {:trigger Asked(server, pageSize, offset + pageSize, page + 1, k)}
      ensures Asked(server, pageSize, offset + pageSize, page + 1, k) == Asked(server, pageSize, offset, page, k + 1)
    {
      AskedNext(server, pageSize, offset, page, k);
    }
    forall k: nat | k < n
      ensures GoesOn(Asked(server, pageSize, offset, page, k), pageSize)
    {
      if k > 0 {
        assert GoesOn(Asked(server, pageSize, offset + pageSize, page + 1, k - 1), pageSize);
      }
    }
    if rest.Pages? {
      var all := seq(n + 1, k requires 0 <= k < n + 1 => Asked(server, pageSize, offset, page, k));
      assert [Asked(server, pageSize, offset, page, 0)] + rest.events == all;
    }
  }

  /** Against any server: the query asks for page after page, each a page size further on, as long as
      the last one was good, not empty and not the end, and fails with the first bad one, or when no
      more pages are allowed. */
  lemma {:induction false} PagesAreAsked(server: Server, pageSize: nat, left: nat, offset: int, page: nat)
    returns (n: nat)
    ensures EndsAfter(server, pageSize, left, offset, page, Continue(server, pageSize, left, offset, page), n)
    decreases left
  {
    var first := Asked(server, pageSize, offset, page, 0);
    assert first == AskPage(server, pageSize, offset, page);
    if GoesOn(first, pageSize) && left > 1 {
      n := PagesAreAsked(server, pageSize, left - 1, offset + pageSize, page + 1);
      OnePageEarlier(server, pageSize, left, offset, page,
                     Continue(server, pageSize, left - 1, offset + pageSize, page + 1), n);
      n := n + 1;
    } else {
      n := 1;
      assert [first] == seq(1, k requires 0 <= k < 1 => Asked(server, pageSize, offset, page, k));
    }
  }

  // ---- against a server that slices a list ----

  /** The server holds `rows` and answers a request with the requested slice of them. */
  ghost predicate Slices(server: Server, rows: seq<Row>) {
    && server(Request(None, None)).code == Some(0)
    && server(Request(None, None)).items == rows
    && forall limit: nat, offset: nat
         {:trigger AnswersSlice(server(Request(Some(limit), Some(offset))), rows, limit, offset)} ::
         AnswersSlice(server(Request(Some(limit), Some(offset))), rows, limit, offset)
  }

  ghost predicate AnswersSlice(r: Response, rows: seq<Row>, limit: nat, offset: nat) {
    && r.code == Some(0)
    && r.items == Slice(rows, limit, offset)
    && r.hasMore == (offset + limit < |rows|)
  }

  function Slice(rows: seq<Row>, limit: nat, offset: nat): seq<Row> {
    if offset >= |rows| then [] else if offset + limit >= |rows| then rows[offset..] else rows[offset..offset + limit]
  }

  lemma {:induction false} ItemsOfCons(e: Event, events: seq<Event>)
    ensures ItemsOf([e] + events) == e.response.items + ItemsOf(events)
    decreases |events|
  {
    if events == [] {
      assert ([e] + events)[..0] == [];
      assert [e] + events == [e];
    } else {
      var n := |events| - 1;
      assert ([e] + events)[..n + 1] == [e] + events[..n];
      ItemsOfCons(e, events[..n]);
    }
  }

  /** How many rows `pages` pages can carry. */
  function Capacity(pages: nat, pageSize: nat): nat {
    if pages == 0 then 0 else pageSize + Capacity(pages - 1, pageSize)
  }

  lemma {:induction false} CapacityIsProduct(pages: nat, pageSize: nat)
    ensures Capacity(pages, pageSize) == pages * pageSize
  {
    if pages > 0 {
      CapacityIsProduct(pages - 1, pageSize);
      assert pages * pageSize == (pages - 1) * pageSize + pageSize;
    }
  }

  /** One step of the query against a slicing server. */
  lemma {:induction false} ContinueSlice(server: Server, rows: seq<Row>, pageSize: nat, left: nat, offset: nat,
                                         page: nat)
    requires Slices(server, rows) && pageSize > 0
    ensures var e := AskPage(server, pageSize, offset, page);
            && e.response.items == Slice(rows, pageSize, offset)
            && Continue(server, pageSize, left, offset, page)
               == if offset + pageSize >= |rows| then Pages([e])
                  else if left <= 1 then Stopped(MaxPagesExceeded)
                  else Prepend([e], Continue(server, pageSize, left - 1, offset + pageSize, page + 1))
  {
    assert AnswersSlice(server(Request(Some(pageSize), Some(offset))), rows, pageSize, offset);
  }

  /** The rest of the rows if `capacity` rows suffice for them, and the page limit otherwise. */
  ghost predicate ExactRest(rest: Rest, rows: seq<Row>, offset: nat, capacity: nat) {
    if offset + capacity < |rows| then rest == Stopped(MaxPagesExceeded)
    else rest.Pages? && ItemsOf(rest.events) == Slice(rows, |rows|, offset)
  }

  lemma {:induction false} OnePageMore(rest: Rest, e: Event, rows: seq<Row>, pageSize: nat, offset: nat, capacity: nat)
    requires ExactRest(rest, rows, offset + pageSize, capacity) && offset + pageSize < |rows|
    requires e.response.items == Slice(rows, pageSize, offset)
    ensures ExactRest(Prepend([e], rest), rows, offset, pageSize + capacity)
  {
    if rest.Pages? {
      ItemsOfCons(e, rest.events);
      assert rows[offset..] == rows[offset..offset + pageSize] + rows[offset + pageSize..];
    }
  }

  function Allowed(maxPages: nat): nat {
    if maxPages == 0 then 1 else maxPages
  }

  lemma {:induction false} LastPage(e: Event, rows: seq<Row>, pageSize: nat, offset: nat, pages: nat)
    requires offset + pageSize >= |rows| && pages > 0 && e.response.items == Slice(rows, pageSize, offset)
    ensures ExactRest(Pages([e]), rows, offset, Capacity(pages, pageSize))
  {
    ItemsOfCons(e, []);
    assert [e] + [] == [e];
    assert Capacity(pages, pageSize) >= pageSize;
  }

  lemma {:induction false} OneStep(whole: Rest, rest: Rest, e: Event, rows: seq<Row>, pageSize: nat, left: nat,
                                   offset: nat)
    requires e.response.items == Slice(rows, pageSize, offset)
    requires whole == if offset + pageSize >= |rows| then Pages([e])
                      else if left <= 1 then Stopped(MaxPagesExceeded)
                      else Prepend([e], rest)
    requires left > 1 ==> ExactRest(rest, rows, offset + pageSize, Capacity(left - 1, pageSize))
    ensures ExactRest(whole, rows, offset, Capacity(Allowed(left), pageSize))
  {
    if offset + pageSize >= |rows| {
      LastPage(e, rows, pageSize, offset, Allowed(left));
    } else if left <= 1 {
      assert Capacity(1, pageSize) == pageSize;
    } else {
      OnePageMore(rest, e, rows, pageSize, offset, Capacity(left - 1, pageSize));
    }
  }

  lemma {:induction false} ContinueIsExact(server: Server, rows: seq<Row>, pageSize: nat, left: nat, offset: nat,
                                           page: nat)
    requires Slices(server, rows) && pageSize > 0
    ensures ExactRest(Continue(server, pageSize, left, offset, page), rows, offset, Capacity(Allowed(left), pageSize))
    decreases left
  {
    var e := AskPage(server, pageSize, offset, page);
    var whole := Continue(server, pageSize, left, offset, page);
    ContinueSlice(server, rows, pageSize, left, offset, page);
    if left > 1 {
      var rest := Continue(server, pageSize, left - 1, offset + pageSize, page + 1);
      ContinueIsExact(server, rows, pageSize, left - 1, offset + pageSize, page + 1);
      OneStep(whole, rest, e, rows, pageSize, left, offset);
    } else {
      OneStep(whole, whole, e, rows, pageSize, left, offset);
    }
  }

  /** Pagination is exact: the result is all rows from the offset on, and the query raises
      exactly when more than the allowed number of pages would be needed for them. */
  lemma {:induction false} PaginationIsExact(server: Server, rows: seq<Row>, pageSize: nat, maxPages: nat, offset: nat)
    requires Slices(server, rows)
    ensures var rest := Continue(server, pageSize, maxPages, offset, 0);
            if pageSize == 0 then rest.Pages? && ItemsOf(rest.events) == rows
            else if offset + Allowed(maxPages) * pageSize < |rows| then rest == Stopped(MaxPagesExceeded)
            else rest.Pages? && ItemsOf(rest.events) == rows[if offset <= |rows| then offset else |rows|..]
  {
    if pageSize > 0 {
      ContinueIsExact(server, rows, pageSize, maxPages, offset, 0);
      CapacityIsProduct(Allowed(maxPages), pageSize);
    } else {
      var e := Event(server(Request(None, None)), 0, Request(None, None));
      ItemsOfCons(e, []);
      assert [e] + [] == [e];
    }
  }
}
