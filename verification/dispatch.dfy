/**
  The request-to-call projections of `NetmeraApi.sendRequest` that do more
  than forward a field: the bulk-event flatten and the two "next page"
  overloads that turn a previous response into the next request.
 */
module Dispatch {
  import opened Nullable

  /** A pagination continuation token; the last page may carry `null`. */
  type Token = Nullable<string>

  /**
    An event as the caller builds it: `parameters` is what `getParameters()`
    returns; `details` stands for whatever else the event carries.
   */
  datatype Event<D, V> = Event(details: D, parameters: map<string, V>)

  /** `FireEventsRequest`. */
  datatype FireEventsRequest<D, V> = FireEventsRequest(eventList: seq<Event<D, V>>)

  /** A paginated response (`GetDeviceTokensResponse`, `GetPushResultResponse`). */
  datatype PagedResponse<C> = PagedResponse(content: C, nextPage: Token)

  /** The call the bulk-event overload issues: `eventService.fireEvent(eventData)`. */
  datatype EventCall<V> = FireEvent(eventData: seq<map<string, V>>)

  /** The calls the "next page" overloads issue, with the token they pass. */
  datatype PageCall =
    | GetDeviceTokensPage(deviceTokensPage: Token)     // `userService.getDeviceTokens(nextPage)`
    | GetPushResultsPage(pushResultsPage: Token)       // `notificationService.getPushResults(nextPage)`

  /**
    The `forEach` loop that appends each event's parameter map, in order, to a
    fresh list.
   */
  function EventData<D, V>(events: seq<Event<D, V>>): (r: seq<map<string, V>>)
    ensures |r| == |events|
    ensures forall i :: 0 <= i < |events| ==> r[i] == events[i].parameters
    decreases |events|
  {
    if events == [] then []
    else EventData(events[..|events| - 1]) + [events[|events| - 1].parameters]
  }

  /**
    `sendRequest(FireEventsRequest, ...)` on a non-null event list with no
    null events: always a call, even for an empty event list.
   */
  function FireEventsCall<D, V>(request: FireEventsRequest<D, V>): (c: EventCall<V>)
    ensures request.eventList == [] ==> c.eventData == []
    ensures |c.eventData| == |request.eventList|
    ensures forall i :: 0 <= i < |request.eventList| ==>
              c.eventData[i] == request.eventList[i].parameters
  {
    FireEvent(EventData(request.eventList))
  }

  /** Flattening a concatenation is concatenating the flattened parts. */
  lemma EventDataAppend<D, V>(a: seq<Event<D, V>>, b: seq<Event<D, V>>)
    ensures EventData(a + b) == EventData(a) + EventData(b)
  {
  }

  /** Flattening ignores everything about an event but its parameters. */
  lemma EventDataDependsOnlyOnParameters<D, V>(a: seq<Event<D, V>>, b: seq<Event<D, V>>)
    requires |a| == |b|
    requires forall i :: 0 <= i < |a| ==> a[i].parameters == b[i].parameters
    ensures EventData(a) == EventData(b)
  {
  }

  /** `sendRequest(GetDeviceTokensResponse, ...)`: ask for the page the response points to. */
  function NextDeviceTokensCall<C>(response: PagedResponse<C>): (c: PageCall)
    ensures c.GetDeviceTokensPage?
    ensures c.deviceTokensPage == response.nextPage
  {
    GetDeviceTokensPage(response.nextPage)
  }

  /** `sendRequest(GetPushResultResponse, ...)`: ask for the page the response points to. */
  function NextPushResultsCall<C>(response: PagedResponse<C>): (c: PageCall)
    ensures c.GetPushResultsPage?
    ensures c.pushResultsPage == response.nextPage
  {
    GetPushResultsPage(response.nextPage)
  }

  /**
    The next-page call depends on the previous response through its token
    alone, and different tokens give different calls.
   */
  lemma NextPageCallsDeterminedByToken<C>(r1: PagedResponse<C>, r2: PagedResponse<C>)
    ensures (NextDeviceTokensCall<C>(r1) == NextDeviceTokensCall<C>(r2))
            <==> r1.nextPage == r2.nextPage
    ensures (NextPushResultsCall<C>(r1) == NextPushResultsCall<C>(r2))
            <==> r1.nextPage == r2.nextPage
  {
  }
}
