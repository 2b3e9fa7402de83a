/**
 * The read handlers of the tool-request controller. Each takes the store's
 * contents in retrieval order, the caller (None when nobody is signed in) and
 * whether the store reports an error on the handler's query.
 */
module ToolRequestReads {
  import opened Options
  import opened RequestStates
  import opened Requests
  import opened Bucketing
  import opened Responses
  import opened Paging

  /** `get`: every request, unfiltered and unsorted. */
  function Get(s: seq<ToolRequest>, queryFails: bool): (r: Response)
    ensures r.code == OK <==> !queryFails
    ensures r.code == OK ==> r.body == AllRequests(s)
    ensures r.code != OK ==> r == Response(INTERNAL_ERROR, StoreError)
  {
    if queryFails then Response(INTERNAL_ERROR, StoreError) else Response(OK, AllRequests(s))
  }

  /** `countForCurrentUser`: how many of the caller's requests are not rejected. */
  function CountForCurrentUser(s: seq<ToolRequest>, principal: Option<UserId>, queryFails: bool): (r: Response)
    ensures principal.None? ==> r == Response(UNAUTHORIZED, Text(UnauthorizedText))
    ensures principal.Some? && queryFails ==> r == Response(INTERNAL_ERROR, StoreError)
    ensures principal.Some? && !queryFails ==>
      && r.code == OK && r.body.UserCount? && r.body.userId == principal.value
      && r.body.count == |OfUser(s, principal.value)| - |OfStatus(OfUser(s, principal.value), REJECTED)|
  {
    match principal
    case None => Response(UNAUTHORIZED, Text(UnauthorizedText))
    case Some(u) =>
      if queryFails then Response(INTERNAL_ERROR, StoreError)
      else
        ActiveCountSplit(s, u);
        Response(OK, UserCount(u, CountActive(s, u)))
  }

  /** `getForUser`: the caller's requests, bucketed by status. */
  method GetForUser(s: seq<ToolRequest>, principal: Option<UserId>, queryFails: bool) returns (r: Response)
    ensures principal.None? ==> r == Response(UNAUTHORIZED, Text(UnauthorizedText))
    ensures principal.Some? && queryFails ==> r == Response(INTERNAL_ERROR, StoreError)
    ensures principal.Some? && !queryFails ==> r == Response(OK, Bucketed(BucketsOf(OfUser(s, principal.value))))
  {
    if principal.None? {
      return Response(UNAUTHORIZED, Text(UnauthorizedText));
    }
    if queryFails {
      return Response(INTERNAL_ERROR, StoreError);
    }
    var requests := OfUser(s, principal.value);
    var buckets := Partition(requests);
    r := Response(OK, Bucketed(buckets));
  }

  /**
   * `getPaged`: the total number of requests and page `page` of them. The
   * sort column and direction are accepted and not used.
   */
  function GetPaged(s: seq<ToolRequest>, page: int, pageSize: int, sortColumn: string, sortDirection: string,
                    queryFails: bool): (r: Response)
    requires page >= 1 && pageSize >= 0
    ensures r.code == OK <==> !queryFails
    ensures r.code != OK ==> r == Response(INTERNAL_ERROR, StoreError)
    ensures r.code == OK ==> r.body == Page(PageOf(s, page, pageSize), |s|)
  {
    if queryFails then Response(INTERNAL_ERROR, StoreError)
    else Response(OK, Page(PageOf(s, page, pageSize), |s|))
  }

  /** The sort parameters of `getPaged` have no effect on its response. */
  lemma PagedIgnoresSort(s: seq<ToolRequest>, page: int, pageSize: int, queryFails: bool,
                         column: string, direction: string, column': string, direction': string)
    requires page >= 1 && pageSize >= 0
    ensures GetPaged(s, page, pageSize, column, direction, queryFails)
         == GetPaged(s, page, pageSize, column', direction', queryFails)
  {
  }

  /** `getStatuses`: the status catalog; on an error it sends the (empty) result variable with a 500. */
  function GetStatuses(catalog: seq<RequestStatus>, queryFails: bool): (r: Response)
    ensures r.code == OK <==> !queryFails
    ensures r.code == OK ==> r.body == Statuses(catalog)
    ensures r.code != OK ==> r == Response(INTERNAL_ERROR, Undefined)
  {
    if queryFails then Response(INTERNAL_ERROR, Undefined) else Response(OK, Statuses(catalog))
  }
}
