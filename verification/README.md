# Tool-request service of a tool-lending application

This project models the request service of a tool-lending web application.
Users ask to borrow inventory items ("tool requests"). Administrators approve,
reject and deliver them. The service answers with an HTTP status code and a
body. The model covers every handler of `server/api/toolRequests/toolRequest.controller.js`:

- `get`: list every request;
- `countForCurrentUser`: count the caller's requests that are not rejected;
- `getForUser`: split the caller's requests into four lists by status;
- `getPaged`: return one page of requests and the total count;
- `getStatuses`: return the status catalog;
- `create`: add a request for the inventory item with a given code, unless a request already has that code;
- `update`: overwrite user, tool and status of a request;
- `changeStatus`: overwrite the status of a request.

The store is a sequence of `ToolRequest` records (`id`, `user`, `tool`,
`status`, `code`) in the order the document store returns them. Each query
becomes a filter over that sequence that keeps the order. The inventory is a
map from code to tool id. A response is a status code (200, 401, 409 or 500)
and a payload.

Layout:

- `options.dfy`: the `Option` type.
- `request_states.dfy`: the closed enumeration of states (PENDING=0, APPROVED=1,
  REJECTED=2, DELIVERED=3) and the stored ids.
- `requests.dfy`: records, the store queries (by user, by status, by id, by code,
  the count query) and their laws.
- `bucketing.dfy`: the bucketing loop of `getForUser` and what it guarantees.
- `responses.dfy`: status codes, message texts, payloads.
- `paging.dfy`: the skip/limit arithmetic of `getPaged`.
- `reads.dfy`: the read handlers.
- `writes.dfy`: the write handlers as store transitions, and their laws.
- `store.dfy`: the class `RequestCollection`, whose methods change the store in
  place and are proved equal to the transitions in `writes.dfy`.

The read handlers take the store contents as a parameter. The write handlers
are methods of `RequestCollection`: they load a record as a value, overwrite its
fields and save it back at its position, as the handler does with the loaded
document.

Store errors are boolean parameters. `queryFails` is an error on a read
handler's query. `lookupFails` is an error on a write handler's first lookup.
`saveFails` is an error on its save. A failed save leaves the store unchanged.

## Model

| member | source | states |
|---|---|---|
| `RequestStates.StatusId` | server/api/toolRequests/toolRequest.controller.js:6-11 | every state is stored as an id in 0..3 |
| `RequestStates.StateOf` | server/api/toolRequests/toolRequest.controller.js:6-11 | an id names a state exactly when it is in 0..3, and that state is stored as the same id |
| `RequestStates.StatusIdRoundTrip` | server/api/toolRequests/toolRequest.controller.js:6-11 | the four constants are distinct, and decoding a state's id gives the state back |
| `Requests.OfUser` | server/api/toolRequests/toolRequest.controller.js:45 | the per-user query returns exactly the requests of that user, never more than the store holds |
| `Requests.OfUserAppend` | server/api/toolRequests/toolRequest.controller.js:45 | the per-user query keeps retrieval order: it distributes over concatenation |
| `Requests.OfStatus` | server/api/toolRequests/toolRequest.controller.js:63-66 | selecting by status id returns exactly the requests with that id |
| `Requests.OfStatusAppend` | server/api/toolRequests/toolRequest.controller.js:59-67 | selecting by status keeps retrieval order: it distributes over concatenation |
| `Requests.Known` | server/api/toolRequests/toolRequest.controller.js:63-66 | the known-status requests are exactly those whose id is one of the four states; all of them when every status is known |
| `Requests.CountActive` | server/api/toolRequests/toolRequest.controller.js:29 | the count query never exceeds the number of the user's requests |
| `Requests.ActiveCountSplit` | server/api/toolRequests/toolRequest.controller.js:29 | the count query plus the user's rejected requests equals all of the user's requests |
| `Requests.CodeTakenSnoc` | server/api/toolRequests/toolRequest.controller.js:115-131 | after a request is appended, the duplicate lookup finds the code exactly when it found it before or the new request carries it |
| `Requests.FindById` | server/api/toolRequests/toolRequest.controller.js:151 | the lookup by id finds the first record with that id, and finds nothing exactly when no record has it |
| `Requests.MaxId` | server/api/toolRequests/toolRequest.controller.js:126-131 | no stored id exceeds it |
| `Requests.NextId` | server/api/toolRequests/toolRequest.controller.js:126-131 | the id the new document gets is used by no stored record |
| `Bucketing.Partition` | server/api/toolRequests/toolRequest.controller.js:52-67 | the loop's four lists are the requests with status 0, 1, 2 and 3, each in retrieval order |
| `Bucketing.BucketOfEachRequest` | server/api/toolRequests/toolRequest.controller.js:63-66 | a request is in a list exactly when that list's state is its status; a request with an unknown status is in no list |
| `Bucketing.BucketSizes` | server/api/toolRequests/toolRequest.controller.js:59-67 | the four lists together are a permutation of the known-status requests, so their sizes sum to that number |
| `Bucketing.BucketsKeepOrder` | server/api/toolRequests/toolRequest.controller.js:59-67 | each list keeps retrieval order: bucketing a concatenation appends the lists |
| `Bucketing.CountMatchesBuckets` | server/api/toolRequests/toolRequest.controller.js:29-67 | the count equals pending + approved + delivered plus the user's requests whose status is unknown |
| `Bucketing.CountMatchesKnownBuckets` | server/api/toolRequests/toolRequest.controller.js:29-67 | when all of the user's statuses are known, the count equals pending + approved + delivered |
| `ToolRequestReads.Get` | server/api/toolRequests/toolRequest.controller.js:13-22 | 200 with every request unless the query fails, then 500 with the store's error |
| `ToolRequestReads.CountForCurrentUser` | server/api/toolRequests/toolRequest.controller.js:24-38 | 401 'Unauthorized' without a caller; 500 on a store error; otherwise 200 with the caller's id and the number of their requests that are not rejected |
| `ToolRequestReads.GetForUser` | server/api/toolRequests/toolRequest.controller.js:40-75 | 401 'Unauthorized' without a caller; 500 on a store error; otherwise 200 with the caller's requests split into the four status lists |
| `ToolRequestReads.GetPaged` | server/api/toolRequests/toolRequest.controller.js:77-99 | 500 on a store error; otherwise 200 with the requested page and the total number of requests, whatever the page |
| `ToolRequestReads.PagedIgnoresSort` | server/api/toolRequests/toolRequest.controller.js:80-81 | the sort column and direction do not change the response |
| `ToolRequestReads.GetStatuses` | server/api/toolRequests/toolRequest.controller.js:101-107 | 200 with the whole catalog; on an error 500 with the unset result |
| `Paging.Skip` | server/api/toolRequests/toolRequest.controller.js:87 | skipping n drops exactly the first n requests |
| `Paging.Limit` | server/api/toolRequests/toolRequest.controller.js:87 | limiting to n keeps the first n requests; a limit of 0 keeps all |
| `Paging.Offset` | server/api/toolRequests/toolRequest.controller.js:83 | the offset is (page - 1) * pageSize, never negative for page >= 1 and pageSize >= 0 |
| `Paging.PageOf` | server/api/toolRequests/toolRequest.controller.js:83-87 | the page is the run of requests starting at the offset: pageSize of them, fewer at the end, none past the end, all the rest when pageSize is 0 |
| `Paging.EachRequestOnOnePage` | server/api/toolRequests/toolRequest.controller.js:83-87 | with a positive page size every request is on exactly one page, page i / pageSize + 1, at position i % pageSize |
| `Paging.TwentyFiveRequests` | server/api/toolRequests/toolRequest.controller.js:83-87 | of 25 requests in pages of 10, page 2 holds requests 11-20 and page 3 requests 21-25; page 1 of size 0 holds all |
| `ToolRequestWrites.CreateOutcome` | server/api/toolRequests/toolRequest.controller.js:109-146 | 401 without a caller and 409 when the lookup of line 115 finds a stored request with that code, each leaving the store unchanged; otherwise exactly one pending request of the caller, for the tool of that code and carrying the code, is appended with a fresh id, and every earlier record stays as it was |
| `ToolRequestWrites.CreateOutcomeAsWritten` | server/api/toolRequests/toolRequest.controller.js:109-146 | `create` as written: 401 'Unauthorized' without a caller, 500 'There was an issue. Please try again later' on a lookup or save error, 409 'Tool request with this code already exists' when the lookup of line 115 finds a stored request with that code, each leaving the store unchanged; otherwise 200 'Tool request was created successfully' and exactly one request built as lines 126-129 build it (the caller, the tool of that code, status PENDING, no code) is appended with a fresh id after the unchanged earlier records |
| `ToolRequestWrites.AsWrittenDiffersOnlyInCode` | server/api/toolRequests/toolRequest.controller.js:126-129 | the written and the corrected `create` give the same response and the same store, except that the written one's new request has no code |
| `ToolRequestWrites.AsWrittenNeverConflicts` | server/api/toolRequests/toolRequest.controller.js:115-129 | as written, a store without codes keeps having none, so the duplicate check never answers 409 |
| `ToolRequestWrites.AsWrittenAcceptsDuplicate` | server/api/toolRequests/toolRequest.controller.js:115-137 | as written, two creates with the same code on an empty store both answer 200 and leave two requests |
| `ToolRequestWrites.CreateTwiceConflicts` | server/api/toolRequests/toolRequest.controller.js:115-123 | with the code stored, a second create of a code that succeeded answers 409 and changes nothing, whoever the caller |
| `ToolRequestWrites.CreateKeepsIdsDistinct` | server/api/toolRequests/toolRequest.controller.js:126-131 | create keeps request ids distinct |
| `ToolRequestWrites.UpdateOutcome` | server/api/toolRequests/toolRequest.controller.js:148-169 | 500 'Tool request you trying to update does not exist' for an unknown id and 500 on store errors, each leaving the store unchanged; otherwise that record gets the new user, tool and status, keeps its id and code, and no other record changes |
| `ToolRequestWrites.UpdateTouchesOnlyTarget` | server/api/toolRequests/toolRequest.controller.js:158-162 | with distinct ids, update changes only the record with that id and only its user, tool and status; ids stay distinct |
| `ToolRequestWrites.ChangeStatusOutcome` | server/api/toolRequests/toolRequest.controller.js:171-190 | 500 for an unknown id and on store errors, store unchanged; otherwise only that record's status changes |
| `ToolRequestWrites.ChangeStatusTouchesOnlyTarget` | server/api/toolRequests/toolRequest.controller.js:181 | with distinct ids, changeStatus changes only the status of the record with that id; ids stay distinct |
| `ToolRequestWrites.FindByIdSameIds` | server/api/toolRequests/toolRequest.controller.js:174 | the lookup by id depends on nothing but the ids, so it finds the same record after a status change |
| `ToolRequestWrites.ChangeStatusIdempotent` | server/api/toolRequests/toolRequest.controller.js:181-183 | setting the same status twice gives the same store and response as setting it once |
| `ToolRequestStore.RequestCollection.Create` | server/api/toolRequests/toolRequest.controller.js:109-146 | inserts into the store exactly as `CreateOutcome` says and keeps ids distinct |
| `ToolRequestStore.RequestCollection.Update` | server/api/toolRequests/toolRequest.controller.js:148-169 | loads, overwrites and saves exactly as `UpdateOutcome` says and keeps ids distinct |
| `ToolRequestStore.RequestCollection.ChangeStatus` | server/api/toolRequests/toolRequest.controller.js:171-190 | loads, overwrites and saves exactly as `ChangeStatusOutcome` says and keeps ids distinct |

## Left out

- Joins: `populate` of user, tool and status (lines 15-17, 46-48, 88-90) is not modelled. Records carry the stored ids, and the bucketing compares the stored status id.
- A request whose status id has no catalog record: populate yields null there, and `request.status._id` (line 63) would throw. This is not modelled.
- `ObjectId` conversion of the caller's id (lines 27, 29, 45) is not modelled. The new request's id stands for the driver's generated ObjectId; `NextId` picks one no record uses.
- The schema file `toolRequest.model.js` is not part of this model. The new request's status is taken as PENDING, which the model assumes is the schema's default.
- `CreateCallable`: when the code has no inventory record, line 128 dereferences null. This is a precondition of `create`, reached only with a caller, no lookup error and a code not yet stored. An error of the inventory query itself (line 125, never checked) is not modelled either.
- `update` reads `req.body.user._id`, `req.body.tool._id` and `req.body.status._id` unchecked (lines 158-160); a body missing one of them throws. The model takes the three ids as given values and does not model that crash.
- `getPaged`: an error of the count query (line 85) is ignored by the handler; the model takes the count as the store's size. Route parameters arrive as strings: only the arithmetic of line 83 turns them into numbers, and line 87 passes the raw string `pageSize` to `limit`. The model takes integers with `page >= 1 && pageSize >= 0`. The handler has no clamping, so no other input is modelled.
- `getPaged` with `pageSize = 0`: the store's `limit(0)` sets no limit, so the model's page holds every request from the offset on.
- Response and logging plumbing (`res.status(...).send/json`, `console.log`): only the code and the payload are modelled; a driver error object is the single value `StoreError`.
- The race between the duplicate check and the insert in `create` is concurrency and is not modelled: each handler is one atomic step.
- `client/app/admin/inventory/admin.editinventory.controller.js` (modal glue and an HTTP PUT) and `client/app/resizeLeaflet/resizeLeaflet.directive.js` (map resizing) have no service logic and are not modelled.
- An unknown id on `update` and `changeStatus` answers 500, as the code does; there is no separate NotFound response. `getPaged` does not clamp its offset.
- `ToolRequestStore.RequestCollection.Create`: stores the submitted code on the new request. That is the corrected behaviour of the finding below, not the code as written; the code as written is `CreateOutcomeAsWritten`.

## Findings

| source | as written | input that shows it | evidently intended | confidence | as-written member | corrected member |
|---|---|---|---|---|---|---|
| server/api/toolRequests/toolRequest.controller.js:126-129 | the new request is built with `user` and `tool` only, so its `code` is never stored; the duplicate check at line 115 looks requests up by code and so never finds one that `create` made | an empty store, then two `create` calls by user 1 with code "HAMMER-7" (inventory "HAMMER-7" ↦ 42): both answer 200 and the store holds two requests (`AsWrittenAcceptsDuplicate`, `AsWrittenNeverConflicts`) | the new request carries the submitted code, so the second call answers 409 'Tool request with this code already exists' (`CreateTwiceConflicts`) | medium; not executed; the schema file is not part of this model | `ToolRequestWrites.CreateOutcomeAsWritten` | `ToolRequestWrites.CreateOutcome` |
