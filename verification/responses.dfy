/**
 * What a handler sends back: the HTTP status code and the body, reduced to
 * the values the controller passes to `send` or `json`.
 */
module Responses {
  import opened Requests
  import opened Bucketing

  const OK: int := 200
  const UNAUTHORIZED: int := 401
  const CONFLICT: int := 409
  const INTERNAL_ERROR: int := 500

  const UnauthorizedText: string := "Unauthorized"
  const IssueText: string := "There was an issue. Please try again later"
  const DuplicateText: string := "Tool request with this code already exists"
  const CreatedText: string := "Tool request was created successfully"
  const MissingText: string := "Tool request you trying to update does not exist"
  const UpdatedText: string := "Tool request was updated successfully"
  const StatusUpdatedText: string := "Tool request status was updated successfully"

  datatype Payload =
    | Text(text: string)                                   // a plain-text message
    | StoreError                                           // the driver's error object, sent as is
    | Undefined                                            // a variable that holds nothing when sent
    | AllRequests(requests: seq<ToolRequest>)
    | UserCount(userId: UserId, count: nat)
    | Bucketed(buckets: Buckets)
    | Page(requests: seq<ToolRequest>, count: nat)
    | Statuses(statuses: seq<RequestStatus>)

  datatype Response = Response(code: int, body: Payload)

  /** A write handler's response together with the store it leaves behind. */
  datatype Outcome = Outcome(response: Response, store: seq<ToolRequest>)
}
