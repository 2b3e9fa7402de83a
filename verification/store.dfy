/**
 * The request collection as the write handlers change it in place: `create`
 * appends a record, `update` and `changeStatus` load a record, overwrite its
 * fields and save it back.
 */
module ToolRequestStore {
  import opened Options
  import opened Requests
  import opened Responses
  import opened ToolRequestWrites

  class RequestCollection {
    /** The stored requests in natural order. */
    var requests: seq<ToolRequest>

    ghost predicate Valid()
      reads this
    {
      IdsDistinct(requests)
    }

    constructor (initial: seq<ToolRequest>)
      requires IdsDistinct(initial)
      ensures Valid() && requests == initial
    {
      requests := initial;
    }

    /** `create`, with the submitted code stored on the new request. */
    method Create(principal: Option<UserId>, code: Code, inventory: map<Code, ToolId>,
                  lookupFails: bool, saveFails: bool) returns (r: Response)
      requires Valid()
      requires CreateCallable(requests, principal, code, inventory, lookupFails)
      modifies this
      ensures Valid()
      ensures Outcome(r, requests) == CreateOutcome(old(requests), principal, code, inventory, lookupFails, saveFails)
    {
      CreateKeepsIdsDistinct(requests, principal, code, inventory, lookupFails, saveFails);
      if principal.None? {
        return Response(UNAUTHORIZED, Text(UnauthorizedText));
      }
      if lookupFails {
        return Response(INTERNAL_ERROR, Text(IssueText));
      }
      if CodeTaken(requests, code) {
        return Response(CONFLICT, Text(DuplicateText));
      }
      var inventoryRecord := inventory[code];
      var newToolRequest := NewRequest(NextId(requests), principal.value, inventoryRecord, code);
      if saveFails {
        return Response(INTERNAL_ERROR, Text(IssueText));
      }
      requests := requests + [newToolRequest];
      r := Response(OK, Text(CreatedText));
    }

    /** `update`: load the request by id, overwrite user, tool and status, save it back. */
    method Update(id: RequestId, user: UserId, tool: ToolId, status: int, lookupFails: bool, saveFails: bool)
      returns (r: Response)
      requires Valid()
      modifies this
      ensures Valid()
      ensures Outcome(r, requests) == UpdateOutcome(old(requests), id, user, tool, status, lookupFails, saveFails)
    {
      UpdateTouchesOnlyTarget(requests, id, user, tool, status, lookupFails, saveFails);
      if lookupFails {
        return Response(INTERNAL_ERROR, Text(IssueText));
      }
      var found := FindById(requests, id);
      if found.None? {
        return Response(INTERNAL_ERROR, Text(MissingText));
      }
      var existing := requests[found.value];
      existing := existing.(user := user);
      existing := existing.(tool := tool);
      existing := existing.(status := status);
      if saveFails {
        return Response(INTERNAL_ERROR, Text(IssueText));
      }
      requests := requests[found.value := existing];
      r := Response(OK, Text(UpdatedText));
    }

    /** `changeStatus`: load the request by id, overwrite its status, save it back. */
    method ChangeStatus(id: RequestId, status: int, lookupFails: bool, saveFails: bool) returns (r: Response)
      requires Valid()
      modifies this
      ensures Valid()
      ensures Outcome(r, requests) == ChangeStatusOutcome(old(requests), id, status, lookupFails, saveFails)
    {
      ChangeStatusTouchesOnlyTarget(requests, id, status, lookupFails, saveFails);
      if lookupFails {
        return Response(INTERNAL_ERROR, Text(IssueText));
      }
      var found := FindById(requests, id);
      if found.None? {
        return Response(INTERNAL_ERROR, Text(MissingText));
      }
      var existing := requests[found.value];
      existing := existing.(status := status);
      if saveFails {
        return Response(INTERNAL_ERROR, Text(IssueText));
      }
      requests := requests[found.value := existing];
      r := Response(OK, Text(StatusUpdatedText));
    }
  }
}
